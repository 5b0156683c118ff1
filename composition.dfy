/** What the builders compose: the configuration each builder collects and the stage chain its
    `Build` wraps around the data, as pure functions of that configuration.

    `BuildInput` is `inputBuilder.build` (input_builder.go) and `ComposeOutput` is the
    composition part of `outputBuilder.Build` (output_builder.go); the classes of module
    `Builders` hold the configuration and call these.
 */
module Composition {
  import opened Streams
  import opened Scanning
  import opened Combinators

  // ---------------------------------------------------------------------------------------
  // Input side

  /** The fields of `inputBuilder` that `build` reads; `None` is Go's nil. */
  datatype InputConfig = InputConfig(
    progressBar: Option<Registrator>,
    lineParser: Option<LineParser<Bytes>>,
    lineParserGob: Option<LineParser<Value>>,
    lineParserJson: Option<LineParser<Value>>,
    gzipDecompress: bool)

  /** The zero value of `inputBuilder`'s processing fields. */
  const NoInputConfig := InputConfig(None, None, None, None, false)

  /** `inputBuilder.build`: line parser innermost, then JSON, then Gob, then gzip, and the
      progress bar or `IgnoreSize` outermost. */
  function BuildInput(c: InputConfig, next: Reader): ReaderWithSize
  {
    var lines := if c.lineParser.Some? then ParseLine(next, c.lineParser.value) else next;
    var json := if c.lineParserJson.Some? then ParseLineToCustomEncoder(JsonEncoder, lines, c.lineParserJson.value) else lines;
    var gob := if c.lineParserGob.Some? then ParseLineToCustomEncoder(GobEncoder, json, c.lineParserGob.value) else json;
    var inflated := if c.gzipDecompress then DecompressGzip(gob) else gob;
    if c.progressBar.Some? then ProgressBar(c.progressBar.value, inflated) else IgnoreSize(inflated)
  }

  /** The input-side stages, named by what they do to the data, with the registrator or
      parser each one calls. */
  datatype InputStage =
    | Mirror(register: Registrator)
    | Inflate
    | GobLines(gobParser: LineParser<Value>)
    | JsonLines(jsonParser: LineParser<Value>)
    | ByteLines(parser: LineParser<Bytes>)

  /** The input-side stages the data passes, in the order it passes them, before it reaches
      the first stage of another kind. */
  function Route(r: Reader): seq<InputStage>
  {
    match r
    case DecompressGzip(next) => [Inflate] + Route(next)
    case ParseLineToCustomEncoder(GobEncoder, next, q) => [GobLines(q)] + Route(next)
    case ParseLineToCustomEncoder(JsonEncoder, next, q) => [JsonLines(q)] + Route(next)
    case ParseLine(next, p) => [ByteLines(p)] + Route(next)
    case _ => []
  }

  function RouteWithSize(r: ReaderWithSize): seq<InputStage>
  {
    match r
    case ProgressBar(register, next) => [Mirror(register)] + Route(next)
    case IgnoreSize(next) => Route(next)
  }

  /** The order the input configuration promises, stage by stage. */
  function InputOrder(c: InputConfig): seq<InputStage>
  {
    (if c.progressBar.Some? then [Mirror(c.progressBar.value)] else [])
    + ((if c.gzipDecompress then [Inflate] else [])
    + ((if c.lineParserGob.Some? then [GobLines(c.lineParserGob.value)] else [])
    + ((if c.lineParserJson.Some? then [JsonLines(c.lineParserJson.value)] else [])
    + (if c.lineParser.Some? then [ByteLines(c.lineParser.value)] else []))))
  }

  /** Data flows through the progress bar, then decompression, then the Gob, JSON and byte line
      parsers, each present exactly when configured, and then into `next`. */
  lemma BuildInputOrder(c: InputConfig, next: Reader)
    requires Route(next) == []
    ensures RouteWithSize(BuildInput(c, next)) == InputOrder(c)
    ensures BuildInput(c, next).ProgressBar? <==> c.progressBar.Some?
  {
    var lines := if c.lineParser.Some? then ParseLine(next, c.lineParser.value) else next;
    var json := if c.lineParserJson.Some? then ParseLineToCustomEncoder(JsonEncoder, lines, c.lineParserJson.value) else lines;
    var gob := if c.lineParserGob.Some? then ParseLineToCustomEncoder(GobEncoder, json, c.lineParserGob.value) else json;
    var inflated := if c.gzipDecompress then DecompressGzip(gob) else gob;
    assert Route(lines) == if c.lineParser.Some? then [ByteLines(c.lineParser.value)] else [];
    assert Route(json) == (if c.lineParserJson.Some? then [JsonLines(c.lineParserJson.value)] else []) + Route(lines);
    assert Route(gob) == (if c.lineParserGob.Some? then [GobLines(c.lineParserGob.value)] else []) + Route(json);
    assert Route(inflated) == (if c.gzipDecompress then [Inflate] else []) + Route(gob);
    var m := if c.progressBar.Some? then [Mirror(c.progressBar.value)] else [];
    assert RouteWithSize(BuildInput(c, next)) == m + Route(inflated);
  }

  /** With every field at its zero value `build(next)` is `IgnoreSize(next)`, and `next`
      reads the raw source bytes. */
  lemma NoInputConfigPassesThrough(next: Reader, s: Stream, size: int, w: World)
    ensures BuildInput(NoInputConfig, next) == IgnoreSize(next)
    ensures RunWithSize(BuildInput(NoInputConfig, next), s, size, w) == Run(next, s, w)
  {
  }

  // ---------------------------------------------------------------------------------------
  // Output side

  /** The `outputStep` an output builder selected: `ReadOnly`, `ToWriter` or `ToFile`. */
  datatype Target = Discarding | ToSink(sink: Sink) | ToPath(path: string)

  /** The fields of `outputBuilder` that `Build` reads; `target == None` is a nil `outputStep`. */
  datatype OutputConfig = OutputConfig(
    target: Option<Target>,
    preamble: Bytes,
    appendix: Bytes,
    compress: bool,
    steps: seq<Processor>)

  const NoOutputConfig := OutputConfig(None, [], [], false, [])

  /** The terminal reader `outputStep(out)`. */
  function Attach(t: Target, out: Connector): Reader
  {
    match t
    case Discarding => Readonly(out)
    case ToSink(sink) => ToWriter(sink, out)
    case ToPath(path) => ToNewFile(path, out)
  }

  /** The reader before the processing steps: the terminal reader with the connector, inside
      the appendix, inside the preamble; an empty literal adds no stage. */
  function Framing(c: OutputConfig): Reader
    requires c.target.Some?
  {
    var out := if c.compress then CompressGzip(Copy) else Copy;
    var input := Attach(c.target.value, out);
    var withAppendix := if |c.appendix| != 0 then Appendix(input, c.appendix) else input;
    if |c.preamble| != 0 then Preamble(withAppendix, c.preamble) else withAppendix
  }

  /** The reader after `steps[0]`, …, `steps[n-1]` have each wrapped the previous result. */
  function WrapSteps(steps: seq<Processor>, r: Reader): Reader
  {
    if steps == [] then r else Apply(steps[|steps| - 1], WrapSteps(steps[..|steps| - 1], r))
  }

  /** The output reader `outputBuilder.Build` stores in `output`. */
  function ComposeOutput(c: OutputConfig): Reader
    requires c.target.Some?
  {
    WrapSteps(c.steps, Framing(c))
  }

  /** The stream after the data has passed the steps, the last registered step first. */
  function ThroughSteps(steps: seq<Processor>, s: Stream, w: World): Stream
  {
    if steps == [] then s else ThroughSteps(steps[..|steps| - 1], Process(steps[|steps| - 1], s, w), w)
  }

  /** Wrapping a reader in processing steps runs it on the stream the steps produce, the
      last registered step seeing the data first. */
  lemma {:induction false} RunWrapSteps(steps: seq<Processor>, r: Reader, s: Stream, w: World)
    ensures Run(WrapSteps(steps, r), s, w) == Run(r, ThroughSteps(steps, s, w), w)
  {
    if steps != [] {
      var last, init := steps[|steps| - 1], steps[..|steps| - 1];
      var inner := WrapSteps(init, r);
      assert WrapSteps(steps, r) == Apply(last, inner);
      assert Run(Apply(last, inner), s, w) == Run(inner, Process(last, s, w), w);
      assert ThroughSteps(steps, s, w) == ThroughSteps(init, Process(last, s, w), w);
      RunWrapSteps(init, r, Process(last, s, w), w);
    }
  }

  /** Once at least one step has run, the stream ends with EOF whatever the source did. */
  lemma {:induction false} ThroughStepsEndsCleanly(steps: seq<Processor>, s: Stream, w: World)
    requires steps != []
    ensures ThroughSteps(steps, s, w).end == None
  {
    var init := steps[..|steps| - 1];
    if init != [] {
      ThroughStepsEndsCleanly(init, Process(steps[|steps| - 1], s, w), w);
    }
  }

  lemma {:induction false} WrapStepsReaches(steps: seq<Processor>, r: Reader)
    ensures SinksOf(WrapSteps(steps, r)) == SinksOf(r)
    ensures ParsersOf(WrapSteps(steps, r)) == ParsersOf(r)
  {
    if steps != [] {
      WrapStepsReaches(steps[..|steps| - 1], r);
    }
  }

  /** An output reader writes only to its target and calls no line parser. */
  lemma OutputReaches(c: OutputConfig)
    requires c.target.Some?
    ensures c.target.value.ToSink? ==> SinksOf(ComposeOutput(c)) == {c.target.value.sink}
    ensures c.target.value.ToPath? ==> SinksOf(ComposeOutput(c)) == {File(c.target.value.path)}
    ensures c.target.value.Discarding? ==> SinksOf(ComposeOutput(c)) == {Discard}
    ensures ParsersOf(ComposeOutput(c)) == {}
  {
    WrapStepsReaches(c.steps, Framing(c));
    var out := if c.compress then CompressGzip(Copy) else Copy;
    var input := Attach(c.target.value, out);
    var withAppendix := if |c.appendix| != 0 then Appendix(input, c.appendix) else input;
    assert SinksOf(withAppendix) == SinksOf(input) && ParsersOf(withAppendix) == ParsersOf(input);
    assert SinksOf(Framing(c)) == SinksOf(input) && ParsersOf(Framing(c)) == ParsersOf(input);
  }

  /** The bytes the output writes for the processed stream `body`: the preamble, the body, and
      the appendix if the body ended normally, compressed as a whole when gzip is on. */
  function Payload(c: OutputConfig, body: Stream, w: World): Bytes
  {
    var framed := c.preamble + body.data + (if body.end.None? then c.appendix else []);
    if c.compress then w.gzip(framed) else framed
  }

  /** The framed reader delivers the payload to its target and returns the body's error. */
  lemma FramingDelivers(c: OutputConfig, body: Stream, w: World)
    requires c.target.Some?
    ensures var o := Run(Framing(c), body, w);
      match c.target.value
      case ToSink(sink) => o == Outcome([Write(sink, Payload(c, body, w))], body.end)
      case Discarding => o == Outcome([Write(Discard, Payload(c, body, w))], body.end)
      case ToPath(path) =>
        o == if w.createFile(path).Some? then Outcome([], w.createFile(path))
             else Outcome([Write(File(path), Payload(c, body, w))], body.end)
  {
    var out := if c.compress then CompressGzip(Copy) else Copy;
    var input := Attach(c.target.value, out);
    var withAppendix := if |c.appendix| != 0 then Appendix(input, c.appendix) else input;
    var tail := if body.end.None? then c.appendix else [];
    var afterPreamble := Stream(c.preamble + body.data, body.end);
    var afterAppendix := Stream(c.preamble + body.data + tail, body.end);
    assert Run(Framing(c), body, w) == Run(withAppendix, afterPreamble, w) by {
      if |c.preamble| == 0 {
        assert c.preamble + body.data == body.data;
      }
    }
    assert Run(withAppendix, afterPreamble, w) == Run(input, afterAppendix, w) by {
      if |c.appendix| == 0 || body.end.Some? {
        assert tail == [];
        assert c.preamble + body.data + tail == c.preamble + body.data;
      }
    }
    assert Connect(out, afterAppendix, w) == Transfer(Payload(c, body, w), body.end);
  }

  /** `outputBuilder.Build`'s reader delivers the payload of the stream the steps produce:
      the literals are added after every step has run and are never transformed by one, and
      compression wraps the literals too. */
  lemma OutputDelivers(c: OutputConfig, s: Stream, w: World)
    requires c.target.Some?
    ensures var body := ThroughSteps(c.steps, s, w);
      var o := Run(ComposeOutput(c), s, w);
      match c.target.value
      case ToSink(sink) => o == Outcome([Write(sink, Payload(c, body, w))], body.end)
      case Discarding => o == Outcome([Write(Discard, Payload(c, body, w))], body.end)
      case ToPath(path) =>
        o == if w.createFile(path).Some? then Outcome([], w.createFile(path))
             else Outcome([Write(File(path), Payload(c, body, w))], body.end)
  {
    RunWrapSteps(c.steps, Framing(c), s, w);
    FramingDelivers(c, ThroughSteps(c.steps, s, w), w);
  }

  /** A writer target receives `preamble ++ body ++ appendix`; the empty literals add nothing. */
  lemma WriterReceivesFramedBody(c: OutputConfig, sink: Sink, s: Stream, w: World)
    requires c.target == Some(ToSink(sink)) && !c.compress && c.steps == [] && s.end.None?
    ensures var o := Run(ComposeOutput(c), s, w);
      Written(o.effects, sink) == c.preamble + s.data + c.appendix && o.err == None
    ensures c.preamble == [] && c.appendix == [] ==> Written(Run(ComposeOutput(c), s, w).effects, sink) == s.data
  {
    OutputDelivers(c, s, w);
    assert c.preamble + s.data + c.appendix == Written([Write(sink, Payload(c, s, w))], sink);
    if c.preamble == [] && c.appendix == [] {
      assert c.preamble + s.data + c.appendix == s.data;
    }
  }

  // ---------------------------------------------------------------------------------------
  // Fan-out branches

  /** One call a `Register` callback makes on its `OutputConfigurationBuilder`. */
  datatype OutputOption =
    | SetPreamble(preamble: Bytes)
    | SetAppendix(appendix: Bytes)
    | SetCompress(enable: bool)
    | AddStep(step: Processor)

  /** A `Register` callback: it selects a target on the fresh builder, makes its calls in
      order, and ends with `Build`. */
  datatype BranchScript = BranchScript(target: Target, options: seq<OutputOption>)

  function ApplyOption(c: OutputConfig, o: OutputOption): OutputConfig
  {
    match o
    case SetPreamble(p) => c.(preamble := p)
    case SetAppendix(a) => c.(appendix := a)
    case SetCompress(b) => c.(compress := b)
    case AddStep(p) => c.(steps := c.steps + [p])
  }

  /** The configuration after the options, in order. */
  function Configure(c: OutputConfig, options: seq<OutputOption>): (r: OutputConfig)
    ensures r.target == c.target
  {
    if options == [] then c else ApplyOption(Configure(c, options[..|options| - 1]), options[|options| - 1])
  }

  /** The configuration a branch script leaves on a fresh fan-out output builder. */
  function BranchConfig(script: BranchScript): (c: OutputConfig)
    ensures c.target == Some(script.target)
  {
    Configure(NoOutputConfig.(target := Some(script.target)), script.options)
  }

  /** The steps an option list adds, in order. */
  function StepsOf(options: seq<OutputOption>): seq<Processor>
  {
    if options == [] then []
    else
      var last := options[|options| - 1];
      StepsOf(options[..|options| - 1]) + (if last.AddStep? then [last.step] else [])
  }

  /** Steps are appended in order, keeping the earlier ones.  For the preamble, the appendix
      and the compression flag the last option setting it wins, and without one the field is
      unchanged. */
  lemma {:induction false} ConfigureMeaning(c: OutputConfig, options: seq<OutputOption>)
    ensures Configure(c, options).steps == c.steps + StepsOf(options)
    ensures (forall k | 0 <= k < |options| :: !options[k].SetPreamble?) ==> Configure(c, options).preamble == c.preamble
    ensures forall k | 0 <= k < |options| && options[k].SetPreamble? && (forall j | k < j < |options| :: !options[j].SetPreamble?) ::
      Configure(c, options).preamble == options[k].preamble
    ensures (forall k | 0 <= k < |options| :: !options[k].SetAppendix?) ==> Configure(c, options).appendix == c.appendix
    ensures forall k | 0 <= k < |options| && options[k].SetAppendix? && (forall j | k < j < |options| :: !options[j].SetAppendix?) ::
      Configure(c, options).appendix == options[k].appendix
    ensures (forall k | 0 <= k < |options| :: !options[k].SetCompress?) ==> Configure(c, options).compress == c.compress
    ensures forall k | 0 <= k < |options| && options[k].SetCompress? && (forall j | k < j < |options| :: !options[j].SetCompress?) ::
      Configure(c, options).compress == options[k].enable
  {
    if options != [] {
      var init := options[..|options| - 1];
      ConfigureMeaning(c, init);
      assert forall k | 0 <= k < |init| :: init[k] == options[k];
    }
  }
}

/** The scenarios of builder_test.go, and `TestMultiReader` of pipeline_test.go, written as
    clients that drive the builder classes (or the combinators, for `TestMultiReader`) through
    the same call chains and state what the tests expect, for every input of the tested shape
    rather than for the one literal the test uses.  The sinks `Target(0)`, `Target(1)`,
    `Target(2)` stand for the tests' `strings.Builder` values.

    Each method establishes which pipeline the chain built; a lemma beside it states what
    running that pipeline does.
 */
module Scenarios {
  import opened Streams
  import opened Scanning
  import C = Combinators
  import opened Composition
  import opened Builders

  /** A line parser appending `suffix` to each line. */
  function Suffixing(id: nat, suffix: Bytes): C.LineParser<Bytes>
  {
    C.LineParser(id, (line: Bytes) => C.ParseResult(line + suffix, None))
  }

  /** A writer target with only a preamble and an appendix configured. */
  function Framed(sink: Sink, preamble: Bytes, appendix: Bytes): OutputConfig
  {
    OutputConfig(Some(ToSink(sink)), preamble, appendix, false, [])
  }

  /** A writer target whose one step decodes with `d`. */
  function Decoding(sink: Sink, d: C.Decoder, consumer: Value -> Bytes): OutputConfig
  {
    NoOutputConfig.(target := Some(ToSink(sink)), steps := [C.Decode(d, consumer)])
  }

  lemma ParsedOneLine(p: C.LineParser<Bytes>, l: Bytes)
    ensures C.ParsedBytes(p, [l]) == p.parse(l).value
  {
    assert [l][..0] == [];
  }

  lemma ConfigureTwo(c: OutputConfig, a: OutputOption, b: OutputOption)
    ensures Configure(c, [a, b]) == ApplyOption(ApplyOption(c, a), b)
  {
    assert [a, b][..1] == [a];
    ConfigureOne(c, a);
  }

  lemma ConfigureOne(c: OutputConfig, a: OutputOption)
    ensures Configure(c, [a]) == ApplyOption(c, a)
  {
    assert [a][..0] == [];
  }

  /** A one-line input through a line parser: downstream sees the parsed line alone. */
  lemma OneLineParsed(next: C.Reader, p: C.LineParser<Bytes>, data: Bytes, w: C.World, sink: Sink)
    requires |data| > 0 && PlainLine(data)
    requires p.id !in C.ParsersOf(next)
    ensures var o := C.Run(C.ParseLine(next, p), Stream(data, None), w);
      var downstream := C.Run(next, Stream(p.parse(data).value, None), w);
      Written(o.effects, sink) == Written(downstream.effects, sink) && o.err == downstream.err
  {
    LinesOfPlainLine(data);
    ParsedOneLine(p, data);
    C.ParseLineObserved(next, p, Stream(data, None), w, sink);
  }

  // ---------------------------------------------------------------------------------------
  // TestPreambleAndAppendix

  /** A one-line input through a line parser into a writer target without compression or
      steps: the writer receives the preamble, the parsed line and the appendix, and the run
      succeeds. */
  lemma ParsedLineFramed(c: OutputConfig, sink: Sink, p: C.LineParser<Bytes>, data: Bytes, w: C.World)
    requires c.target == Some(ToSink(sink)) && !c.compress && c.steps == []
    requires |data| > 0 && PlainLine(data)
    ensures var o := C.Run(C.ParseLine(ComposeOutput(c), p), Stream(data, None), w);
      Written(o.effects, sink) == c.preamble + p.parse(data).value + c.appendix && o.err == None
  {
    assert p.id !in C.ParsersOf(ComposeOutput(c)) by {
      OutputReaches(c);
    }
    OneLineParsed(ComposeOutput(c), p, data, w, sink);
    WriterReceivesFramedBody(c, sink, Stream(p.parse(data).value, None), w);
  }

  /** The call chain of `TestPreambleAndAppendix`: `FromReader`, `ParseLines`, `ToWriter`,
      `Preamble`, `Appendix`, `Build`. */
  method BuildFramedLines(s: Stream, size: int, parser: C.LineParser<Bytes>, sink: Sink, preamble: Bytes, appendix: Bytes)
    returns (p: OutputBuilder)
    ensures p.pipeline == Some(C.Pipeline(C.FromReader(s, size), C.IgnoreSize(C.ParseLine(ComposeOutput(Framed(sink, preamble, appendix)), parser))))
  {
    var b := new InputBuilder();
    var _ := b.FromReader(s, size);
    var _ := b.ParseLines(parser);
    var out := b.ToWriter(sink);
    var _ := out.Preamble(preamble);
    var _ := out.Appendix(appendix);
    p := out.Build();
    assert out.Config() == Framed(sink, preamble, appendix);
    assert b.Config() == NoInputConfig.(lineParser := Some(parser));
  }

  /** `TestPreambleAndAppendix`: a one-line input, a parser appending "a", a preamble and an
      appendix; the writer receives `preamble + input + "a" + appendix` and the run succeeds.
      The four test cases are instances ("helloworlda!", "worlda", ...). */
  method PreambleAndAppendix(preamble: string, input: string, appendix: string, w: C.World) returns (o: Outcome)
    requires Narrow(preamble) && Narrow(input) && Narrow(appendix)
    requires |input| > 0 && PlainLine(Text(input))
    ensures Narrow(preamble + input + "a" + appendix)
    ensures Written(o.effects, Target(0)) == Text(preamble + input + "a" + appendix)
    ensures o.err == None
  {
    var data := Text(input);
    var addA := Suffixing(0, Text("a"));
    var cfg := Framed(Target(0), Text(preamble), Text(appendix));
    var p := BuildFramedLines(Stream(data, None), |data|, addA, Target(0), Text(preamble), Text(appendix));
    o := p.Execute(w);

    assert o == C.Run(C.ParseLine(ComposeOutput(cfg), addA), Stream(data, None), w);
    ParsedLineFramed(cfg, Target(0), addA, data, w);
    assert addA.parse(data).value == data + Text("a");
    TextAppend(preamble, input);
    TextAppend(preamble + input, "a");
    TextAppend(preamble + input + "a", appendix);
  }

  // ---------------------------------------------------------------------------------------
  // TestFanout and TestFanout_WithLineParser

  /** Two framed writer branches on the same stream: each writer receives its own branch's
      literals around the stream, and the fan-out succeeds. */
  lemma TwoFramedBranches(s: Stream, p1: Bytes, a1: Bytes, p2: Bytes, a2: Bytes, w: C.World)
    requires s.end.None?
    ensures var o := C.Run(C.MultiProcess([ComposeOutput(Framed(Target(1), p1, a1)), ComposeOutput(Framed(Target(2), p2, a2))]), s, w);
      && Written(o.effects, Target(1)) == p1 + s.data + a1
      && Written(o.effects, Target(2)) == p2 + s.data + a2
      && o.err == None
  {
    var c1, c2 := Framed(Target(1), p1, a1), Framed(Target(2), p2, a2);
    var bs := [ComposeOutput(c1), ComposeOutput(c2)];
    OutputReaches(c1);
    OutputReaches(c2);
    C.FanoutIsolation(bs, 0, s, w, Target(1));
    C.FanoutIsolation(bs, 1, s, w, Target(2));
    WriterReceivesFramedBody(c1, Target(1), C.Teed(s), w);
    WriterReceivesFramedBody(c2, Target(2), C.Teed(s), w);
    C.FanoutResult(bs, s, w);
  }

  /** The call chain of `TestFanout`: `FromReader`, `Fanout`, two `Register` calls, `Build`. */
  method BuildTwoBranchFanout(s: Stream, size: int, first: BranchScript, second: BranchScript) returns (p: FanoutBuilder)
    ensures p.pipeline == Some(C.Pipeline(C.FromReader(s, size),
      C.IgnoreSize(C.MultiProcess([ComposeOutput(BranchConfig(first)), ComposeOutput(BranchConfig(second))]))))
  {
    var b := new InputBuilder();
    var _ := b.FromReader(s, size);
    var f := b.Fanout();
    var _ := f.Register(first);
    var _ := f.Register(second);
    p := f.Build();
    assert f.readers == [ComposeOutput(BranchConfig(first)), ComposeOutput(BranchConfig(second))];
  }

  /** `TestFanout`: the first branch adds a preamble and an appendix, the second nothing;
      each writer receives only its own branch's decorations around the input. */
  method Fanout(text: Bytes, preamble: Bytes, appendix: Bytes, w: C.World) returns (o: Outcome)
    ensures Written(o.effects, Target(1)) == preamble + text + appendix
    ensures Written(o.effects, Target(2)) == text
    ensures o.err == None
  {
    var s := Stream(text, None);
    var first := BranchScript(ToSink(Target(1)), [SetPreamble(preamble), SetAppendix(appendix)]);
    var second := BranchScript(ToSink(Target(2)), []);
    var p := BuildTwoBranchFanout(s, |text|, first, second);
    o := p.Execute(w);

    ConfigureTwo(NoOutputConfig.(target := Some(ToSink(Target(1)))), SetPreamble(preamble), SetAppendix(appendix));
    assert BranchConfig(first) == Framed(Target(1), preamble, appendix);
    assert BranchConfig(second) == Framed(Target(2), [], []);
    var bs := [ComposeOutput(Framed(Target(1), preamble, appendix)), ComposeOutput(Framed(Target(2), [], []))];
    assert o == C.Run(C.MultiProcess(bs), s, w);
    TwoFramedBranches(s, preamble, appendix, [], [], w);
    assert [] + text + appendix == text + appendix;
    assert [] + text + [] == text;
  }

  /** The branches of a fan-out made of output readers call no line parser. */
  lemma BranchesParseNothing(bs: seq<C.Reader>, cs: seq<OutputConfig>, id: nat)
    requires |bs| == |cs|
    requires forall k | 0 <= k < |cs| :: cs[k].target.Some? && bs[k] == ComposeOutput(cs[k])
    ensures id !in C.ParsersOf(C.MultiProcess(bs))
  {
    forall k | 0 <= k < |bs|
      ensures id !in C.ParsersOf(bs[k])
    {
      OutputReaches(cs[k]);
    }
  }

  /** A one-line input through a line parser before a two-branch fan-out: the line is parsed
      once and both branches see the parsed line. */
  lemma ParsedLineFannedOut(data: Bytes, p: C.LineParser<Bytes>, preamble: Bytes, w: C.World)
    requires |data| > 0 && PlainLine(data)
    ensures var bs := [ComposeOutput(Framed(Target(1), preamble, [])), ComposeOutput(Framed(Target(2), [], []))];
      var o := C.Run(C.ParseLine(C.MultiProcess(bs), p), Stream(data, None), w);
      && Written(o.effects, Target(1)) == preamble + p.parse(data).value
      && Written(o.effects, Target(2)) == p.parse(data).value
      && o.err == None
  {
    var c1, c2 := Framed(Target(1), preamble, []), Framed(Target(2), [], []);
    var bs := [ComposeOutput(c1), ComposeOutput(c2)];
    var parsed := p.parse(data).value;
    assert p.id !in C.ParsersOf(C.MultiProcess(bs)) by {
      BranchesParseNothing(bs, [c1, c2], p.id);
    }
    OneLineParsed(C.MultiProcess(bs), p, data, w, Target(1));
    OneLineParsed(C.MultiProcess(bs), p, data, w, Target(2));
    TwoFramedBranches(Stream(parsed, None), preamble, [], [], [], w);
    assert preamble + parsed + [] == preamble + parsed;
    assert [] + parsed + [] == parsed;
  }

  /** The call chain of `TestFanout_WithLineParser`: `FromReader`, `ParseLines`, `Fanout`,
      two `Register` calls, `Build`. */
  method BuildParsedTwoBranchFanout(s: Stream, size: int, parser: C.LineParser<Bytes>, first: BranchScript, second: BranchScript)
    returns (p: FanoutBuilder)
    ensures p.pipeline == Some(C.Pipeline(C.FromReader(s, size),
      C.IgnoreSize(C.ParseLine(C.MultiProcess([ComposeOutput(BranchConfig(first)), ComposeOutput(BranchConfig(second))]), parser))))
  {
    var b := new InputBuilder();
    var _ := b.FromReader(s, size);
    var _ := b.ParseLines(parser);
    var f := b.Fanout();
    var _ := f.Register(first);
    var _ := f.Register(second);
    p := f.Build();
    assert f.readers == [ComposeOutput(BranchConfig(first)), ComposeOutput(BranchConfig(second))];
    assert b.Config() == NoInputConfig.(lineParser := Some(parser));
  }

  /** `TestFanout_WithLineParser`: the line parser runs once, before the tee, so both
      branches see the parsed line. */
  method FanoutWithLineParser(text: string, preamble: string, w: C.World) returns (o: Outcome)
    requires Narrow(text) && Narrow(preamble)
    requires |text| > 0 && PlainLine(Text(text))
    ensures Narrow(preamble + text + "er")
    ensures Written(o.effects, Target(1)) == Text(preamble + text + "er")
    ensures Written(o.effects, Target(2)) == Text(text + "er")
    ensures o.err == None
  {
    var data := Text(text);
    var s := Stream(data, None);
    var addEr := Suffixing(0, Text("er"));
    var first := BranchScript(ToSink(Target(1)), [SetPreamble(Text(preamble))]);
    var second := BranchScript(ToSink(Target(2)), []);
    var p := BuildParsedTwoBranchFanout(s, |data|, addEr, first, second);
    o := p.Execute(w);

    ConfigureOne(NoOutputConfig.(target := Some(ToSink(Target(1)))), SetPreamble(Text(preamble)));
    assert BranchConfig(first) == Framed(Target(1), Text(preamble), []);
    assert BranchConfig(second) == Framed(Target(2), [], []);
    var bs := [ComposeOutput(Framed(Target(1), Text(preamble), [])), ComposeOutput(Framed(Target(2), [], []))];
    assert o == C.Run(C.ParseLine(C.MultiProcess(bs), addEr), s, w);
    ParsedLineFannedOut(data, addEr, Text(preamble), w);
    assert addEr.parse(data).value == data + Text("er");
    TextAppend(text, "er");
    TextAppend(preamble, text);
    TextAppend(preamble + text, "er");
  }

  // ---------------------------------------------------------------------------------------
  // TestMultiReader

  /** A one-line input through a line parser straight into a writer: the writer receives the
      parsed line, and the run succeeds. */
  lemma ParsedLineToWriter(p: C.LineParser<Bytes>, sink: Sink, data: Bytes, w: C.World)
    requires |data| > 0 && PlainLine(data)
    ensures var o := C.Run(C.ParseLine(C.ToWriter(sink, C.Copy), p), Stream(data, None), w);
      Written(o.effects, sink) == p.parse(data).value && o.err == None
  {
    var parsed := Stream(p.parse(data).value, None);
    OneLineParsed(C.ToWriter(sink, C.Copy), p, data, w, sink);
    assert C.Run(C.ToWriter(sink, C.Copy), parsed, w) == Outcome([Write(sink, parsed.data)], None);
  }

  /** `TestMultiReader`: a fan-out of two branches, each parsing lines with its own suffixing
      parser into its own writer; each writer receives the input line with its own suffix, and
      the run succeeds. */
  lemma MultiReader(data: Bytes, suffix1: Bytes, suffix2: Bytes, w: C.World)
    requires |data| > 0 && PlainLine(data)
    ensures var bs := [C.ParseLine(C.ToWriter(Target(1), C.Copy), Suffixing(0, suffix1)),
                       C.ParseLine(C.ToWriter(Target(2), C.Copy), Suffixing(1, suffix2))];
      var o := C.RunPipeline(C.Pipeline(C.FromReader(Stream(data, None), |data|), C.IgnoreSize(C.MultiProcess(bs))), w);
      && Written(o.effects, Target(1)) == data + suffix1
      && Written(o.effects, Target(2)) == data + suffix2
      && o.err == None
  {
    var s := Stream(data, None);
    var p1, p2 := Suffixing(0, suffix1), Suffixing(1, suffix2);
    var b1, b2 := C.ParseLine(C.ToWriter(Target(1), C.Copy), p1), C.ParseLine(C.ToWriter(Target(2), C.Copy), p2);
    var bs := [b1, b2];
    assert C.RunPipeline(C.Pipeline(C.FromReader(s, |data|), C.IgnoreSize(C.MultiProcess(bs))), w) == C.Run(C.MultiProcess(bs), s, w);
    assert C.Teed(s) == s;
    assert C.SinksOf(b1) == {Target(1)} && C.SinksOf(b2) == {Target(2)};
    ParsedLineToWriter(p1, Target(1), data, w);
    ParsedLineToWriter(p2, Target(2), data, w);
    C.FanoutIsolation(bs, 0, s, w, Target(1));
    C.FanoutIsolation(bs, 1, s, w, Target(2));
    C.FanoutResult(bs, s, w);
  }

  // ---------------------------------------------------------------------------------------
  // TestReadonly

  /** `TestReadonly` for any input: nothing is written anywhere but the parser still sees
      every scanned line once, in order. */
  method ReadonlyParsesEveryLine(data: Bytes, w: C.World) returns (o: Outcome)
    ensures Calls(o.effects, 0) == Lines(data)
    ensures forall sink | sink != Discard :: Written(o.effects, sink) == []
    ensures o.err == None
  {
    var counter := C.LineParser(0, (line: Bytes) => C.ParseResult(line, None));
    var b := new InputBuilder();
    var _ := b.FromReader(Stream(data, None), |data|);
    var _ := b.ParseLines(counter);
    var r := b.ReadOnly();
    var p := r.Build();
    o := p.Execute(w);

    assert b.Config() == NoInputConfig.(lineParser := Some(counter));
    assert o == C.Run(C.ParseLine(C.Readonly(C.Copy), counter), Stream(data, None), w);
    forall sink | sink != Discard
      ensures Written(o.effects, sink) == []
    {
      C.ParseLineObserved(C.Readonly(C.Copy), counter, Stream(data, None), w, sink);
    }
    C.ParseLineObserved(C.Readonly(C.Copy), counter, Stream(data, None), w, Discard);
  }

  /** `TestReadonly` itself: "1\n2\n3" gives three parser calls. */
  method ReadonlyCountsThreeLines(w: C.World) returns (o: Outcome)
    ensures |Calls(o.effects, 0)| == 3
    ensures o.err == None
  {
    o := ReadonlyParsesEveryLine(Text("1\n2\n3"), w);
    ThreeLines();
  }

  // ---------------------------------------------------------------------------------------
  // Builder bindings, empty fan-out, progress bar

  /** The input builder's transitions capture the source strategy when they are taken, while
      the parsers, gzip and progress fields are read when the output builder builds: a parser
      set after `ToWriter` is used, a source chosen after it is not. */
  method LateBinding(first: Stream, second: Stream, size: int, sink: Sink, parser: C.LineParser<Bytes>)
    returns (pipe: C.Pipeline)
    ensures pipe == C.Pipeline(C.FromReader(first, size), C.IgnoreSize(C.ParseLine(C.ToWriter(sink, C.Copy), parser)))
  {
    var b := new InputBuilder();
    var _ := b.FromReader(first, size);
    var out := b.ToWriter(sink);
    var _ := b.ParseLines(parser);
    var _ := b.FromReader(second, size);
    var _ := out.Build();
    pipe := out.pipeline.value;
    assert b.Config() == NoInputConfig.(lineParser := Some(parser));
  }

  /** A fan-out with no registered branch builds and its run succeeds without writing. */
  method EmptyFanout(s: Stream, size: int, w: C.World) returns (o: Outcome)
    ensures o == Outcome([], None)
  {
    var b := new InputBuilder();
    var _ := b.FromReader(s, size);
    var f := b.Fanout();
    var p := f.Build();
    o := p.Execute(w);
    C.MultiProcessEmpty(s, w);
  }

  /** A progress bar before a writer: the registrator gets the declared size once, its writer
      and the target writer both receive the whole input, and the read error is returned. */
  method ProgressBarToWriter(s: Stream, size: int, register: C.Registrator, sink: Sink, w: C.World) returns (o: Outcome)
    requires register.writerFor(size) != sink
    ensures Registrations(o.effects, register.id) == [size]
    ensures Written(o.effects, register.writerFor(size)) == s.data
    ensures Written(o.effects, sink) == s.data
    ensures o.err == s.end
  {
    var b := new InputBuilder();
    var _ := b.FromReader(s, size);
    var _ := b.ProgressBar(register);
    var out := b.ToWriter(sink);
    var p := out.Build();
    o := p.Execute(w);

    var target := C.ToWriter(sink, C.Copy);
    assert b.Config() == NoInputConfig.(progressBar := Some(register));
    assert o == C.RunWithSize(C.ProgressBar(register, target), s, size, w);
    C.ProgressBarMirrors(register, target, s, size, w);
    var head := [Registered(register.id, size), Write(register.writerFor(size), s.data)];
    WrittenAppend(head, C.Run(target, s, w).effects, sink);
  }

  // ---------------------------------------------------------------------------------------
  // TestGobEncoding

  /** A writer target whose one step decodes: the writer receives the consumer's bytes for
      each record decoded, and the run succeeds. */
  lemma DecodedToWriter(c: OutputConfig, sink: Sink, d: C.Decoder, consumer: Value -> Bytes, s: Stream, w: C.World)
    requires c == NoOutputConfig.(target := Some(ToSink(sink)), steps := [C.Decode(d, consumer)])
    ensures var o := C.Run(ComposeOutput(c), s, w);
      Written(o.effects, sink) == C.Consumed(consumer, C.Records(C.DecodeFn(d, w)(s))) && o.err == None
  {
    var body := Stream(C.Consumed(consumer, C.Records(C.DecodeFn(d, w)(s))), None);
    assert ThroughSteps(c.steps, s, w) == body by {
      assert c.steps[..0] == [];
    }
    OutputDelivers(c, s, w);
    assert Payload(c, body, w) == body.data;
  }

  /** When every parsed value encodes, the parse-to-encoder stage hands downstream the
      concatenated encodings followed by EOF. */
  lemma AllEncoded(encode: Value -> C.EncodeResult, vs: seq<Value>)
    requires forall k | 0 <= k < |vs| :: encode(vs[k]).Encoded?
    ensures C.EncodeUntilError(encode, vs) == C.Transfer(C.EncodeAll(encode, vs), None)
  {
    C.EncodeUntilErrorMeaning(encode, vs);
    assert vs[..C.FirstFailure(encode, vs)] == vs;
  }

  /** Lines parsed to values, encoded by `e` and then decoded by a step with decoder `d`
      reach the writer as the consumer's bytes for each parsed value, provided every value
      encodes and the decoder reads back what the encoder wrote. */
  lemma ParsedLinesDecoded(e: C.Encoder, d: C.Decoder, data: Bytes, q: C.LineParser<Value>, consumer: Value -> Bytes, w: C.World)
    requires forall k | 0 <= k < |C.ParsedValues(q, Lines(data))| :: C.EncodeFn(e, w)(C.ParsedValues(q, Lines(data))[k]).Encoded?
    requires C.Records(C.DecodeFn(d, w)(Stream(C.EncodeAll(C.EncodeFn(e, w), C.ParsedValues(q, Lines(data))), None)))
      == C.ParsedValues(q, Lines(data))
    ensures var o := C.Run(C.ParseLineToCustomEncoder(e, ComposeOutput(Decoding(Target(0), d, consumer)), q), Stream(data, None), w);
      Written(o.effects, Target(0)) == C.Consumed(consumer, C.ParsedValues(q, Lines(data))) && o.err == None
  {
    var cfg := Decoding(Target(0), d, consumer);
    var lines := Lines(data);
    var vs := C.ParsedValues(q, lines);
    var encoded := Stream(C.EncodeAll(C.EncodeFn(e, w), vs), None);
    AllEncoded(C.EncodeFn(e, w), vs);
    var downstream := C.Run(ComposeOutput(cfg), encoded, w);
    assert C.Run(C.ParseLineToCustomEncoder(e, ComposeOutput(cfg), q), Stream(data, None), w)
      == Outcome(C.CallEffects(q.id, lines) + downstream.effects, downstream.err);
    DecodedToWriter(cfg, Target(0), d, consumer, encoded, w);
    C.CallEffectsObserved(q.id, lines, q.id + 1, Target(0), 0);
    WrittenAppend(C.CallEffects(q.id, lines), downstream.effects, Target(0));
  }

  /** The call chain of `TestGobEncoding`: `FromReader`, `ParseLinesToGob`, `ToWriter`,
      `AddProcessingStep(DecodeGob(...))`, `Build`. */
  method BuildGobLines(s: Stream, size: int, q: C.LineParser<Value>, consumer: Value -> Bytes) returns (p: OutputBuilder)
    ensures p.pipeline == Some(C.Pipeline(C.FromReader(s, size),
      C.IgnoreSize(C.ParseLineToCustomEncoder(C.GobEncoder, ComposeOutput(Decoding(Target(0), C.GobDecoder, consumer)), q))))
  {
    var b := new InputBuilder();
    var _ := b.FromReader(s, size);
    var _ := b.ParseLinesToGob(q);
    var out := b.ToWriter(Target(0));
    var _ := out.AddProcessingStep(C.Decode(C.GobDecoder, consumer));
    p := out.Build();
    assert out.Config() == Decoding(Target(0), C.GobDecoder, consumer);
    assert b.Config() == NoInputConfig.(lineParserGob := Some(q));
  }

  /** `TestGobEncoding` for any line parser and consumer: lines parsed to Gob and decoded by a
      `DecodeGob` step, provided every value encodes and Gob reads back what it wrote. */
  method GobRoundTrip(data: Bytes, q: C.LineParser<Value>, consumer: Value -> Bytes, w: C.World) returns (o: Outcome)
    requires forall k | 0 <= k < |C.ParsedValues(q, Lines(data))| :: w.gobEncode(C.ParsedValues(q, Lines(data))[k]).Encoded?
    requires C.Records(w.gobDecode(Stream(C.EncodeAll(w.gobEncode, C.ParsedValues(q, Lines(data))), None)))
      == C.ParsedValues(q, Lines(data))
    ensures Written(o.effects, Target(0)) == C.Consumed(consumer, C.ParsedValues(q, Lines(data)))
    ensures o.err == None
  {
    var p := BuildGobLines(Stream(data, None), |data|, q, consumer);
    o := p.Execute(w);
    assert o == C.Run(C.ParseLineToCustomEncoder(C.GobEncoder, ComposeOutput(Decoding(Target(0), C.GobDecoder, consumer)), q), Stream(data, None), w);
    ParsedLinesDecoded(C.GobEncoder, C.GobDecoder, data, q, consumer, w);
  }

  /** The call chain of `TestJsonEncoding`, with `ParseLinesToJson` and `DecodeJson`. */
  method BuildJsonLines(s: Stream, size: int, q: C.LineParser<Value>, consumer: Value -> Bytes) returns (p: OutputBuilder)
    ensures p.pipeline == Some(C.Pipeline(C.FromReader(s, size),
      C.IgnoreSize(C.ParseLineToCustomEncoder(C.JsonEncoder, ComposeOutput(Decoding(Target(0), C.JsonDecoder, consumer)), q))))
  {
    var b := new InputBuilder();
    var _ := b.FromReader(s, size);
    var _ := b.ParseLinesToJson(q);
    var out := b.ToWriter(Target(0));
    var _ := out.AddProcessingStep(C.Decode(C.JsonDecoder, consumer));
    p := out.Build();
    assert out.Config() == Decoding(Target(0), C.JsonDecoder, consumer);
    assert b.Config() == NoInputConfig.(lineParserJson := Some(q));
  }

  /** `TestJsonEncoding`, the same chain with JSON on both sides. */
  method JsonRoundTrip(data: Bytes, q: C.LineParser<Value>, consumer: Value -> Bytes, w: C.World) returns (o: Outcome)
    requires forall k | 0 <= k < |C.ParsedValues(q, Lines(data))| :: w.jsonEncode(C.ParsedValues(q, Lines(data))[k]).Encoded?
    requires C.Records(w.jsonDecode(Stream(C.EncodeAll(w.jsonEncode, C.ParsedValues(q, Lines(data))), None)))
      == C.ParsedValues(q, Lines(data))
    ensures Written(o.effects, Target(0)) == C.Consumed(consumer, C.ParsedValues(q, Lines(data)))
    ensures o.err == None
  {
    var p := BuildJsonLines(Stream(data, None), |data|, q, consumer);
    o := p.Execute(w);
    assert o == C.Run(C.ParseLineToCustomEncoder(C.JsonEncoder, ComposeOutput(Decoding(Target(0), C.JsonDecoder, consumer)), q), Stream(data, None), w);
    ParsedLinesDecoded(C.JsonEncoder, C.JsonDecoder, data, q, consumer, w);
  }

  // ---------------------------------------------------------------------------------------
  // TestFanoutWithGobAndProcessorSteps and TestFanoutWithGobAndProcessorStepsAndStructs

  /** The two branches of the Gob fan-out tests: each decodes Gob with its own consumer into
      its own writer. */
  function GobBranches(c1: Value -> Bytes, c2: Value -> Bytes): seq<C.Reader>
  {
    [ComposeOutput(Decoding(Target(1), C.GobDecoder, c1)), ComposeOutput(Decoding(Target(2), C.GobDecoder, c2))]
  }

  /** The call chain of the Gob fan-out tests: `FromReader`, `ParseLinesToGob`, `Fanout`, two
      `Register` calls each selecting a writer and adding a `DecodeGob` step, `Build`. */
  method BuildGobFanout(s: Stream, size: int, q: C.LineParser<Value>, c1: Value -> Bytes, c2: Value -> Bytes)
    returns (p: FanoutBuilder)
    ensures p.pipeline == Some(C.Pipeline(C.FromReader(s, size),
      C.IgnoreSize(C.ParseLineToCustomEncoder(C.GobEncoder, C.MultiProcess(GobBranches(c1, c2)), q))))
  {
    var first := BranchScript(ToSink(Target(1)), [AddStep(C.Decode(C.GobDecoder, c1))]);
    var second := BranchScript(ToSink(Target(2)), [AddStep(C.Decode(C.GobDecoder, c2))]);
    var b := new InputBuilder();
    var _ := b.FromReader(s, size);
    var _ := b.ParseLinesToGob(q);
    var f := b.Fanout();
    var _ := f.Register(first);
    var _ := f.Register(second);
    p := f.Build();
    assert f.readers == [ComposeOutput(BranchConfig(first)), ComposeOutput(BranchConfig(second))];
    ConfigureOne(NoOutputConfig.(target := Some(ToSink(Target(1)))), AddStep(C.Decode(C.GobDecoder, c1)));
    ConfigureOne(NoOutputConfig.(target := Some(ToSink(Target(2)))), AddStep(C.Decode(C.GobDecoder, c2)));
    assert BranchConfig(first) == Decoding(Target(1), C.GobDecoder, c1);
    assert BranchConfig(second) == Decoding(Target(2), C.GobDecoder, c2);
    assert b.Config() == NoInputConfig.(lineParserGob := Some(q));
  }

  /** The two decoding branches on a stream ending with EOF: each writer receives its own
      consumer's bytes for every record Gob decodes, and the fan-out succeeds. */
  lemma GobBranchesDecode(s: Stream, c1: Value -> Bytes, c2: Value -> Bytes, w: C.World)
    requires s.end.None?
    ensures var o := C.Run(C.MultiProcess(GobBranches(c1, c2)), s, w);
      && Written(o.effects, Target(1)) == C.Consumed(c1, C.Records(w.gobDecode(s)))
      && Written(o.effects, Target(2)) == C.Consumed(c2, C.Records(w.gobDecode(s)))
      && o.err == None
  {
    var bs := GobBranches(c1, c2);
    var d1, d2 := Decoding(Target(1), C.GobDecoder, c1), Decoding(Target(2), C.GobDecoder, c2);
    assert C.Teed(s) == s;
    OutputReaches(d1);
    OutputReaches(d2);
    DecodedToWriter(d1, Target(1), C.GobDecoder, c1, s, w);
    DecodedToWriter(d2, Target(2), C.GobDecoder, c2, s, w);
    C.FanoutIsolation(bs, 0, s, w, Target(1));
    C.FanoutIsolation(bs, 1, s, w, Target(2));
    C.FanoutResult(bs, s, w);
  }

  /** Lines parsed to values and Gob-encoded once, before the tee, reach each decoding branch:
      each writer receives its own consumer's bytes for every parsed value, and the run
      succeeds, provided every value encodes and Gob reads back what it wrote. */
  lemma GobLinesFannedOut(data: Bytes, q: C.LineParser<Value>, c1: Value -> Bytes, c2: Value -> Bytes, w: C.World)
    requires forall k | 0 <= k < |C.ParsedValues(q, Lines(data))| :: w.gobEncode(C.ParsedValues(q, Lines(data))[k]).Encoded?
    requires C.Records(w.gobDecode(Stream(C.EncodeAll(w.gobEncode, C.ParsedValues(q, Lines(data))), None)))
      == C.ParsedValues(q, Lines(data))
    ensures var o := C.Run(C.ParseLineToCustomEncoder(C.GobEncoder, C.MultiProcess(GobBranches(c1, c2)), q), Stream(data, None), w);
      && Written(o.effects, Target(1)) == C.Consumed(c1, C.ParsedValues(q, Lines(data)))
      && Written(o.effects, Target(2)) == C.Consumed(c2, C.ParsedValues(q, Lines(data)))
      && o.err == None
  {
    var lines := Lines(data);
    var vs := C.ParsedValues(q, lines);
    var encoded := Stream(C.EncodeAll(w.gobEncode, vs), None);
    var next := C.MultiProcess(GobBranches(c1, c2));
    AllEncoded(w.gobEncode, vs);
    var downstream := C.Run(next, encoded, w);
    var es := C.CallEffects(q.id, lines);
    assert C.Run(C.ParseLineToCustomEncoder(C.GobEncoder, next, q), Stream(data, None), w)
      == Outcome(es + downstream.effects, downstream.err);
    GobBranchesDecode(encoded, c1, c2, w);
    C.CallEffectsObserved(q.id, lines, q.id + 1, Target(1), 0);
    C.CallEffectsObserved(q.id, lines, q.id + 1, Target(2), 0);
    WrittenAppend(es, downstream.effects, Target(1));
    WrittenAppend(es, downstream.effects, Target(2));
  }

  /** `TestFanoutWithGobAndProcessorSteps` for any line parser and consumers: each writer
      receives its own consumer's bytes for every parsed line, and the run succeeds.  With
      consumers returning no bytes this is `TestFanoutWithGobAndProcessorStepsAndStructs`. */
  method GobFanout(data: Bytes, q: C.LineParser<Value>, c1: Value -> Bytes, c2: Value -> Bytes, w: C.World) returns (o: Outcome)
    requires forall k | 0 <= k < |C.ParsedValues(q, Lines(data))| :: w.gobEncode(C.ParsedValues(q, Lines(data))[k]).Encoded?
    requires C.Records(w.gobDecode(Stream(C.EncodeAll(w.gobEncode, C.ParsedValues(q, Lines(data))), None)))
      == C.ParsedValues(q, Lines(data))
    ensures Written(o.effects, Target(1)) == C.Consumed(c1, C.ParsedValues(q, Lines(data)))
    ensures Written(o.effects, Target(2)) == C.Consumed(c2, C.ParsedValues(q, Lines(data)))
    ensures o.err == None
  {
    var p := BuildGobFanout(Stream(data, None), |data|, q, c1, c2);
    o := p.Execute(w);
    assert o == C.Run(C.ParseLineToCustomEncoder(C.GobEncoder, C.MultiProcess(GobBranches(c1, c2)), q), Stream(data, None), w);
    GobLinesFannedOut(data, q, c1, c2, w);
  }
}

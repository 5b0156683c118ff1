/** The mutable builders of input_builder.go, output_builder.go, fanout_builder.go and
    readonly_builder.go.

    Each builder is a class whose fields are the Go struct's fields; setters overwrite one
    field and return the builder itself, `AddProcessingStep` and `Register` append, and
    `Build` stores the composed pipeline that `Execute` later runs.  A Go closure field holds
    here the datatype value describing it (`Option` for a field that is still nil).
 */
module Builders {
  import opened Streams
  import opened Scanning
  import C = Combinators
  import opened Composition

  /** The `input` record a transition hands on.  `processing` is the method value `i.build`:
      it is bound to the builder and reads the builder's fields only when it is called by the
      next stage's `Build`.  `source` is the strategy value at the time of the transition. */
  datatype Input = Input(processing: InputBuilder, source: C.SourceStrategy)

  class InputBuilder {
    var inputStrategyWithSize: Option<C.SourceStrategy>
    var progressBar: Option<C.Registrator>
    var lineParser: Option<C.LineParser<Bytes>>
    var lineParserGob: Option<C.LineParser<Value>>
    var lineParserJson: Option<C.LineParser<Value>>
    var gzipDecompress: bool

    /** The fields `build` reads. */
    function Config(): InputConfig
      reads this
    {
      InputConfig(progressBar, lineParser, lineParserGob, lineParserJson, gzipDecompress)
    }

    /** `Build()`: a builder with no source, no parsers, no gzip and no progress bar. */
    constructor ()
      ensures inputStrategyWithSize == None
      ensures Config() == NoInputConfig
    {
      inputStrategyWithSize := None;
      progressBar := None;
      lineParser := None;
      lineParserGob := None;
      lineParserJson := None;
      gzipDecompress := false;
    }

    method FromFile(path: string) returns (b: InputBuilder)
      modifies this
      ensures b == this
      ensures inputStrategyWithSize == Some(C.FromFile(path))
      ensures Config() == old(Config())
    {
      inputStrategyWithSize := Some(C.FromFile(path));
      b := this;
    }

    method FromReader(s: Stream, size: int) returns (b: InputBuilder)
      modifies this
      ensures b == this
      ensures inputStrategyWithSize == Some(C.FromReader(s, size))
      ensures Config() == old(Config())
    {
      inputStrategyWithSize := Some(C.FromReader(s, size));
      b := this;
    }

    method FromWeb(url: string) returns (b: InputBuilder)
      modifies this
      ensures b == this
      ensures inputStrategyWithSize == Some(C.FromWeb(url))
      ensures Config() == old(Config())
    {
      inputStrategyWithSize := Some(C.FromWeb(url));
      b := this;
    }

    method DecompressGzip(enable: bool) returns (b: InputBuilder)
      modifies this
      ensures b == this
      ensures inputStrategyWithSize == old(inputStrategyWithSize)
      ensures Config() == old(Config()).(gzipDecompress := enable)
    {
      gzipDecompress := enable;
      b := this;
    }

    method ParseLines(parser: C.LineParser<Bytes>) returns (b: InputBuilder)
      modifies this
      ensures b == this
      ensures inputStrategyWithSize == old(inputStrategyWithSize)
      ensures Config() == old(Config()).(lineParser := Some(parser))
    {
      lineParser := Some(parser);
      b := this;
    }

    method ParseLinesToGob(parser: C.LineParser<Value>) returns (b: InputBuilder)
      modifies this
      ensures b == this
      ensures inputStrategyWithSize == old(inputStrategyWithSize)
      ensures Config() == old(Config()).(lineParserGob := Some(parser))
    {
      lineParserGob := Some(parser);
      b := this;
    }

    method ParseLinesToJson(parser: C.LineParser<Value>) returns (b: InputBuilder)
      modifies this
      ensures b == this
      ensures inputStrategyWithSize == old(inputStrategyWithSize)
      ensures Config() == old(Config()).(lineParserJson := Some(parser))
    {
      lineParserJson := Some(parser);
      b := this;
    }

    method ProgressBar(register: C.Registrator) returns (b: InputBuilder)
      modifies this
      ensures b == this
      ensures inputStrategyWithSize == old(inputStrategyWithSize)
      ensures Config() == old(Config()).(progressBar := Some(register))
    {
      progressBar := Some(register);
      b := this;
    }

    method Fanout() returns (f: FanoutBuilder)
      requires inputStrategyWithSize.Some?
      ensures fresh(f)
      ensures f.input == Input(this, inputStrategyWithSize.value)
      ensures f.readers == [] && f.pipeline == None
    {
      f := new FanoutBuilder(Input(this, inputStrategyWithSize.value));
    }

    method ReadOnly() returns (r: ReadonlyBuilder)
      requires inputStrategyWithSize.Some?
      ensures fresh(r)
      ensures r.input == Input(this, inputStrategyWithSize.value)
      ensures r.pipeline == None
    {
      r := new ReadonlyBuilder(Input(this, inputStrategyWithSize.value));
    }

    method ToFile(path: string) returns (o: OutputBuilder)
      requires inputStrategyWithSize.Some?
      ensures fresh(o)
      ensures o.input == Some(Input(this, inputStrategyWithSize.value))
      ensures o.Config() == NoOutputConfig.(target := Some(ToPath(path)))
      ensures o.output == None && o.pipeline == None
    {
      o := new OutputBuilder(Input(this, inputStrategyWithSize.value));
      var _ := o.ToFile(path);
    }

    method ToWriter(sink: Sink) returns (o: OutputBuilder)
      requires inputStrategyWithSize.Some?
      ensures fresh(o)
      ensures o.input == Some(Input(this, inputStrategyWithSize.value))
      ensures o.Config() == NoOutputConfig.(target := Some(ToSink(sink)))
      ensures o.output == None && o.pipeline == None
    {
      o := new OutputBuilder(Input(this, inputStrategyWithSize.value));
      var _ := o.ToWriter(sink);
    }
  }

  class OutputBuilder {
    var input: Option<Input>
    var outputStep: Option<Target>
    var preamble: Bytes
    var appendix: Bytes
    var compress: bool
    var steps: seq<C.Processor>
    var output: Option<C.Reader>
    var pipeline: Option<C.Pipeline>

    /** The fields `Build` composes. */
    function Config(): OutputConfig
      reads this
    {
      OutputConfig(outputStep, preamble, appendix, compress, steps)
    }

    /** `newOutputBuilder`: an output builder fed by an input stage. */
    constructor (from: Input)
      ensures input == Some(from)
      ensures Config() == NoOutputConfig
      ensures output == None && pipeline == None
    {
      input := Some(from);
      outputStep := None;
      preamble, appendix, compress, steps := [], [], false, [];
      output, pipeline := None, None;
    }

    /** `newOutputBuilderFanout`: a fan-out branch builder, with no input. */
    constructor ForFanout()
      ensures input == None
      ensures Config() == NoOutputConfig
      ensures output == None && pipeline == None
    {
      input := None;
      outputStep := None;
      preamble, appendix, compress, steps := [], [], false, [];
      output, pipeline := None, None;
    }

    method Preamble(p: Bytes) returns (b: OutputBuilder)
      modifies this
      ensures b == this
      ensures Config() == old(Config()).(preamble := p)
      ensures input == old(input) && output == old(output) && pipeline == old(pipeline)
    {
      preamble := p;
      b := this;
    }

    method Appendix(a: Bytes) returns (b: OutputBuilder)
      modifies this
      ensures b == this
      ensures Config() == old(Config()).(appendix := a)
      ensures input == old(input) && output == old(output) && pipeline == old(pipeline)
    {
      appendix := a;
      b := this;
    }

    method CompressGzip(enable: bool) returns (b: OutputBuilder)
      modifies this
      ensures b == this
      ensures Config() == old(Config()).(compress := enable)
      ensures input == old(input) && output == old(output) && pipeline == old(pipeline)
    {
      compress := enable;
      b := this;
    }

    method AddProcessingStep(p: C.Processor) returns (b: OutputBuilder)
      modifies this
      ensures b == this
      ensures Config() == old(Config()).(steps := old(steps) + [p])
      ensures input == old(input) && output == old(output) && pipeline == old(pipeline)
    {
      steps := steps + [p];
      b := this;
    }

    method AddReadonlyProcessor(p: C.Processor) returns (b: OutputBuilder)
      modifies this
      ensures b == this
      ensures Config() == old(Config()).(steps := old(steps) + [p])
      ensures input == old(input) && output == old(output) && pipeline == old(pipeline)
    {
      b := AddProcessingStep(p);
    }

    method ReadOnly() returns (b: OutputBuilder)
      modifies this
      ensures b == this
      ensures Config() == old(Config()).(target := Some(Discarding))
      ensures input == old(input) && output == old(output) && pipeline == old(pipeline)
    {
      outputStep := Some(Discarding);
      b := this;
    }

    method ToFile(path: string) returns (b: OutputBuilder)
      modifies this
      ensures b == this
      ensures Config() == old(Config()).(target := Some(ToPath(path)))
      ensures input == old(input) && output == old(output) && pipeline == old(pipeline)
    {
      outputStep := Some(ToPath(path));
      b := this;
    }

    method ToWriter(sink: Sink) returns (b: OutputBuilder)
      modifies this
      ensures b == this
      ensures Config() == old(Config()).(target := Some(ToSink(sink)))
      ensures input == old(input) && output == old(output) && pipeline == old(pipeline)
    {
      outputStep := Some(ToSink(sink));
      b := this;
    }

    /** Composes the output reader, stores it in `output`, and, when the builder has an input,
        stores `source(processing(output))` in `pipeline`; the input builder's fields are read
        now, not when its transition was taken. */
    method Build() returns (p: OutputBuilder)
      requires outputStep.Some?
      modifies this
      ensures p == this
      ensures Config() == old(Config()) && input == old(input)
      ensures output == Some(ComposeOutput(Config()))
      ensures input.None? ==> pipeline == old(pipeline)
      ensures input.Some? ==>
        pipeline == Some(C.Pipeline(input.value.source, BuildInput(input.value.processing.Config(), ComposeOutput(Config()))))
    {
      var out: C.Connector := C.Copy;
      if compress {
        out := C.CompressGzip(out);
      }
      var r := Attach(outputStep.value, out);
      if |appendix| != 0 {
        r := C.Appendix(r, appendix);
      }
      if |preamble| != 0 {
        r := C.Preamble(r, preamble);
      }
      ghost var framed := r;
      assert framed == Framing(Config());
      var i := 0;
      while i < |steps|
        invariant 0 <= i <= |steps|
        invariant r == WrapSteps(steps[..i], framed)
      {
        assert steps[..i + 1][..i] == steps[..i];
        r := C.Apply(steps[i], r);
        i := i + 1;
      }
      assert steps[..i] == steps;
      output := Some(r);
      if input.Some? {
        var readerWithSize := BuildInput(input.value.processing.Config(), r);
        pipeline := Some(C.Pipeline(input.value.source, readerWithSize));
      }
      p := this;
    }

    method Execute(w: C.World) returns (o: Outcome)
      requires pipeline.Some?
      ensures o == C.RunPipeline(pipeline.value, w)
    {
      o := C.RunPipeline(pipeline.value, w);
    }
  }

  /** What a `Register` callback does with the fresh builder it is given: select the target,
      make its configuration calls in order, and call `Build`. */
  method RunBranchScript(b: OutputBuilder, script: BranchScript)
    requires b.input == None && b.Config() == NoOutputConfig
    modifies b
    ensures b.input == None
    ensures b.output == Some(ComposeOutput(BranchConfig(script)))
  {
    match script.target {
      case Discarding => var _ := b.ReadOnly();
      case ToSink(sink) => var _ := b.ToWriter(sink);
      case ToPath(path) => var _ := b.ToFile(path);
    }
    var options := script.options;
    var i := 0;
    while i < |options|
      invariant 0 <= i <= |options|
      invariant b.input == None
      invariant b.Config() == Configure(NoOutputConfig.(target := Some(script.target)), options[..i])
    {
      assert options[..i + 1][..i] == options[..i];
      match options[i] {
        case SetPreamble(p) => var _ := b.Preamble(p);
        case SetAppendix(a) => var _ := b.Appendix(a);
        case SetCompress(enable) => var _ := b.CompressGzip(enable);
        case AddStep(step) => var _ := b.AddProcessingStep(step);
      }
      i := i + 1;
    }
    assert options[..i] == options;
    var _ := b.Build();
  }

  class FanoutBuilder {
    var input: Input
    var readers: seq<C.Reader>
    var pipeline: Option<C.Pipeline>

    /** `newFanoutBuilder`. */
    constructor (from: Input)
      ensures input == from && readers == [] && pipeline == None
    {
      input := from;
      readers := [];
      pipeline := None;
    }

    /** Runs the callback on a fresh input-less output builder and appends the reader it
        built; the `Pipeline` the callback returns is not used. */
    method Register(script: BranchScript) returns (f: FanoutBuilder)
      modifies this
      ensures f == this
      ensures input == old(input) && pipeline == old(pipeline)
      ensures readers == old(readers) + [ComposeOutput(BranchConfig(script))]
    {
      var builder := new OutputBuilder.ForFanout();
      RunBranchScript(builder, script);
      readers := readers + [builder.output.value];
      f := this;
    }

    /** Stores `source(processing(MultiProcess(readers...)))`: the input-side stages run once,
        before the tee. */
    method Build() returns (p: FanoutBuilder)
      modifies this
      ensures p == this
      ensures input == old(input) && readers == old(readers)
      ensures pipeline == Some(C.Pipeline(input.source, BuildInput(input.processing.Config(), C.MultiProcess(readers))))
    {
      var readerWithSize := BuildInput(input.processing.Config(), C.MultiProcess(readers));
      pipeline := Some(C.Pipeline(input.source, readerWithSize));
      p := this;
    }

    method Execute(w: C.World) returns (o: Outcome)
      requires pipeline.Some?
      ensures o == C.RunPipeline(pipeline.value, w)
    {
      o := C.RunPipeline(pipeline.value, w);
    }
  }

  class ReadonlyBuilder {
    var input: Input
    var pipeline: Option<C.Pipeline>

    /** `newReadonlyBuilder`. */
    constructor (from: Input)
      ensures input == from && pipeline == None
    {
      input := from;
      pipeline := None;
    }

    /** Stores `source(processing(discard))`, where `discard` copies the processed stream into
        `io.Discard`. */
    method Build() returns (p: ReadonlyBuilder)
      modifies this
      ensures p == this
      ensures input == old(input)
      ensures pipeline == Some(C.Pipeline(input.source, BuildInput(input.processing.Config(), C.Readonly(C.Copy))))
    {
      var a := BuildInput(input.processing.Config(), C.Readonly(C.Copy));
      pipeline := Some(C.Pipeline(input.source, a));
      p := this;
    }

    method Execute(w: C.World) returns (o: Outcome)
      requires pipeline.Some?
      ensures o == C.RunPipeline(pipeline.value, w)
    {
      o := C.RunPipeline(pipeline.value, w);
    }
  }
}

/** The staged protocol of builder.go.

    Each capability interface is a stage; each method an interface offers is a call taking the
    builder to the stage of the interface it returns.  A call an interface does not offer is
    not possible at that stage (in Go it does not compile).
 */
module Protocol {
  import opened Streams

  /** The interfaces a builder is seen through, named as in builder.go. */
  datatype Stage =
    | Builder
    | InputBuilder
    | OutputBuilder
    | OutputConfigurationBuilder
    | FanoutBuilder
    | ReadonlyBuilder
    | Pipeline

  /** The interface methods. */
  datatype Call =
    | FromFile | FromWeb | FromReader
    | DecompressGzip | ProgressBar
    | ParseLines | ParseLinesToGob | ParseLinesToJson | ParseLinesToCustomEncoder
    | Fanout | ReadOnly | ToFile | ToWriter
    | Preamble | Appendix | CompressGzip | AddProcessingStep
    | Register | Build | Execute

  /** The stage a call leads to, if the current stage offers it. */
  function Next(st: Stage, c: Call): Option<Stage>
  {
    match st
    case Builder =>
      if c.FromFile? || c.FromWeb? || c.FromReader? then Some(InputBuilder) else None
    case InputBuilder =>
      if c.DecompressGzip? || c.ProgressBar? || c.ParseLines? || c.ParseLinesToGob?
        || c.ParseLinesToJson? || c.ParseLinesToCustomEncoder? then Some(InputBuilder)
      else if c.Fanout? then Some(FanoutBuilder)
      else if c.ReadOnly? then Some(ReadonlyBuilder)
      else if c.ToFile? || c.ToWriter? then Some(OutputConfigurationBuilder)
      else None
    case OutputBuilder =>
      if c.ToFile? || c.ToWriter? then Some(OutputConfigurationBuilder) else None
    case OutputConfigurationBuilder =>
      if c.Preamble? || c.Appendix? || c.CompressGzip? || c.AddProcessingStep? then Some(OutputConfigurationBuilder)
      else if c.Build? then Some(Pipeline)
      else None
    case FanoutBuilder =>
      if c.Register? then Some(FanoutBuilder) else if c.Build? then Some(Pipeline) else None
    case ReadonlyBuilder =>
      if c.Build? then Some(Pipeline) else None
    case Pipeline =>
      if c.Execute? then Some(Pipeline) else None
  }

  /** The stage a sequence of calls leads to, if every call is offered on the way. */
  function Follow(st: Stage, calls: seq<Call>): Option<Stage>
    decreases |calls|
  {
    if calls == [] then Some(st)
    else
      match Next(st, calls[0])
      case None => None
      case Some(st') => Follow(st', calls[1..])
  }

  /** How far along the protocol a stage is. */
  function Rank(st: Stage): nat
  {
    match st
    case Builder => 0
    case InputBuilder => 1
    case OutputBuilder => 2
    case OutputConfigurationBuilder => 3
    case FanoutBuilder => 3
    case ReadonlyBuilder => 3
    case Pipeline => 4
  }

  /** The initial stage offers only source selection, and each source leads to the input stage. */
  lemma SourcesFirst(c: Call)
    ensures Next(Builder, c).Some? <==> (c.FromFile? || c.FromWeb? || c.FromReader?)
    ensures Next(Builder, c).Some? ==> Next(Builder, c) == Some(InputBuilder)
  {
  }

  /** The input stage is left only by `Fanout`, `ReadOnly`, `ToFile` and `ToWriter`; its
      toggles and parser setters keep it. */
  lemma InputStageExits(c: Call)
    ensures Next(InputBuilder, c).Some? && Next(InputBuilder, c) != Some(InputBuilder)
      <==> (c.Fanout? || c.ReadOnly? || c.ToFile? || c.ToWriter?)
    ensures c.DecompressGzip? || c.ProgressBar? || c.ParseLines? || c.ParseLinesToGob? || c.ParseLinesToJson?
      ==> Next(InputBuilder, c) == Some(InputBuilder)
  {
  }

  /** Output options keep the output configuration stage; only `Build` leaves it, with a
      `Pipeline`. */
  lemma OutputConfigurationExits(c: Call)
    ensures Next(OutputConfigurationBuilder, c).Some? && Next(OutputConfigurationBuilder, c) != Some(OutputConfigurationBuilder)
      <==> c.Build?
    ensures c.Build? ==> Next(OutputConfigurationBuilder, c) == Some(Pipeline)
  {
  }

  /** `Register` keeps the fan-out stage and `Build` yields a `Pipeline`; a read-only builder
      offers only `Build`, and a pipeline only `Execute`. */
  lemma FinalStages(c: Call)
    ensures Next(FanoutBuilder, c) == if c.Register? then Some(FanoutBuilder) else if c.Build? then Some(Pipeline) else None
    ensures Next(ReadonlyBuilder, c).Some? <==> c.Build?
    ensures Next(Pipeline, c).Some? <==> c.Execute?
  {
  }

  /** There are no backward transitions. */
  lemma {:induction false} NoWayBack(st: Stage, calls: seq<Call>)
    requires Follow(st, calls).Some?
    ensures Rank(Follow(st, calls).value) >= Rank(st)
    decreases |calls|
  {
    if calls != [] {
      var st' := Next(st, calls[0]).value;
      NoWayBack(st', calls[1..]);
    }
  }

  /** Only `Build` produces a `Pipeline`: every call sequence reaching one from an earlier
      stage contains a `Build`. */
  lemma {:induction false} PipelineNeedsBuild(st: Stage, calls: seq<Call>)
    requires st != Pipeline
    requires Follow(st, calls) == Some(Pipeline)
    ensures Build in calls
    decreases |calls|
  {
    assert calls != [];
    if !calls[0].Build? {
      var st' := Next(st, calls[0]).value;
      PipelineNeedsBuild(st', calls[1..]);
      assert calls == [calls[0]] + calls[1..];
    }
  }

  /** Every use of the protocol starts by choosing a source and ends its construction with
      `Build`. */
  lemma ProtocolShape(calls: seq<Call>)
    requires Follow(Builder, calls) == Some(Pipeline)
    ensures |calls| > 0 && (calls[0].FromFile? || calls[0].FromWeb? || calls[0].FromReader?)
    ensures Build in calls
  {
    PipelineNeedsBuild(Builder, calls);
  }

  /** The call chain of the preamble and appendix scenario is accepted. */
  lemma PreambleChainAccepted()
    ensures Follow(Builder, [FromReader, ParseLines, ToWriter, Preamble, Appendix, Build, Execute]) == Some(Pipeline)
  {
  }
}

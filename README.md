# A verified model of the `pipeline` stream-processing library

`pipeline` is a small Go library for building byte-stream pipelines. A *source* (a file, a URL
or an `io.Reader`) is read through optional input stages: a progress bar, gzip decompression,
and line parsers that turn each line into bytes, Gob or JSON. The result goes either to one
output or, through a fan-out, to many. Each output is a writer or a new file, framed by an
optional preamble and appendix, optionally gzip-compressed, and behind user processing steps
(`Decode`, `DecodeToWriter`, `Transcode`). A fluent builder assembles these combinators, and
its interfaces fix the order of the calls: source first, then input stages, then output
configuration, then `Build` and `Execute`.

The model has six modules:

- `Streams` (`streams.dfy`): byte streams, sinks, and the effects a run leaves behind. The
  effects are writes to sinks, calls to line parsers and progress registrations. The functions
  `Written`, `Calls` and `Registrations` observe them.
- `Scanning` (`scanning.dfy`): how `bufio.Scanner` with `ScanLines` splits a stream into
  lines.
- `Combinators` (`combinators.dfy`): the combinators of `pipeline.go`.
  - Each Go `Reader` closure is a constructor of the datatype `Reader`, and `Run` gives it its
    meaning: the effects it leaves and the error it returns.
  - The goroutine bodies are also written out as loops, each proved to compute what `Run`
    uses.
  - Files, HTTP, gzip and the codecs are the function values of a `World`.
- `Composition` (`composition.dfy`): what `inputBuilder.build` and `outputBuilder.Build`
  compose, as pure functions of the builders' configuration.
- `Builders` (`builders.dfy`): the four builder structs as classes with the Go fields. The
  setters update those fields, and `Build` and `Execute` are proved against `Composition` and
  `Run`.
- `Protocol` (`protocol.dfy`): the staged interfaces of `builder.go` as a transition
  function.

A seventh module, `Scenarios` (`scenarios.dfy`), drives the builder classes through the call
chains of the tests in `builder_test.go`. It also runs the combinator tree of `TestMultiReader` in
`pipeline_test.go`. It proves what those tests expect, for every input of the tested shape.

Each `io.Pipe` between a producer goroutine and its consumer is read as follows: the consumer
sees exactly what the producer wrote, then the way the producer closed the pipe. The model
takes every consumer to drain its input.

Three behaviours of the code are easy to miss, and the model follows them as written:

- `MultiProcess` is racy: its copy goroutine and its result loop share `err` without
  synchronisation. The model takes one race-free reading of it: each branch sees the teed
  data, then EOF (`Teed`, after the plain `Close` of every branch pipe), and the result is
  the first branch error in registration order (`FirstError`). The outcomes this reading
  does not cover are listed under "## Left out".
- `ParseLine` and `ParseLineToCustomEncoder` turn an upstream read error into EOF for the
  reader after them.
- A decode error in `Decode`/`Transcode` ends the records but is only logged; the next reader
  sees EOF.

## Model

| member | source | states |
|---|---|---|
| Scanning.Lines | pipeline.go:255-261 | the tokens `bufio.Scanner` with `ScanLines` yields for the complete input, in order |
| Scanning.DropCR | pipeline.go:141-149 | a token loses exactly one trailing carriage return, and only when it has one |
| Scanning.IndexOfNL | pipeline.go:141-149 | the token boundary is the first newline, or the end of the data |
| Scanning.LinesSplit | pipeline.go:141-149 | the scanner yields the bytes before the first newline (minus CR) as a token, then scans the rest |
| Scanning.LinesCons | pipeline.go:141-149 | a plain line followed by a newline is yielded as one token, and scanning continues with what follows |
| Scanning.LinesOfPlainLine | pipeline.go:255-261 | a non-empty input without newline or trailing CR is scanned as exactly one token, itself |
| Scanning.LinesHaveNoNewline | pipeline.go:260-261 | no token the scanner yields contains a newline |
| Scanning.LinesCount | pipeline.go:260-261 | the number of tokens is the number of newlines, plus one for a final unterminated segment |
| Scanning.UnlinesOfLines | pipeline.go:260-261 | re-terminating the tokens of a CR-free input restores it, up to the final newline the scanner drops |
| Scanning.LinesOfUnlines | pipeline.go:260-261 | scanning newline-terminated plain lines gives back exactly those lines |
| Scanning.ThreeLines | builder_test.go:185-202 | `"1\n2\n3"` is scanned as the three tokens `"1"`, `"2"`, `"3"` |
| Combinators.Run | pipeline.go:72-376 | the effects and the returned error of each `Reader` combinator handed a complete stream: gzip, preamble, appendix, processors, both line parsers, the writer targets and the fan-out |
| Combinators.RunWithSize | pipeline.go:59-70 | `IgnoreSize` runs its reader on the stream; `ProgressBar` registers the size, mirrors the input to the registrator's writer, then runs its reader |
| Combinators.RunSource | pipeline.go:30-57 | a source opens its file or URL, returns an open error without running the reader, and otherwise runs the reader with the stream and its size |
| Combinators.EncodeUntilError | pipeline.go:146-161 | the pipe after the encoder carries the encodings up to the first failing one, then ends with its error (or EOF) |
| Combinators.Connect | pipeline.go:318-330 | a connector always returns the read error; `Copy` writes the whole stream |
| Combinators.CallEffects | pipeline.go:260-263 | the parser is called once per line, in order, labelled with its identity |
| Combinators.FirstFailure | pipeline.go:156-160 | the position of the first value whose encoding fails: every earlier encoding succeeds |
| Combinators.EncodeUntilErrorMeaning | pipeline.go:146-161 | the encoder-fed pipe delivers the encodings before the first failure, then ends with that failure's error (or EOF when none fails) |
| Combinators.Records | pipeline.go:184-191 | a decoding loop consumes exactly the leading records, stopping at the first EOF or error |
| Combinators.Process | pipeline.go:174-200 | the stream a processing step hands on always ends with EOF |
| Combinators.FirstError | pipeline.go:367-374 | the fan-out result is nil iff every branch returned nil; otherwise it is the first branch error |
| Combinators.WritesStayInSinks | pipeline.go:276-316 | a reader writes to no sink outside the terminal writers it contains |
| Combinators.CallsStayWithParsers | pipeline.go:253-274 | a reader calls no line parser it does not contain |
| Combinators.ReadersNeverRegister | pipeline.go:65-70 | only `ProgressBar` makes progress registrations; no `Reader` does |
| Combinators.CallEffectsObserved | pipeline.go:258-269 | a scan's parser calls record exactly the scanned lines, under that parser only, and write nothing |
| Combinators.SourceOutcome | pipeline.go:30-57 | `FromFile`/`FromWeb` return the open error without running the reader; otherwise the reader gets the stream and its size |
| Combinators.IgnoreSizeDropsSize | pipeline.go:59-63 | `IgnoreSize` runs the next reader on the same stream, whatever the size |
| Combinators.ProgressBarMirrors | pipeline.go:65-70 | the registrator is called once with the size, its writer receives the whole input (drain reading), and the run's result is the next reader's |
| Combinators.ToWriterDelivers | pipeline.go:282-286 | `ToWriter` with `Copy` writes the whole input and returns the read error |
| Combinators.CompressGzipDelivers | pipeline.go:323-330 | behind `CompressGzip` the writer receives the gzip form of the whole input |
| Combinators.ReadonlyDrains | pipeline.go:276-280 | `Readonly` writes nowhere but `io.Discard` and returns the read error |
| Combinators.ToNewFileCreateFails | pipeline.go:306-316 | when the file cannot be created, the error is returned and nothing is read or written |
| Combinators.FramedDelivery | pipeline.go:84-100 | the writer receives the preamble, the input, then the appendix; the appendix comes only if the input ended with EOF |
| Combinators.ParseLineObserved | pipeline.go:253-274 | the parser sees every scanned line once, in order; the next reader sees the parsed bytes followed by EOF |
| Combinators.ProcessorEndsCleanly | pipeline.go:107-137 | the reader after a library processor always sees EOF, whatever the decoder or upstream did |
| Combinators.DecompressGzipHeaderError | pipeline.go:72-82 | a gzip header error is returned without running the next reader |
| Combinators.MultiProcessEmpty | pipeline.go:332-376 | a fan-out with no branches succeeds and writes nothing |
| Combinators.FanoutIsolation | pipeline.go:336-365 | every branch reads the same full copy of the input: a sink only branch `i` writes to receives what branch `i` alone writes |
| Combinators.FanoutResult | pipeline.go:367-374 | the fan-out error is nil iff every branch succeeded, and otherwise the first failing branch's error in registration order |
| Combinators.ScanToken | pipeline.go:148-149 | one `Scan` call yields the first token and advances past it and its newline |
| Combinators.ParseLineLoop | pipeline.go:258-270 | the loop calls the parser on exactly the scanned lines and writes what it returns, even when the parser also returns an error |
| Combinators.ParseLineToCustomEncoderLoop | pipeline.go:146-162 | the loop calls the parser on every line, ignoring its error; the first failed `Encode` closes the pipe with that error |
| Combinators.DecodeLoop | pipeline.go:180-195 | the loop writes the consumer's bytes for each record before the first EOF or error |
| Combinators.TranscodeLoop | pipeline.go:114-132 | the loop encodes the transformed value of each leading record; a failed `Encode` is skipped and the loop continues |
| Combinators.MultiProcessLoop | pipeline.go:340-374 | starting one reader per branch and collecting the results computes the fan-out's run |
| Composition.BuildInput | input_builder.go:25-52 | `build` wraps `next` in the byte, JSON and Gob line parsers, then gzip, then the progress bar or `IgnoreSize`, each when configured |
| Composition.Framing | output_builder.go:70-86 | the target behind `Copy` (or gzip), then the appendix, then the preamble, each only when non-empty |
| Composition.WrapSteps | output_builder.go:88-90 | the processing steps wrap the framed reader in registration order, so the last step registered reads the data first |
| Composition.ComposeOutput | output_builder.go:70-92 | the output reader `Build` stores: the steps around the framing |
| Composition.BuildInputOrder | input_builder.go:25-52 | data passes the progress bar, then gzip, then the Gob, JSON and byte line parsers, each present exactly when configured and carrying the configured registrator or parser |
| Composition.NoInputConfigPassesThrough | input_builder.go:25-52 | with no input option set, `build(next)` is `IgnoreSize(next)` and `next` reads the raw source |
| Composition.RunWrapSteps | output_builder.go:88-90 | wrapping in the processing steps runs the framed reader on the steps' output; the last registered step sees the data first |
| Composition.ThroughStepsEndsCleanly | output_builder.go:88-90 | after at least one processing step, the framed reader sees EOF |
| Composition.WrapStepsReaches | output_builder.go:88-90 | processing steps add no sink and no parser |
| Composition.OutputReaches | output_builder.go:68-92 | an output reader writes only to its target and calls no line parser |
| Composition.FramingDelivers | output_builder.go:70-86 | the framed reader delivers preamble, body and appendix (after EOF only), compressed if requested; a failed file create writes nothing |
| Composition.OutputDelivers | output_builder.go:68-92 | the whole output reader delivers the framed payload of what the processing steps produce |
| Composition.WriterReceivesFramedBody | output_builder.go:68-92 | a writer target without compression or steps receives preamble + input + appendix and succeeds |
| Composition.Configure | output_builder.go:109-125 | the option calls never change the selected target |
| Composition.BranchConfig | fanout_builder.go:37-45 | a branch's configuration has the target its callback selected |
| Composition.ConfigureMeaning | output_builder.go:50-125 | processing steps are appended in order, keeping earlier ones; for the preamble, the appendix and the compression flag, the last option setting the field wins, and with none the field is unchanged |
| Builders.InputBuilder.constructor | builder.go:7-9 | a new builder has no source and every input option at its zero value |
| Builders.InputBuilder.FromFile | input_builder.go:61-68 | the source becomes the file; nothing else changes |
| Builders.InputBuilder.FromReader | input_builder.go:70-77 | the source becomes the reader with its declared size; nothing else changes |
| Builders.InputBuilder.FromWeb | input_builder.go:79-86 | the source becomes the URL; nothing else changes |
| Builders.InputBuilder.DecompressGzip | input_builder.go:88-92 | only the gzip flag changes |
| Builders.InputBuilder.ParseLines | input_builder.go:94-98 | only the byte line parser changes |
| Builders.InputBuilder.ParseLinesToGob | input_builder.go:54-59 | only the Gob line parser changes |
| Builders.InputBuilder.ParseLinesToJson | input_builder.go:19-23 | only the JSON line parser changes |
| Builders.InputBuilder.ProgressBar | input_builder.go:100-104 | only the progress registrator changes |
| Builders.InputBuilder.Fanout | input_builder.go:106-114 | a fresh fan-out builder with no branches, bound to this builder's `build` and the current source |
| Builders.InputBuilder.ReadOnly | input_builder.go:116-124 | a fresh read-only builder bound to this builder's `build` and the current source |
| Builders.InputBuilder.ToFile | input_builder.go:126-135 | a fresh output builder fed by this builder, targeting the new file, otherwise unconfigured |
| Builders.InputBuilder.ToWriter | input_builder.go:137-146 | a fresh output builder fed by this builder, targeting the writer, otherwise unconfigured |
| Builders.OutputBuilder.constructor | output_builder.go:10-16 | an output builder fed by an input, with no target, literals, compression or steps |
| Builders.OutputBuilder.ForFanout | output_builder.go:18-22 | a branch output builder with no input |
| Builders.OutputBuilder.Preamble | output_builder.go:121-125 | only the preamble changes |
| Builders.OutputBuilder.Appendix | output_builder.go:109-113 | only the appendix changes |
| Builders.OutputBuilder.CompressGzip | output_builder.go:115-119 | only the compression flag changes |
| Builders.OutputBuilder.AddProcessingStep | output_builder.go:57-61 | the step is appended after the earlier ones; nothing else changes |
| Builders.OutputBuilder.AddReadonlyProcessor | output_builder.go:50-55 | the same as `AddProcessingStep` |
| Builders.OutputBuilder.ReadOnly | output_builder.go:127-135 | the target becomes `io.Discard` |
| Builders.OutputBuilder.ToFile | output_builder.go:137-144 | the target becomes the new file |
| Builders.OutputBuilder.ToWriter | output_builder.go:146-153 | the target becomes the writer |
| Builders.OutputBuilder.Build | output_builder.go:68-107 | `output` is the composition of the configuration; with an input, `pipeline` is its source around its input stages around that output, with the input builder's fields read at this moment |
| Builders.OutputBuilder.Execute | output_builder.go:63-66 | runs the stored pipeline |
| Builders.RunBranchScript | fanout_builder.go:37-45 | a callback's calls on the fresh branch builder leave as `output` the composition of its configuration |
| Builders.FanoutBuilder.constructor | fanout_builder.go:6-10 | a fan-out builder with its input and no branches |
| Builders.FanoutBuilder.Register | fanout_builder.go:37-45 | appends the output reader the callback built, after the earlier branches |
| Builders.FanoutBuilder.Build | fanout_builder.go:25-35 | stores source around the input stages around one `MultiProcess` of the branches: the input stages run once, before the tee |
| Builders.FanoutBuilder.Execute | fanout_builder.go:20-23 | runs the stored pipeline |
| Builders.ReadonlyBuilder.constructor | readonly_builder.go:8-12 | a read-only builder with its input |
| Builders.ReadonlyBuilder.Build | readonly_builder.go:20-37 | stores source around the input stages around a reader draining into `io.Discard` |
| Builders.ReadonlyBuilder.Execute | readonly_builder.go:39-42 | runs the stored pipeline |
| Protocol.SourcesFirst | builder.go:11-15 | the initial builder offers only the three sources, each leading to the input stage |
| Protocol.InputStageExits | builder.go:17-37 | the input options keep the input stage; only `Fanout`, `ReadOnly`, `ToFile` and `ToWriter` leave it |
| Protocol.OutputConfigurationExits | builder.go:51-57 | output options keep the configuration stage; only `Build` leaves it, yielding a `Pipeline` |
| Protocol.FinalStages | builder.go:39-66 | `Register` keeps the fan-out stage; fan-out and read-only builders offer `Build`; a pipeline offers only `Execute` |
| Protocol.NoWayBack | builder.go:11-66 | no call sequence returns to an earlier stage |
| Protocol.PipelineNeedsBuild | builder.go:11-66 | every call sequence reaching a `Pipeline` contains a `Build` |
| Protocol.ProtocolShape | builder.go:7-66 | every accepted use starts with a source and contains a `Build` |
| Protocol.PreambleChainAccepted | builder_test.go:237-290 | the call chain of the preamble and appendix test is accepted |
| Scenarios.ParsedLineFramed | builder_test.go:237-290 | a one-line input through a parser into a framed writer yields preamble + parsed line + appendix, without error |
| Scenarios.BuildFramedLines | builder_test.go:277-284 | the test's chain `FromReader`, `ParseLines`, `ToWriter`, `Preamble`, `Appendix`, `Build` builds source → parser → framed writer |
| Scenarios.PreambleAndAppendix | builder_test.go:237-290 | the builder chain of the test writes `preamble + input + "a" + appendix` and succeeds, for every one-line input |
| Scenarios.TwoFramedBranches | builder_test.go:62-92 | two framed writer branches each receive their own literals around the same input |
| Scenarios.BuildTwoBranchFanout | builder_test.go:71-85 | the test's chain builds source → tee into the two registered branches, in registration order |
| Scenarios.Fanout | builder_test.go:62-92 | the first writer receives preamble + text + appendix, the second the text alone, and the run succeeds |
| Scenarios.ParsedLineFannedOut | builder_test.go:204-235 | a one-line input is parsed once, before the tee, and both branches see the parsed line |
| Scenarios.BuildParsedTwoBranchFanout | builder_test.go:212-228 | the test's chain builds source → parser → tee into the two registered branches |
| Scenarios.FanoutWithLineParser | builder_test.go:204-235 | the builder chain of the test writes `preamble + text + "er"` and `text + "er"` and succeeds |
| Scenarios.ParsedLineToWriter | pipeline_test.go:22-26 | a one-line input through a line parser into a writer writes the parsed line and succeeds |
| Scenarios.MultiReader | pipeline_test.go:13-37 | each of the two fan-out branches writes the input line with its own parser's suffix to its own writer, and the run succeeds |
| Scenarios.ReadonlyParsesEveryLine | builder_test.go:185-202 | a read-only pipeline calls its parser on every line, writes to no real sink, and succeeds |
| Scenarios.ReadonlyCountsThreeLines | builder_test.go:185-202 | `"1\n2\n3"` gives exactly three parser calls |
| Scenarios.LateBinding | input_builder.go:106-146 | a parser set after the transition is used; a source chosen after it is not |
| Scenarios.EmptyFanout | fanout_builder.go:25-35 | a fan-out with no branches builds, and its run succeeds without effects |
| Scenarios.ProgressBarToWriter | input_builder.go:42-49 | with a progress bar, the size is registered once, and both the bar and the writer receive the whole input |
| Scenarios.ParsedLinesDecoded | builder_test.go:12-60 | lines parsed to values, encoded and decoded again in a step, reach the writer as the consumer's bytes for each value |
| Scenarios.BuildGobLines | builder_test.go:20-29 | the test's chain builds source → parse to Gob → decoding step → writer |
| Scenarios.GobRoundTrip | builder_test.go:12-35 | the Gob test's chain writes the consumer's bytes for every parsed line and succeeds |
| Scenarios.BuildJsonLines | builder_test.go:45-54 | the test's chain builds source → parse to JSON → decoding step → writer |
| Scenarios.JsonRoundTrip | builder_test.go:37-60 | the JSON test's chain writes the consumer's bytes for every parsed line and succeeds |
| Scenarios.BuildGobFanout | builder_test.go:104-123 | the test's chain builds source → parse to Gob → tee into two branches, each a decoding step before its own writer |
| Scenarios.GobBranchesDecode | builder_test.go:110-123 | on a stream ending with EOF, each decoding branch writes its own consumer's bytes for every decoded record, and the fan-out succeeds |
| Scenarios.GobLinesFannedOut | builder_test.go:94-183 | lines are parsed and Gob-encoded once, before the tee; each writer receives its own consumer's bytes for every parsed value, and the run succeeds |
| Scenarios.GobFanout | builder_test.go:94-183 | the chain of both Gob fan-out tests writes each consumer's bytes for every parsed line to its writer and succeeds |

## Left out

- Goroutines, `io.Pipe` blocking and backpressure: each pipe is read as a completed transfer, so interleavings are not modelled.
- Combinators.Run: takes every reader to drain its input. A branch or step that stops reading early blocks its producer (in a fan-out, every branch), and that deadlock is not modelled.
- Combinators.Connect: sinks never reject a write. In Go, `Copy` returns the error of `io.Copy`, which includes a writer's failure (a full disk behind `ToNewFile`, a writer that rejects data). `io.Copy` then stops reading, which is the non-draining case the drain reading above excludes. So the model writes every byte and returns only the read error.
- Combinators.ToWriterDelivers: inherits the gap of `Connect`: it states the read error as the result, never a write error of the sink. The same holds for `FramedDelivery`, `FramingDelivers`, `OutputDelivers` and `WriterReceivesFramedBody`.
- Combinators.ProgressBarMirrors: the bar's writer receives the whole input, because the model reads the input to its end. `io.TeeReader` mirrors only the bytes `next` actually reads. That is nothing when `ToNewFile` cannot create its file, only the bytes gzip reads before it rejects the header, and whatever was read before an early stop. A write error of the bar's writer, which the `TeeReader` returns to `next` as a read error, is not modelled either.
- Combinators.FirstError: gives the first branch error in registration order. `MultiProcess` takes results in arrival order, which depends on scheduling.
- Combinators.FanoutResult: states the race-free reading of `MultiProcess` (pipeline.go:332-376), where the copy goroutine's writes to the shared `err` (`io.Copy`'s error, then each `Close` result) never meet the result loop. Go can also:
  - return the tee's read error, when the result loop reads `err` after the copy goroutine stored it and before a `Close` overwrote it. With no branches the function may return before or after that store. With one branch the copy error is stored before the branch can finish.
  - return nil although a branch failed, when a later `Close` overwrites a branch error the loop had already stored.
  The model returns neither outcome.
- Files, HTTP, gzip, and the JSON, Gob and XML codecs are foreign code. They are the uninterpreted functions of `World`, and each decoder is read as the whole sequence of its `Decode` results.
- `os.File.Stat` errors are merged into the open error of `World.openFile`, and the deferred `Close` calls are not modelled.
- Encoders are stateless functions of one value (`World.jsonEncode`, `World.gobEncode`), so encoding a sequence is the concatenation of the single encodings. A real `gob.Encoder` sends each type's description once per stream, before the first value of that type, so for Gob the model's encoded bytes are not Go's bytes. The decoding requirement of the Gob scenario is stated over the model's bytes.
- `AddProcessingStep` and `AddReadonlyProcessor` accept any `Processor` closure in Go. The model's `Processor` has only the library's `Decode` (with `DecodeToWriter`) and `Transcode`. So `ProcessorEndsCleanly` and `ThroughStepsEndsCleanly`, which say a step's output ends with EOF, hold for library processors only. A user processor may close its pipe with an error.
- `TestCopyPipeCopy` in pipeline_test.go exercises only `io.Pipe` and `io.Copy`, no code of the package, so it has no scenario.
- `log.Printf` calls are not modelled; the model keeps only the control flow around them.
- `bufio.Scanner`'s 64 KiB token limit and its error on longer lines are not modelled.
- Go strings become byte sequences (`Bytes`); `int64` sizes are unbounded integers, and `ContentLength` may be any value.
- `ParseLineToJson` and `ParseLineToGob` are called in input_builder.go:31 and :35 but are not defined in the files, so the Go package does not compile as given. They are modelled as `ParseLineToCustomEncoder` with the JSON or Gob encoder of `World`.
- `TestMultiReader` (pipeline_test.go:13-37) passes parsers returning `string` where `ParseLine` takes a `LineParser[[]byte]`, so that test does not type-check either. `Scenarios.MultiReader` uses byte-valued parsers that append the same suffixes.
- `TestFanoutWithGobAndProcessorStepsAndStructs` also asserts, inside its consumers, that each decoded struct has a non-empty list. Values are untyped in the model, so that inner assertion is not modelled; `Scenarios.GobFanout` covers the test's chain and its nil result.
- `ParseLinesToCustomEncoder` is declared in the `InputBuilder` interface but no builder implements it. It appears in `Protocol` only, with no builder method.
- `ToFile(*os.File)`, `AppendToFile` and the `DecodeGob`, `DecodeJson`, `DecodeXML` and `DecodeGobToWriter` wrappers are not separate members. The first two are not reachable from the builders, and the wrappers are `Decode` with a fixed `Decoder` constructor.
- `DecodeToWriter` is the `Decode` processor: its consumer is read as the bytes it writes for one record.
- Builders.OutputBuilder.Build: requires a selected target. In Go a nil `outputStep` panics, and the interfaces always select one first.
- Builders.InputBuilder.Fanout, Builders.InputBuilder.ReadOnly, Builders.InputBuilder.ToFile, Builders.InputBuilder.ToWriter: require a selected source, which the `Builder` interface guarantees. Without one, Go's `Execute` would call a nil function.
- Builders.OutputBuilder.Execute, Builders.FanoutBuilder.Execute, Builders.ReadonlyBuilder.Execute: require a built pipeline. Go calls a nil function otherwise.
- Builders.FanoutBuilder.Register: the callback is a `BranchScript`, a target followed by option calls and a `Build`. A callback that does anything else (builds nothing, or builds twice) is not modelled, and neither is the `Pipeline` value it returns, which Go ignores.
- Scenarios.GobRoundTrip, Scenarios.JsonRoundTrip, Scenarios.GobFanout: the codecs are uninterpreted, so the test's literal expectations become a requirement that decoding reads back what encoding wrote.

/** The stream combinators of pipeline.go.

    A Go `Reader` (`func(io.Reader) error`) is represented by the datatype `Reader`, one
    constructor per combinator, and given its meaning by `Run`: for the complete stream the
    reader is handed, the effects it leaves (bytes written to sinks, parser calls) and the
    error it returns.  Each `io.Pipe` bridge is read as "the consumer sees exactly what the
    producer goroutine wrote, then the producer's close": the producer runs to the end of its
    input, and the downstream reader sees the resulting stream.  The foreign libraries (files,
    HTTP, gzip, json, gob, xml) are the function values of a `World`.

    The goroutine bodies of `ParseLine`, `ParseLineToCustomEncoder`, `Decode`, `Transcode`
    and `MultiProcess` are also written as loops (the methods `ParseLineLoop` and so on), each
    proved to compute what `Run` uses.
 */
module Combinators {
  import opened Streams
  import opened Scanning

  /** What a `LineParser[T]` returns for one line. */
  datatype ParseResult<T> = ParseResult(value: T, err: Option<Error>)

  /** A user line parser; `id` labels its calls in the effects of a run. */
  datatype LineParser<T> = LineParser(id: nat, parse: Bytes -> ParseResult<T>)

  /** The outcome of one `Decoder.Decode` call. */
  datatype DecodeStep = Record(value: Value) | EOF | DecodeError(err: Error)

  /** The outcome of one `Encoder.Encode` call: the bytes it writes, or its error. */
  datatype EncodeResult = Encoded(bytes: Bytes) | EncodeError(err: Error)

  /** A `NewDecoder`: a decoder bound to a stream yields its sequence of `Decode` results. */
  datatype Decoder = JsonDecoder | GobDecoder | XmlDecoder | CustomDecoder(decode: Stream -> seq<DecodeStep>)

  /** A `NewEncoder`: how each value is serialized. */
  datatype Encoder = JsonEncoder | GobEncoder | CustomEncoder(encode: Value -> EncodeResult)

  datatype Opened = OpenError(err: Error) | Opened(stream: Stream, size: int)

  datatype Gunzipped = GzipHeaderError(err: Error) | Gunzipped(stream: Stream)

  /** The code outside the repository: the file system, HTTP, gzip and the codecs. */
  datatype World = World(
    openFile: string -> Opened,           // os.Open then Stat().Size()
    httpGet: string -> Opened,            // http.Get, body and ContentLength
    createFile: string -> Option<Error>,  // os.Create
    gunzip: Stream -> Gunzipped,          // gzip.NewReader and reading it
    gzip: Bytes -> Bytes,                 // what a gzip.Writer emits by Close
    jsonEncode: Value -> EncodeResult,
    gobEncode: Value -> EncodeResult,
    jsonDecode: Stream -> seq<DecodeStep>,
    gobDecode: Stream -> seq<DecodeStep>,
    xmlDecode: Stream -> seq<DecodeStep>)

  function EncodeFn(e: Encoder, w: World): Value -> EncodeResult
  {
    match e
    case JsonEncoder => w.jsonEncode
    case GobEncoder => w.gobEncode
    case CustomEncoder(f) => f
  }

  function DecodeFn(d: Decoder, w: World): Stream -> seq<DecodeStep>
  {
    match d
    case JsonDecoder => w.jsonDecode
    case GobDecoder => w.gobDecode
    case XmlDecoder => w.xmlDecode
    case CustomDecoder(f) => f
  }

  /** A `Connector`: `Copy`, possibly behind `CompressGzip`. */
  datatype Connector = Copy | CompressGzip(next: Connector)

  /** The library's `Processor` values.  `Decode` also stands for `DecodeToWriter`: the
      consumer's result is the bytes it writes for one record. */
  datatype Processor =
    | Decode(decoder: Decoder, toBytes: Value -> Bytes)
    | Transcode(decoder: Decoder, encoder: Encoder, transform: Value -> Value)

  /** A `ProgressBarRegistrator`; `id` labels its calls, `writerFor(size)` is the writer it returns. */
  datatype Registrator = Registrator(id: nat, writerFor: int -> Sink)

  datatype Reader =
    | ToWriter(w: Sink, before: Connector)
    | Readonly(before: Connector)
    | ToNewFile(path: string, before: Connector)
    | Preamble(next: Reader, preamble: Bytes)
    | Appendix(next: Reader, appendix: Bytes)
    | ParseLine(next: Reader, p: LineParser<Bytes>)
    | ParseLineToCustomEncoder(encoder: Encoder, next: Reader, q: LineParser<Value>)
    | Apply(step: Processor, next: Reader)
    | DecompressGzip(next: Reader)
    | MultiProcess(branches: seq<Reader>)

  /** A `ReaderWithSize`. */
  datatype ReaderWithSize = IgnoreSize(next: Reader) | ProgressBar(register: Registrator, next: Reader)

  /** A source strategy (`consumeReaderWithSize`). */
  datatype SourceStrategy = FromFile(path: string) | FromWeb(url: string) | FromReader(stream: Stream, size: int)

  /** The closure a builder's `Build` stores and `Execute` calls: `source(readerWithSize)`. */
  datatype Pipeline = Pipeline(source: SourceStrategy, reader: ReaderWithSize)

  /** What a connector writes to its writer, and the error it returns. */
  datatype Transfer = Transfer(written: Bytes, err: Option<Error>)

  /** `Copy` moves the whole stream and returns only the read error (`io.Copy` maps EOF to nil);
      `CompressGzip` hands the writer the compressed form of what its inner connector wrote,
      flushed by the deferred Close whatever the inner connector returned. */
  function Connect(c: Connector, s: Stream, w: World): (t: Transfer)
    ensures t.err == s.end
    ensures c.Copy? ==> t.written == s.data
  {
    match c
    case Copy => Transfer(s.data, s.end)
    case CompressGzip(next) =>
      var inner := Connect(next, s, w);
      Transfer(w.gzip(inner.written), inner.err)
  }

  function Deliver(sink: Sink, t: Transfer): Outcome
  {
    Outcome([Write(sink, t.written)], t.err)
  }

  function CallEffects(id: nat, lines: seq<Bytes>): (es: seq<Effect>)
    ensures |es| == |lines|
    ensures forall k | 0 <= k < |es| :: es[k] == ParserCall(id, lines[k])
  {
    if lines == [] then [] else CallEffects(id, lines[..|lines| - 1]) + [ParserCall(id, lines[|lines| - 1])]
  }

  /** What `ParseLine`'s goroutine writes: the parser's bytes for each line, no separators. */
  function ParsedBytes(p: LineParser<Bytes>, lines: seq<Bytes>): Bytes
  {
    if lines == [] then [] else ParsedBytes(p, lines[..|lines| - 1]) + p.parse(lines[|lines| - 1]).value
  }

  function ParsedValues(q: LineParser<Value>, lines: seq<Bytes>): seq<Value>
  {
    if lines == [] then [] else ParsedValues(q, lines[..|lines| - 1]) + [q.parse(lines[|lines| - 1]).value]
  }

  /** The bytes the successful encodings write; a failed `Encode` writes nothing. */
  function EncodeAll(encode: Value -> EncodeResult, vs: seq<Value>): Bytes
  {
    if vs == [] then []
    else
      var last := match encode(vs[|vs| - 1]) case Encoded(b) => b case EncodeError(_) => [];
      EncodeAll(encode, vs[..|vs| - 1]) + last
  }

  /** The position of the first value whose encoding fails, or `|vs|` when none does. */
  function FirstFailure(encode: Value -> EncodeResult, vs: seq<Value>): (k: nat)
    ensures k <= |vs|
    ensures forall j | 0 <= j < k :: encode(vs[j]).Encoded?
    ensures k < |vs| ==> encode(vs[k]).EncodeError?
  {
    if vs == [] then 0
    else
      var init := vs[..|vs| - 1];
      var k := FirstFailure(encode, init);
      assert forall j | 0 <= j < |init| :: init[j] == vs[j];
      if k < |init| || encode(vs[|vs| - 1]).EncodeError? then k else |vs|
  }

  /** What `ParseLineToCustomEncoder`'s pipe delivers: the first failed `Encode` closes the pipe
      with its error, and every later write fails on the closed pipe. */
  function EncodeUntilError(encode: Value -> EncodeResult, vs: seq<Value>): Transfer
  {
    if vs == [] then Transfer([], None)
    else
      var t := EncodeUntilError(encode, vs[..|vs| - 1]);
      if t.err.Some? then t
      else
        match encode(vs[|vs| - 1])
        case Encoded(b) => Transfer(t.written + b, None)
        case EncodeError(e) => Transfer(t.written, Some(e))
  }

  /** One more value: once the pipe is closed nothing changes. */
  lemma EncodeUntilErrorSnoc(encode: Value -> EncodeResult, vs: seq<Value>, v: Value)
    ensures var t := EncodeUntilError(encode, vs);
      EncodeUntilError(encode, vs + [v])
      == if t.err.Some? then t
         else match encode(v)
           case Encoded(b) => Transfer(t.written + b, None)
           case EncodeError(e) => Transfer(t.written, Some(e))
  {
    assert (vs + [v])[..|vs|] == vs;
  }

  lemma ParsedBytesSnoc(p: LineParser<Bytes>, lines: seq<Bytes>, line: Bytes)
    ensures ParsedBytes(p, lines + [line]) == ParsedBytes(p, lines) + p.parse(line).value
  {
    assert (lines + [line])[..|lines|] == lines;
  }

  lemma ParsedValuesSnoc(q: LineParser<Value>, lines: seq<Bytes>, line: Bytes)
    ensures ParsedValues(q, lines + [line]) == ParsedValues(q, lines) + [q.parse(line).value]
  {
    assert (lines + [line])[..|lines|] == lines;
  }

  /** The pipe delivers the encodings of the values before the first failure, then that
      failure's error; with no failure, every encoding and then EOF. */
  lemma {:induction false} EncodeUntilErrorMeaning(encode: Value -> EncodeResult, vs: seq<Value>)
    ensures var k := FirstFailure(encode, vs);
      EncodeUntilError(encode, vs)
      == Transfer(EncodeAll(encode, vs[..k]), if k < |vs| then Some(encode(vs[k]).err) else None)
  {
    if vs != [] {
      var init := vs[..|vs| - 1];
      EncodeUntilErrorMeaning(encode, init);
      var k := FirstFailure(encode, init);
      assert forall j | 0 <= j < |init| :: init[j] == vs[j];
      if k < |init| {
        assert init[..k] == vs[..k];
      } else {
        assert k == |init| && init[..k] == init;
        assert vs[..|vs|] == vs;
      }
    }
  }

  /** The records a decoder yields before its first EOF or error: the longest run of `Record`
      steps at the front. */
  function Records(steps: seq<DecodeStep>): (r: seq<Value>)
    ensures |r| <= |steps|
    ensures forall k | 0 <= k < |r| :: steps[k] == Record(r[k])
    ensures |r| < |steps| ==> !steps[|r|].Record?
  {
    if steps == [] || !steps[0].Record? then [] else [steps[0].value] + Records(steps[1..])
  }

  function Consumed(consumer: Value -> Bytes, vs: seq<Value>): Bytes
  {
    if vs == [] then [] else Consumed(consumer, vs[..|vs| - 1]) + consumer(vs[|vs| - 1])
  }

  function Transformed(consumer: Value -> Value, vs: seq<Value>): seq<Value>
  {
    if vs == [] then [] else Transformed(consumer, vs[..|vs| - 1]) + [consumer(vs[|vs| - 1])]
  }

  /** The stream a processor hands `next`: both processors stop at the decoder's first EOF or
      error and close their pipe normally, so a decode error never reaches `next` as an error. */
  function Process(step: Processor, s: Stream, w: World): (out: Stream)
    ensures out.end == None
  {
    var records := Records(DecodeFn(step.decoder, w)(s));
    match step
    case Decode(_, consumer) => Stream(Consumed(consumer, records), None)
    case Transcode(_, encoder, consumer) => Stream(EncodeAll(EncodeFn(encoder, w), Transformed(consumer, records)), None)
  }

  /** The effects of the branch results, in registration order. */
  function AllEffects(rs: seq<Outcome>): seq<Effect>
  {
    if rs == [] then [] else AllEffects(rs[..|rs| - 1]) + rs[|rs| - 1].effects
  }

  /** `MultiProcess`'s result loop: the first non-nil branch result. */
  function FirstError(rs: seq<Outcome>): (e: Option<Error>)
    ensures e.None? <==> forall k | 0 <= k < |rs| :: rs[k].err.None?
    ensures e.Some? ==> exists k | 0 <= k < |rs| :: rs[k].err == e && forall j | 0 <= j < k :: rs[j].err.None?
  {
    if rs == [] then None
    else
      var init := rs[..|rs| - 1];
      var e := FirstError(init);
      assert forall k | 0 <= k < |init| :: init[k] == rs[k];
      if e.Some? then e else rs[|rs| - 1].err
  }

  /** What every fan-out branch reads: the tee copies the bytes and then closes each pipe with
      a plain Close, so a branch sees EOF even when the source failed. */
  function Teed(s: Stream): Stream
  {
    Stream(s.data, None)
  }

  /** The meaning of a reader handed the stream `s`. */
  function Run(r: Reader, s: Stream, w: World): Outcome
    decreases r
  {
    match r
    case ToWriter(sink, before) => Deliver(sink, Connect(before, s, w))
    case Readonly(before) => Deliver(Discard, Connect(before, s, w))
    case ToNewFile(path, before) =>
      (match w.createFile(path)
       case Some(e) => Outcome([], Some(e))
       case None => Deliver(File(path), Connect(before, s, w)))
    case Preamble(next, preamble) => Run(next, Stream(preamble + s.data, s.end), w)
    case Appendix(next, appendix) =>
      // io.MultiReader stops at a read error, so the appendix is read only after EOF
      Run(next, if s.end.None? then Stream(s.data + appendix, None) else s, w)
    case ParseLine(next, p) =>
      var lines := Lines(s.data);
      var o := Run(next, Stream(ParsedBytes(p, lines), None), w);
      Outcome(CallEffects(p.id, lines) + o.effects, o.err)
    case ParseLineToCustomEncoder(encoder, next, q) =>
      var lines := Lines(s.data);
      var t := EncodeUntilError(EncodeFn(encoder, w), ParsedValues(q, lines));
      var o := Run(next, Stream(t.written, t.err), w);
      Outcome(CallEffects(q.id, lines) + o.effects, o.err)
    case Apply(step, next) => Run(next, Process(step, s, w), w)
    case DecompressGzip(next) =>
      (match w.gunzip(s)
       case GzipHeaderError(e) => Outcome([], Some(e))
       case Gunzipped(inflated) => Run(next, inflated, w))
    case MultiProcess(branches) =>
      var results := seq(|branches|, k requires 0 <= k < |branches| => Run(branches[k], Teed(s), w));
      Outcome(AllEffects(results), FirstError(results))
  }

  function RunWithSize(r: ReaderWithSize, s: Stream, size: int, w: World): Outcome
  {
    match r
    case IgnoreSize(next) => Run(next, s, w)
    case ProgressBar(register, next) =>
      // io.TeeReader mirrors every byte the downstream reads
      var o := Run(next, s, w);
      Outcome([Registered(register.id, size), Write(register.writerFor(size), s.data)] + o.effects, o.err)
  }

  function RunSource(src: SourceStrategy, r: ReaderWithSize, w: World): Outcome
  {
    match src
    case FromReader(s, size) => RunWithSize(r, s, size, w)
    case FromFile(path) =>
      (match w.openFile(path)
       case OpenError(e) => Outcome([], Some(e))
       case Opened(s, size) => RunWithSize(r, s, size, w))
    case FromWeb(url) =>
      (match w.httpGet(url)
       case OpenError(e) => Outcome([], Some(e))
       case Opened(s, size) => RunWithSize(r, s, size, w))
  }

  /** What `Execute` on a built pipeline does. */
  function RunPipeline(p: Pipeline, w: World): Outcome
  {
    RunSource(p.source, p.reader, w)
  }

  // ---------------------------------------------------------------------------------------
  // What a reader can reach

  /** The sinks a reader can write to. */
  function SinksOf(r: Reader): set<Sink>
    decreases r
  {
    match r
    case ToWriter(sink, _) => {sink}
    case Readonly(_) => {Discard}
    case ToNewFile(path, _) => {File(path)}
    case Preamble(next, _) => SinksOf(next)
    case Appendix(next, _) => SinksOf(next)
    case ParseLine(next, _) => SinksOf(next)
    case ParseLineToCustomEncoder(_, next, _) => SinksOf(next)
    case Apply(_, next) => SinksOf(next)
    case DecompressGzip(next) => SinksOf(next)
    case MultiProcess(bs) => set k, x | 0 <= k < |bs| && x in SinksOf(bs[k]) :: x
  }

  /** The labels of the line parsers a reader calls. */
  function ParsersOf(r: Reader): set<nat>
    decreases r
  {
    match r
    case ToWriter(_, _) => {}
    case Readonly(_) => {}
    case ToNewFile(_, _) => {}
    case Preamble(next, _) => ParsersOf(next)
    case Appendix(next, _) => ParsersOf(next)
    case ParseLine(next, p) => {p.id} + ParsersOf(next)
    case ParseLineToCustomEncoder(_, next, q) => {q.id} + ParsersOf(next)
    case Apply(_, next) => ParsersOf(next)
    case DecompressGzip(next) => ParsersOf(next)
    case MultiProcess(bs) => set k, x | 0 <= k < |bs| && x in ParsersOf(bs[k]) :: x
  }

  lemma {:induction false} WrittenAll(rs: seq<Outcome>, sink: Sink)
    requires forall k | 0 <= k < |rs| :: Written(rs[k].effects, sink) == []
    ensures Written(AllEffects(rs), sink) == []
  {
    if rs != [] {
      var init := rs[..|rs| - 1];
      WrittenAll(init, sink);
      WrittenAppend(AllEffects(init), rs[|rs| - 1].effects, sink);
    }
  }

  lemma {:induction false} CallsAll(rs: seq<Outcome>, id: nat)
    requires forall k | 0 <= k < |rs| :: Calls(rs[k].effects, id) == []
    ensures Calls(AllEffects(rs), id) == []
  {
    if rs != [] {
      var init := rs[..|rs| - 1];
      CallsAll(init, id);
      CallsAppend(AllEffects(init), rs[|rs| - 1].effects, id);
    }
  }

  lemma {:induction false} RegistrationsAll(rs: seq<Outcome>, id: nat)
    requires forall k | 0 <= k < |rs| :: Registrations(rs[k].effects, id) == []
    ensures Registrations(AllEffects(rs), id) == []
  {
    if rs != [] {
      var init := rs[..|rs| - 1];
      RegistrationsAll(init, id);
      RegistrationsAppend(AllEffects(init), rs[|rs| - 1].effects, id);
    }
  }

  /** The parser-call effects of a scan record exactly the scanned lines, under that parser's
      label only, and nothing else. */
  lemma {:induction false} CallEffectsObserved(id: nat, lines: seq<Bytes>, other: nat, sink: Sink, reg: nat)
    requires other != id
    ensures Calls(CallEffects(id, lines), id) == lines
    ensures Calls(CallEffects(id, lines), other) == []
    ensures Written(CallEffects(id, lines), sink) == []
    ensures Registrations(CallEffects(id, lines), reg) == []
  {
    if lines != [] {
      var init := lines[..|lines| - 1];
      var last := [ParserCall(id, lines[|lines| - 1])];
      CallEffectsObserved(id, init, other, sink, reg);
      CallsAppend(CallEffects(id, init), last, id);
      CallsAppend(CallEffects(id, init), last, other);
      WrittenAppend(CallEffects(id, init), last, sink);
      RegistrationsAppend(CallEffects(id, init), last, reg);
      assert init + [lines[|lines| - 1]] == lines;
    }
  }

  /** A reader writes only to its own sinks. */
  lemma {:induction false} WritesStayInSinks(r: Reader, s: Stream, w: World, sink: Sink)
    requires sink !in SinksOf(r)
    ensures Written(Run(r, s, w).effects, sink) == []
    decreases r
  {
    match r
    case ToWriter(_, _) =>
    case Readonly(_) =>
    case ToNewFile(_, _) =>
    case Preamble(next, p) => WritesStayInSinks(next, Stream(p + s.data, s.end), w, sink);
    case Appendix(next, a) =>
      WritesStayInSinks(next, if s.end.None? then Stream(s.data + a, None) else s, w, sink);
    case ParseLine(next, p) =>
      var lines := Lines(s.data);
      WritesStayInSinks(next, Stream(ParsedBytes(p, lines), None), w, sink);
      CallEffectsObserved(p.id, lines, p.id + 1, sink, 0);
      WrittenAppend(CallEffects(p.id, lines), Run(next, Stream(ParsedBytes(p, lines), None), w).effects, sink);
    case ParseLineToCustomEncoder(encoder, next, q) =>
      var lines := Lines(s.data);
      var t := EncodeUntilError(EncodeFn(encoder, w), ParsedValues(q, lines));
      WritesStayInSinks(next, Stream(t.written, t.err), w, sink);
      CallEffectsObserved(q.id, lines, q.id + 1, sink, 0);
      WrittenAppend(CallEffects(q.id, lines), Run(next, Stream(t.written, t.err), w).effects, sink);
    case Apply(step, next) => WritesStayInSinks(next, Process(step, s, w), w, sink);
    case DecompressGzip(next) =>
      if w.gunzip(s).Gunzipped? {
        WritesStayInSinks(next, w.gunzip(s).stream, w, sink);
      }
    case MultiProcess(bs) =>
      var results := seq(|bs|, k requires 0 <= k < |bs| => Run(bs[k], Teed(s), w));
      forall k | 0 <= k < |bs|
        ensures Written(results[k].effects, sink) == []
      {
        WritesStayInSinks(bs[k], Teed(s), w, sink);
      }
      WrittenAll(results, sink);
  }

  /** A reader calls only its own line parsers. */
  lemma {:induction false} CallsStayWithParsers(r: Reader, s: Stream, w: World, id: nat)
    requires id !in ParsersOf(r)
    ensures Calls(Run(r, s, w).effects, id) == []
    decreases r
  {
    match r
    case ToWriter(_, _) =>
    case Readonly(_) =>
    case ToNewFile(_, _) =>
    case Preamble(next, p) => CallsStayWithParsers(next, Stream(p + s.data, s.end), w, id);
    case Appendix(next, a) =>
      CallsStayWithParsers(next, if s.end.None? then Stream(s.data + a, None) else s, w, id);
    case ParseLine(next, p) =>
      var lines := Lines(s.data);
      CallsStayWithParsers(next, Stream(ParsedBytes(p, lines), None), w, id);
      CallEffectsObserved(p.id, lines, id, Discard, 0);
      CallsAppend(CallEffects(p.id, lines), Run(next, Stream(ParsedBytes(p, lines), None), w).effects, id);
    case ParseLineToCustomEncoder(encoder, next, q) =>
      var lines := Lines(s.data);
      var t := EncodeUntilError(EncodeFn(encoder, w), ParsedValues(q, lines));
      CallsStayWithParsers(next, Stream(t.written, t.err), w, id);
      CallEffectsObserved(q.id, lines, id, Discard, 0);
      CallsAppend(CallEffects(q.id, lines), Run(next, Stream(t.written, t.err), w).effects, id);
    case Apply(step, next) => CallsStayWithParsers(next, Process(step, s, w), w, id);
    case DecompressGzip(next) =>
      if w.gunzip(s).Gunzipped? {
        CallsStayWithParsers(next, w.gunzip(s).stream, w, id);
      }
    case MultiProcess(bs) =>
      var results := seq(|bs|, k requires 0 <= k < |bs| => Run(bs[k], Teed(s), w));
      forall k | 0 <= k < |bs|
        ensures Calls(results[k].effects, id) == []
      {
        CallsStayWithParsers(bs[k], Teed(s), w, id);
      }
      CallsAll(results, id);
  }

  /** Only `ProgressBar` registers with a progress registrator; no `Reader` does. */
  lemma {:induction false} ReadersNeverRegister(r: Reader, s: Stream, w: World, id: nat)
    ensures Registrations(Run(r, s, w).effects, id) == []
    decreases r
  {
    match r
    case ToWriter(_, _) =>
    case Readonly(_) =>
    case ToNewFile(_, _) =>
    case Preamble(next, p) => ReadersNeverRegister(next, Stream(p + s.data, s.end), w, id);
    case Appendix(next, a) =>
      ReadersNeverRegister(next, if s.end.None? then Stream(s.data + a, None) else s, w, id);
    case ParseLine(next, p) =>
      var lines := Lines(s.data);
      ReadersNeverRegister(next, Stream(ParsedBytes(p, lines), None), w, id);
      CallEffectsObserved(p.id, lines, p.id + 1, Discard, id);
      RegistrationsAppend(CallEffects(p.id, lines), Run(next, Stream(ParsedBytes(p, lines), None), w).effects, id);
    case ParseLineToCustomEncoder(encoder, next, q) =>
      var lines := Lines(s.data);
      var t := EncodeUntilError(EncodeFn(encoder, w), ParsedValues(q, lines));
      ReadersNeverRegister(next, Stream(t.written, t.err), w, id);
      CallEffectsObserved(q.id, lines, q.id + 1, Discard, id);
      RegistrationsAppend(CallEffects(q.id, lines), Run(next, Stream(t.written, t.err), w).effects, id);
    case Apply(step, next) => ReadersNeverRegister(next, Process(step, s, w), w, id);
    case DecompressGzip(next) =>
      if w.gunzip(s).Gunzipped? {
        ReadersNeverRegister(next, w.gunzip(s).stream, w, id);
      }
    case MultiProcess(bs) =>
      var results := seq(|bs|, k requires 0 <= k < |bs| => Run(bs[k], Teed(s), w));
      forall k | 0 <= k < |bs|
        ensures Registrations(results[k].effects, id) == []
      {
        ReadersNeverRegister(bs[k], Teed(s), w, id);
      }
      RegistrationsAll(results, id);
  }

  // ---------------------------------------------------------------------------------------
  // Properties of the combinators

  /** `FromFile` and `FromWeb` return the open error without running the reader; otherwise,
      like `FromReader`, they hand the reader the opened stream and its size. */
  lemma SourceOutcome(src: SourceStrategy, r: ReaderWithSize, w: World)
    ensures src.FromReader? ==> RunSource(src, r, w) == RunWithSize(r, src.stream, src.size, w)
    ensures src.FromFile? ==> (var f := w.openFile(src.path);
      RunSource(src, r, w) == if f.OpenError? then Outcome([], Some(f.err)) else RunWithSize(r, f.stream, f.size, w))
    ensures src.FromWeb? ==> (var g := w.httpGet(src.url);
      RunSource(src, r, w) == if g.OpenError? then Outcome([], Some(g.err)) else RunWithSize(r, g.stream, g.size, w))
  {
  }

  /** `IgnoreSize` drops the size: the run does not depend on it. */
  lemma IgnoreSizeDropsSize(next: Reader, s: Stream, size: int, w: World)
    ensures RunWithSize(IgnoreSize(next), s, size, w) == Run(next, s, w)
  {
  }

  /** `ProgressBar` registers the size once, before anything is read, and its writer receives
      every byte the downstream reads; the downstream's result is the run's result. */
  lemma ProgressBarMirrors(register: Registrator, next: Reader, s: Stream, size: int, w: World)
    requires register.writerFor(size) !in SinksOf(next)
    ensures var o := RunWithSize(ProgressBar(register, next), s, size, w);
      && Registrations(o.effects, register.id) == [size]
      && Written(o.effects, register.writerFor(size)) == s.data
      && o.err == Run(next, s, w).err
  {
    var bar := register.writerFor(size);
    var o := Run(next, s, w);
    var head := [Registered(register.id, size), Write(bar, s.data)];
    ReadersNeverRegister(next, s, w, register.id);
    WritesStayInSinks(next, s, w, bar);
    RegistrationsAppend(head, o.effects, register.id);
    WrittenAppend(head, o.effects, bar);
  }

  /** `Copy` moves the whole input to the writer and returns the read error. */
  lemma ToWriterDelivers(sink: Sink, s: Stream, w: World)
    ensures var o := Run(ToWriter(sink, Copy), s, w);
      Written(o.effects, sink) == s.data && o.err == s.end
  {
  }

  /** `CompressGzip` hands the writer the gzip form of the whole input. */
  lemma CompressGzipDelivers(sink: Sink, s: Stream, w: World)
    ensures var o := Run(ToWriter(sink, CompressGzip(Copy)), s, w);
      Written(o.effects, sink) == w.gzip(s.data) && o.err == s.end
  {
  }

  /** `Readonly` drains its input into `io.Discard`: no other sink sees anything, and the
      result is the read error. */
  lemma ReadonlyDrains(before: Connector, s: Stream, w: World, sink: Sink)
    requires sink != Discard
    ensures var o := Run(Readonly(before), s, w);
      Written(o.effects, sink) == [] && o.err == s.end
  {
  }

  /** `ToNewFile` on a file it cannot create returns the error and reads nothing. */
  lemma ToNewFileCreateFails(path: string, before: Connector, s: Stream, w: World)
    requires w.createFile(path).Some?
    ensures Run(ToNewFile(path, before), s, w) == Outcome([], w.createFile(path))
  {
  }

  /** `Preamble` and `Appendix` frame the data: the writer receives the preamble, the input,
      then the appendix, which is read only if the input ended normally. */
  lemma FramedDelivery(sink: Sink, preamble: Bytes, appendix: Bytes, s: Stream, w: World)
    ensures var o := Run(Preamble(Appendix(ToWriter(sink, Copy), appendix), preamble), s, w);
      && Written(o.effects, sink) == preamble + s.data + (if s.end.None? then appendix else [])
      && o.err == s.end
  {
    var framed := Stream(preamble + s.data, s.end);
    var inner := if s.end.None? then Stream(framed.data + appendix, None) else framed;
    assert Run(Preamble(Appendix(ToWriter(sink, Copy), appendix), preamble), s, w)
        == Run(Appendix(ToWriter(sink, Copy), appendix), framed, w)
        == Run(ToWriter(sink, Copy), inner, w);
  }

  /** `ParseLine` calls its parser once per scanned line, in order; the reader after it sees
      the parser's bytes and EOF, whatever the parser or the upstream returned. */
  lemma ParseLineObserved(next: Reader, p: LineParser<Bytes>, s: Stream, w: World, sink: Sink)
    requires p.id !in ParsersOf(next)
    ensures var o := Run(ParseLine(next, p), s, w);
      var downstream := Run(next, Stream(ParsedBytes(p, Lines(s.data)), None), w);
      && Calls(o.effects, p.id) == Lines(s.data)
      && Written(o.effects, sink) == Written(downstream.effects, sink)
      && o.err == downstream.err
  {
    var lines := Lines(s.data);
    var parsed := Stream(ParsedBytes(p, lines), None);
    var downstream := Run(next, parsed, w);
    var es := CallEffects(p.id, lines);
    assert Run(ParseLine(next, p), s, w) == Outcome(es + downstream.effects, downstream.err);
    CallEffectsObserved(p.id, lines, p.id + 1, sink, 0);
    CallsStayWithParsers(next, parsed, w, p.id);
    CallsAppend(es, downstream.effects, p.id);
    WrittenAppend(es, downstream.effects, sink);
  }

  /** A processor's downstream always sees EOF: a decode error, or an upstream error seen by
      the decoder, stops the records but does not reach `next`. */
  lemma ProcessorEndsCleanly(step: Processor, next: Reader, s: Stream, w: World)
    ensures exists data :: Run(Apply(step, next), s, w) == Run(next, Stream(data, None), w)
  {
    var out := Process(step, s, w);
    assert Run(Apply(step, next), s, w) == Run(next, Stream(out.data, None), w);
  }

  /** A gzip header error is returned without running `next`. */
  lemma DecompressGzipHeaderError(next: Reader, s: Stream, w: World)
    requires w.gunzip(s).GzipHeaderError?
    ensures Run(DecompressGzip(next), s, w) == Outcome([], Some(w.gunzip(s).err))
  {
  }

  /** Fan-out with no readers is legal and succeeds. */
  lemma MultiProcessEmpty(s: Stream, w: World)
    ensures Run(MultiProcess([]), s, w) == Outcome([], None)
  {
  }

  /** Every fan-out branch reads the same complete copy of the input: a sink only branch `i`
      writes to receives what branch `i` alone would write for that input. */
  lemma FanoutIsolation(bs: seq<Reader>, i: nat, s: Stream, w: World, sink: Sink)
    requires i < |bs|
    requires forall j | 0 <= j < |bs| && j != i :: sink !in SinksOf(bs[j])
    ensures Written(Run(MultiProcess(bs), s, w).effects, sink) == Written(Run(bs[i], Teed(s), w).effects, sink)
  {
    var results := seq(|bs|, k requires 0 <= k < |bs| => Run(bs[k], Teed(s), w));
    forall j | 0 <= j < |bs| && j != i
      ensures Written(results[j].effects, sink) == []
    {
      WritesStayInSinks(bs[j], Teed(s), w, sink);
    }
    WrittenOne(results, i, sink);
  }

  lemma {:induction false} WrittenOne(rs: seq<Outcome>, i: nat, sink: Sink)
    requires i < |rs|
    requires forall j | 0 <= j < |rs| && j != i :: Written(rs[j].effects, sink) == []
    ensures Written(AllEffects(rs), sink) == Written(rs[i].effects, sink)
  {
    var init := rs[..|rs| - 1];
    var last := rs[|rs| - 1];
    WrittenAppend(AllEffects(init), last.effects, sink);
    if i == |rs| - 1 {
      WrittenAll(init, sink);
    } else {
      WrittenOne(init, i, sink);
    }
  }

  /** Fan-out returns the first failing branch's error in registration order, and nil only
      when every branch succeeded. */
  lemma FanoutResult(bs: seq<Reader>, s: Stream, w: World)
    ensures var e := Run(MultiProcess(bs), s, w).err;
      && (e.None? <==> forall k | 0 <= k < |bs| :: Run(bs[k], Teed(s), w).err.None?)
      && (e.Some? ==> exists k | 0 <= k < |bs| ::
            Run(bs[k], Teed(s), w).err == e && forall j | 0 <= j < k :: Run(bs[j], Teed(s), w).err.None?)
  {
    var results := seq(|bs|, k requires 0 <= k < |bs| => Run(bs[k], Teed(s), w));
    assert forall k | 0 <= k < |bs| :: results[k] == Run(bs[k], Teed(s), w);
  }

  // ---------------------------------------------------------------------------------------
  // Loops of the goroutine bodies

  /** One `scanner.Scan()`: the token starting at `start` and where the next one starts. */
  method ScanToken(data: Bytes, start: nat) returns (line: Bytes, next: nat)
    requires start < |data|
    ensures start < next <= |data|
    ensures Lines(data[start..]) == [line] + Lines(data[next..])
  {
    var rest := data[start..];
    var j := 0;
    while j < |rest| && rest[j] != NL
      invariant 0 <= j <= |rest|
      invariant forall k | 0 <= k < j :: rest[k] != NL
    {
      j := j + 1;
    }
    LinesSplit(rest, j);
    if j < |rest| {
      line, next := DropCR(rest[..j]), start + j + 1;
      assert rest[j + 1..] == data[next..];
      assert Lines(rest) == [line] + Lines(data[next..]);
    } else {
      line, next := DropCR(rest), |data|;
      assert data[next..] == [];
      assert Lines(data[next..]) == [];
      assert Lines(rest) == [line] + [];
    }
  }

  /** The scan loop's invariant survives one more token. */
  lemma LinesAdvance(data: Bytes, pos: nat, next: nat, line: Bytes, calls: seq<Bytes>)
    requires pos <= next <= |data|
    requires Lines(data[pos..]) == [line] + Lines(data[next..])
    requires calls + Lines(data[pos..]) == Lines(data)
    ensures (calls + [line]) + Lines(data[next..]) == Lines(data)
  {
    assert calls + ([line] + Lines(data[next..])) == (calls + [line]) + Lines(data[next..]);
  }

  /** `ParseLine`'s goroutine: one parser call per scanned line, in order, writing what the
      parser returned even when it also returned an error (the error is only logged). */
  method ParseLineLoop(data: Bytes, p: LineParser<Bytes>) returns (calls: seq<Bytes>, written: Bytes)
    ensures calls == Lines(data)
    ensures written == ParsedBytes(p, calls)
  {
    var pos := 0;
    calls, written := [], [];
    while pos < |data|
      invariant 0 <= pos <= |data|
      invariant calls + Lines(data[pos..]) == Lines(data)
      invariant written == ParsedBytes(p, calls)
      decreases |data| - pos
    {
      var line, next := ScanToken(data, pos);
      var parsed := p.parse(line);
      written := written + parsed.value;
      ParsedBytesSnoc(p, calls, line);
      LinesAdvance(data, pos, next, line, calls);
      calls := calls + [line];
      pos := next;
    }
    assert data[pos..] == [];
  }

  /** `ParseLineToCustomEncoder`'s goroutine: the parser runs on every line and its error is
      ignored; the first failed `Encode` closes the pipe with that error (`closed`), after
      which nothing more reaches the pipe. */
  method ParseLineToCustomEncoderLoop(data: Bytes, q: LineParser<Value>, encode: Value -> EncodeResult)
    returns (calls: seq<Bytes>, delivered: Bytes, closed: Option<Error>)
    ensures calls == Lines(data)
    ensures Transfer(delivered, closed) == EncodeUntilError(encode, ParsedValues(q, calls))
  {
    var pos := 0;
    calls, delivered, closed := [], [], None;
    while pos < |data|
      invariant 0 <= pos <= |data|
      invariant calls + Lines(data[pos..]) == Lines(data)
      invariant Transfer(delivered, closed) == EncodeUntilError(encode, ParsedValues(q, calls))
      decreases |data| - pos
    {
      var line, next := ScanToken(data, pos);
      var parsed := q.parse(line);
      var enc := encode(parsed.value);
      if closed.None? {
        match enc
        case Encoded(b) => delivered := delivered + b;
        case EncodeError(e) => closed := Some(e);
      }
      ParsedValuesSnoc(q, calls, line);
      EncodeUntilErrorSnoc(encode, ParsedValues(q, calls), parsed.value);
      LinesAdvance(data, pos, next, line, calls);
      calls := calls + [line];
      pos := next;
    }
    assert data[pos..] == [];
  }

  /** `Decode`'s goroutine: write `consumer(record)` for each record until the decoder reports
      EOF or an error, then close the pipe normally. */
  method DecodeLoop(steps: seq<DecodeStep>, consumer: Value -> Bytes) returns (written: Bytes)
    ensures written == Consumed(consumer, Records(steps))
  {
    ghost var records := Records(steps);
    var i := 0;
    written := [];
    while i < |steps| && steps[i].Record?
      invariant 0 <= i <= |records|
      invariant written == Consumed(consumer, records[..i])
    {
      assert records[..i + 1][..i] == records[..i];
      written := written + consumer(steps[i].value);
      i := i + 1;
    }
    assert records[..i] == records;
  }

  /** `Transcode`'s goroutine: encode `consumer(record)` for each record; a failed `Encode`
      is only logged and the loop goes on. */
  method TranscodeLoop(steps: seq<DecodeStep>, consumer: Value -> Value, encode: Value -> EncodeResult)
    returns (written: Bytes)
    ensures written == EncodeAll(encode, Transformed(consumer, Records(steps)))
  {
    ghost var records := Records(steps);
    var i := 0;
    written := [];
    while i < |steps| && steps[i].Record?
      invariant 0 <= i <= |records|
      invariant written == EncodeAll(encode, Transformed(consumer, records[..i]))
    {
      assert records[..i + 1][..i] == records[..i];
      var out := consumer(steps[i].value);
      ghost var before := Transformed(consumer, records[..i]);
      assert Transformed(consumer, records[..i + 1]) == before + [out];
      assert (before + [out])[..|before|] == before;
      if encode(out).Encoded? {
        written := written + encode(out).bytes;
      }
      i := i + 1;
    }
    assert records[..i] == records;
  }

  /** `MultiProcess`: one branch run per registered reader on the teed input, then the result
      loop keeping the first non-nil error. */
  method MultiProcessLoop(branches: seq<Reader>, s: Stream, w: World) returns (o: Outcome)
    ensures o == Run(MultiProcess(branches), s, w)
  {
    ghost var expected := seq(|branches|, k requires 0 <= k < |branches| => Run(branches[k], Teed(s), w));
    assert Run(MultiProcess(branches), s, w) == Outcome(AllEffects(expected), FirstError(expected));
    var results: seq<Outcome> := [];
    var i := 0;
    while i < |branches|
      invariant 0 <= i <= |branches|
      invariant results == expected[..i]
    {
      assert expected[..i + 1] == expected[..i] + [Run(branches[i], Teed(s), w)];
      results := results + [Run(branches[i], Teed(s), w)];
      i := i + 1;
    }
    assert results == expected;
    var err: Option<Error> := None;
    var effects: seq<Effect> := [];
    i := 0;
    while i < |branches|
      invariant 0 <= i <= |branches|
      invariant err == FirstError(results[..i])
      invariant effects == AllEffects(results[..i])
    {
      assert results[..i + 1][..i] == results[..i];
      var e := results[i].err;
      if err.None? {
        err := e;
      }
      effects := effects + results[i].effects;
      i := i + 1;
    }
    assert results[..i] == results;
    o := Outcome(effects, err);
  }
}

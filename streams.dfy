/** Byte streams, sinks and the effects a pipeline run leaves behind.

    A Go `io.Reader` is seen by its consumer as a finite sequence of bytes followed either by
    `io.EOF` or by some other read error; `Stream` records exactly that.  A run of a pipeline
    is observed through the bytes that reach each sink and the calls made to the user's line
    parsers and progress registrators; `Effect` records those side effects in the order a
    sequential reading of the program performs them.
 */
module Streams {

  newtype byte = x: int | 0 <= x < 256

  type Bytes = seq<byte>

  datatype Option<+T> = None | Some(value: T)

  /** A Go `error` value other than `io.EOF`. */
  datatype Error = Error(message: string)

  /** What a consumer reads: `data`, then EOF (`end == None`) or the read error `end`. */
  datatype Stream = Stream(data: Bytes, end: Option<Error>)

  /** Go's `any` as the codecs and line parsers see it. */
  datatype Value = Null | Str(bytes: Bytes) | List(items: seq<Value>)

  /** An `io.Writer` a pipeline can end in: `io.Discard`, a caller-provided writer, or a file. */
  datatype Sink = Discard | Target(id: nat) | File(path: string)

  datatype Effect =
    | Write(sink: Sink, data: Bytes)
    | ParserCall(parser: nat, line: Bytes)
    | Registered(registrator: nat, size: int)

  /** The side effects of a run and the error it returns (`None` is Go's `nil`). */
  datatype Outcome = Outcome(effects: seq<Effect>, err: Option<Error>)

  /** The bytes a run wrote to `sink`, in order. */
  function Written(es: seq<Effect>, sink: Sink): Bytes
  {
    if es == [] then []
    else (if es[0].Write? && es[0].sink == sink then es[0].data else []) + Written(es[1..], sink)
  }

  /** The lines handed to the line parser labelled `parser`, in order. */
  function Calls(es: seq<Effect>, parser: nat): seq<Bytes>
  {
    if es == [] then []
    else (if es[0].ParserCall? && es[0].parser == parser then [es[0].line] else []) + Calls(es[1..], parser)
  }

  /** The sizes handed to the progress registrator labelled `registrator`, in order. */
  function Registrations(es: seq<Effect>, registrator: nat): seq<int>
  {
    if es == [] then []
    else
      var here := if es[0].Registered? && es[0].registrator == registrator then [es[0].size] else [];
      here + Registrations(es[1..], registrator)
  }

  /** What reaches a sink is what each part of a run wrote there, part after part. */
  lemma {:induction false} WrittenAppend(a: seq<Effect>, b: seq<Effect>, sink: Sink)
    ensures Written(a + b, sink) == Written(a, sink) + Written(b, sink)
  {
    if a == [] {
      assert a + b == b;
    } else {
      assert (a + b)[1..] == a[1..] + b;
      WrittenAppend(a[1..], b, sink);
    }
  }

  lemma {:induction false} CallsAppend(a: seq<Effect>, b: seq<Effect>, parser: nat)
    ensures Calls(a + b, parser) == Calls(a, parser) + Calls(b, parser)
  {
    if a == [] {
      assert a + b == b;
    } else {
      assert (a + b)[1..] == a[1..] + b;
      CallsAppend(a[1..], b, parser);
    }
  }

  lemma {:induction false} RegistrationsAppend(a: seq<Effect>, b: seq<Effect>, registrator: nat)
    ensures Registrations(a + b, registrator) == Registrations(a, registrator) + Registrations(b, registrator)
  {
    if a == [] {
      assert a + b == b;
    } else {
      assert (a + b)[1..] == a[1..] + b;
      RegistrationsAppend(a[1..], b, registrator);
    }
  }

  /** A run writes to `sink` only through effects naming it. */
  lemma {:induction false} WrittenNowhere(es: seq<Effect>, sink: Sink)
    requires forall k | 0 <= k < |es| :: es[k].Write? ==> es[k].sink != sink
    ensures Written(es, sink) == []
  {
    if es != [] {
      WrittenNowhere(es[1..], sink);
    }
  }

  /** A string whose characters each fit in one byte. */
  predicate Narrow(s: string)
  {
    forall k | 0 <= k < |s| :: s[k] as int < 256
  }

  /** The bytes of a string of one-byte characters (used to state the concrete scenarios). */
  function Text(s: string): (r: Bytes)
    requires Narrow(s)
    ensures |r| == |s|
    ensures forall k | 0 <= k < |s| :: r[k] as int == s[k] as int
  {
    seq(|s|, k requires 0 <= k < |s| => s[k] as int as byte)
  }

  lemma TextAppend(a: string, b: string)
    requires Narrow(a) && Narrow(b)
    ensures Narrow(a + b)
    ensures Text(a + b) == Text(a) + Text(b)
  {
    assert Narrow(a + b) by {
      forall k | 0 <= k < |a + b| ensures (a + b)[k] as int < 256 {
        if k < |a| { assert (a + b)[k] == a[k]; } else { assert (a + b)[k] == b[k - |a|]; }
      }
    }
  }
}

/**
 * Output sinks.  In the source a sink is a closure `func(level, message)`
 * that writes somewhere; the factories build closures and two of them wrap
 * other sinks.  Here a sink is a value that says which factory built it, and
 * what a call does is an ordered list of events appended to a trace: a line
 * written to a stream, or a call into a caller-supplied function.
 */
module Outputs {
  import opened Wrappers
  import opened Levels

  /** Where a line can be written. */
  datatype Stream =
    | Stderr
    | Stdout
    | Writer(id: nat)        // a caller-supplied io.Writer
    | LogFile(path: string)  // a file opened for appending

  /** One observable effect of calling a sink. */
  datatype Event =
    | Wrote(stream: Stream, text: string)
    | Called(sink: nat, level: int, message: string)  // a caller-supplied sink function ran

  /** A sink, by the factory that built it. */
  datatype Sink =
    | ConsoleSink                                     // ConsoleOutput and the default console sink
    | WriterSink(target: Stream)                       // WriterOutput, and FileOutput once opened
    | SplitSink(errorWriter: Stream, infoWriter: Stream)
    | MultiSink(outputs: seq<Sink>)
    | FilterSink(minLevel: int, output: Sink)         // LevelFilterOutput
    | FuncSink(id: nat)                               // any other function of the caller's

  /** The error-stream routing shared by the console and split sinks. */
  function Route(level: int, errorWriter: Stream, infoWriter: Stream): (r: Stream)
    ensures WithinThreshold(level, Error) ==> r == errorWriter
    ensures !WithinThreshold(level, Error) ==> r == infoWriter
  {
    if WithinThreshold(level, Error) then errorWriter else infoWriter
  }

  /**
   * What one call of a sink appends: Fprintln adds a newline to the message.
   * No sink, however nested, alters what it was given: each write is the
   * message plus a newline and each call receives the original arguments;
   * a sink that is not a combinator makes exactly one write or call.
   */
  function Deliver(s: Sink, level: int, message: string): (r: seq<Event>)
    decreases s
    ensures forall i :: 0 <= i < |r| ==> Carries(r[i], level, message)
    ensures IsLeaf(s) ==> |r| == 1
  {
    match s
    case ConsoleSink => [Wrote(Route(level, Stderr, Stdout), message + "\n")]
    case WriterSink(w) => [Wrote(w, message + "\n")]
    case SplitSink(e, i) => [Wrote(Route(level, e, i), message + "\n")]
    case MultiSink(outs) => FanOut(outs, level, message)
    case FilterSink(minLevel, o) =>
      if WithinThreshold(level, minLevel) then Deliver(o, level, message) else []
    case FuncSink(id) => [Called(id, level, message)]
  }

  /** Calling every sink of a list, first to last, with the same arguments. */
  function FanOut(outs: seq<Sink>, level: int, message: string): (r: seq<Event>)
    decreases outs
    ensures forall i :: 0 <= i < |r| ==> Carries(r[i], level, message)
  {
    if outs == [] then [] else Deliver(outs[0], level, message) + FanOut(outs[1..], level, message)
  }

  /** The concatenation of a list of event lists, in order. */
  function Concat(parts: seq<seq<Event>>): seq<Event> {
    if parts == [] then [] else parts[0] + Concat(parts[1..])
  }

  /** A sink that makes exactly one call or write itself (not a combinator). */
  predicate IsLeaf(s: Sink) {
    !s.MultiSink? && !s.FilterSink?
  }

  /**
   * An event is faithful to a call at `level` with `message` when a write is
   * exactly the message and a newline, and a function call passes both on
   * unchanged.
   */
  predicate Carries(e: Event, level: int, message: string) {
    match e
    case Wrote(_, text) => text == message + "\n"
    case Called(_, l, m) => l == level && m == message
  }

  /** FileOutput's two results: exactly one of them is set. */
  datatype FileResult = FileResult(output: Option<Sink>, err: Option<string>)

  /**
   * FileOutput.  Opening the file is I/O: `openError` is what the open
   * reported (None when it succeeded).  On success the sink appends each
   * message and a newline to the file; on failure there is no sink and the
   * error names the file and wraps the cause.
   */
  function FileOutput(filename: string, openError: Option<string>): (r: FileResult)
    ensures r.output.Some? <==> openError.None?
    ensures r.err.Some? <==> openError.Some?
    ensures r.output.Some? ==>
              forall level, message :: Deliver(r.output.value, level, message) == [Wrote(LogFile(filename), message + "\n")]
    ensures r.err.Some? ==>
              r.err.value == "failed to open log file " + filename + ": " + openError.value
  {
    match openError
    case Some(cause) => FileResult(None, Some("failed to open log file " + filename + ": " + cause))
    case None => FileResult(Some(WriterSink(LogFile(filename))), None)
  }

  /** The streams written to: appended to, never rewritten. */
  class Trace {
    var events: seq<Event>

    constructor ()
      ensures events == []
    {
      events := [];
    }

    method Append(e: Event)
      modifies this
      ensures events == old(events) + [e]
    {
      events := events + [e];
    }
  }

  /**
   * Calling a sink: the closure each factory returns.  The multi-output
   * closure is the loop over its sinks.
   */
  method Emit(s: Sink, level: int, message: string, t: Trace)
    modifies t
    decreases s
    ensures t.events == old(t.events) + Deliver(s, level, message)
  {
    match s
    case ConsoleSink =>
      if WithinThreshold(level, Error) {
        t.Append(Wrote(Stderr, message + "\n"));
      } else {
        t.Append(Wrote(Stdout, message + "\n"));
      }
    case WriterSink(w) =>
      t.Append(Wrote(w, message + "\n"));
    case SplitSink(errorWriter, infoWriter) =>
      if WithinThreshold(level, Error) {
        t.Append(Wrote(errorWriter, message + "\n"));
      } else {
        t.Append(Wrote(infoWriter, message + "\n"));
      }
    case MultiSink(outs) =>
      var i := 0;
      while i < |outs|
        invariant 0 <= i <= |outs|
        invariant t.events == old(t.events) + FanOut(outs[..i], level, message)
      {
        Emit(outs[i], level, message, t);
        FanOutAppend(outs[..i], [outs[i]], level, message);
        assert outs[..i + 1] == outs[..i] + [outs[i]];
        i := i + 1;
      }
      assert outs[..i] == outs;
    case FilterSink(minLevel, o) =>
      if WithinThreshold(level, minLevel) {
        Emit(o, level, message, t);
      }
    case FuncSink(id) =>
      t.Append(Called(id, level, message));
  }

  /** Fanning out over two lists one after the other is fanning out over both. */
  lemma {:induction false} FanOutAppend(a: seq<Sink>, b: seq<Sink>, level: int, message: string)
    ensures FanOut(a + b, level, message) == FanOut(a, level, message) + FanOut(b, level, message)
    decreases a
  {
    if a == [] {
      assert a + b == b;
    } else {
      assert (a + b)[1..] == a[1..] + b;
      FanOutAppend(a[1..], b, level, message);
    }
  }

  /**
   * MultiOutput: calling the combined sink is calling each of its sinks once,
   * in argument order, with the level and message unchanged.
   */
  lemma {:induction false} MultiInOrder(outs: seq<Sink>, level: int, message: string)
    ensures Deliver(MultiSink(outs), level, message)
            == Concat(seq(|outs|, i requires 0 <= i < |outs| => Deliver(outs[i], level, message)))
    decreases outs
  {
    var parts := seq(|outs|, i requires 0 <= i < |outs| => Deliver(outs[i], level, message));
    if outs != [] {
      MultiInOrder(outs[1..], level, message);
      assert parts[1..] == seq(|outs[1..]|, i requires 0 <= i < |outs[1..]| => Deliver(outs[1..][i], level, message));
    }
  }

  /** MultiOutput with no sinks does nothing. */
  lemma MultiEmpty(level: int, message: string)
    ensures Deliver(MultiSink([]), level, message) == []
  {
  }

  /**
   * A list of caller functions is called exactly once each, in list order,
   * each with the original level and message.
   */
  lemma {:induction false} FanOutCallsEachOnce(outs: seq<Sink>, level: int, message: string)
    requires forall i :: 0 <= i < |outs| ==> outs[i].FuncSink?
    ensures |FanOut(outs, level, message)| == |outs|
    ensures forall i :: 0 <= i < |outs| ==> FanOut(outs, level, message)[i] == Called(outs[i].id, level, message)
    decreases outs
  {
    if outs != [] {
      FanOutCallsEachOnce(outs[1..], level, message);
    }
  }

  /**
   * Console and split sinks send every level within Error (any negative
   * value included) to the error stream and the rest to the info stream;
   * every leaf sink makes exactly one write (or call) per message, and
   * writers ignore the level.
   */
  lemma LeafDeliversOnce(s: Sink, level: int, message: string)
    requires IsLeaf(s)
    ensures |Deliver(s, level, message)| == 1
    ensures s.ConsoleSink? ==>
              Deliver(s, level, message)[0] == Wrote(if WithinThreshold(level, Error) then Stderr else Stdout, message + "\n")
    ensures s.SplitSink? ==>
              Deliver(s, level, message)[0] == Wrote(if WithinThreshold(level, Error) then s.errorWriter else s.infoWriter, message + "\n")
    ensures s.WriterSink? ==>
              forall level' :: Deliver(s, level', message) == [Wrote(s.target, message + "\n")]
  {
  }

  /** The split sink over the standard streams behaves as the console sink. */
  lemma SplitOverStdIsConsole(level: int, message: string)
    ensures Deliver(SplitSink(Stderr, Stdout), level, message) == Deliver(ConsoleSink, level, message)
  {
  }

  /** LevelFilterOutput forwards to its sink exactly when the level passes its own threshold. */
  lemma FilterGates(minLevel: int, o: Sink, level: int, message: string)
    ensures WithinThreshold(level, minLevel) ==> Deliver(FilterSink(minLevel, o), level, message) == Deliver(o, level, message)
    ensures !WithinThreshold(level, minLevel) ==> Deliver(FilterSink(minLevel, o), level, message) == []
  {
  }

  /** A sink behind a filter only ever receives levels within the filter's threshold. */
  lemma FilterOnlyPasses(minLevel: int, o: Sink, level: int, message: string)
    ensures forall i :: 0 <= i < |Deliver(FilterSink(minLevel, o), level, message)| ==>
              var e := Deliver(FilterSink(minLevel, o), level, message)[i];
              e.Called? ==> WithinThreshold(e.level, minLevel)
  {
  }

  /** Two nested filters forward exactly when the level passes the stricter of the two. */
  lemma FilterNesting(a: int, b: int, o: Sink, level: int, message: string)
    ensures Deliver(FilterSink(a, FilterSink(b, o)), level, message)
            == Deliver(FilterSink(if a <= b then a else b, o), level, message)
  {
  }
}

/**
 * The logger: construction with defaults, filtering by threshold, formatting
 * once, and fan-out to the configured sinks in order.  Every call appends to
 * a Trace, the model of the streams and functions the sinks reach.  The
 * clock reading and the JSON encoder are parameters of each call.
 */
module Logging {
  import opened Wrappers
  import Levels
  import opened Outputs
  import opened Formatting

  /** The options record the caller passes to NewLogger. */
  datatype LogOptions = LogOptions(
    level: int,
    format: string,
    formatCallback: Option<FormatFunc>,
    outputs: seq<Sink>,
    prefix: string)

  /**
   * The variadic context argument: only the first one is used, and no
   * argument means an empty context.
   */
  function ContextArg(contexts: seq<Context>): (info: Context)
    ensures |contexts| > 0 ==> info == contexts[0]
    ensures |contexts| == 0 ==> |info| == 0
  {
    if |contexts| > 0 then contexts[0] else map[]
  }

  /** The sink NewLogger installs when the caller configures none. */
  function DefaultConsoleOutput(): (s: Sink)
    ensures forall level, message :: Deliver(s, level, message)
              == [Wrote(if Levels.WithinThreshold(level, Levels.Error) then Stderr else Stdout, message + "\n")]
  {
    ConsoleSink
  }

  class Logger {
    var level: int
    var format: string
    var formatCallback: Option<FormatFunc>
    var outputs: seq<Sink>
    var prefix: string

    /**
     * What construction guarantees: a defined threshold, a format and at
     * least one sink.  No operation requires it: a zero-valued Logger built
     * without NewLogger has an empty format and no sinks, and the source
     * still lets it log (it formats as text and calls no sink).
     */
    ghost predicate Valid()
      reads this
    {
      Levels.IsLevel(level) && format != "" && |outputs| > 0
    }

    /**
     * NewLogger: copy the options, then replace an out-of-range level by
     * Info, an empty format by text, and an empty sink list by the default
     * console sink.  Everything else is kept as given.
     */
    constructor NewLogger(options: LogOptions)
      ensures Valid()
      ensures level == (if Levels.IsLevel(options.level) then options.level else Levels.Info)
      ensures format == (if options.format == "" then StringOutput else options.format)
      ensures outputs == (if options.outputs == [] then [DefaultConsoleOutput()] else options.outputs)
      ensures formatCallback == options.formatCallback
      ensures prefix == options.prefix
    {
      level := options.level;
      format := options.format;
      formatCallback := options.formatCallback;
      outputs := options.outputs;
      prefix := options.prefix;
      new;
      if level < Levels.Emergency || level > Levels.Debug {
        level := Levels.Info;
      }
      if format == "" {
        format := StringOutput;
      }
      if |outputs| == 0 {
        outputs := [DefaultConsoleOutput()];
      }
    }

    /**
     * shouldLog: the message is at least as severe as this logger's
     * threshold.  A constructed logger therefore always emits Emergency
     * messages and never a level beyond Debug.
     */
    function ShouldLog(l: int): (r: bool)
      reads this
      ensures r <==> l <= level
      ensures Valid() && l <= Levels.Emergency ==> r
      ensures Valid() && l > Levels.Debug ==> !r
    {
      Levels.WithinThreshold(l, level)
    }

    /**
     * What one Log call appends to the trace: nothing for a filtered level;
     * otherwise only events that carry the original level and the one
     * string formatted from the call.
     */
    function Emitted(l: int, message: string, contexts: seq<Context>, ts: string, enc: Encoder): (r: seq<Event>)
      reads this
      ensures !ShouldLog(l) ==> r == []
      ensures forall i :: 0 <= i < |r| ==>
                Carries(r[i], l, FormatMessage(formatCallback, format, prefix, l, message, ContextArg(contexts), ts, enc))
    {
      if ShouldLog(l) then
        FanOut(outputs, l, FormatMessage(formatCallback, format, prefix, l, message, ContextArg(contexts), ts, enc))
      else []
    }

    /** outputMessage: call every configured sink, in list order, with the same arguments. */
    method OutputMessage(l: int, message: string, t: Trace)
      modifies t
      ensures t.events == old(t.events) + FanOut(outputs, l, message)
    {
      var i := 0;
      while i < |outputs|
        invariant 0 <= i <= |outputs|
        invariant t.events == old(t.events) + FanOut(outputs[..i], l, message)
      {
        Emit(outputs[i], l, message, t);
        FanOutAppend(outputs[..i], [outputs[i]], l, message);
        assert outputs[..i + 1] == outputs[..i] + [outputs[i]];
        i := i + 1;
      }
      assert outputs[..i] == outputs;
    }

    /**
     * Log: below the threshold nothing happens; otherwise the message is
     * formatted once and handed to every sink.
     */
    method Log(l: int, message: string, contexts: seq<Context>, ts: string, enc: Encoder, t: Trace)
      modifies t
      ensures !ShouldLog(l) ==> t.events == old(t.events)
      ensures t.events == old(t.events) + Emitted(l, message, contexts, ts, enc)
    {
      if ShouldLog(l) {
        var info: Context;
        if |contexts| > 0 {
          info := contexts[0];
        } else {
          info := map[];
        }
        var formatted := FormatMessage(formatCallback, format, prefix, l, message, info, ts, enc);
        OutputMessage(l, formatted, t);
      }
    }

    method Emergency(message: string, contexts: seq<Context>, ts: string, enc: Encoder, t: Trace)
      modifies t
      ensures t.events == old(t.events) + Emitted(Levels.Emergency, message, contexts, ts, enc)
    {
      Log(Levels.Emergency, message, contexts, ts, enc, t);
    }

    method Alert(message: string, contexts: seq<Context>, ts: string, enc: Encoder, t: Trace)
      modifies t
      ensures t.events == old(t.events) + Emitted(Levels.Alert, message, contexts, ts, enc)
    {
      Log(Levels.Alert, message, contexts, ts, enc, t);
    }

    method Critical(message: string, contexts: seq<Context>, ts: string, enc: Encoder, t: Trace)
      modifies t
      ensures t.events == old(t.events) + Emitted(Levels.Critical, message, contexts, ts, enc)
    {
      Log(Levels.Critical, message, contexts, ts, enc, t);
    }

    method Error(message: string, contexts: seq<Context>, ts: string, enc: Encoder, t: Trace)
      modifies t
      ensures t.events == old(t.events) + Emitted(Levels.Error, message, contexts, ts, enc)
    {
      Log(Levels.Error, message, contexts, ts, enc, t);
    }

    method Warning(message: string, contexts: seq<Context>, ts: string, enc: Encoder, t: Trace)
      modifies t
      ensures t.events == old(t.events) + Emitted(Levels.Warning, message, contexts, ts, enc)
    {
      Log(Levels.Warning, message, contexts, ts, enc, t);
    }

    method Notice(message: string, contexts: seq<Context>, ts: string, enc: Encoder, t: Trace)
      modifies t
      ensures t.events == old(t.events) + Emitted(Levels.Notice, message, contexts, ts, enc)
    {
      Log(Levels.Notice, message, contexts, ts, enc, t);
    }

    method Info(message: string, contexts: seq<Context>, ts: string, enc: Encoder, t: Trace)
      modifies t
      ensures t.events == old(t.events) + Emitted(Levels.Info, message, contexts, ts, enc)
    {
      Log(Levels.Info, message, contexts, ts, enc, t);
    }

    method Debug(message: string, contexts: seq<Context>, ts: string, enc: Encoder, t: Trace)
      modifies t
      ensures t.events == old(t.events) + Emitted(Levels.Debug, message, contexts, ts, enc)
    {
      Log(Levels.Debug, message, contexts, ts, enc, t);
    }
  }

  /**
   * Raising the threshold never loses a message: two loggers that differ
   * only in their threshold emit the same events for every call the
   * stricter one emits.
   */
  lemma ThresholdMonotone(strict: Logger, lax: Logger, l: int, message: string, contexts: seq<Context>,
                          ts: string, enc: Encoder)
    requires strict.format == lax.format && strict.prefix == lax.prefix
    requires strict.formatCallback == lax.formatCallback && strict.outputs == lax.outputs
    requires strict.level <= lax.level
    ensures strict.ShouldLog(l) ==> lax.Emitted(l, message, contexts, ts, enc) == strict.Emitted(l, message, contexts, ts, enc)
    ensures strict.Emitted(l, message, contexts, ts, enc) != [] ==>
              lax.Emitted(l, message, contexts, ts, enc) == strict.Emitted(l, message, contexts, ts, enc)
  {
  }

  /**
   * An emitted message is formatted once and every configured sink is called
   * with that one string and the original level, each once, in list order.
   */
  lemma LogFansOut(lg: Logger, l: int, message: string, contexts: seq<Context>, ts: string, enc: Encoder)
    requires lg.ShouldLog(l)
    ensures var f := FormatMessage(lg.formatCallback, lg.format, lg.prefix, l, message, ContextArg(contexts), ts, enc);
            var outs := lg.outputs;
            lg.Emitted(l, message, contexts, ts, enc)
            == Concat(seq(|outs|, i requires 0 <= i < |outs| => Deliver(outs[i], l, f)))
  {
    var f := FormatMessage(lg.formatCallback, lg.format, lg.prefix, l, message, ContextArg(contexts), ts, enc);
    MultiInOrder(lg.outputs, l, f);
  }

  /**
   * With a format callback and caller-function sinks, each sink receives
   * exactly the callback's result, computed from the first context argument
   * or from an empty map when none was passed.
   */
  lemma LogWithCallback(lg: Logger, l: int, message: string, contexts: seq<Context>, ts: string, enc: Encoder)
    requires lg.formatCallback.Some?
    requires lg.ShouldLog(l)
    requires forall i :: 0 <= i < |lg.outputs| ==> lg.outputs[i].FuncSink?
    ensures var f := lg.formatCallback.value(l, message, if |contexts| > 0 then contexts[0] else map[]);
            |lg.Emitted(l, message, contexts, ts, enc)| == |lg.outputs| &&
            forall i :: 0 <= i < |lg.outputs| ==>
              lg.Emitted(l, message, contexts, ts, enc)[i] == Called(lg.outputs[i].id, l, f)
  {
    var f := lg.formatCallback.value(l, message, ContextArg(contexts));
    FanOutCallsEachOnce(lg.outputs, l, f);
  }

  /** The two text lines the threshold example expects, without prefix or context. */
  lemma ExampleLines(ts: string, enc: Encoder)
    ensures FormatMessage(None, StringOutput, "", Levels.Error, "error message", map[], ts, enc)
            == "[" + ts + "] [ERROR] error message"
    ensures FormatMessage(None, StringOutput, "", Levels.Emergency, "emergency message", map[], ts, enc)
            == "[" + ts + "] [EMERGENCY] emergency message"
  {
    PlainTextLine(ts, Levels.Error, "error message", enc);
    PlainTextLine(ts, Levels.Emergency, "emergency message", enc);
  }

  /**
   * Threshold Error, text format, no prefix and one caller sink: of the
   * Debug, Info, Error and Emergency calls only the last two reach the
   * sink, each once, as a text line.
   */
  method LevelsExample(ts: string, enc: Encoder) returns (events: seq<Event>)
    ensures events == [Called(0, Levels.Error, "[" + ts + "] [ERROR] error message"),
                       Called(0, Levels.Emergency, "[" + ts + "] [EMERGENCY] emergency message")]
  {
    var lg := new Logger.NewLogger(LogOptions(Levels.Error, StringOutput, None, [FuncSink(0)], ""));
    var t := new Trace();
    lg.Debug("debug message", [], ts, enc, t);
    lg.Info("info message", [], ts, enc, t);
    assert t.events == [];
    ExampleLines(ts, enc);
    var errorLine := FormatMessage(None, StringOutput, "", Levels.Error, "error message", ContextArg([]), ts, enc);
    lg.Error("error message", [], ts, enc, t);
    assert t.events == [Called(0, Levels.Error, errorLine)];
    var emergencyLine := FormatMessage(None, StringOutput, "", Levels.Emergency, "emergency message", ContextArg([]), ts, enc);
    lg.Emergency("emergency message", [], ts, enc, t);
    assert t.events == [Called(0, Levels.Error, errorLine), Called(0, Levels.Emergency, emergencyLine)];
    events := t.events;
  }

  /** A custom callback's result is what the sinks receive. */
  method CallbackExample(ts: string, enc: Encoder) returns (events: seq<Event>)
    ensures events == [Called(0, Levels.Info, "CUSTOM: test message")]
  {
    var custom: FormatFunc := (l, m, info) => "CUSTOM: " + m;
    var lg := new Logger.NewLogger(LogOptions(Levels.Debug, "", Some(custom), [FuncSink(0)], ""));
    var t := new Trace();
    var line := FormatMessage(Some(custom), StringOutput, "", Levels.Info, "test message", ContextArg([]), ts, enc);
    assert line == custom(Levels.Info, "test message", ContextArg([]));
    assert line == "CUSTOM: test message";
    lg.Info("test message", [], ts, enc, t);
    assert t.events == [Called(0, Levels.Info, line)];
    events := t.events;
  }
}

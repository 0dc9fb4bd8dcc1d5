/**
 * Turning (level, message, context) into the one string handed to the sinks.
 * The clock and the JSON serialiser are outside the model: the timestamp is
 * a parameter, and the serialiser is an encoder function over the key/value
 * map it would be given.
 */
module Formatting {
  import opened Wrappers
  import opened Levels

  /** A context value (Go's interface{}): strings, numbers, booleans, or anything else. */
  datatype Value = Str(s: string) | Int(i: int) | Bool(b: bool) | Opaque(tag: nat)

  /** The caller's key/value context of one call. */
  type Context = map<string, Value>

  /** json.Marshal of a string-keyed map, as an uninterpreted function. */
  type Encoder = map<string, Value> -> string

  /** A caller-supplied formatter (FormatFunc). */
  type FormatFunc = (int, string, Context) -> string

  const StringOutput: string := "string"
  const JsonOutput: string := "json"

  function Bracket(s: string): string {
    "[" + s + "]"
  }

  /**
   * Text mode: "[prefix] [timestamp] [LEVEL]", the prefix segment only for a
   * non-empty prefix, then the encoded context only for a non-empty context,
   * then the message, each after one space.  The line opens with the
   * bracketed prefix when there is one, else with the bracketed timestamp,
   * and always ends with one space and the message.
   */
  function TextLine(prefix: string, ts: string, level: int, message: string, info: Context, enc: Encoder): (r: string)
    ensures EndsWith(r, " " + message)
    ensures prefix != "" ==> StartsWith(r, Bracket(prefix) + " ")
    ensures prefix == "" ==> StartsWith(r, Bracket(ts) + " ")
  {
    var base :=
      if prefix != "" then Bracket(prefix) + " " + Bracket(ts) + " " + Bracket(Name(level))
      else Bracket(ts) + " " + Bracket(Name(level));
    var withInfo := if |info| > 0 then base + " " + enc(info) else base;
    withInfo + " " + message
  }

  /** The keys JSON mode always writes before the context. */
  function FixedKeys(prefix: string): set<string> {
    {"timestamp", "level", "message"} + (if prefix != "" then {"prefix"} else {})
  }

  /**
   * JSON mode's map: the fixed fields, then every context entry written over
   * them, so a context key that collides with a fixed field wins.
   */
  function JsonRecord(prefix: string, ts: string, level: int, message: string, info: Context): (r: map<string, Value>)
    ensures r.Keys == FixedKeys(prefix) + info.Keys
    ensures forall k :: k in info ==> r[k] == info[k]
    ensures "timestamp" !in info ==> r["timestamp"] == Str(ts)
    ensures "level" !in info ==> r["level"] == Str(Name(level))
    ensures "message" !in info ==> r["message"] == Str(message)
    ensures prefix != "" && "prefix" !in info ==> r["prefix"] == Str(prefix)
  {
    var fixed := map["timestamp" := Str(ts), "level" := Str(Name(level)), "message" := Str(message)];
    var withPrefix := if prefix != "" then fixed["prefix" := Str(prefix)] else fixed;
    withPrefix + info
  }

  /**
   * formatMessage: a callback, when set, replaces both built-in formats and
   * sees the context as given; otherwise exactly the format "json" selects
   * JSON, and every other format is text.
   */
  function FormatMessage(callback: Option<FormatFunc>, format: string, prefix: string,
                         level: int, message: string, info: Context, ts: string, enc: Encoder): (r: string)
    ensures callback.Some? ==> r == callback.value(level, message, info)
    ensures callback.None? && format == JsonOutput ==> r == enc(JsonRecord(prefix, ts, level, message, info))
    ensures callback.None? && format != JsonOutput ==> r == TextLine(prefix, ts, level, message, info, enc)
  {
    match callback
    case Some(f) => f(level, message, info)
    case None =>
      if format == JsonOutput then enc(JsonRecord(prefix, ts, level, message, info))
      else TextLine(prefix, ts, level, message, info, enc)
  }

  /** `w` occurs somewhere in `s`. */
  ghost predicate Occurs(w: string, s: string) {
    exists i :: 0 <= i <= |s| && StartsWith(s[i..], w)
  }

  /** `w` is a suffix of `s`. */
  predicate EndsWith(s: string, w: string) {
    |w| <= |s| && s[|s| - |w|..] == w
  }

  /** `w` is a prefix of `s`. */
  predicate StartsWith(s: string, w: string) {
    |w| <= |s| && s[..|w|] == w
  }

  /** Fields joined by single spaces. */
  function JoinSpaced(fields: seq<string>): string {
    if |fields| == 0 then ""
    else if |fields| == 1 then fields[0]
    else fields[0] + " " + JoinSpaced(fields[1..])
  }

  /** The text line's segments before the message, in order. */
  function TextFields(prefix: string, ts: string, level: int, info: Context, enc: Encoder): seq<string> {
    (if prefix != "" then [Bracket(prefix)] else [])
    + [Bracket(ts), Bracket(Name(level))]
    + (if |info| > 0 then [enc(info)] else [])
  }

  lemma {:induction false} JoinSpacedSnoc(fields: seq<string>, last: string)
    requires |fields| > 0
    ensures JoinSpaced(fields + [last]) == JoinSpaced(fields) + " " + last
    decreases |fields|
  {
    if |fields| > 1 {
      assert (fields + [last])[1..] == fields[1..] + [last];
      JoinSpacedSnoc(fields[1..], last);
    } else {
      assert fields + [last] == [fields[0], last];
    }
  }

  /** The text line is its segments, with the message last, joined by single spaces. */
  lemma TextLineIsSpaceJoined(prefix: string, ts: string, level: int, message: string, info: Context, enc: Encoder)
    ensures TextLine(prefix, ts, level, message, info, enc)
            == JoinSpaced(TextFields(prefix, ts, level, info, enc) + [message])
  {
    var head: seq<string> := if prefix != "" then [Bracket(prefix)] else [];
    var tsName := [Bracket(ts), Bracket(Name(level))];
    var base := if prefix != "" then Bracket(prefix) + " " + Bracket(ts) + " " + Bracket(Name(level))
                else Bracket(ts) + " " + Bracket(Name(level));
    JoinSpacedSnoc(head + [Bracket(ts)], Bracket(Name(level)));
    if prefix != "" {
      JoinSpacedSnoc([Bracket(prefix)], Bracket(ts));
      assert head + tsName == [Bracket(prefix), Bracket(ts)] + [Bracket(Name(level))];
    } else {
      assert head + tsName == [Bracket(ts)] + [Bracket(Name(level))];
    }
    assert JoinSpaced(head + tsName) == base;
    if |info| > 0 {
      JoinSpacedSnoc(head + tsName, enc(info));
      assert TextFields(prefix, ts, level, info, enc) == head + tsName + [enc(info)];
    } else {
      assert TextFields(prefix, ts, level, info, enc) == head + tsName;
    }
    JoinSpacedSnoc(TextFields(prefix, ts, level, info, enc), message);
  }

  /** The bracketed level name always occurs in the text line. */
  lemma TextLineHasLevelTag(prefix: string, ts: string, level: int, message: string, info: Context, enc: Encoder)
    ensures Occurs(Bracket(Name(level)), TextLine(prefix, ts, level, message, info, enc))
  {
    var r := TextLine(prefix, ts, level, message, info, enc);
    var tag := Bracket(Name(level));
    var before := if prefix != "" then Bracket(prefix) + " " + Bracket(ts) + " " else Bracket(ts) + " ";
    var after := r[|before| + |tag|..];
    assert r == before + tag + after;
    assert StartsWith(r[|before|..], tag);
  }

  /**
   * The JSON map without key collisions holds the input message and the
   * level's name; and it has exactly one key more when the prefix is set.
   */
  lemma JsonRecordFields(prefix: string, ts: string, level: int, message: string, info: Context)
    requires info.Keys !! FixedKeys(prefix)
    ensures |JsonRecord(prefix, ts, level, message, info)| == |FixedKeys(prefix)| + |info|
    ensures JsonRecord(prefix, ts, level, message, info)["message"] == Str(message)
    ensures JsonRecord(prefix, ts, level, message, info)["level"] == Str(Name(level))
  {
    var r := JsonRecord(prefix, ts, level, message, info);
    assert r.Keys == FixedKeys(prefix) + info.Keys;
    assert |r.Keys| == |FixedKeys(prefix)| + |info.Keys|;
  }

  /**
   * A JSON-mode call at Info with an empty prefix, message "hello" and the
   * one-entry context {"k": "v"} encodes exactly the four keys k, level,
   * message and timestamp, with these values.
   */
  lemma JsonExample(ts: string)
    ensures JsonRecord("", ts, Info, "hello", map["k" := Str("v")])
            == map["k" := Str("v"), "level" := Str("INFO"), "message" := Str("hello"), "timestamp" := Str(ts)]
  {
  }

  /**
   * Without prefix, context or callback a text-mode call formats as
   * "[timestamp] [LEVEL] message".
   */
  lemma PlainTextLine(ts: string, level: int, message: string, enc: Encoder)
    ensures FormatMessage(None, StringOutput, "", level, message, map[], ts, enc)
            == "[" + ts + "] [" + Name(level) + "] " + message
  {
    var empty: Context := map[];
    assert |empty| == 0;
  }

  /**
   * A text-mode call at Error with prefix "svc", message "y" and the
   * one-entry context {"code": 500} formats as
   * "[svc] [ts] [ERROR] <encoded context> y".
   */
  lemma TextExample(ts: string, enc: Encoder)
    ensures FormatMessage(None, StringOutput, "svc", Error, "y", map["code" := Int(500)], ts, enc)
            == "[svc] [" + ts + "] [ERROR] " + enc(map["code" := Int(500)]) + " y"
  {
    var info := map["code" := Int(500)];
    assert |info| == 1;
    assert Name(Error) == "ERROR";
    assert FormatMessage(None, StringOutput, "svc", Error, "y", info, ts, enc)
           == Bracket("svc") + " " + Bracket(ts) + " " + Bracket("ERROR") + " " + enc(info) + " " + "y";
  }
}

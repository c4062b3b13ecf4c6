/** helpers.js: the receiving side of the line-delimited JSON protocol
    (`JsonMessage`) and the clock helpers. */
module Helpers {
  import opened Base
  import opened Json

  /** What `getMessage()` returns: `null` before the first message, the last
      parsed object, or `false` after a line that is not a JSON object. */
  datatype Message = NoMessage | Parsed(value: Json) | Invalid

  /** `buffer.indexOf("\n")`, with `None` for -1. */
  function FirstNewline(s: string): (r: Option<nat>)
    ensures r.None? <==> '\n' !in s
    ensures r.Some? ==> r.value < |s| && s[r.value] == '\n' && '\n' !in s[..r.value]
  {
    if s == [] then None
    else if s[0] == '\n' then Some(0)
    else
      match FirstNewline(s[1..])
      case None => None
      case Some(i) =>
        assert s[..i + 1] == [s[0]] + s[1..][..i];
        Some(i + 1)
  }

  /** The state of a `JsonMessage` together with the value `_tryParse`
      returned. */
  datatype Framing = Framing(result: bool, buffer: string, message: Message)

  /** One call of `_tryParse` on `buffer` with `message` as the last message:
      no line feed leaves everything as it is; otherwise the first line is cut
      off, and a blank line gives `false`, a line that parses to an object or
      array sets it as the message, and anything else sets `false`. */
  function TryParseStep(codec: Codec, buffer: string, message: Message): Framing {
    match FirstNewline(buffer)
    case None => Framing(false, buffer, message)
    case Some(i) =>
      var raw := Trim(buffer[..i]);
      var rest := buffer[i + 1..];
      if |raw| == 0 then Framing(false, rest, message)
      else
        match codec.parse(raw)
        case Some(j) =>
          if IsObjectValue(j) then Framing(true, rest, Parsed(j)) else Framing(true, rest, Invalid)
        case None => Framing(true, rest, Invalid)
  }

  /** The line buffer of one connection. */
  class JsonMessage {
    var buffer: string
    var message: Message
    const codec: Codec

    constructor(codec: Codec)
      ensures buffer == "" && message == NoMessage && this.codec == codec
    {
      buffer := "";
      message := NoMessage;
      this.codec := codec;
    }

    /** `receive(chunk)`: append the chunk, then try to frame one line. */
    method Receive(chunk: string) returns (ok: bool)
      modifies this
      ensures var f := TryParseStep(codec, old(buffer) + chunk, old(message));
        ok == f.result && buffer == f.buffer && message == f.message
    {
      buffer := buffer + chunk;
      ok := TryParse();
    }

    method GetMessage() returns (m: Message)
      ensures m == message
    {
      m := message;
    }

    /** `_tryParse()`. */
    method TryParse() returns (ok: bool)
      modifies this
      ensures var f := TryParseStep(codec, old(buffer), old(message));
        ok == f.result && buffer == f.buffer && message == f.message
    {
      var index := FirstNewline(buffer);
      if index.None? {
        return false;
      }
      var messageRaw := Trim(buffer[..index.value]);
      buffer := buffer[index.value + 1..];
      if |messageRaw| == 0 {
        return false;
      }
      var parsed := codec.parse(messageRaw);
      if parsed.Some? && IsObjectValue(parsed.value) {
        message := Parsed(parsed.value);
        return true;
      }
      message := Invalid;
      return true;
    }
  }

  /** Without a line feed in the buffer nothing is consumed and nothing
      changes. */
  lemma NoLineNoChange(codec: Codec, buffer: string, message: Message)
    requires '\n' !in buffer
    ensures TryParseStep(codec, buffer, message) == Framing(false, buffer, message)
  {
  }

  /** What a step leaves in the buffer depends on the first line feed only:
      everything after it, or the whole buffer when there is none. */
  lemma StepBuffer(codec: Codec, buffer: string, message: Message)
    ensures var f := TryParseStep(codec, buffer, message);
      && (FirstNewline(buffer).None? ==> f.buffer == buffer)
      && (FirstNewline(buffer).Some? ==> f.buffer == buffer[FirstNewline(buffer).value + 1..])
  {
  }

  /** A step reports `true` exactly when it sets a new message, parsed or
      invalid; otherwise the last message stays. */
  lemma StepMessage(codec: Codec, buffer: string, message: Message)
    ensures var f := TryParseStep(codec, buffer, message);
      && (f.result ==> f.message.Parsed? || f.message.Invalid?)
      && (!f.result ==> f.message == message)
  {
  }

  /** With a line feed, exactly the first line and its terminator are removed:
      the old buffer is that line, one line feed, and the new buffer. */
  lemma {:induction false} FirstLineRemoved(codec: Codec, line: string, rest: string, message: Message)
    requires '\n' !in line
    ensures TryParseStep(codec, line + "\n" + rest, message).buffer == rest
  {
    var b := line + "\n" + rest;
    FirstNewlineAfter(line, rest);
    StepBuffer(codec, b, message);
    assert b[|line| + 1..] == rest;
  }

  lemma {:induction false} FirstNewlineAfter(line: string, rest: string)
    requires '\n' !in line
    ensures FirstNewline(line + "\n" + rest) == Some(|line|)
  {
    var b := line + "\n" + rest;
    assert b[|line|] == '\n';
    assert forall k :: 0 <= k < |line| ==> b[k] == line[k];
    assert b[..|line| + 1][|line|] == '\n';
  }

  /** A second complete line stays in the buffer: one step consumes one line
      only. */
  lemma SecondLineKept(codec: Codec, l1: string, l2: string, rest: string, message: Message)
    requires '\n' !in l1
    ensures TryParseStep(codec, l1 + "\n" + l2 + "\n" + rest, message).buffer == l2 + "\n" + rest
  {
    var tail := l2 + "\n" + rest;
    assert l1 + "\n" + l2 + "\n" + rest == l1 + "\n" + tail;
    FirstLineRemoved(codec, l1, tail, message);
    assert TryParseStep(codec, l1 + "\n" + tail, message).buffer == tail;
  }

  /** Whatever the step does, the new buffer is a suffix of the old one and
      nothing but the first line is dropped; in particular `receive` keeps
      every character of the old buffer and the chunk that is not part of
      the framed line. */
  lemma StepKeepsSuffix(codec: Codec, buffer: string, message: Message)
    ensures var f := TryParseStep(codec, buffer, message);
      && |f.buffer| <= |buffer|
      && f.buffer == buffer[|buffer| - |f.buffer|..]
      && (|f.buffer| < |buffer| ==>
            buffer[|buffer| - |f.buffer| - 1] == '\n' && '\n' !in buffer[..|buffer| - |f.buffer| - 1])
  {
    StepBuffer(codec, buffer, message);
    var f := TryParseStep(codec, buffer, message);
    var n := FirstNewline(buffer);
    if n.Some? {
      var i := n.value;
      assert f.buffer == buffer[i + 1..];
      assert |buffer| - |f.buffer| - 1 == i;
      assert buffer[i] == '\n' && '\n' !in buffer[..i];
    } else {
      assert f.buffer == buffer;
    }
  }

  /** A whitespace-only line is consumed, gives `false` and keeps the last
      message. */
  lemma BlankLineSkipped(codec: Codec, line: string, rest: string, message: Message)
    requires '\n' !in line
    requires forall i :: 0 <= i < |line| ==> IsSpace(line[i])
    ensures TryParseStep(codec, line + "\n" + rest, message) == Framing(false, rest, message)
  {
    FirstLineRemoved(codec, line, rest, message);
    FirstNewlineAfter(line, rest);
    assert (line + "\n" + rest)[..|line|] == line;
    TrimEmpty(line);
  }

  /** A line whose trimmed text parses to an object or array becomes the
      message and the step reports `true`; any other non-blank line sets the
      message to `false` and also reports `true`. */
  lemma ParsedLine(codec: Codec, line: string, rest: string, message: Message)
    requires '\n' !in line && Trim(line) != []
    ensures var f := TryParseStep(codec, line + "\n" + rest, message);
      f.result && f.buffer == rest
      && (match codec.parse(Trim(line))
          case Some(j) => f.message == (if IsObjectValue(j) then Parsed(j) else Invalid)
          case None => f.message == Invalid)
  {
    FirstLineRemoved(codec, line, rest, message);
    FirstNewlineAfter(line, rest);
    assert (line + "\n" + rest)[..|line|] == line;
  }

  /** `unixtime(datetime)`: whole seconds since the epoch, rounded down, of
      `datetime` or, when it is absent, of the current time `nowMs`. */
  function Unixtime(datetimeMs: Option<int>, nowMs: int): (t: int)
    ensures var ms := if datetimeMs.Some? then datetimeMs.value else nowMs;
      t * 1000 <= ms < t * 1000 + 1000
  {
    var ms := if datetimeMs.Some? then datetimeMs.value else nowMs;
    ms / 1000
  }

  /** `Math.round(ms / 1000)`: the nearest whole second, halves rounded up. */
  function RoundSeconds(ms: int): (t: int)
    ensures t * 1000 - 500 <= ms < t * 1000 + 500
  {
    (ms + 500) / 1000
  }
}

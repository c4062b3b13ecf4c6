/** token/handler.js: one connection of the token endpoint, with its line
    buffer and the replies written to the socket. The dispatch of a framed
    message to the endpoint is in module TokenDispatch, because the endpoint
    module itself writes replies through this class. */
module TokenHandler {
  import opened Base
  import opened Json
  import opened Helpers

  /** The reply object `{type, value}`. */
  function Envelope(kind: string, value: Json): Json {
    JObject(map["type" := JString(kind), "value" := value])
  }

  /** What `writeMessage(type, value)` writes: the serialised reply and one
      line feed. */
  function Frame(codec: Codec, kind: string, value: Json): string {
    codec.stringify(Envelope(kind, value)) + "\n"
  }

  class ConnectionHandler {
    /** The socket's line buffer. */
    const incoming: JsonMessage
    /** Everything written to the socket, one entry per `write` call. */
    var written: seq<string>
    const codec: Codec

    constructor(codec: Codec)
      ensures fresh(incoming) && incoming.buffer == "" && incoming.message == NoMessage
      ensures incoming.codec == codec && this.codec == codec && written == []
    {
      incoming := new JsonMessage(codec);
      written := [];
      this.codec := codec;
    }

    /** `writeMessage(type, value)`. */
    method WriteMessage(kind: string, value: Json)
      modifies this
      ensures written == old(written) + [Frame(codec, kind, value)]
    {
      var payload := JObject(map["type" := JString(kind), "value" := value]);
      written := written + [codec.stringify(payload) + "\n"];
    }

    /** `writeError(message, ...args)`: an `error` reply whose value is the
      formatted text. */
    method WriteError(message: string, args: seq<string>)
      modifies this
      ensures written == old(written) + [Frame(codec, "error", JString(Format(message, args)))]
    {
      WriteMessage("error", JString(Format(message, args)));
    }
  }

  /** A reply read back by the receiving side of the protocol: one
      `receive` of a written frame, followed by anything else, yields the
      reply object, consumes exactly the frame and reports `true`. */
  lemma FrameReadsBack(codec: Codec, kind: string, value: Json, rest: string, message: Message)
    requires RoundTrips(codec) && SingleLine(codec)
    ensures TryParseStep(codec, Frame(codec, kind, value) + rest, message)
         == Framing(true, rest, Parsed(Envelope(kind, value)))
  {
    var line := codec.stringify(Envelope(kind, value));
    assert '\n' !in line && |line| > 0 && !IsSpace(line[0]) && !IsSpace(line[|line| - 1]);
    assert Frame(codec, kind, value) + rest == line + "\n" + rest;
    TrimUnchanged(line);
    ParsedLine(codec, line, rest, message);
    assert codec.parse(line) == Some(Envelope(kind, value));
  }

  /** Every reply is one line: the frame ends with its only line feed. */
  lemma FrameIsOneLine(codec: Codec, kind: string, value: Json)
    requires SingleLine(codec)
    ensures var f := Frame(codec, kind, value);
      |f| >= 2 && f[|f| - 1] == '\n' && '\n' !in f[..|f| - 1]
  {
    var line := codec.stringify(Envelope(kind, value));
    assert Frame(codec, kind, value)[..|line|] == line;
  }
}

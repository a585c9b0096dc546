/**
  The framed protocol between agent and GUI: a length, a JSON header and a body.

  The JSON library is a parameter: dumps writes an object, loads reads any JSON text.
 */
module Protocol {
  import opened Prelude

  const PROTOCOL_VERSION := 1
  const MAX_HEADER: nat := 1024 * 1024
  const MAX_BODY: nat := 8 * 1024 * 1024

  datatype Json =
    | Null
    | Bool(b: bool)
    | Int(n: int)
    | Float(text: string)
    | Str(s: string)
    | Array(items: seq<Json>)
    | Object(fields: Header)

  type Header = map<string, Json>

  type Dumps = Header -> seq<Byte>
  type Loads = seq<Byte> -> Option<Json>

  /** Reading what was written gives it back, and the empty text is not JSON. */
  ghost predicate Inverse(dumps: Dumps, loads: Loads) {
    (forall h: Header :: loads(dumps(h)) == Some(Object(h))) && loads([]) == None
  }

  // ---------------------------------------------------------------- writing

  /** struct.pack("!I", n) */
  function BigEndian(n: nat): (s: seq<Byte>)
    requires n < 0x1_0000_0000
    ensures |s| == 4
  {
    [n / 0x100_0000, n / 0x1_0000 % 0x100, n / 0x100 % 0x100, n % 0x100]
  }

  function FromBigEndian(s: seq<Byte>): nat
    requires |s| == 4
  {
    s[0] as int * 0x100_0000 + s[1] as int * 0x1_0000 + s[2] as int * 0x100 + s[3] as int
  }

  lemma BigEndianRoundTrip(n: nat)
    requires n < 0x1_0000_0000
    ensures FromBigEndian(BigEndian(n)) == n
  {
    var a, b := n / 0x100, n / 0x1_0000;
    assert n == a * 0x100 + n % 0x100;
    assert a == b * 0x100 + a % 0x100;
    assert b == n / 0x100_0000 * 0x100 + b % 0x100;
  }

  /** The header as it is sent: a version unless the caller gave one, and always the true length. */
  function Envelope(header: Header, body: seq<Byte>): Header {
    (if "version" in header then header else header["version" := Int(PROTOCOL_VERSION)])["body_length" := Int(|body|)]
  }

  /** The bytes of a message, without any limit. */
  function Frame(encoded: seq<Byte>, body: seq<Byte>): seq<Byte>
    requires |encoded| < 0x1_0000_0000
  {
    BigEndian(|encoded|) + encoded + body
  }

  /** None stands for the exception on a message over the size limit. */
  function EncodeMessage(dumps: Dumps, header: Header, body: seq<Byte>): (r: Option<seq<Byte>>)
    ensures r.Some? ==> |r.value| <= 4 + MAX_HEADER + MAX_BODY
  {
    var encoded := dumps(Envelope(header, body));
    if |encoded| > MAX_HEADER || |body| > MAX_BODY then None else Some(Frame(encoded, body))
  }

  // ---------------------------------------------------------------- reading

  datatype Error = Incomplete | BadHeaderLength | BadJson | NotAnObject | BadBodyLength

  datatype Received = Message(header: Header, body: seq<Byte>) | Failed(error: Error)

  /** isinstance(x, int): Python's booleans are integers. */
  function AsInt(j: Json): Option<int> {
    match j
    case Int(n) => Some(n)
    case Bool(b) => Some(if b then 1 else 0)
    case _ => None
  }

  function BodyLength(header: Header): Option<int> {
    if "body_length" in header then AsInt(header["body_length"]) else Some(0)
  }

  /** What a reader makes of a stream, and what it leaves of it; a stream that ends too soon is used up. */
  function ReadOne(loads: Loads, stream: seq<Byte>): (r: (Received, seq<Byte>))
    ensures r.0.Message? ==> |r.1| + 4 < |stream| && r.1 == stream[|stream| - |r.1|..]
    ensures r.0 == Failed(Incomplete) ==> r.1 == []
    ensures !(r.0 == Failed(Incomplete)) ==> |stream| - |r.1| <= 4 + MAX_HEADER + MAX_BODY
  {
    if |stream| < 4 then (Failed(Incomplete), [])
    else
      var n := FromBigEndian(stream[..4]);
      var rest := stream[4..];
      if !(0 < n <= MAX_HEADER) then (Failed(BadHeaderLength), rest)
      else if |rest| < n then (Failed(Incomplete), [])
      else
        var json, rest := loads(rest[..n]), rest[n..];
        if json.None? then (Failed(BadJson), rest)
        else if !json.value.Object? then (Failed(NotAnObject), rest)
        else
          var header := json.value.fields;
          var length := BodyLength(header);
          if length.None? || !(0 <= length.value <= MAX_BODY) then (Failed(BadBodyLength), rest)
          else if |rest| < length.value then (Failed(Incomplete), [])
          else (Message(header, rest[..length.value]), rest[length.value..])
  }

  class StreamReader {
    const loads: Loads
    /** What has arrived up to the end of the connection and has not been read. */
    var buffer: seq<Byte>

    constructor (loads: Loads, buffer: seq<Byte>)
      ensures this.loads == loads && this.buffer == buffer
    {
      this.loads, this.buffer := loads, buffer;
    }

    /** None stands for IncompleteReadError, which empties the buffer. */
    method ReadExactly(n: nat) returns (data: Option<seq<Byte>>)
      modifies this
      ensures if |old(buffer)| < n then data == None && buffer == []
              else data == Some(old(buffer)[..n]) && buffer == old(buffer)[n..]
    {
      if |buffer| < n {
        buffer := [];
        return None;
      }
      data := Some(buffer[..n]);
      buffer := buffer[n..];
    }

    method ReadMessage() returns (received: Received)
      modifies this
      ensures (received, buffer) == ReadOne(loads, old(buffer))
    {
      var rawLength := ReadExactly(4);
      if rawLength.None? {
        return Failed(Incomplete);
      }
      var headerLength := FromBigEndian(rawLength.value);
      if !(0 < headerLength <= MAX_HEADER) {
        return Failed(BadHeaderLength);
      }
      var raw := ReadExactly(headerLength);
      if raw.None? {
        return Failed(Incomplete);
      }
      var json := loads(raw.value);
      if json.None? {
        return Failed(BadJson);
      }
      if !json.value.Object? {
        return Failed(NotAnObject);
      }
      var header := json.value.fields;
      var bodyLength := BodyLength(header);
      if bodyLength.None? || !(0 <= bodyLength.value <= MAX_BODY) {
        return Failed(BadBodyLength);
      }
      if bodyLength.value == 0 {
        return Message(header, []);
      }
      var body := ReadExactly(bodyLength.value);
      if body.None? {
        return Failed(Incomplete);
      }
      received := Message(header, body.value);
    }
  }

  // ---------------------------------------------------------------- both together

  /** A frame in front of anything else is read as itself, and the rest is left alone. */
  lemma ReadFrame(dumps: Dumps, loads: Loads, header: Header, body: seq<Byte>, rest: seq<Byte>)
    requires Inverse(dumps, loads) && EncodeMessage(dumps, header, body).Some?
    ensures ReadOne(loads, EncodeMessage(dumps, header, body).value + rest)
         == (Message(Envelope(header, body), body), rest)
  {
    var envelope := Envelope(header, body);
    var encoded := dumps(envelope);
    assert loads(encoded) == Some(Object(envelope));
    assert encoded != [];
    BigEndianRoundTrip(|encoded|);
    var stream := EncodeMessage(dumps, header, body).value + rest;
    assert stream[..4] == BigEndian(|encoded|);
    assert stream[4..] == encoded + body + rest;
    assert stream[4..][..|encoded|] == encoded;
    assert stream[4..][|encoded|..] == body + rest;
    assert BodyLength(envelope) == Some(|body|);
  }

  datatype Outgoing = Outgoing(header: Header, body: seq<Byte>)

  predicate Sendable(dumps: Dumps, messages: seq<Outgoing>) {
    forall i :: 0 <= i < |messages| ==> EncodeMessage(dumps, messages[i].header, messages[i].body).Some?
  }

  /** What a connection carries. */
  function Stream(dumps: Dumps, messages: seq<Outgoing>): seq<Byte>
    requires Sendable(dumps, messages)
  {
    if messages == [] then []
    else EncodeMessage(dumps, messages[0].header, messages[0].body).value + Stream(dumps, messages[1..])
  }

  /** Reading until something fails. */
  function ReadAll(loads: Loads, stream: seq<Byte>): (seq<Received>, Error)
    decreases |stream|
  {
    var r := ReadOne(loads, stream);
    if r.0.Failed? then ([], r.0.error)
    else
      var more := ReadAll(loads, r.1);
      ([r.0] + more.0, more.1)
  }

  function Delivered(messages: seq<Outgoing>): (r: seq<Received>)
    ensures |r| == |messages|
  {
    seq(|messages|, i requires 0 <= i < |messages| =>
      Message(Envelope(messages[i].header, messages[i].body), messages[i].body))
  }

  /** A connection delivers exactly the messages that were sent, in order, whatever follows them. */
  lemma {:induction false} StreamDelivers(dumps: Dumps, loads: Loads, messages: seq<Outgoing>, rest: seq<Byte>)
    requires Inverse(dumps, loads) && Sendable(dumps, messages)
    ensures ReadAll(loads, Stream(dumps, messages) + rest)
         == (Delivered(messages) + ReadAll(loads, rest).0, ReadAll(loads, rest).1)
  {
    hide ReadOne, EncodeMessage, Envelope;
    if messages == [] {
      assert Stream(dumps, messages) + rest == rest;
      assert Delivered(messages) + ReadAll(loads, rest).0 == ReadAll(loads, rest).0;
    } else {
      StreamDelivers(dumps, loads, messages[1..], rest);
      FirstDelivered(dumps, loads, messages, rest);
      DeliveredFirst(messages);
      hide *;
      var m, after := messages[0], ReadAll(loads, rest).0;
      var r := Message(Envelope(m.header, m.body), m.body);
      assert [r] + (Delivered(messages[1..]) + after) == [r] + Delivered(messages[1..]) + after;
    }
  }

  lemma FirstDelivered(dumps: Dumps, loads: Loads, messages: seq<Outgoing>, rest: seq<Byte>)
    requires Inverse(dumps, loads) && Sendable(dumps, messages) && messages != []
    ensures var m, more := messages[0], ReadAll(loads, Stream(dumps, messages[1..]) + rest);
      ReadAll(loads, Stream(dumps, messages) + rest)
      == ([Message(Envelope(m.header, m.body), m.body)] + more.0, more.1)
  {
    hide ReadOne, EncodeMessage, Envelope;
    var m, tail := messages[0], messages[1..];
    ReadFrame(dumps, loads, m.header, m.body, Stream(dumps, tail) + rest);
    var first := EncodeMessage(dumps, m.header, m.body).value;
    assert Stream(dumps, messages) + rest == first + (Stream(dumps, tail) + rest);
  }

  lemma DeliveredFirst(messages: seq<Outgoing>)
    requires messages != []
    ensures var m := messages[0];
      Delivered(messages) == [Message(Envelope(m.header, m.body), m.body)] + Delivered(messages[1..])
  {
    hide Envelope;
  }

  /** A message cut short anywhere is seen to be incomplete; no other message is read out of it. */
  lemma CutMessageIsIncomplete(dumps: Dumps, loads: Loads, header: Header, body: seq<Byte>, n: nat)
    requires Inverse(dumps, loads) && EncodeMessage(dumps, header, body).Some?
    requires n < |EncodeMessage(dumps, header, body).value|
    ensures ReadOne(loads, EncodeMessage(dumps, header, body).value[..n]) == (Failed(Incomplete), [])
  {
    var envelope := Envelope(header, body);
    var encoded := dumps(envelope);
    assert loads(encoded) == Some(Object(envelope));
    assert encoded != [];
    BigEndianRoundTrip(|encoded|);
    var whole := EncodeMessage(dumps, header, body).value;
    var cut := whole[..n];
    if n >= 4 {
      assert cut[..4] == BigEndian(|encoded|);
      if n >= 4 + |encoded| {
        assert cut == BigEndian(|encoded|) + encoded + body[..n - 4 - |encoded|];
        assert cut[4..][..|encoded|] == encoded;
        assert BodyLength(envelope) == Some(|body|);
      }
    }
  }

  /** A whole connection cut anywhere: a prefix of the messages arrives, then the connection is incomplete. */
  lemma {:induction false} CutStreamDeliversPrefix(dumps: Dumps, loads: Loads, messages: seq<Outgoing>, n: nat)
    requires Inverse(dumps, loads) && Sendable(dumps, messages)
    requires n <= |Stream(dumps, messages)|
    ensures var r := ReadAll(loads, Stream(dumps, messages)[..n]);
      r.0 <= Delivered(messages) && r.1 == Incomplete
  {
    hide ReadOne, EncodeMessage, Envelope;
    if messages == [] {
      EmptyIsIncomplete(loads);
    } else {
      var m, tail := messages[0], messages[1..];
      var first := EncodeMessage(dumps, m.header, m.body).value;
      var cut := Stream(dumps, messages)[..n];
      if n < |first| {
        assert cut == first[..n];
        CutMessageIsIncomplete(dumps, loads, m.header, m.body, n);
      } else {
        assert cut == first + Stream(dumps, tail)[..n - |first|];
        ReadFrame(dumps, loads, m.header, m.body, Stream(dumps, tail)[..n - |first|]);
        CutStreamDeliversPrefix(dumps, loads, tail, n - |first|);
        assert Delivered(messages) == [Message(Envelope(m.header, m.body), m.body)] + Delivered(tail);
      }
    }
  }

  lemma EmptyIsIncomplete(loads: Loads)
    ensures ReadOne(loads, []) == (Failed(Incomplete), [])
  {
  }

  /** The sender refuses exactly the frames that the reader would refuse. */
  lemma LimitsAgree(dumps: Dumps, loads: Loads, header: Header, body: seq<Byte>)
    requires Inverse(dumps, loads) && |dumps(Envelope(header, body))| < 0x1_0000_0000
    ensures EncodeMessage(dumps, header, body).Some?
       <==> ReadOne(loads, Frame(dumps(Envelope(header, body)), body)).0.Message?
  {
    var envelope := Envelope(header, body);
    var encoded := dumps(envelope);
    BigEndianRoundTrip(|encoded|);
    var frame := Frame(encoded, body);
    assert frame[..4] == BigEndian(|encoded|);
    assert frame[4..] == encoded + body;
    if EncodeMessage(dumps, header, body).Some? {
      ReadFrame(dumps, loads, header, body, []);
      assert frame + [] == frame;
    } else if |encoded| <= MAX_HEADER {
      assert loads(encoded) == Some(Object(envelope));
      assert frame[4..][..|encoded|] == encoded;
      assert BodyLength(envelope) == Some(|body|);
    }
  }

  /** A body length of true is taken for 1: the reader uses up one byte of what follows. */
  lemma TrueIsOneByte(loads: Loads, encoded: seq<Byte>, header: Header, rest: seq<Byte>)
    requires 0 < |encoded| <= MAX_HEADER && loads(encoded) == Some(Object(header))
    requires "body_length" in header && header["body_length"] == Bool(true) && rest != []
    ensures ReadOne(loads, Frame(encoded, rest)) == (Message(header, rest[..1]), rest[1..])
  {
    BigEndianRoundTrip(|encoded|);
    var stream := Frame(encoded, rest);
    assert stream[..4] == BigEndian(|encoded|);
    assert stream[4..][..|encoded|] == encoded;
    assert stream[4..][|encoded|..] == rest;
  }
}

// backend/protocol.py: the payload schema, and the frames the server emits.

module Protocol {
  import opened Bytes
  import opened Store

  datatype MsgType = ChatType | AuthType | AckType | ErrorType | SystemType

  datatype ErrCode = AuthFailed | ReplayDetected | MessageExpired | InvalidSchema

  // A payload that passed validate, reduced to the fields the server reads.
  datatype Payload = Payload(
    id: MessageId, timestamp: real, kind: MsgType, sender: Value, to: User, data: Value)

  // One decoded client payload: rejected by validate, or not.
  datatype Request = Malformed | Valid(p: Payload)

  // What one recv_msg, decrypt and decode yields: the peer is gone, an exception, or a payload.
  datatype Inbound = Eof | Garbled | Body(r: Request)

  datatype Frame =
    | TokenAck(ref: MessageId, token: SessionToken)
    | Ack(ref: MessageId, status: Status)
    | Error(code: ErrCode)
    | Chat(p: Payload)

  // The row a chat payload is stored as, and the payload a stored row is drained as.
  function MessageOf(p: Payload): Message
  {
    Message(p.sender, p.to, p.data, p.timestamp)
  }

  function PayloadOf(id: MessageId, m: Message): Payload
  {
    Payload(id, m.createdAt, ChatType, m.sender, m.recipient, m.text)
  }

  // ------------------------------------------------------------------
  // The wire dictionaries behind Request and Frame
  // ------------------------------------------------------------------

  datatype Json = JNull | JBool(b: bool) | JInt(n: int) | JFloat(r: real) | JString(s: string) | JArray | JObject

  type Dict = map<string, Json>

  datatype Verdict = Accepted | Rejected(problem: Problem) | Raises

  datatype Problem = MissingFields | BadMessageId | BadTimestamp | BadSeq | UnknownType

  const REQUIRED_FIELDS: set<string> := {"message_id", "timestamp", "type", "from", "to", "data"}
  const TYPE_NAMES: set<string> := {"chat", "auth", "ack", "error", "system"}

  // isinstance(True, int) holds in Python, so a JSON boolean is an integer here.
  predicate IsInteger(j: Json)
  {
    j.JInt? || j.JBool?
  }

  // A JSON array or object is unhashable, so the membership test on the type raises.
  function Validate(d: Dict): Verdict
  {
    if !(REQUIRED_FIELDS <= d.Keys) then Rejected(MissingFields)
    else if !d["message_id"].JString? || |d["message_id"].s| < 16 then Rejected(BadMessageId)
    else if !IsInteger(d["timestamp"]) && !d["timestamp"].JFloat? then Rejected(BadTimestamp)
    else if "seq" in d && !IsInteger(d["seq"]) then Rejected(BadSeq)
    else if d["type"].JArray? || d["type"].JObject? then Raises
    else if !(d["type"].JString? && d["type"].s in TYPE_NAMES) then Rejected(UnknownType)
    else Accepted
  }

  function TypeName(k: MsgType): string
  {
    match k
    case ChatType => "chat"
    case AuthType => "auth"
    case AckType => "ack"
    case ErrorType => "error"
    case SystemType => "system"
  }

  // The dictionary the client and the drain loop build for a textual payload.
  function Build(p: Payload): Dict
    requires p.sender.Text? && p.data.Text?
  {
    map["message_id" := JString(p.id), "timestamp" := JFloat(p.timestamp), "type" := JString(TypeName(p.kind)),
        "from" := JString(p.sender.text), "to" := JString(p.to), "data" := JString(p.data.text)]
  }

  predicate TextFields(d: Dict)
  {
    && (forall k | k in {"from", "to", "data"} :: k in d && d[k].JString?)
  }

  function TypeOf(name: string): (k: MsgType)
    requires name in TYPE_NAMES
  {
    if name == "chat" then ChatType
    else if name == "auth" then AuthType
    else if name == "ack" then AckType
    else if name == "error" then ErrorType
    else SystemType
  }

  function Seconds(j: Json): real
    requires IsInteger(j) || j.JFloat?
  {
    match j
    case JBool(b) => if b then 1.0 else 0.0
    case JInt(n) => n as real
    case JFloat(r) => r
  }

  // The fields the handler reads out of an accepted dictionary.
  function Fields(d: Dict): Payload
    requires Validate(d) == Accepted && TextFields(d)
  {
    Payload(d["message_id"].s, Seconds(d["timestamp"]), TypeOf(d["type"].s),
            Text(d["from"].s), d["to"].s, Text(d["data"].s))
  }

  // What the builders put where, and what the handler reads from where.
  lemma FieldsByName(p: Payload, d: Dict)
    ensures p.sender.Text? && p.data.Text? ==>
              var b := Build(p);
              && b.Keys == {"message_id", "timestamp", "type", "from", "to", "data"}
              && b["message_id"] == JString(p.id) && b["timestamp"] == JFloat(p.timestamp)
              && b["from"] == JString(p.sender.text) && b["to"] == JString(p.to) && b["data"] == JString(p.data.text)
              && b["type"] == JString(match p.kind
                                      case ChatType => "chat"
                                      case AuthType => "auth"
                                      case AckType => "ack"
                                      case ErrorType => "error"
                                      case SystemType => "system")
    ensures Validate(d) == Accepted && TextFields(d) ==>
              var q := Fields(d);
              && d["message_id"] == JString(q.id) && d["from"] == JString(q.sender.text) && d["to"] == JString(q.to)
              && d["data"] == JString(q.data.text)
              && (d["timestamp"].JInt? ==> q.timestamp == d["timestamp"].n as real)
              && (d["timestamp"].JFloat? ==> q.timestamp == d["timestamp"].r)
              && (d["timestamp"].JBool? ==> q.timestamp == if d["timestamp"].b then 1.0 else 0.0)
  {
  }

  // Every payload built with an id of at least 16 characters passes validate, with whatever integer
  // seq or with none, and reads back as itself; a shorter id is rejected, and so is any other seq.
  lemma BuiltPayloadsRoundTrip(p: Payload, seqNo: Option<Json>)
    requires p.sender.Text? && p.data.Text?
    ensures var d := if seqNo.Some? then Build(p)["seq" := seqNo.value] else Build(p);
            if |p.id| < 16 then Validate(d) == Rejected(BadMessageId)
            else if seqNo.Some? && !(seqNo.value.JInt? || seqNo.value.JBool?) then Validate(d) == Rejected(BadSeq)
            else Validate(d) == Accepted && TextFields(d) && Fields(d) == p
  {
    assert TypeOf(TypeName(p.kind)) == p.kind by {
      TypeNamesDiffer();
    }
  }

  // Which problem validate reports: the first in the order fields, id, timestamp, seq, type.
  lemma FirstProblem(d: Dict)
    ensures Validate(d) == Rejected(MissingFields) <==>
              !({"message_id", "timestamp", "type", "from", "to", "data"} <= d.Keys)
    ensures Validate(d) == Rejected(BadMessageId) <==>
              {"message_id", "timestamp", "type", "from", "to", "data"} <= d.Keys
              && !(d["message_id"].JString? && |d["message_id"].s| >= 16)
    ensures Validate(d) == Rejected(BadTimestamp) <==>
              {"message_id", "timestamp", "type", "from", "to", "data"} <= d.Keys
              && d["message_id"].JString? && |d["message_id"].s| >= 16
              && (d["timestamp"].JNull? || d["timestamp"].JString? || d["timestamp"].JArray? || d["timestamp"].JObject?)
    ensures Validate(d) == Rejected(BadSeq) ==> "seq" in d && !d["seq"].JInt? && !d["seq"].JBool?
    ensures Validate(d) == Raises ==> "type" in d && (d["type"].JArray? || d["type"].JObject?)
  {
  }

  // What validate accepts, whatever else the dictionary holds.
  lemma AcceptedExactly(d: Dict)
    ensures Validate(d) == Accepted <==>
              && "message_id" in d && "timestamp" in d && "type" in d && "from" in d && "to" in d && "data" in d
              && (exists s :: d["message_id"] == JString(s) && |s| >= 16)
              && !d["timestamp"].JString? && !d["timestamp"].JNull? && !d["timestamp"].JArray? && !d["timestamp"].JObject?
              && d["type"].JString? && d["type"].s in {"chat", "auth", "ack", "error", "system"}
              && ("seq" in d ==> d["seq"].JInt? || d["seq"].JBool?)
  {
    TypeNamesDiffer();
    if REQUIRED_FIELDS <= d.Keys && d["type"].JString? && d["type"].s in TYPE_NAMES {
      assert d["type"] == JString(TypeName(TypeOf(d["type"].s)));
    }
    if REQUIRED_FIELDS <= d.Keys && d["message_id"].JString? {
      assert d["message_id"] == JString(d["message_id"].s);
    }
  }

  lemma TypeNamesDiffer()
    ensures forall a: MsgType, b: MsgType :: TypeName(a) == TypeName(b) ==> a == b
    ensures forall a: MsgType :: TypeName(a) in TYPE_NAMES
  {
    assert "chat"[0] == 'c' && "auth"[1] == 'u' && "ack"[1] == 'c' && "error"[0] == 'e' && "system"[0] == 's';
    assert |"auth"| == 4 && |"ack"| == 3;
  }
}

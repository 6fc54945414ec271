/** The wire format of the chat protocol: every message is a JSON object
    `{ "type": <kind>, "parameters": { ... } }`, built by one of the five
    `createMessage_*` builders and read back member by member by the
    listener. Byte-level JSON text is not modelled: an object is a map from
    member names to values. */
module Wire {

  datatype Option<+T> = None | Some(value: T)

  datatype Result<+T, +E> = Ok(value: T) | Err(error: E)

  /** The host name every joiner and every JOIN reply is addressed to. */
  const Localhost: string := "localhost"

  /** A listener address as a node stores it: host name and port. */
  datatype Addr = Addr(ip: string, port: int)

  /** The JSON values the protocol uses. */
  datatype Value = Str(str: string) | Num(num: int) | Obj(members: map<string, Value>)

  /** A JSON object: member names to values. */
  type Json = map<string, Value>

  /** The five message kinds with the fields each carries. */
  datatype Msg =
    | Join(alias: string, port: int)
    | Accept(pred: Addr)
    | NewSuccessor(succ: Addr)
    | Put(sender: string, recipient: string, text: string)
    | Leave(pred: Addr)

  /** The type tags the listener recognises. */
  const Kinds: set<string> := {"JOIN", "ACCEPT", "NEWSUCCESSOR", "PUT", "LEAVE"}

  function KindOf(m: Msg): string {
    match m
    case Join(_, _) => "JOIN"
    case Accept(_) => "ACCEPT"
    case NewSuccessor(_) => "NEWSUCCESSOR"
    case Put(_, _, _) => "PUT"
    case Leave(_) => "LEAVE"
  }

  function Envelope(kind: string, parameters: Json): Json {
    map["type" := Str(kind), "parameters" := Obj(parameters)]
  }

  // The createMessage_* builders, one per kind.

  function JoinJson(alias: string, port: int): Json {
    Envelope("JOIN", map["myAlias" := Str(alias), "myPort" := Num(port)])
  }

  function AcceptJson(ip: string, port: int): Json {
    Envelope("ACCEPT", map["ipPred" := Str(ip), "portPred" := Num(port)])
  }

  function NewSuccessorJson(ip: string, port: int): Json {
    Envelope("NEWSUCCESSOR", map["ipSuccessor" := Str(ip), "portSuccessor" := Num(port)])
  }

  function PutJson(sender: string, receiver: string, message: string): Json {
    Envelope("PUT", map["aliasSender" := Str(sender), "aliasReceiver" := Str(receiver), "message" := Str(message)])
  }

  function LeaveJson(ip: string, port: int): Json {
    Envelope("LEAVE", map["ipPred" := Str(ip), "portPred" := Num(port)])
  }

  /** The JSON object a message is sent as. */
  function Encode(m: Msg): Json {
    match m
    case Join(a, p) => JoinJson(a, p)
    case Accept(a) => AcceptJson(a.ip, a.port)
    case NewSuccessor(a) => NewSuccessorJson(a.ip, a.port)
    case Put(s, r, t) => PutJson(s, r, t)
    case Leave(a) => LeaveJson(a.ip, a.port)
  }

  // Reading members back. Each accessor fails (None) exactly where the
  // JSON library throws: the member is missing or has another kind.

  function GetString(o: Json, key: string): Option<string> {
    if key in o && o[key].Str? then Some(o[key].str) else None
  }

  function GetInt(o: Json, key: string): Option<int> {
    if key in o && o[key].Num? then Some(o[key].num) else None
  }

  /** `getString("type")`. */
  function Kind(j: Json): Option<string> {
    GetString(j, "type")
  }

  /** `getJsonObject("parameters")`. */
  function Parameters(j: Json): Option<Json> {
    if "parameters" in j && j["parameters"].Obj? then Some(j["parameters"].members) else None
  }

  function ParamString(j: Json, key: string): Option<string> {
    match Parameters(j)
    case None => None
    case Some(o) => GetString(o, key)
  }

  function ParamInt(j: Json, key: string): Option<int> {
    match Parameters(j)
    case None => None
    case Some(o) => GetInt(o, key)
  }

  /** An (ip, port) pair stored under two parameter names. */
  function ParamAddr(j: Json, ipKey: string, portKey: string): Option<Addr> {
    match (ParamString(j, ipKey), ParamInt(j, portKey))
    case (Some(ip), Some(port)) => Some(Addr(ip, port))
    case _ => None
  }

  /** Why a received object is not a message: a member the listener reads
      is missing or of the wrong kind, or the type tag is not one it knows. */
  datatype DecodeError = Malformed | UnknownType(kind: string)

  /** What the listener of the self-contained draft reads from an object,
      branch by branch: the tag, then every parameter of that kind. */
  function Decode(j: Json): (r: Result<Msg, DecodeError>)
    ensures r.Ok? ==> Kind(j) == Some(KindOf(r.value))
    ensures r.Err? && r.error.UnknownType? <==> Kind(j).Some? && Kind(j).value !in Kinds
    ensures r == Err(Malformed) ==> Kind(j).None? || Kind(j).value in Kinds
  {
    match Kind(j)
    case None => Err(Malformed)
    case Some(k) =>
      if k == "JOIN" then
        match (ParamString(j, "myAlias"), ParamInt(j, "myPort"))
        case (Some(a), Some(p)) => Ok(Join(a, p))
        case _ => Err(Malformed)
      else if k == "ACCEPT" then
        match ParamAddr(j, "ipPred", "portPred")
        case Some(a) => Ok(Accept(a))
        case None => Err(Malformed)
      else if k == "NEWSUCCESSOR" then
        match ParamAddr(j, "ipSuccessor", "portSuccessor")
        case Some(a) => Ok(NewSuccessor(a))
        case None => Err(Malformed)
      else if k == "PUT" then
        match (ParamString(j, "aliasSender"), ParamString(j, "aliasReceiver"), ParamString(j, "message"))
        case (Some(s), Some(r), Some(t)) => Ok(Put(s, r, t))
        case _ => Err(Malformed)
      else if k == "LEAVE" then
        match ParamAddr(j, "ipPred", "portPred")
        case Some(a) => Ok(Leave(a))
        case None => Err(Malformed)
      else
        Err(UnknownType(k))
  }

  /** Every builder writes its fields under the names the listener reads
      them back from, so decoding an encoded message gives the message. */
  lemma {:induction false} DecodeEncode(m: Msg)
    ensures Decode(Encode(m)) == Ok(m)
  {
    var j := Encode(m);
    assert Kind(j) == Some(KindOf(m));
    match m
    case Join(a, p) =>
      assert ParamString(j, "myAlias") == Some(a) && ParamInt(j, "myPort") == Some(p);
    case Accept(a) =>
      assert ParamAddr(j, "ipPred", "portPred") == Some(a);
    case NewSuccessor(a) =>
      assert ParamAddr(j, "ipSuccessor", "portSuccessor") == Some(a);
    case Put(s, r, t) =>
      assert ParamString(j, "aliasSender") == Some(s);
      assert ParamString(j, "aliasReceiver") == Some(r);
      assert ParamString(j, "message") == Some(t);
    case Leave(a) =>
      assert ParamAddr(j, "ipPred", "portPred") == Some(a);
  }

  /** The builders' envelopes carry exactly two members, and the listener
      reads nothing the builders do not write: any object that decodes to
      `m` agrees with `Encode(m)` on the tag and on every parameter. */
  lemma {:induction false} DecodeSound(j: Json, m: Msg)
    requires Decode(j) == Ok(m)
    ensures Encode(m).Keys == {"type", "parameters"}
    ensures j["type"] == Encode(m)["type"]
    ensures Parameters(j).Some? && Parameters(Encode(m)).Some?
    ensures forall key :: key in Parameters(Encode(m)).value ==>
              key in Parameters(j).value && Parameters(j).value[key] == Parameters(Encode(m)).value[key]
  {
    var ps := Parameters(j).value;
    match m
    case Join(a, p) =>
      assert ParamString(j, "myAlias") == Some(a) && ParamInt(j, "myPort") == Some(p);
      assert ps["myAlias"] == Str(a) && ps["myPort"] == Num(p);
    case Accept(a) =>
      assert ParamAddr(j, "ipPred", "portPred") == Some(a);
      assert ps["ipPred"] == Str(a.ip) && ps["portPred"] == Num(a.port);
    case NewSuccessor(a) =>
      assert ParamAddr(j, "ipSuccessor", "portSuccessor") == Some(a);
      assert ps["ipSuccessor"] == Str(a.ip) && ps["portSuccessor"] == Num(a.port);
    case Put(s, r, t) =>
      assert ps["aliasSender"] == Str(s) && ps["aliasReceiver"] == Str(r) && ps["message"] == Str(t);
    case Leave(a) =>
      assert ParamAddr(j, "ipPred", "portPred") == Some(a);
      assert ps["ipPred"] == Str(a.ip) && ps["portPred"] == Num(a.port);
  }
}

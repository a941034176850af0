/** The control channel: what a browser's text frame asks for, and when the
    bridge acts on it. */
module Control {
  import opened OscRecords

  /** The `port` field of a parsed request: absent, or a value given by its
      JavaScript truthiness and its `parseInt` coercion (None standing for NaN). */
  datatype PortField = Absent | PortValue(truthy: bool, asInt: Option<int>)

  /** One text frame from a browser after `JSON.parse`. `Malformed` stands for
      every frame whose handling throws: text that is not JSON, or JSON such as
      `null` whose fields cannot be read. */
  datatype Request =
    | Malformed
    | Parsed(msgType: Option<string>, port: PortField)

  const SetOscPortType: string := "set_osc_port"

  /** A UDP port number the control channel accepts. */
  predicate IsPortNumber(p: int) {
    0 < p < 65536
  }

  /** The port a request asks the bridge to listen on, or None when the request
      is to be ignored. */
  function RequestedPort(req: Request): (r: Option<int>)
    ensures r.Some? <==>
              req.Parsed? && req.msgType == Some(SetOscPortType) &&
              req.port.PortValue? && req.port.truthy &&
              req.port.asInt.Some? && IsPortNumber(req.port.asInt.value)
    ensures r.Some? ==> r == req.port.asInt && IsPortNumber(r.value)
  {
    match req
    case Malformed => None
    case Parsed(t, field) =>
      if t == Some(SetOscPortType) && field.PortValue? && field.truthy then
        match field.asInt
        case Some(p) => if p > 0 && p < 65536 then Some(p) else None
        case None => None
      else
        None
  }
}

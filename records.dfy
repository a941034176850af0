/** The records the bridge sends to browsers, and the decoded OSC message a
    `data` record is built from. */
module OscRecords {

  datatype Option<T> = None | Some(value: T)

  /** The scalar value of one decoded OSC argument (floats are exact reals here). */
  datatype OscValue =
    | IntVal(i: int)
    | FloatVal(x: real)
    | StringVal(s: string)
    | BlobVal(bytes: seq<bv8>)
    | BoolVal(b: bool)
    | NilVal

  /** One argument as the decoder returns it with metadata enabled: a type tag and a value. */
  datatype OscArg = OscArg(typeTag: char, value: OscValue)

  /** A decoded OSC message; `args` is None when the decoder gives no argument list. */
  datatype OscMessage = OscMessage(address: string, args: Option<seq<OscArg>>)

  /** The JSON records the bridge sends to a browser, one constructor per shape:
      a data message (no `type` field), `osc_ready`, `osc_error` and `osc_status`. */
  datatype Msg =
    | Data(address: string, args: seq<OscValue>, timestamp: int)
    | Ready(port: int)
    | Error(text: string)
    | Status(port: int)

  /** The argument list with each argument's envelope dropped: `args.map(a => a.value)`. */
  function ArgValues(args: seq<OscArg>): (values: seq<OscValue>)
    ensures |values| == |args|
    ensures forall i :: 0 <= i < |args| ==> values[i] == args[i].value
  {
    if args == [] then [] else [args[0].value] + ArgValues(args[1..])
  }

  /** The data record for a message received at time `now` (milliseconds). */
  function DataRecord(msg: OscMessage, now: int): (r: Msg)
    ensures r.Data? && r.address == msg.address && r.timestamp == now
    ensures msg.args.None? ==> r.args == []
    ensures msg.args.Some? ==>
              |r.args| == |msg.args.value| &&
              forall i :: 0 <= i < |r.args| ==> r.args[i] == msg.args.value[i].value
  {
    Data(msg.address, if msg.args.Some? then ArgValues(msg.args.value) else [], now)
  }
}

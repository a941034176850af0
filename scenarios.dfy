/** Runs of the bridge from start-up, each proved for every value of its
    parameters: what a browser receives, and what is asked of the UDP library. */
module Scenarios {
  import opened OscRecords
  import opened Control
  import opened Bridge

  function SetPort(p: int): Request {
    Parsed(Some(SetOscPortType), PortValue(true, Some(p)))
  }

  /** A browser asks for port `p`; the new listener binds and then decodes `/test`
      with the float 1.5: the browser gets `osc_ready` and then the data record. */
  method RestartThenForward(p: int, now: int) returns (inbox: seq<Msg>)
    requires IsPortNumber(p)
    ensures inbox == [Ready(p)] + [Data("/test", [FloatVal(1.5)], now)]
  {
    var b := new OscBridge();
    var c := b.Connect();
    b.OnClientMessage(SetPort(p), false);
    var before := b.outbox;
    assert before[c] == [] && c in b.clients && IsOpen(b.readyState, c);
    b.OnListenerReady(0);
    FanOutAt(before, b.clients, b.readyState, Ready(p), c);
    assert b.outbox[c] == [Ready(p)];
    var msg := OscMessage("/test", Some([OscArg('f', FloatVal(1.5))]));
    assert DataRecord(msg, now) == Data("/test", [FloatVal(1.5)], now);
    before := b.outbox;
    b.OnOscMessage(0, msg, now);
    FanOutAt(before, b.clients, b.readyState, DataRecord(msg, now), c);
    inbox := b.outbox[c];
  }

  /** Asking twice for the same port is not deduplicated: the first listener is
      closed, a second one is created and opened for the same port, and when
      each binds the browser gets one more `osc_ready`. */
  method SamePortTwice(p: int, closeFails: bool) returns (inbox: seq<Msg>, log: seq<ListenerAction>)
    requires IsPortNumber(p)
    ensures inbox == [Ready(p)] + [Ready(p)]
    ensures log == [CreateListener(0, p), OpenListener(0)] +
                   [CloseListener(0, closeFails), CreateListener(1, p), OpenListener(1)]
  {
    var b := new OscBridge();
    var c := b.Connect();
    b.OnClientMessage(SetPort(p), false);
    var before := b.outbox;
    assert before[c] == [] && c in b.clients && IsOpen(b.readyState, c);
    b.OnListenerReady(0);
    FanOutAt(before, b.clients, b.readyState, Ready(p), c);
    assert b.outbox[c] == [Ready(p)];
    assert b.actions == [CreateListener(0, p), OpenListener(0)];
    b.OnClientMessage(SetPort(p), closeFails);
    log := b.actions;
    before := b.outbox;
    b.OnListenerReady(1);
    FanOutAt(before, b.clients, b.readyState, Ready(p), c);
    inbox := b.outbox[c];
  }

  /** After port `p` was requested, a request whose port is out of range or not
      a number changes nothing: `p` stays recorded and no listener is touched. */
  method BadPortIgnored(p: int, bad: Option<int>) returns (port: Option<int>, log: seq<ListenerAction>)
    requires IsPortNumber(p)
    requires bad.None? || !IsPortNumber(bad.value)
    ensures port == Some(p)
    ensures log == [CreateListener(0, p), OpenListener(0)]
  {
    var b := new OscBridge();
    b.OnClientMessage(SetPort(p), false);
    b.OnClientMessage(Parsed(Some(SetOscPortType), PortValue(true, bad)), false);
    port, log := b.currentOscPort, b.actions;
  }

  /** A browser that connects before any port is requested is told nothing; one
      that connects after port `p` was requested is told `osc_status` for `p`,
      even before the listener has bound. */
  method StatusOnConnect(p: int) returns (early: seq<Msg>, late: seq<Msg>)
    requires IsPortNumber(p)
    ensures early == []
    ensures late == [Status(p)]
  {
    var b := new OscBridge();
    var first := b.Connect();
    early := b.outbox[first];
    b.OnClientMessage(SetPort(p), false);
    var second := b.Connect();
    late := b.outbox[second];
  }

  /** A listener that has been replaced still reports with the port it was
      created for: its late `osc_ready` names `p` although `q` is now recorded. */
  method StaleListenerReports(p: int, q: int) returns (inbox: seq<Msg>, port: Option<int>)
    requires IsPortNumber(p) && IsPortNumber(q)
    ensures inbox == [Ready(p)]
    ensures port == Some(q)
  {
    var b := new OscBridge();
    var c := b.Connect();
    b.OnClientMessage(SetPort(p), false);
    b.OnClientMessage(SetPort(q), false);
    var before := b.outbox;
    assert before[c] == [] && c in b.clients && IsOpen(b.readyState, c) && b.listenerPort[0] == p;
    b.OnListenerReady(0);
    FanOutAt(before, b.clients, b.readyState, Ready(p), c);
    inbox, port := b.outbox[c], b.currentOscPort;
  }

  /** Two records broadcast in turn, with no connection joining, leaving or
      changing state in between: each OPEN browser is sent both, in order. */
  method BroadcastTwice(b: OscBridge, m1: Msg, m2: Msg)
    requires b.Valid()
    modifies b`outbox
    ensures b.Valid()
    ensures b.outbox == FanOutEach(old(b.outbox), b.clients, b.readyState, [m1, m2])
    ensures forall c :: c in old(b.outbox) ==>
              b.outbox[c] == if c in b.clients && IsOpen(b.readyState, c)
                             then old(b.outbox)[c] + [m1, m2] else old(b.outbox)[c]
  {
    ghost var start := b.outbox;
    b.Broadcast(m1);
    b.Broadcast(m2);
    assert [m1, m2][..1] == [m1] && [m1, m2][..0] == [];
    assert FanOutEach(start, b.clients, b.readyState, [m1]) == FanOut(start, b.clients, b.readyState, m1);
    forall c | c in start
      ensures b.outbox[c] == if c in b.clients && IsOpen(b.readyState, c) then start[c] + [m1, m2] else start[c]
    {
      FanOutEachAt(start, b.clients, b.readyState, [m1, m2], c);
    }
  }
}

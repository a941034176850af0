/** The bridge controller: the set of connected browsers, the single current
    OSC listener, and the handlers that change them or fan records out. */
module Bridge {
  import opened OscRecords
  import opened Control

  /** A browser connection's handle; handles are never reused. */
  type ClientId = nat

  /** A UDP listener's handle, numbered in order of creation. */
  type ListenerId = nat

  /** The WebSocket `readyState` of a connection, set by the transport. */
  datatype ReadyState = Connecting | Open | Closing | Closed

  /** What the bridge asks of the UDP library, in order. `threw` records
      whether `close()` raised an exception (which the bridge ignores). */
  datatype ListenerAction =
    | CloseListener(id: ListenerId, threw: bool)
    | CreateListener(id: ListenerId, port: int)
    | OpenListener(id: ListenerId)

  predicate IsOpen(state: map<ClientId, ReadyState>, c: ClientId) {
    c in state && state[c] == Open
  }

  /** The outboxes after `m` is sent once to every client of `targets` whose
      connection is OPEN; every other outbox is left as it was. */
  function FanOut(outbox: map<ClientId, seq<Msg>>, targets: set<ClientId>,
                  state: map<ClientId, ReadyState>, m: Msg): (r: map<ClientId, seq<Msg>>)
    ensures r.Keys == outbox.Keys
  {
    map c | c in outbox :: if c in targets && IsOpen(state, c) then outbox[c] + [m] else outbox[c]
  }

  /** An unfolding of `FanOut` at one connection, for use in proofs. */
  lemma FanOutAt(outbox: map<ClientId, seq<Msg>>, targets: set<ClientId>,
                 state: map<ClientId, ReadyState>, m: Msg, c: ClientId)
    requires c in outbox
    ensures FanOut(outbox, targets, state, m)[c] ==
              if c in targets && IsOpen(state, c) then outbox[c] + [m] else outbox[c]
  {
  }

  /** Fanning out to one more client extends the fan-out to the others by that
      client's send alone, whatever order the clients are visited in. */
  lemma FanOutOneMore(outbox: map<ClientId, seq<Msg>>, done: set<ClientId>, c: ClientId,
                      state: map<ClientId, ReadyState>, m: Msg)
    requires c in outbox && c !in done
    ensures FanOut(outbox, done + {c}, state, m) ==
              if IsOpen(state, c) then FanOut(outbox, done, state, m)[c := outbox[c] + [m]]
              else FanOut(outbox, done, state, m)
  {
  }

  /** Fanning out to two disjoint groups of clients, one after the other, is
      fanning out to both at once: the order in which `forEach` visits the
      clients does not change what any of them is sent. */
  lemma FanOutUnion(outbox: map<ClientId, seq<Msg>>, first: set<ClientId>, second: set<ClientId>,
                    state: map<ClientId, ReadyState>, m: Msg)
    requires first !! second
    ensures FanOut(FanOut(outbox, first, state, m), second, state, m) == FanOut(outbox, first + second, state, m)
  {
  }

  /** The outboxes after the records `ms` are broadcast one after the other to
      the same clients. */
  function FanOutEach(outbox: map<ClientId, seq<Msg>>, targets: set<ClientId>,
                      state: map<ClientId, ReadyState>, ms: seq<Msg>): (r: map<ClientId, seq<Msg>>)
    ensures r.Keys == outbox.Keys
    decreases |ms|
  {
    if ms == [] then outbox
    else FanOut(FanOutEach(outbox, targets, state, ms[..|ms| - 1]), targets, state, ms[|ms| - 1])
  }

  /** Consecutive broadcasts reach each OPEN client in the order they were made,
      each exactly once, and leave every other client's outbox as it was. */
  lemma {:induction false} FanOutEachAt(outbox: map<ClientId, seq<Msg>>, targets: set<ClientId>,
                                        state: map<ClientId, ReadyState>, ms: seq<Msg>, c: ClientId)
    requires c in outbox
    ensures FanOutEach(outbox, targets, state, ms)[c] ==
              if c in targets && IsOpen(state, c) then outbox[c] + ms else outbox[c]
    decreases |ms|
  {
    if ms == [] {
      assert outbox[c] + ms == outbox[c];
    } else {
      var init, last := ms[..|ms| - 1], ms[|ms| - 1];
      FanOutEachAt(outbox, targets, state, init, c);
      FanOutAt(FanOutEach(outbox, targets, state, init), targets, state, last, c);
      assert init + [last] == ms;
    }
  }

  /** The listener actions of one restart: close the previous listener if there
      is one, then create and open the new one. */
  function RestartActions(previous: Option<ListenerId>, closeFails: bool,
                          newId: ListenerId, port: int): seq<ListenerAction>
  {
    match previous
    case None => [CreateListener(newId, port), OpenListener(newId)]
    case Some(id) => [CloseListener(id, closeFails), CreateListener(newId, port), OpenListener(newId)]
  }

  class OscBridge {
    /** Connected browsers. */
    var clients: set<ClientId>
    /** Each browser connection's WebSocket state, for every handle ever connected. */
    var readyState: map<ClientId, ReadyState>
    /** Everything sent to each browser connection, in order. */
    var outbox: map<ClientId, seq<Msg>>
    var nextClient: nat
    /** The port of the last accepted `set_osc_port` request, or None until one is accepted. */
    var currentOscPort: Option<int>
    /** The current UDP listener, or None until a request is accepted. */
    var listener: Option<ListenerId>
    var nextListener: nat
    /** The port each listener was created for; its handlers report this port. */
    var listenerPort: map<ListenerId, int>
    /** Every request made of the UDP library, in order. */
    var actions: seq<ListenerAction>

    ghost predicate WasClosed(id: ListenerId)
      reads this`actions
    {
      CloseListener(id, false) in actions || CloseListener(id, true) in actions
    }

    /** Every connection ever made has a state and a record of what it was sent. */
    ghost predicate ClientsValid()
      reads this`clients, this`readyState, this`outbox, this`nextClient
    {
      (forall c :: c in outbox ==> c < nextClient) &&
      readyState.Keys == outbox.Keys &&
      clients <= outbox.Keys
    }

    /** The current listener is the one created last, for the port recorded last,
        and every listener but the current one has been closed. */
    ghost predicate ListenerValid()
      reads this`currentOscPort, this`listener, this`nextListener, this`listenerPort, this`actions
    {
      (forall id :: id in listenerPort ==> id < nextListener) &&
      listener == (if nextListener == 0 then None else Some(nextListener - 1)) &&
      (listener.None? <==> currentOscPort.None?) &&
      (listener.Some? ==> listener.value in listenerPort &&
                          currentOscPort.value == listenerPort[listener.value]) &&
      (forall id :: id in listenerPort && listener != Some(id) ==> WasClosed(id))
    }

    ghost predicate Valid()
      reads this
    {
      ClientsValid() && ListenerValid()
    }

    /** The state at start-up: no browsers, no listener. */
    constructor ()
      ensures Valid()
      ensures clients == {} && outbox == map[] && readyState == map[]
      ensures currentOscPort == None && listener == None && actions == []
    {
      clients, readyState, outbox, nextClient := {}, map[], map[], 0;
      currentOscPort, listener, nextListener, listenerPort, actions := None, None, 0, map[], [];
    }

    /** Sends `m` to every connected browser whose connection is OPEN. */
    method Broadcast(m: Msg)
      requires Valid()
      modifies this`outbox
      ensures Valid()
      ensures outbox == FanOut(old(outbox), clients, readyState, m)
    {
      // `clients.forEach` over the clients at hand: each send is appended to
      // what that connection has been sent
      var before, targets, state := outbox, clients, readyState;
      assert targets <= before.Keys == state.Keys;
      var sent, pending := before, targets;
      ghost var done: set<ClientId> := {};
      while pending != {}
        invariant pending <= targets && done == targets - pending
        invariant sent == FanOut(before, done, state, m)
        decreases pending
      {
        var c :| c in pending;
        FanOutOneMore(before, done, c, state, m);
        if state[c] == Open {
          sent := sent[c := sent[c] + [m]];
        }
        pending := pending - {c};
        done := done + {c};
      }
      assert done == targets;
      outbox := sent;
      assert ListenerValid();
    }

    /** A browser connects: it joins `clients` and, if a port is recorded, is
        told that port. */
    method Connect() returns (c: ClientId)
      requires Valid()
      modifies this`clients, this`readyState, this`outbox, this`nextClient
      ensures Valid()
      ensures c !in old(outbox)
      ensures clients == old(clients) + {c}
      ensures readyState == old(readyState)[c := Open]
      ensures outbox == old(outbox)[c := if currentOscPort.Some? && currentOscPort.value != 0
                                         then [Status(currentOscPort.value)] else []]
    {
      c := nextClient;
      // `if (currentOscPort)`: null and 0 are both falsy
      var greeting: seq<Msg> := [];
      if currentOscPort.Some? && currentOscPort.value != 0 {
        greeting := [Status(currentOscPort.value)];
      }
      clients, readyState, outbox := clients + {c}, readyState[c := Open], outbox[c := greeting];
      nextClient := nextClient + 1;
    }

    /** The transport changes a connection's `readyState`. */
    method TransportStateChange(c: ClientId, s: ReadyState)
      requires Valid() && c in readyState
      modifies this`readyState
      ensures Valid()
      ensures readyState == old(readyState)[c := s]
    {
      readyState := readyState[c := s];
    }

    /** A browser's connection closes: only that handle leaves `clients`. */
    method Disconnect(c: ClientId)
      requires Valid()
      modifies this`clients
      ensures Valid()
      ensures clients == old(clients) - {c}
    {
      clients := clients - {c};
    }

    /** The listener actions and state changes of one call of `StartOscListener`. */
    twostate predicate Restarted(port: int, closeFails: bool)
      reads this
    {
      currentOscPort == Some(port) &&
      listener == Some(old(nextListener)) &&
      nextListener == old(nextListener) + 1 &&
      listenerPort == old(listenerPort)[old(nextListener) := port] &&
      actions == old(actions) + RestartActions(old(listener), closeFails, old(nextListener), port)
    }

    /** Replaces the UDP listener: closes the current one if any (an exception
        from `close()` is swallowed), records `port`, then creates and opens a
        listener for it. Whether it binds is reported later by its handlers. */
    method StartOscListener(port: int, closeFails: bool)
      requires Valid()
      modifies this`currentOscPort, this`listener, this`nextListener, this`listenerPort, this`actions
      ensures Valid()
      ensures Restarted(port, closeFails)
    {
      if listener.Some? {
        actions := actions + [CloseListener(listener.value, closeFails)];
      }
      currentOscPort := Some(port);
      var newId := nextListener;
      nextListener := nextListener + 1;
      listenerPort := listenerPort[newId := port];
      listener := Some(newId);
      actions := actions + [CreateListener(newId, port)];
      actions := actions + [OpenListener(newId)];
      assert forall id :: id in old(listenerPort) ==> WasClosed(id) by {
        forall id | id in old(listenerPort)
          ensures WasClosed(id)
        {
          if id == newId - 1 {
            assert actions[|old(actions)|] == CloseListener(id, closeFails);
          } else {
            assert old(WasClosed(id));
          }
        }
      }
    }

    /** A text frame from a browser: a valid `set_osc_port` request restarts the
        listener on that port; anything else, malformed text included, changes
        nothing. */
    method OnClientMessage(req: Request, closeFails: bool)
      requires Valid()
      modifies this`currentOscPort, this`listener, this`nextListener, this`listenerPort, this`actions
      ensures Valid()
      ensures RequestedPort(req).None? ==> unchanged(this)
      ensures RequestedPort(req).Some? ==> Restarted(RequestedPort(req).value, closeFails)
    {
      match RequestedPort(req)
      case Some(port) => StartOscListener(port, closeFails);
      case None =>
    }

    /** Listener `l` decodes a datagram received at `now`: its data record goes
        to every OPEN browser, whether or not `l` is still the current listener. */
    method OnOscMessage(l: ListenerId, msg: OscMessage, now: int)
      requires Valid() && l in listenerPort
      modifies this`outbox
      ensures Valid()
      ensures outbox == FanOut(old(outbox), clients, readyState, DataRecord(msg, now))
    {
      Broadcast(DataRecord(msg, now));
    }

    /** Listener `l` is bound: `osc_ready` with the port `l` was created for. */
    method OnListenerReady(l: ListenerId)
      requires Valid() && l in listenerPort
      modifies this`outbox
      ensures Valid()
      ensures outbox == FanOut(old(outbox), clients, readyState, Ready(listenerPort[l]))
    {
      Broadcast(Ready(listenerPort[l]));
    }

    /** Listener `l` reports an error: `osc_error` with its message; the listener
        and the recorded port stay as they are. */
    method OnListenerError(l: ListenerId, text: string)
      requires Valid() && l in listenerPort
      modifies this`outbox
      ensures Valid()
      ensures outbox == FanOut(old(outbox), clients, readyState, Error(text))
    {
      Broadcast(Error(text));
    }
  }
}

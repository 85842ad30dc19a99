/**
 The WebSocket clients as objects: `WebSocketClient`, and the WebSocket half of
 `SpooledRealtime` (`options.unified`).  Each method runs alone here; what other threads can
 do between its steps is the subject of `SubscriptionRaces`.
 */
module WebSocketClients {
  import opened Wrappers
  import opened DialBudget
  import opened Subscriptions

  class WebSocketClient {
    const options: Options
    var state: ConnectionState
    var attempts: nat
    var connectedAt: Option<real>
    var timers: map<nat, real>               // the delay of every pending dial
    var started: nat                         // timers started so far
    var latest: Option<nat>                  // `_reconnect_timer`
    var table: seq<Filter>                   // `_subscriptions`, in insertion order
    var socket: Option<set<Filter>>          // the open socket, with what the server has for it

    ghost predicate Valid()
      reads this
    {
      Sound() && (socket.Some? <==> state == Connected)
    }

    /** What holds also between losing the socket and lowering the state. */
    ghost predicate Sound()
      reads this
    {
      options.Valid() && NoRepeats(table) && forall id :: id in timers ==> id < started
    }

    ghost function Now(): Link
      reads this
    {
      Link(state, attempts, connectedAt, |timers|)
    }

    ghost function Table(): set<Filter>
      reads this
    {
      Elements(table)
    }

    /** While connected, the server filters by exactly the subscription table. */
    ghost predicate Agrees()
      reads this
    {
      socket.Some? ==> socket.value == AllOnWire(Table())
    }

    constructor (options: Options)
      requires options.Valid()
      ensures Valid() && Agrees() && table == [] && attempts == 0 && state == ConnectionState.Disconnected
      ensures this.options == options
    {
      this.options := options;
      state, attempts, connectedAt := ConnectionState.Disconnected, 0, None;
      timers, started, latest := map[], 0, None;
      table, socket := [], None;
    }

    /** `_send_command`, once the caller has seen the client connected. */
    method Send(subscribe: bool, f: Filter)
      requires socket.Some?
      modifies `socket
      ensures socket == Some(if subscribe then old(socket).value + {OnWire(f)} else old(socket).value - {OnWire(f)})
    {
      socket := Some(if subscribe then socket.value + {OnWire(f)} else socket.value - {OnWire(f)});
    }

    method ResubscribeAll()
      requires Valid() && socket == Some({})
      modifies `socket
      ensures Valid() && Agrees() && socket.Some?
    {
      assert Elements([]) == {} && AllOnWire({}) == {};
      for i := 0 to |table|
        invariant socket == Some(AllOnWire(Elements(table[..i])))
      {
        ElementsAppend(table[..i], table[i]);
        assert table[..i + 1] == table[..i] + [table[i]];
        Send(true, table[i]);
      }
      assert table[..|table|] == table;
    }

    /** `connect`; false when the dial raised. */
    method Connect(success: bool, now: real) returns (ok: bool)
      requires Valid()
      modifies `state, `connectedAt, `socket
      ensures Valid() && (old(Agrees()) ==> Agrees())
      ensures old(state == Connected || state == Connecting) ==> ok && Now() == old(Now()) && socket == old(socket)
      ensures !old(state == Connected || state == Connecting) ==>
        && ok == success
        && (success ==> Agrees() && Now() == old(Now()).(state := Connected, connectedAt := Some(now)))
        && (!success ==> Now() == old(Now()).(state := ConnectionState.Disconnected))
    {
      if state == Connected || state == Connecting { return true; }
      if success {
        socket, state := Some({}), Connected;
        connectedAt := Some(now);
        ResubscribeAll();
      } else {
        state := ConnectionState.Disconnected;
      }
      ok := success;
    }

    /**
     An explicit disconnect gives the budget back and cancels the latest timer, but no
     other; only `WebSocketClient` forgets the subscriptions.
     */
    method Disconnect()
      requires Valid()
      modifies this
      ensures Valid() && Agrees()
      ensures timers == if old(latest).Some? then old(timers) - {old(latest).value} else old(timers)
      ensures Now() == Link(ConnectionState.Disconnected, 0, None, |timers|)
      ensures table == if options.unified then old(table) else []
    {
      if latest.Some? { timers := timers - {latest.value}; }
      latest, socket, state := None, None, ConnectionState.Disconnected;
      attempts, connectedAt := 0, None;
      if !options.unified { table := []; }
    }

    method Subscribe(f: Filter)
      requires Valid()
      modifies `table, `socket
      ensures Valid() && (old(Agrees()) ==> Agrees())
      ensures table == if f in old(table) then old(table) else old(table) + [f]
      ensures socket == if state == Connected && f !in old(table) then Some(old(socket).value + {OnWire(f)}) else old(socket)
    {
      if f in table { return; }
      ElementsAppend(table, f);
      table := table + [f];
      if state == Connected { Send(true, f); }
    }

    /** Agreement survives exactly when no remaining filter looks the same on the wire. */
    method Unsubscribe(f: Filter)
      requires Valid()
      modifies `table, `socket
      ensures Valid()
      ensures Table() == old(Table()) - {f}
      ensures socket == if state == Connected && f in old(table) then Some(old(socket).value - {OnWire(f)}) else old(socket)
      ensures old(Agrees()) ==>
        (Agrees() <==> !(state == Connected && f in old(table) && exists g :: g in Table() && OnWire(g) == OnWire(f)))
    {
      if f !in table { return; }
      UnsubscribeOnWire(Table(), f);
      WithoutIsRemoval(table, f);
      table := Without(table, f);
      if state == Connected { Send(false, f); }
    }

    /** `_schedule_reconnect`: one more attempt, and a timer for its dial. */
    method ScheduleReconnect()
      requires Sound() && socket.None?
      modifies `state, `attempts, `timers, `started, `latest
      ensures Valid() && state == Reconnecting && attempts == old(attempts) + 1
      ensures latest == Some(old(started)) && timers.Keys == old(timers).Keys + {old(started)} && |timers| == |old(timers)| + 1
      ensures forall id :: id in old(timers) ==> timers[id] == old(timers)[id]
      ensures IsDelay(options, attempts, timers[old(started)]) && 0.0 <= timers[old(started)] <= 1.25 * options.maxDelay
    {
      state, attempts := Reconnecting, attempts + 1;
      var delay := Base(options, attempts);
      DelayBounds(options, attempts, delay);
      var jitter: real := *;
      if 0.0 <= jitter <= delay * 0.25 {
        delay := delay + jitter;
      }
      ghost var before := timers;
      timers := timers[started := delay];
      assert timers.Keys == before.Keys + {started};
      latest, started := Some(started), started + 1;
    }

    /** `_handle_disconnect`: the timers already running stay, whether or not a new one starts. */
    method HandleDisconnect(now: real)
      requires Valid()
      modifies this
      ensures Valid() && Agrees() && table == old(table)
      ensures Now() == AfterDrop(options, old(Now()), now)
      ensures forall id :: id in old(timers) ==> id in timers && timers[id] == old(timers)[id]
      ensures forall id :: id in timers && id !in old(timers) ==>
        id == old(started) && attempts >= 1 && IsDelay(options, attempts, timers[id]) && timers[id] <= 1.25 * options.maxDelay
    {
      socket := None;
      if connectedAt.Some? && now - connectedAt.value >= STABLE_SECONDS { attempts := 0; }
      connectedAt := None;
      if options.autoReconnect && attempts < options.maxAttempts {
        ScheduleReconnect();
      } else {
        state := ConnectionState.Disconnected;
      }
    }

    /** `do_reconnect`, when the timer fires. */
    method DoReconnect(id: nat, dial: Dial, now: real)
      requires Valid() && id in timers
      modifies this
      ensures Valid() && table == old(table)
      ensures Now() == AfterDial(options, old(Now()), dial, now)
      ensures old(Agrees()) || !old(AlreadyConnected(options, Now())) ==> Agrees()
      ensures dial.Opened? && !old(AlreadyConnected(options, Now())) ==>
        state == Connected && connectedAt == Some(now) && attempts == old(attempts) && Agrees()
      ensures id !in timers
      ensures forall other :: other in old(timers) && other != id ==> other in timers && timers[other] == old(timers)[other]
    {
      ghost var before := timers;
      timers := timers - {id};
      assert timers.Keys == before.Keys - {id};
      if options.unified {
        var ok := Connect(dial.Opened?, now);
        if !ok {
          if dial.rejected { return; }
          HandleDisconnect(now);
        }
      } else if dial.Opened? {
        socket, state, connectedAt := Some({}), Connected, Some(now);
        ResubscribeAll();
      } else {
        HandleDisconnect(now);
      }
    }
  }
}

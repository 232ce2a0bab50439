/**
 * The handlers of src/bridge.ts over the module-level maps they update, each shown to make exactly one step of the
 * state machine.
 */
module BridgeServer {
  import opened Sequences
  import opened OrderedMap
  import opened Contention
  import opened Bridge

  class Server {
    var clients: Dict<Client>
    var replaced: set<Socket>
    var tracker: Tracker
    var watching: set<string>
    var replies: Dict<Debt>
    var threads: Dict<Thread>
    var stops: map<nat, InFlight>
    var lastDone: map<string, int>

    ghost function Now(): State
      reads this
    {
      State(clients, replaced, tracker, watching, replies, threads, stops, lastDone)
    }

    ghost predicate Valid()
      reads this
    {
      WellFormed(Now())
    }

    constructor ()
      ensures Valid() && Now() == START
    {
      clients, replaced, tracker, watching := [], {}, Tracker(map[], map[]), {};
      replies, threads, stops, lastDone := [], [], map[], map[];
    }

    /** The loop at the head of `handleClientMessage`. */
    method HandleFrame(ws: Socket, now: int)
      requires Valid()
      modifies this`clients
      ensures Valid() && Now() == Step(old(Now()), Frame(ws, now))
    {
      hide Touch;
      TouchKeepsUnique(clients, ws, now);
      var i := 0;
      while i < |clients| && clients[i].value.ws != ws
        invariant i <= |clients|
        invariant forall j :: 0 <= j < i ==> clients[j].value.ws != ws
      {
        i := i + 1;
      }
      TouchFirst(clients, ws, now, i);
      if i < |clients| { clients := clients[i := Entry(clients[i].key, clients[i].value.(lastSeen := now))]; }
    }

    /** The websocket `close` handler: every entry of the socket goes, deleted while iterating. */
    method HandleClose(ws: Socket)
      requires Valid()
      modifies this
      ensures Valid() && Now() == Step(old(Now()), Close(ws))
    {
      hide ClosedUpTo, OnClose, Drop, Unique;
      CloseKeepsForm(Now(), ws);
      ClosedInAll(Now(), ws);
      var entries := clients;
      for i := 0 to |entries|
        invariant Now() == ClosedUpTo(old(Now()), ws, i) && entries == old(clients)
      {
        ClosedOneMore(old(Now()), ws, i);
        if entries[i].value.ws == ws {
          clients := Without(clients, entries[i].key);
          var wasReplaced := ws in replaced;
          replaced := replaced - {ws};
          if !wasReplaced {
            tracker := Forget(tracker, {entries[i].key});
            watching := watching - {entries[i].key};
          }
        }
      }
      threads := DeleteMarked(threads, ThreadOf(ws));
    }

    /**
     * The `register` frame; `closesAtOnce` says whether closing the old socket runs its callback before this handler
     * goes on.
     */
    method HandleRegister(channel: string, ws: Socket, pid: Option<int>, admitted: bool, closesAtOnce: bool, now: int)
      returns (alert: Option<Alert>)
      requires Valid()
      modifies this
      ensures Valid() && Now() == Step(old(Now()), Register(channel, ws, pid, admitted, closesAtOnce, now))
      ensures alert == RegisterAlert(old(Now()), channel, ws, pid, admitted, now)
    {
      hide Noted, OnClose, Touch;
      RegisterKeepsForm(Now(), channel, ws, pid, admitted, closesAtOnce, now);
      alert := None;
      TouchGet(clients, ws, now, channel);
      HandleFrame(ws, now);
      if !admitted { return; }
      var known := Get(clients, channel);
      if known.Some? && known.value.ws != ws {
        tracker, alert := Note(tracker, channel, FlipOf(known.value, pid, now));
        replaced := replaced + {known.value.ws};
        if closesAtOnce { HandleClose(known.value.ws); }
      }
      clients := Put(clients, channel, Client(ws, pid, now));
    }

    /** The books of `deliverToLocal`. */
    method HandleDeliver(thread: string, msgId: string, address: string, ws: Socket, intent: string, origin: string,
        skipWatchdog: bool, now: int)
      requires Valid()
      modifies this`replies, this`threads
      ensures Valid() && Now() ==
        Step(old(Now()), Deliver(thread, msgId, address, ws, intent, origin, skipWatchdog, now))
      ensures HangsDebt(intent, origin, skipWatchdog) ==>
        Get(replies, thread) == Some(Debt(msgId, address, ws, now, origin, 0))
          && Get(threads, thread) == Some(Thread(ws, now))
      ensures forall key :: key != thread || !HangsDebt(intent, origin, skipWatchdog) ==>
        Get(replies, key) == old(Get(replies, key)) && Get(threads, key) == old(Get(threads, key))
    {
      hide Get, Put, Unique;
      StepKeepsForm(Now(), Deliver(thread, msgId, address, ws, intent, origin, skipWatchdog, now));
      var debt := Debt(msgId, address, ws, now, origin, 0);
      forall key ensures Get(Put(replies, thread, debt), key) ==
        if key == thread then Some(debt) else Get(replies, key) {
        GetPut(replies, thread, debt, key);
      }
      forall key ensures Get(Put(threads, thread, Thread(ws, now)), key) ==
        if key == thread then Some(Thread(ws, now)) else Get(threads, key) {
        GetPut(threads, thread, Thread(ws, now), key);
      }
      if HangsDebt(intent, origin, skipWatchdog) {
        replies := Put(replies, thread, debt);
        threads := Put(threads, thread, Thread(ws, now));
      }
    }

    /**
     * The `reply` frame, and `route_to_agent` with the target's channel as the address: the sender's own debts to it
     * are settled.
     */
    method HandleReply(ws: Socket, address: string, now: int)
      requires Valid()
      modifies this
      ensures Valid() && Now() == Step(old(Now()), Reply(ws, address, now))
    {
      hide Drop, Keys, Touch, Unique;
      StepKeepsForm(Now(), Reply(ws, address, now));
      HandleFrame(ws, now);
      DropCollected(replies, OwedTo(ws, address));
      var keys := CollectKeys(replies, OwedTo(ws, address));
      replies := DeleteKeys(replies, keys);
    }

    /** The head of `deliver`: a response settles the request it names. */
    method HandleResponse(inReplyTo: string, thread: string)
      requires Valid()
      modifies this`replies, this`threads
      ensures Valid() && Now() == Step(old(Now()), Response(inReplyTo, thread))
    {
      hide Drop;
      StepKeepsForm(Now(), Response(inReplyTo, thread));
      if inReplyTo != "" {
        replies := DeleteMarked(replies, Answered(inReplyTo, thread));
        threads := Without(threads, thread);
      }
    }

    /** `pickUnrepliedForNudge`. */
    method FindNudge(ws: Socket, now: int) returns (pick: Option<Entry<Debt>>)
      ensures pick == Pick(replies, ws, now)
    {
      pick := None;
      for i := 0 to |replies|
        invariant pick == Pick(replies[..i], ws, now)
      {
        assert replies[..i + 1][..i] == replies[..i];
        var e := replies[i];
        if Nudgeable(e, ws, now) && (pick.None? || e.value.since < pick.value.value.since) { pick := Some(e); }
      }
      assert replies[..|replies|] == replies;
    }

    /** The head of `handleHookRequest`: `blocked` holds the Stop back so that the agent replies first. */
    method HandleStopArrives(id: nat, channel: string, hook: Hook, active: bool, preempted: bool, afterAbort: bool,
        now: int)
      returns (blocked: Option<string>)
      requires Valid()
      modifies this`replies, this`stops
      ensures Valid() && Now() == Step(old(Now()), StopArrives(id, channel, hook, active, preempted, afterAbort, now))
      ensures blocked == HeldBackFor(old(Now()), channel, hook, active, preempted, afterAbort, now)
    {
      hide Pick, Put, Get, Unique;
      StepKeepsForm(Now(), StopArrives(id, channel, hook, active, preempted, afterAbort, now));
      blocked := None;
      if preempted { return; }
      var holder := Get(clients, channel);
      if hook == Stop && !afterAbort && holder.Some? && !active {
        var pick := FindNudge(holder.value.ws, now);
        if pick.Some? {
          replies := Put(replies, pick.value.key, pick.value.value.(nudgedAt := now));
          return Some(pick.value.value.address);
        }
      }
      if hook != OtherHook {
        var socket := if holder.Some? then Some(holder.value.ws) else None;
        stops := stops[id := InFlight(channel, hook, afterAbort && hook == Stop, false, socket, now)];
      }
    }

    method HandleStopSettles(id: nat, now: int)
      requires Valid()
      modifies this`stops
      ensures Valid() && Now() == Step(old(Now()), StopSettles(id, now))
      ensures id in stops <==> id in old(stops) && !IsRepeat(old(Now()), old(stops)[id], now)
      ensures id in stops ==> stops[id] == old(stops)[id].(settled := true)
      ensures forall other :: other != id ==> (other in stops <==> other in old(stops))
    {
      if id in stops {
        var stop := stops[id];
        var last := if stop.channel in lastDone then lastDone[stop.channel] else 0;
        if EndsTurn(stop.hook) && !stop.quiet && now - last < COMPLETION_DEDUPE_MS {
          stops := stops - {id};
        } else {
          stops := stops[id := stop.(settled := true)];
        }
      }
    }

    /** The clearing loops at the end of a Stop. */
    method HandleStopClears(id: nat)
      requires Valid()
      modifies this`stops, this`replies, this`threads
      ensures Valid() && Now() == Step(old(Now()), StopClears(id))
    {
      hide Drop, Get, Unique;
      StepKeepsForm(Now(), StopClears(id));
      if id in stops && stops[id].settled {
        var stop := stops[id];
        stops := stops - {id};
        var holder := Get(clients, stop.channel);
        if holder.Some? && EndsTurn(stop.hook) {
          replies := DeleteMarked(replies, OwedBy(holder.value.ws));
          threads := DeleteMarked(threads, ThreadOf(holder.value.ws));
        }
      }
    }

    /** The completion notice went out: later hooks of this channel are measured against it. */
    method HandleCompletionSent(channel: string, now: int)
      requires Valid()
      modifies this`lastDone
      ensures Valid() && Now() == Step(old(Now()), CompletionSent(channel, now))
      ensures channel in lastDone && lastDone[channel] == now
      ensures forall other :: other != channel ==>
        && (other in lastDone <==> other in old(lastDone))
        && (other in lastDone ==> lastDone[other] == old(lastDone)[other])
    {
      lastDone := lastDone[channel := now];
    }

    /** A watcher starts on the channel. */
    method HandleWatch(channel: string)
      requires Valid()
      modifies this`watching
      ensures Valid() && Now() == Step(old(Now()), Watch(channel))
      ensures watching == old(watching) + {channel}
    {
      watching := watching + {channel};
    }

    method HandleSweep(now: int)
      requires Valid()
      modifies this`threads
      ensures Valid() && Now() == Step(old(Now()), Sweep(now))
    {
      StepKeepsForm(Now(), Sweep(now));
      threads := DeleteMarked(threads, Stale(now));
    }
  }

  lemma TouchFirst(clients: Dict<Client>, ws: Socket, now: int, i: nat)
    requires i <= |clients| && forall j :: 0 <= j < i ==> clients[j].value.ws != ws
    requires i < |clients| ==> clients[i].value.ws == ws
    ensures Touch(clients, ws, now) ==
      if i < |clients| then clients[i := Entry(clients[i].key, clients[i].value.(lastSeen := now))] else clients
  {
    if i > 0 { TouchFirst(clients[1..], ws, now, i - 1); }
  }

  // ---- closing, entry after entry ----

  /** The state of the close handler when it has looked at the first i entries. */
  ghost function ClosedUpTo(s: State, ws: Socket, i: nat): State
    requires i <= |s.clients|
  {
    var held := Held(s.clients[..i], ws);
    var gone := Elements(GivenUp(held, ws in s.replaced));
    s.(clients := Drop(s.clients[..i], HeldBy(ws)) + s.clients[i..],
       replaced := (if held == [] then s.replaced else s.replaced - {ws}),
       tracker := Forget(s.tracker, gone), watching := s.watching - gone)
  }

  function CloseEntry(s: State, channel: string, ws: Socket): State {
    var s' := s.(clients := Without(s.clients, channel), replaced := s.replaced - {ws});
    if ws in s.replaced then s' else s'.(tracker := Forget(s.tracker, {channel}), watching := s.watching - {channel})
  }

  lemma ClosedInAll(s: State, ws: Socket)
    ensures ClosedUpTo(s, ws, 0) == s
    ensures ClosedUpTo(s, ws, |s.clients|).(threads := Drop(s.threads, ThreadOf(ws))) == OnClose(s, ws)
    ensures ClosedUpTo(s, ws, |s.clients|).threads == s.threads
  {
    hide Drop, Forget;
    assert s.clients[..0] == [] && s.clients[0..] == s.clients;
    assert Drop(s.clients[..0], HeldBy(ws)) == [] by { DropNothing(s.clients[..0], HeldBy(ws)); }
    assert s.clients[..|s.clients|] == s.clients;
    assert Drop(s.clients, HeldBy(ws)) + s.clients[|s.clients|..] == Drop(s.clients, HeldBy(ws));
    ForgetNothing(s.tracker);
    assert s.watching - {} == s.watching && Held(s.clients[..0], ws) == [];
    assert Elements(GivenUp([], ws in s.replaced)) == {};
  }

  lemma ClosedOneMore(s: State, ws: Socket, i: nat)
    requires WellFormed(s) && i < |s.clients|
    ensures ClosedUpTo(s, ws, i + 1) ==
      if s.clients[i].value.ws == ws then CloseEntry(ClosedUpTo(s, ws, i), s.clients[i].key, ws)
        else ClosedUpTo(s, ws, i)
  {
    hide Forget, Without, Unique;
    var entries, channel := s.clients, s.clients[i].key;
    var held := Held(entries[..i], ws);
    assert entries[..i + 1][..i] == entries[..i];
    if entries[i].value.ws == ws {
      WithoutReached(entries, i, HeldBy(ws));
      GivenUpMore(held, ws in s.replaced, channel);
      ForgetMore(s.tracker, Elements(GivenUp(held, ws in s.replaced)), channel);
      assert ws in ClosedUpTo(s, ws, i).replaced <==> ws in s.replaced && held == [];
      assert s.replaced - {ws} - {ws} == s.replaced - {ws};
      var gone := Elements(GivenUp(held, ws in s.replaced));
      assert s.watching - gone - {channel} == s.watching - (gone + {channel});
      assert gone + {} == gone;
    } else {
      assert entries[i..] == [entries[i]] + entries[i + 1..];
      assert Held(entries[..i + 1], ws) == held;
      assert Drop(entries[..i + 1], HeldBy(ws)) + entries[i + 1..] == Drop(entries[..i], HeldBy(ws)) + entries[i..];
    }
  }

  lemma GivenUpMore(held: seq<string>, replaced: bool, channel: string)
    ensures Elements(GivenUp(held + [channel], replaced)) ==
      Elements(GivenUp(held, replaced)) + if replaced && held == [] then {} else {channel}
  {
    if held != [] { assert (held + [channel])[1..] == held[1..] + [channel]; }
  }

  lemma ForgetMore(t: Tracker, gone: set<string>, channel: string)
    ensures Forget(Forget(t, gone), {channel}) == Forget(t, gone + {channel})
  {
    assert t.history - gone - {channel} == t.history - (gone + {channel});
    assert t.alertedAt - gone - {channel} == t.alertedAt - (gone + {channel});
  }
}

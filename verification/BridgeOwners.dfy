/** Who holds a channel, over every run, and what a takeover leaves alone. */
module BridgeOwners {
  import opened Sequences
  import opened OrderedMap
  import opened Contention
  import opened Bridge

  // ---- the history of a channel ----

  predicate Takes(e: Event, channel: string, ws: Socket) {
    e.Register? && e.admitted && e.channel == channel && e.ws == ws
  }

  /**
   * The socket loses the channel to a later admitted registration of it, to its own close, or because it is closed on
   * the spot when another of its channels is taken over.
   */
  predicate Loses(s: State, e: Event, channel: string, ws: Socket) {
    match e
    case Close(closed) => closed == ws
    case Register(other, taker, _, admitted, closesAtOnce, _) =>
      admitted && taker != ws && (other == channel || (closesAtOnce && Holds(s, other, ws)))
    case _ => false
  }

  predicate HeldSince(es: seq<Event>, i: nat, channel: string, ws: Socket) {
    i < |es| && Takes(es[i], channel, ws) && forall j :: i < j < |es| ==> !Loses(Run(es[..j]), es[j], channel, ws)
  }

  /** The socket took the channel at some point and has not lost it since. */
  predicate Keeps(es: seq<Event>, channel: string, ws: Socket) {
    exists i :: 0 <= i < |es| && HeldSince(es, i, channel, ws)
  }

  lemma CloseHolds(s: State, closed: Socket, channel: string, ws: Socket)
    requires WellFormed(s)
    ensures Holds(OnClose(s, closed), channel, ws) <==> Holds(s, channel, ws) && closed != ws
    ensures Get(OnClose(s, closed).clients, channel) ==
      if Holds(s, channel, closed) then None else Get(s.clients, channel)
  {
    hide Get, Drop;
    GetDrop(s.clients, HeldBy(closed), channel);
  }

  lemma RegisterHolds(s: State, e: Event, channel: string, ws: Socket)
    requires WellFormed(s) && e.Register?
    ensures Holds(Step(s, e), channel, ws) <==>
      Takes(e, channel, ws) || (Holds(s, channel, ws) && !Loses(s, e, channel, ws))
  {
    hide Get, Put, Touch, Noted, Drop, OnClose, Unique;
    var s0 := s.(clients := Touch(s.clients, e.ws, e.now));
    TouchGet(s.clients, e.ws, e.now, channel);
    TouchGet(s.clients, e.ws, e.now, e.channel);
    TouchKeepsUnique(s.clients, e.ws, e.now);
    if e.admitted {
      var s1 := s0;
      if Replaces(s0, e.channel, e.ws) {
        var holder := Get(s0.clients, e.channel).value;
        var noted := s0.(tracker := Noted(s0.tracker, e.channel, FlipOf(holder, e.pid, e.now)).0,
          replaced := s0.replaced + {holder.ws});
        CloseHolds(noted, holder.ws, channel, ws);
        s1 := TakeOver(s0, e.channel, holder, e.pid, e.closesAtOnce, e.now);
      }
      GetPut(s1.clients, e.channel, Client(e.ws, e.pid, e.now), channel);
    }
  }

  lemma StepHolds(s: State, e: Event, channel: string, ws: Socket)
    requires WellFormed(s)
    ensures Holds(Step(s, e), channel, ws) <==>
      Takes(e, channel, ws) || (Holds(s, channel, ws) && !Loses(s, e, channel, ws))
  {
    hide Get, Put, Touch, OnRegister, Drop, OnClose, Unique, Nudge;
    match e
    case Register(_, _, _, _, _, _) => RegisterHolds(s, e, channel, ws);
    case Close(closed) => CloseHolds(s, closed, channel, ws);
    case Frame(from, now) => TouchGet(s.clients, from, now, channel);
    case Reply(from, _, now) => TouchGet(s.clients, from, now, channel);
    case _ =>
  }

  lemma KeepsStep(es: seq<Event>, channel: string, ws: Socket)
    requires es != []
    ensures var before, e := es[..|es| - 1], es[|es| - 1];
      Keeps(es, channel, ws) <==>
        Takes(e, channel, ws) || (Keeps(before, channel, ws) && !Loses(Run(before), e, channel, ws))
  {
    hide Takes, Loses, Run;
    var n := |es| - 1;
    var before, e := es[..n], es[n];
    forall j | 0 <= j < n ensures before[j] == es[j] && before[..j] == es[..j] {}
    if Takes(e, channel, ws) { assert HeldSince(es, n, channel, ws); }
    if Keeps(before, channel, ws) && !Loses(Run(before), e, channel, ws) {
      var i :| 0 <= i < |before| && HeldSince(before, i, channel, ws);
      assert HeldSince(es, i, channel, ws);
    }
    if Keeps(es, channel, ws) && !Takes(e, channel, ws) {
      var i :| 0 <= i < |es| && HeldSince(es, i, channel, ws);
      assert HeldSince(before, i, channel, ws);
    }
  }

  /**
   * In every run, whatever the order of the close callbacks, a channel is held by exactly the socket that took it and
   * has not lost it since.
   */
  lemma {:induction false} OwnerIsHistory(es: seq<Event>, channel: string, ws: Socket)
    ensures Holds(Run(es), channel, ws) <==> Keeps(es, channel, ws)
  {
    hide Holds, Keeps, Step, Takes, Loses;
    if es == [] {
      NothingHeldAtStart(channel, ws);
    } else {
      var before, e := es[..|es| - 1], es[|es| - 1];
      OwnerIsHistory(before, channel, ws);
      RunKeepsForm(before);
      StepHolds(Run(before), e, channel, ws);
      KeepsStep(es, channel, ws);
    }
  }

  lemma NothingHeldAtStart(channel: string, ws: Socket)
    ensures !Holds(START, channel, ws) && !Keeps([], channel, ws)
  {}

  /** What is left of a thread when this socket is gone. */
  function Unless(t: Option<Thread>, ws: Socket): Option<Thread> {
    if t.Some? && t.value.ws == ws then None else t
  }

  /** Right after its close a socket has no channel and no thread left, and nobody else has lost one. */
  lemma ClosedLeavesNothing(s: State, ws: Socket)
    requires WellFormed(s)
    ensures forall channel :: !Holds(OnClose(s, ws), channel, ws)
    ensures forall channel, other :: other != ws ==>
      (Holds(OnClose(s, ws), channel, other) <==> Holds(s, channel, other))
    ensures forall thread :: Get(OnClose(s, ws).threads, thread) == Unless(Get(s.threads, thread), ws)
  {
    hide OnClose, Holds, Get, Drop;
    forall channel, other ensures Holds(OnClose(s, ws), channel, other) <==> Holds(s, channel, other) && ws != other {
      CloseHolds(s, ws, channel, other);
    }
    CloseThreads(s, ws);
    forall thread ensures Get(OnClose(s, ws).threads, thread) == Unless(Get(s.threads, thread), ws) {
      GetDrop(s.threads, ThreadOf(ws), thread);
    }
  }

  lemma CloseThreads(s: State, ws: Socket)
    ensures OnClose(s, ws).threads == Drop(s.threads, ThreadOf(ws))
  {}

  // ---- which channels a socket holds ----

  lemma HeldMembers(s: State, channel: string, ws: Socket)
    requires WellFormed(s)
    ensures channel in Held(s.clients, ws) <==> Holds(s, channel, ws)
  {
    hide Get, Keys;
    KeysMembers(s.clients, HeldBy(ws), channel);
    GetAt(s.clients, channel);
    if channel in Held(s.clients, ws) {
      var i :| 0 <= i < |s.clients| && s.clients[i].value.ws == ws && s.clients[i].key == channel;
      GetIs(s.clients, i);
    }
  }

  lemma {:induction false} HeldDistinct(clients: Dict<Client>, ws: Socket)
    requires Unique(clients)
    ensures Distinct(Held(clients, ws))
  {
    if clients != [] {
      var init, last := clients[..|clients| - 1], clients[|clients| - 1];
      HeldDistinct(init, ws);
      KeysMembers(init, HeldBy(ws), last.key);
    }
  }

  /** One channel per socket, and no socket that was told to go still holds one. */
  ghost predicate Tidy(s: State) {
    && (forall ws, a, b :: Holds(s, a, ws) && Holds(s, b, ws) ==> a == b)
    && (forall ws, a :: ws in s.replaced ==> !Holds(s, a, ws))
  }

  /** What the clients of the bridge do: a socket registers for one channel, and not again once it has been replaced. */
  ghost predicate Polite(s: State, e: Event) {
    e.Register? && e.admitted ==> e.ws !in s.replaced && forall other :: Holds(s, other, e.ws) ==> other == e.channel
  }

  lemma ReplacedSockets(s: State, e: Event)
    ensures forall ws :: ws in Step(s, e).replaced ==>
      ws in s.replaced || (e.Register? && e.admitted && ws != e.ws && Holds(s, e.channel, ws))
  {
    hide Get, Put, Drop, Touch, Noted, Held, Nudge;
    if e.Register? { TouchGet(s.clients, e.ws, e.now, e.channel); }
  }

  lemma StepKeepsTidy(s: State, e: Event)
    requires WellFormed(s) && Tidy(s) && Polite(s, e)
    ensures Tidy(Step(s, e))
  {
    hide Holds, Step;
    var s' := Step(s, e);
    forall ws, a, b | Holds(s', a, ws) && Holds(s', b, ws) ensures a == b {
      StepHolds(s, e, a, ws);
      StepHolds(s, e, b, ws);
    }
    ReplacedSockets(s, e);
    forall ws, a | ws in s'.replaced ensures !Holds(s', a, ws) {
      StepHolds(s, e, a, ws);
    }
  }

  lemma {:induction false} RunKeepsTidy(es: seq<Event>)
    requires forall i :: 0 <= i < |es| ==> Polite(Run(es[..i]), es[i])
    ensures Tidy(Run(es))
  {
    hide Tidy, Polite, Step;
    if es == [] {
      StartIsTidy();
    } else {
      var before := es[..|es| - 1];
      forall i | 0 <= i < |before| ensures Polite(Run(before[..i]), before[i]) {
        assert before[..i] == es[..i] && before[i] == es[i];
      }
      RunKeepsTidy(before);
      RunKeepsForm(before);
      assert Polite(Run(es[..|es| - 1]), es[|es| - 1]);
      StepKeepsTidy(Run(before), es[|es| - 1]);
    }
  }

  lemma StartIsTidy()
    ensures Tidy(START)
  {}

  // ---- a takeover forgets nothing ----

  /** What closing a socket wipes out: the fight records and watchers of the channels given up with it. */
  lemma CloseForgets(s: State, ws: Socket)
    ensures var gone := Elements(GivenUp(Held(s.clients, ws), ws in s.replaced));
      OnClose(s, ws).tracker == Forget(s.tracker, gone) && OnClose(s, ws).watching == s.watching - gone
  {}

  lemma SingleHeld(s: State, channel: string, ws: Socket)
    requires WellFormed(s) && Holds(s, channel, ws) && forall other :: Holds(s, other, ws) ==> other == channel
    ensures Held(s.clients, ws) == [channel]
  {
    hide Held, Holds;
    var held := Held(s.clients, ws);
    HeldMembers(s, channel, ws);
    HeldDistinct(s.clients, ws);
    forall i | 0 <= i < |held| ensures held[i] == channel { HeldMembers(s, held[i], ws); }
    AtMostOne(held, channel);
  }

  lemma AtMostOne(held: seq<string>, channel: string)
    requires Distinct(held) && forall i :: 0 <= i < |held| ==> held[i] == channel
    ensures |held| <= 1
  {
    FirstTwoDiffer(held);
  }

  lemma FirstTwoDiffer(held: seq<string>)
    requires Distinct(held)
    ensures |held| > 1 ==> held[0] != held[1]
  {}

  /**
   * With one channel per socket, a takeover keeps all fight records, adds its own, and stops no watcher, on the spot;
   * and when the old socket's callback runs later, it finds nothing to forget.
   */
  lemma TakeoverForgetsNothing(s: State, e: Event)
    requires WellFormed(s) && Tidy(s) && e.Register? && e.admitted
    requires Get(s.clients, e.channel).Some? && Get(s.clients, e.channel).value.ws != e.ws
    ensures var holder := Get(s.clients, e.channel).value;
      && Step(s, e).tracker == Noted(s.tracker, e.channel, FlipOf(holder, e.pid, e.now)).0
      && Step(s, e).watching == s.watching
  {
    hide Put, Touch, Noted, OnClose, Tidy, Unique, Held, GivenUp;
    TouchGet(s.clients, e.ws, e.now, e.channel);
    TouchHeld(s.clients, e.ws, e.now, Get(s.clients, e.channel).value.ws);
    HolderIsSingle(s, e.channel, Get(s.clients, e.channel).value.ws);
    var holder := Get(s.clients, e.channel).value;
    var s0 := s.(clients := Touch(s.clients, e.ws, e.now));
    var noted := s0.(tracker := Noted(s0.tracker, e.channel, FlipOf(holder, e.pid, e.now)).0,
      replaced := s0.replaced + {holder.ws});
    CloseForgets(noted, holder.ws);
    NothingGivenUp(e.channel);
    ForgetNothing(noted.tracker);
  }

  lemma HolderIsSingle(s: State, channel: string, ws: Socket)
    requires WellFormed(s) && Tidy(s) && Holds(s, channel, ws)
    ensures Held(s.clients, ws) == [channel]
  {
    hide Held, Holds;
    SingleHeld(s, channel, ws);
  }

  lemma NothingGivenUp(channel: string)
    ensures Elements(GivenUp([channel], true)) == {}
  {}

  lemma LateCloseForgetsNothing(s: State, ws: Socket)
    requires WellFormed(s) && Tidy(s) && ws in s.replaced
    ensures Step(s, Close(ws)) == s.(threads := Drop(s.threads, ThreadOf(ws)))
  {
    hide Drop, Holds, Unique;
    forall i | 0 <= i < |s.clients| ensures !HeldBy(ws)(s.clients[i]) {
      GetIs(s.clients, i);
      assert !Holds(s, s.clients[i].key, ws);
      HoldsAt(s, i);
    }
    DropNothing(s.clients, HeldBy(ws));
    NoneHeld(s.clients, ws);
    ForgetNothing(s.tracker);
    assert s.watching - {} == s.watching;
    assert Elements(GivenUp([], true)) == {};
  }

  lemma HoldsAt(s: State, i: nat)
    requires WellFormed(s) && i < |s.clients|
    ensures Holds(s, s.clients[i].key, s.clients[i].value.ws)
  {
    GetIs(s.clients, i);
  }

  lemma {:induction false} NoneHeld(clients: Dict<Client>, ws: Socket)
    requires forall i :: 0 <= i < |clients| ==> !HeldBy(ws)(clients[i])
    ensures Held(clients, ws) == []
  {
    if clients != [] {
      var init := clients[..|clients| - 1];
      forall i | 0 <= i < |init| ensures !HeldBy(ws)(init[i]) { assert init[i] == clients[i]; }
      NoneHeld(init, ws);
    }
  }

  /**
   * In a polite run, a fight record or a watcher disappears only when the very holder of that channel closes by itself.
   */
  lemma ForgottenOnlyWhenEmpty(s: State, e: Event, channel: string)
    requires WellFormed(s) && Tidy(s)
    requires
      || (channel in s.watching && channel !in Step(s, e).watching)
      || (channel in s.tracker.history && channel !in Step(s, e).tracker.history)
    ensures e.Close? && Holds(s, channel, e.ws) && e.ws !in s.replaced
  {
    hide Tidy, Get, Put, Touch, Drop, Held, Unique, Noted, OnRegister, Nudge;
    if e.Register? {
      RegisterForgetsNothing(s, e, channel);
    } else if e.Close? {
      CloseForgets(s, e.ws);
      HeldMembers(s, channel, e.ws);
      if e.ws in s.replaced { LateCloseForgetsNothing(s, e.ws); }
    }
  }

  lemma RegisterForgetsNothing(s: State, e: Event, channel: string)
    requires WellFormed(s) && Tidy(s) && e.Register?
    ensures channel in s.watching ==> channel in Step(s, e).watching
    ensures channel in s.tracker.history ==> channel in Step(s, e).tracker.history
  {
    hide Tidy, Get, Put, Touch, Drop, Held, Unique, OnClose, Kept, Live, Repeated;
    TouchGet(s.clients, e.ws, e.now, e.channel);
    if e.admitted && Get(s.clients, e.channel).Some? && Get(s.clients, e.channel).value.ws != e.ws {
      TakeoverForgetsNothing(s, e);
    }
  }

  /** A takeover of the channel while its holder is still talking. */
  predicate LiveTakeover(s: State, e: Event, channel: string) {
    && e.Register? && e.admitted && e.channel == channel
    && Get(s.clients, channel).Some? && Get(s.clients, channel).value.ws != e.ws
    && e.now - Get(s.clients, channel).value.lastSeen <= LIVE_IDLE_MS
  }

  function AlertAt(s: State, e: Event): Option<Alert>
    requires e.Register?
  {
    RegisterAlert(s, e.channel, e.ws, e.pid, e.admitted, e.now)
  }

  lemma TakeoverNotes(s: State, e: Event, channel: string)
    requires WellFormed(s) && Tidy(s) && Polite(s, e) && LiveTakeover(s, e, channel)
    ensures var s' := Step(s, e); var flip := FlipOf(Get(s.clients, channel).value, e.pid, e.now);
      && WellFormed(s') && Tidy(s') && Get(s'.clients, channel) == Some(Client(e.ws, e.pid, e.now))
      && (s'.tracker, AlertAt(s, e)) == Noted(s.tracker, channel, flip)
      && WasLive()(flip) && flip.at == e.now && flip.to == e.pid
  {
    hide Unique, Tidy, Polite, OnRegister, Noted, Touch, Get;
    StepKeepsForm(s, e);
    StepKeepsTidy(s, e);
    RegisterTakes(s, channel, e.ws, e.pid, e.closesAtOnce, e.now);
    TakeoverForgetsNothing(s, e);
    TouchGet(s.clients, e.ws, e.now, channel);
  }

  /**
   * Two processes that take a channel from each other in quick succession are reported, in whatever order the close
   * callbacks run.
   */
  lemma FightIsReported(s: State, a: Event, b: Event, c: Event, channel: string)
    requires WellFormed(s) && Tidy(s)
    requires var s1, s2 := Step(s, a), Step(Step(s, a), b);
      && Polite(s, a) && Polite(s1, b) && Polite(s2, c)
      && LiveTakeover(s, a, channel) && LiveTakeover(s1, b, channel) && LiveTakeover(s2, c, channel)
    requires c.pid.Some? && c.pid == a.pid
    ensures var s1, s2 := Step(s, a), Step(Step(s, a), b);
      || AlertAt(s, a).Some? || AlertAt(s1, b).Some? || AlertAt(s2, c).Some?
      || (channel in s.tracker.alertedAt && c.now - s.tracker.alertedAt[channel] < COOLDOWN_MS)
  {
    hide WellFormed, Tidy, Polite, Step, Noted, RegisterAlert, Get;
    var s1, s2 := Step(s, a), Step(Step(s, a), b);
    TakeoverNotes(s, a, channel);
    TakeoverNotes(s1, b, channel);
    TakeoverNotes(s2, c, channel);
    FightIsNoticed(s.tracker, channel, FlipOf(Get(s.clients, channel).value, a.pid, a.now),
      FlipOf(Get(s1.clients, channel).value, b.pid, b.now), FlipOf(Get(s2.clients, channel).value, c.pid, c.now));
  }

  // ---- without that discipline ----

  /** The state when the old holder of the channel has closed, on the spot or as the next event. */
  function TakenOver(s: State, e: Event): State
    requires e.Register? && Get(s.clients, e.channel).Some?
  {
    if e.closesAtOnce then Step(s, e) else Step(Step(s, e), Close(Get(s.clients, e.channel).value.ws))
  }

  /**
   * Which channels of the old holder keep record and watcher. The mark as replaced is used up on the first channel the
   * close callback meets: on the spot the first of all, later the first of those that were not taken over.
   */
  function Spared(held: seq<string>, channel: string, closesAtOnce: bool): set<string>
    requires held != []
  {
    if closesAtOnce then {held[0]}
    else {channel} + if held[0] != channel then {held[0]} else if |held| > 1 then {held[1]} else {}
  }

  /**
   * A takeover from a socket that holds any number of channels, in both orders of its close callback: afterwards the
   * old holder has no channel left; of its channels exactly the spared ones keep their watcher and their record (to
   * which the takeover itself adds one for the channel taken over); and all other channels keep both.
   */
  lemma TakeoverOfOneOfMany(s: State, e: Event, c: string)
    requires WellFormed(s) && e.Register? && e.admitted
    requires Get(s.clients, e.channel).Some? && Get(s.clients, e.channel).value.ws != e.ws
    ensures var holder, s' := Get(s.clients, e.channel).value.ws, TakenOver(s, e); var held := Held(s.clients, holder);
      && held != [] && !Holds(s', c, holder)
      && (c in s'.watching <==> c in s.watching && (c in held ==> c in Spared(held, e.channel, e.closesAtOnce)))
      && (c in s'.tracker.history <==>
            (c == e.channel || c in s.tracker.history) && (c in held ==> c in Spared(held, e.channel, e.closesAtOnce)))
  {
    hide Put, Touch, Noted, OnClose, Unique, Held, Get;
    var holder := Get(s.clients, e.channel).value;
    var held := Held(s.clients, holder.ws);
    TouchGet(s.clients, e.ws, e.now, e.channel);
    TouchHeld(s.clients, e.ws, e.now, holder.ws);
    TouchKeepsUnique(s.clients, e.ws, e.now);
    HeldDistinct(s.clients, holder.ws);
    HeldMembers(s, e.channel, holder.ws);
    var s0 := s.(clients := Touch(s.clients, e.ws, e.now));
    var noted := s0.(tracker := Noted(s0.tracker, e.channel, FlipOf(Get(s0.clients, e.channel).value, e.pid, e.now)).0,
                     replaced := s0.replaced + {holder.ws});
    NotedKeys(s0.tracker, e.channel, FlipOf(Get(s0.clients, e.channel).value, e.pid, e.now));
    StepHolds(s, e, c, holder.ws);
    if e.closesAtOnce {
      CloseForgets(noted, holder.ws);
    } else {
      var client := Client(e.ws, e.pid, e.now);
      var taken := noted.(clients := Put(noted.clients, e.channel, client));
      assert Step(s, e) == taken;
      StepKeepsForm(s, e);
      CloseForgets(taken, holder.ws);
      StepHolds(taken, Close(holder.ws), c, holder.ws);
      var i := HeldAfterPut(noted.clients, e.channel, holder.ws, client);
      GivenUpWithout(held, i, c);
    }
  }

  lemma NotedKeys(t: Tracker, channel: string, flip: Flip)
    ensures Noted(t, channel, flip).0.history.Keys == t.history.Keys + {channel}
  {
    hide Kept, Live, Repeated;
  }

  lemma GivenUpWithout(held: seq<string>, i: nat, c: string)
    requires Distinct(held) && i < |held|
    ensures c in Elements(GivenUp(RemoveAt(held, i), true)) <==> c in held && c !in Spared(held, held[i], false)
  {
    hide Distinct;
    var rest := RemoveAt(held, i);
    RestIsDistinct(held, i);
    assert rest == held[..i] + held[i + 1..] && held == held[..i] + [held[i]] + held[i + 1..];
    assert c in rest <==> c in held && c != held[i] by { RestMembers(held, i, c); }
    if rest != [] {
      assert rest[0] == if i == 0 then held[1] else held[0];
      if i > 0 { FirstDiffers(held, i); }
    }
  }

  lemma FirstDiffers(held: seq<string>, i: nat)
    requires Distinct(held) && 0 < i < |held|
    ensures held[0] != held[i]
  {}

  lemma RestMembers(held: seq<string>, i: nat, c: string)
    requires Distinct(held) && i < |held|
    ensures c in RemoveAt(held, i) <==> c in held && c != held[i]
  {
    forall j | 0 <= j < |held| && j != i ensures held[j] != held[i] {
      if j < i { assert held[j] != held[i]; } else { assert held[i] != held[j]; }
    }
    if c in held && c != held[i] {
      var j :| 0 <= j < |held| && held[j] == c;
      assert RemoveAt(held, i)[if j < i then j else j - 1] == c;
    }
  }

  lemma RestIsDistinct(held: seq<string>, i: nat)
    requires Distinct(held) && i < |held|
    ensures Distinct(RemoveAt(held, i))
  {
    var rest := RemoveAt(held, i);
    forall j, k | 0 <= j < k < |rest| ensures rest[j] != rest[k] {
      assert rest[j] == held[if j < i then j else j + 1] && rest[k] == held[if k < i then k else k + 1];
    }
  }

  /**
   * Setting a channel to another socket takes it out of the list of the old holder and leaves the rest of the list in
   * order.
   */
  lemma HeldAfterPut(clients: Dict<Client>, channel: string, ws: Socket, client: Client) returns (i: nat)
    requires Unique(clients) && client.ws != ws && Get(clients, channel).Some? && Get(clients, channel).value.ws == ws
    ensures i < |Held(clients, ws)| && Held(clients, ws)[i] == channel
    ensures Held(Put(clients, channel, client), ws) == RemoveAt(Held(clients, ws), i)
  {
    hide Put, Get, Keys;
    GetAt(clients, channel);
    var k :| 0 <= k < |clients| && clients[k] == Entry(channel, Get(clients, channel).value);
    PutAt(clients, k, channel, client);
    var before, after := clients[..k], clients[k + 1..];
    assert clients == before + [clients[k]] + after;
    KeysAppend(before, [clients[k]], HeldBy(ws));
    KeysAppend(before + [clients[k]], after, HeldBy(ws));
    KeysAppend(before, [Entry(channel, client)], HeldBy(ws));
    KeysAppend(before + [Entry(channel, client)], after, HeldBy(ws));
    OneKey(clients[k], ws);
    OneKey(Entry(channel, client), ws);
    i := |Held(before, ws)|;
    assert Held(clients, ws) == Held(before, ws) + [channel] + Held(after, ws);
  }

  lemma OneKey(e: Entry<Client>, ws: Socket)
    ensures Held([e], ws) == if e.value.ws == ws then [e.key] else []
  {
    assert [e][..0] == [];
    assert Keys([], HeldBy(ws)) == [];
    assert [] + [e.key] == [e.key];
  }

  // ---- a run with a socket under two channels ----

  /** One socket registers for channel a, then for channel b. */
  const SHARED: seq<Event> := [] + [Register("a", 1, None, true, true, 0)] + [Register("b", 1, None, true, true, 0)]

  lemma BothHeld()
    ensures Run(SHARED).clients == [Entry("a", Client(1, None, 0)), Entry("b", Client(1, None, 0))]
    ensures Held(Run(SHARED).clients, 1) == ["a", "b"]
  {
    var ea, eb := Register("a", 1, None, true, true, 0), Register("b", 1, None, true, true, 0);
    var a, b := Entry("a", Client(1, None, 0)), Entry("b", Client(1, None, 0));
    RunSnoc([], ea);
    RunSnoc([] + [ea], eb);
    FirstChannel(Run([]), "a");
    SecondChannel(Run([] + [ea]), a, "b");
    hide Run, Keys, Step;
    KeysAppend([a], [b], HeldBy(1));
    OneKey(a, 1);
    OneKey(b, 1);
    assert [a] + [b] == [a, b];
  }

  lemma FirstChannel(s: State, channel: string)
    requires s.clients == []
    ensures Step(s, Register(channel, 1, None, true, true, 0)).clients == [Entry(channel, Client(1, None, 0))]
  {
    hide Noted, OnClose;
  }

  lemma SecondChannel(s: State, first: Entry<Client>, channel: string)
    requires s.clients == [first] && first.value == Client(1, None, 0) && first.key != channel
    ensures Step(s, Register(channel, 1, None, true, true, 0)).clients == [first, Entry(channel, Client(1, None, 0))]
  {
    hide Noted, OnClose;
    assert [first][1..] == [];
    assert Touch([first], 1, 0) == [first];
    assert Get([first], channel).None?;
    PutNew([first], channel, Client(1, None, 0));
  }

  /**
   * Taking over b wipes out, on the spot, the record that this very takeover has just made of b, although b has a
   * holder.
   */
  lemma SharedSocketLosesRecord()
    ensures var s := Run(SHARED + [Register("b", 2, None, true, true, 1)]);
      Holds(s, "b", 2) && "b" !in s.tracker.history
  {
    hide Run, Keys, OnRegister, Spared;
    var e := Register("b", 2, None, true, true, 1);
    RunSnoc(SHARED, e);
    RunKeepsForm(SHARED);
    BothHeld();
    GetIs(Run(SHARED).clients, 1);
    TakeoverOfOneOfMany(Run(SHARED), e, "b");
    RegisterTakes(Run(SHARED), "b", 2, None, true, 1);
    assert Spared(["a", "b"], "b", true) == {"a"} by { FirstIsSpared(); }
  }

  lemma FirstIsSpared()
    ensures Spared(["a", "b"], "b", true) == {"a"} && "a" in Spared(["a", "b"], "b", false)
  {}

  /** With the late callback it is channel a that is left without a holder and yet keeps its watcher. */
  lemma SharedSocketKeepsWatcher()
    ensures var s := Run(SHARED + [Watch("a")] + [Register("b", 2, None, true, false, 1)] + [Close(1)]);
      Get(s.clients, "a").None? && "a" in s.watching
  {
    hide Run, Keys, Spared;
    var w, e := Watch("a"), Register("b", 2, None, true, false, 1);
    RunSnoc(SHARED, w);
    RunSnoc(SHARED + [w], e);
    RunSnoc(SHARED + [w] + [e], Close(1));
    RunKeepsForm(SHARED + [w]);
    BothHeld();
    var s := Run(SHARED + [w]);
    GetIs(s.clients, 0);
    GetIs(s.clients, 1);
    hide OnRegister, OnClose;
    TakeoverOfOneOfMany(s, e, "a");
    FirstIsSpared();
    StepKeepsForm(s, e);
    StepHolds(s, e, "a", 1);
    assert s.clients[0] == Entry("a", Client(1, None, 0));
    assert Holds(s, "a", 1);
    assert Holds(Step(s, e), "a", 1);
    CloseHolds(Step(s, e), 1, "a", 1);
    LateClose(SHARED + [w] + [e], 1, "a");
    assert "a" in TakenOver(s, e).watching;
    assert TakenOver(s, e) == Step(Step(s, e), Close(1)) == Run(SHARED + [w] + [e] + [Close(1)]);
  }

  lemma LateClose(es: seq<Event>, ws: Socket, channel: string)
    requires Holds(Run(es), channel, ws)
    ensures Get(Run(es + [Close(ws)]).clients, channel).None?
  {
    hide OnClose, Run;
    RunKeepsForm(es);
    RunSnoc(es, Close(ws));
    CloseHolds(Run(es), ws, channel, ws);
  }
}

/** The book of debts against the history of events. */
module BridgeDebts {
  import opened Sequences
  import opened OrderedMap
  import opened Contention
  import opened Bridge

  /** A request, named by its thread, its message and the address it is to be answered at. */
  datatype Request = Request(thread: string, msgId: string, address: string)

  /** The book says: this socket owes an answer to this request. */
  predicate Owes(s: State, ws: Socket, r: Request) {
    var d := Get(s.replies, r.thread);
    d.Some? && d.value.ws == ws && d.value.msgId == r.msgId && d.value.address == r.address
  }

  // ---- the history ----

  /** A request is handed over that expects an answer: from a person or a peer, or from an agent that waits for it. */
  predicate HangsAny(e: Event) {
    e.Deliver? && e.intent == "request" && (e.origin != "local" || !e.skipWatchdog)
  }

  predicate HangsOnThread(e: Event, thread: string) {
    HangsAny(e) && e.thread == thread
  }

  predicate Hangs(e: Event, ws: Socket, r: Request) {
    HangsAny(e) && e.thread == r.thread && e.msgId == r.msgId && e.address == r.address && e.ws == ws
  }

  /**
   * The socket itself answers the address, the request is answered by name, or a Stop of a channel the socket holds
   * clears its debts.
   */
  predicate Discharges(s: State, e: Event, ws: Socket, r: Request) {
    match e
    case Reply(sender, address, _) => sender == ws && address == r.address != ""
    case Response(inReplyTo, thread) => inReplyTo != "" && (inReplyTo == r.msgId || thread == r.thread)
    case StopClears(id) => Clears(s, id) == Some(ws)
    case _ => false
  }

  /** The request was handed over at event i, and since then neither discharged nor handed over again. */
  predicate OpenSince(es: seq<Event>, i: nat, ws: Socket, r: Request) {
    && i < |es| && Hangs(es[i], ws, r)
    && forall j :: i < j < |es| ==> !HangsOnThread(es[j], r.thread) && !Discharges(Run(es[..j]), es[j], ws, r)
  }

  predicate Open(es: seq<Event>, ws: Socket, r: Request) {
    exists i :: 0 <= i < |es| && OpenSince(es, i, ws, r)
  }

  lemma StepDebts(s: State, e: Event, ws: Socket, r: Request)
    requires WellFormed(s)
    ensures Owes(Step(s, e), ws, r) <==>
      Hangs(e, ws, r) || (Owes(s, ws, r) && !HangsOnThread(e, r.thread) && !Discharges(s, e, ws, r))
  {
    hide Get, Put, Drop, Pick, Unique, OnClose, Touch, Noted;
    match e
    case Deliver(thread, msgId, address, who, _, origin, _, now) =>
      GetPut(s.replies, thread, Debt(msgId, address, who, now, origin, 0), r.thread);
    case Response(inReplyTo, thread) => GetDrop(s.replies, Answered(inReplyTo, thread), r.thread);
    case Reply(sender, address, _) => GetDrop(s.replies, OwedTo(sender, address), r.thread);
    case StopArrives(_, channel, hook, active, _, afterAbort, now) =>
      var nudge := Nudge(s, channel, hook, active, afterAbort, now);
      if nudge.Some? {
        PickFound(s.replies, Get(s.clients, channel).value.ws, now);
        GetPut(s.replies, nudge.value.key, nudge.value.value.(nudgedAt := now), r.thread);
      }
    case StopClears(id) => if Clears(s, id).Some? { GetDrop(s.replies, OwedBy(Clears(s, id).value), r.thread); }
    case Register(channel, who, pid, admitted, closesAtOnce, now) =>
      RegisterKeepsReplies(s, channel, who, pid, admitted, closesAtOnce, now);
    case Close(who) => CloseKeepsReplies(s, who);
    case _ =>
  }

  lemma CloseKeepsReplies(s: State, ws: Socket)
    ensures OnClose(s, ws).replies == s.replies && OnClose(s, ws).stops == s.stops
  {}

  lemma RegisterKeepsReplies(s: State, channel: string, ws: Socket, pid: Option<int>, admitted: bool,
      closesAtOnce: bool, now: int)
    ensures var s' := OnRegister(s, channel, ws, pid, admitted, closesAtOnce, now);
      s'.replies == s.replies && s'.stops == s.stops
  {
    hide Get, Put, Touch, Noted, Drop;
  }

  lemma {:induction false} PickFound(m: Dict<Debt>, ws: Socket, now: int)
    requires Unique(m)
    ensures var pick := Pick(m, ws, now);
      pick.Some? ==> Nudgeable(pick.value, ws, now) && Get(m, pick.value.key) == Some(pick.value.value)
  {
    PickIsOldest(m, ws, now);
    var pick := Pick(m, ws, now);
    if pick.Some? {
      var i :| 0 <= i < |m| && FirstOldest(m, i, ws, now) && m[i] == pick.value;
      GetIs(m, i);
    }
  }

  /** The entry at i qualifies, and every other that does is younger, or as old and listed later. */
  predicate FirstOldest(m: Dict<Debt>, i: nat, ws: Socket, now: int) {
    && i < |m| && Nudgeable(m[i], ws, now)
    && (forall j :: 0 <= j < i && Nudgeable(m[j], ws, now) ==> m[i].value.since < m[j].value.since)
    && (forall j :: i < j < |m| && Nudgeable(m[j], ws, now) ==> m[i].value.since <= m[j].value.since)
  }

  lemma {:induction false} PickIsOldest(m: Dict<Debt>, ws: Socket, now: int)
    ensures Pick(m, ws, now).None? <==> forall i :: 0 <= i < |m| ==> !Nudgeable(m[i], ws, now)
    ensures Pick(m, ws, now).Some? ==>
      exists i :: 0 <= i < |m| && FirstOldest(m, i, ws, now) && m[i] == Pick(m, ws, now).value
  {
    hide Nudgeable;
    if m != [] {
      var init, last := m[..|m| - 1], |m| - 1;
      PickIsOldest(init, ws, now);
      forall i | 0 <= i < last ensures init[i] == m[i] {}
      if Pick(m, ws, now) == Some(m[last]) && Nudgeable(m[last], ws, now)
         && (Pick(init, ws, now).None? || m[last].value.since < Pick(init, ws, now).value.value.since) {
        assert FirstOldest(m, last, ws, now);
      } else if Pick(init, ws, now).Some? {
        var i :| 0 <= i < |init| && FirstOldest(init, i, ws, now) && init[i] == Pick(init, ws, now).value;
        assert FirstOldest(m, i, ws, now);
      }
    }
  }

  /** A run's last step decides what is open together with what was open before it. */
  lemma OpenStep(es: seq<Event>, ws: Socket, r: Request)
    requires es != []
    ensures var before, e := es[..|es| - 1], es[|es| - 1];
      Open(es, ws, r) <==>
        Hangs(e, ws, r)
        || (Open(before, ws, r) && !HangsOnThread(e, r.thread) && !Discharges(Run(before), e, ws, r))
  {
    hide Hangs, HangsOnThread, Discharges, Run;
    var n := |es| - 1;
    var before, e := es[..n], es[n];
    forall j | 0 <= j < n ensures before[j] == es[j] && before[..j] == es[..j] {}
    if Hangs(e, ws, r) { assert OpenSince(es, n, ws, r); }
    if Open(before, ws, r) && !HangsOnThread(e, r.thread) && !Discharges(Run(before), e, ws, r) {
      var i :| 0 <= i < |before| && OpenSince(before, i, ws, r);
      assert OpenSince(es, i, ws, r);
    }
    if Open(es, ws, r) && !Hangs(e, ws, r) {
      var i :| 0 <= i < |es| && OpenSince(es, i, ws, r);
      assert OpenSince(before, i, ws, r);
    }
  }

  /** In every run, the book lists exactly the requests that were handed over and not discharged since. */
  lemma {:induction false} BookIsHistory(es: seq<Event>, ws: Socket, r: Request)
    ensures Owes(Run(es), ws, r) <==> Open(es, ws, r)
  {
    hide Owes, Open, Step, Hangs, HangsOnThread, Discharges;
    if es == [] {
      NothingOwedAtStart(ws, r);
    } else {
      var before, e := es[..|es| - 1], es[|es| - 1];
      BookIsHistory(before, ws, r);
      RunKeepsForm(before);
      StepDebts(Run(before), e, ws, r);
      OpenStep(es, ws, r);
    }
  }

  lemma NothingOwedAtStart(ws: Socket, r: Request)
    ensures !Owes(START, ws, r) && !Open([], ws, r)
  {}

  /**
   * However many requests share an address, a debt is settled only by the debtor's own frames, a response by name, or a
   * Stop of a channel it holds.
   */
  lemma OnlyTheDebtorSettles(s: State, e: Event, ws: Socket, r: Request)
    requires WellFormed(s) && Owes(s, ws, r) && !Owes(Step(s, e), ws, r)
    ensures e.Reply? || e.Response? || e.StopClears? || e.Deliver?
    ensures e.Reply? ==> e.ws == ws && e.address == r.address
    ensures e.StopClears? ==> e.id in s.stops && s.stops[e.id].settled && Holds(s, s.stops[e.id].channel, ws)
    ensures e.Deliver? ==> e.thread == r.thread
  {
    StepDebts(s, e, ws, r);
  }

  // ---- a debt over time ----

  /** The same debt, perhaps nudged since. */
  predicate Follows(earlier: Debt, later: Debt) {
    earlier.(nudgedAt := later.nudgedAt) == later && (earlier.nudgedAt != 0 ==> later.nudgedAt != 0)
  }

  predicate Remained(s: State, thread: string, d: Debt) {
    Get(s.replies, thread).Some? && Follows(Get(s.replies, thread).value, d)
  }

  lemma StepKeptOrHung(s: State, e: Event, thread: string)
    requires WellFormed(s) && Get(Step(s, e).replies, thread).Some?
    ensures var d := Get(Step(s, e).replies, thread).value;
      Remained(s, thread, d) || (HangsOnThread(e, thread) && e.now == d.since)
  {
    hide Get, Put, Drop, Pick, Unique, OnClose, Touch, Noted;
    match e
    case Deliver(on, msgId, address, who, _, origin, _, now) =>
      GetPut(s.replies, on, Debt(msgId, address, who, now, origin, 0), thread);
    case Response(inReplyTo, on) => GetDrop(s.replies, Answered(inReplyTo, on), thread);
    case Reply(sender, address, _) => GetDrop(s.replies, OwedTo(sender, address), thread);
    case StopArrives(_, channel, hook, active, _, afterAbort, now) =>
      var nudge := Nudge(s, channel, hook, active, afterAbort, now);
      if nudge.Some? {
        PickFound(s.replies, Get(s.clients, channel).value.ws, now);
        GetPut(s.replies, nudge.value.key, nudge.value.value.(nudgedAt := now), thread);
      }
    case StopClears(id) => if Clears(s, id).Some? { GetDrop(s.replies, OwedBy(Clears(s, id).value), thread); }
    case Register(channel, who, pid, admitted, closesAtOnce, now) =>
      RegisterKeepsReplies(s, channel, who, pid, admitted, closesAtOnce, now);
    case Close(who) => CloseKeepsReplies(s, who);
    case _ =>
  }

  /** A debt in the book at the end of a run was there at any earlier point, or was handed over after that point. */
  lemma {:induction false} KeptOrHung(es: seq<Event>, i: nat, thread: string) returns (k: nat)
    requires i <= |es| && Get(Run(es).replies, thread).Some?
    ensures var d := Get(Run(es).replies, thread).value;
      Remained(Run(es[..i]), thread, d) || (i <= k < |es| && HangsOnThread(es[k], thread) && es[k].now == d.since)
  {
    hide Step, Get, HangsOnThread;
    k := |es|;
    if i == |es| {
      assert es[..i] == es;
    } else {
      var before, e := es[..|es| - 1], es[|es| - 1];
      var s, d := Run(before), Get(Run(es).replies, thread).value;
      RunKeepsForm(before);
      StepKeptOrHung(s, e, thread);
      if Remained(s, thread, d) {
        k := KeptOrHung(before, i, thread);
        assert before[..i] == es[..i];
      } else {
        k := |es| - 1;
      }
    }
  }

  // ---- the nudge ----

  /** A Stop that is held back says so by the address it wants answered. */
  predicate Blocked(s: State, e: Event) {
    e.StopArrives? && !e.preempted && Nudge(s, e.channel, e.hook, e.active, e.afterAbort, e.now).Some?
  }

  /**
   * Only for an ordinary end of turn, neither forced on by a Stop held back before nor the echo of an abort, are the
   * debts looked at.
   */
  predicate Asks(e: Event) {
    e.StopArrives? && e.hook == Stop && !e.active && !e.afterAbort
  }

  /** The socket owes a request from outside that it was not reminded of and has had for long enough. */
  predicate Overdue(s: State, ws: Socket, thread: string, now: int) {
    var d := Get(s.replies, thread);
    && d.Some? && d.value.ws == ws
    && d.value.origin != "local" && d.value.nudgedAt == 0 && now - d.value.since >= 500
  }

  /** A Stop is held back exactly when the debts are looked at and the holder of the channel has an overdue one. */
  lemma BlockedIff(s: State, e: Event)
    requires WellFormed(s) && e.StopArrives?
    ensures Blocked(s, e) <==>
      !e.preempted && Asks(e) && exists ws, thread :: Holds(s, e.channel, ws) && Overdue(s, ws, thread, e.now)
  {
    hide Unique, Pick;
    if Get(s.clients, e.channel).Some? {
      var ws := Get(s.clients, e.channel).value.ws;
      PickIsOldest(s.replies, ws, e.now);
      if Pick(s.replies, ws, e.now).Some? {
        PickFound(s.replies, ws, e.now);
        assert Holds(s, e.channel, ws) && Overdue(s, ws, Pick(s.replies, ws, e.now).value.key, e.now);
      } else {
        forall thread ensures !Overdue(s, ws, thread, e.now) { GetAt(s.replies, thread); }
      }
    }
  }

  /** The Stop is held back for the debt on this thread. */
  predicate HeldBackOver(s: State, e: Event, thread: string) {
    Blocked(s, e) && Nudge(s, e.channel, e.hook, e.active, e.afterAbort, e.now).value.key == thread
  }

  /** What a Stop is held back for was not reminded of before, and from then on counts as reminded. */
  lemma Reminds(s: State, e: Event, thread: string)
    requires WellFormed(s) && HeldBackOver(s, e, thread)
    ensures Get(s.replies, thread).Some? && Get(s.replies, thread).value.nudgedAt == 0
    ensures Get(Step(s, e).replies, thread) == Some(Get(s.replies, thread).value.(nudgedAt := e.now))
  {
    hide Get, Put, Pick, Unique;
    var nudge := Nudge(s, e.channel, e.hook, e.active, e.afterAbort, e.now);
    PickFound(s.replies, Get(s.clients, e.channel).value.ws, e.now);
    GetPut(s.replies, thread, nudge.value.value.(nudgedAt := e.now), thread);
  }

  /**
   * In every run, between two Stops held back over the same thread a new request was handed over on it: a request earns
   * one reminder.
   */
  lemma OneNudgePerRequest(es: seq<Event>, i: nat, j: nat, thread: string) returns (k: nat)
    requires i < j < |es| && ClockRuns(es[i])
    requires HeldBackOver(Run(es[..i]), es[i], thread) && HeldBackOver(Run(es[..j]), es[j], thread)
    ensures i < k < j && HangsOnThread(es[k], thread)
  {
    hide Step, Run, Get, HangsOnThread, WellFormed;
    RunKeepsForm(es[..i]);
    RunKeepsForm(es[..j]);
    Reminds(Run(es[..i]), es[i], thread);
    Reminds(Run(es[..j]), es[j], thread);
    assert es[..i + 1] == es[..i] + [es[i]] && es[..j][..i + 1] == es[..i + 1];
    RunSnoc(es[..i], es[i]);
    k := KeptOrHung(es[..j], i + 1, thread);
  }

  predicate ClockRuns(e: Event) {
    e.StopArrives? ==> e.now != 0
  }

  function BlockedStops(es: seq<Event>): nat {
    if es == [] then 0
    else BlockedStops(es[..|es| - 1]) + if Blocked(Run(es[..|es| - 1]), es[|es| - 1]) then 1 else 0
  }

  function Requests(es: seq<Event>): nat {
    if es == [] then 0 else Requests(es[..|es| - 1]) + if HangsAny(es[|es| - 1]) then 1 else 0
  }

  function Unnudged(m: Dict<Debt>): nat {
    if m == [] then 0 else (if m[0].value.nudgedAt == 0 then 1 else 0) + Unnudged(m[1..])
  }

  lemma {:induction false} UnnudgedPut(m: Dict<Debt>, key: string, debt: Debt)
    ensures Unnudged(Put(m, key, debt)) <= Unnudged(m) + if debt.nudgedAt == 0 then 1 else 0
    ensures Get(m, key).Some? && Get(m, key).value.nudgedAt == 0 && debt.nudgedAt != 0 ==>
      Unnudged(Put(m, key, debt)) == Unnudged(m) - 1
  {
    if m != [] && m[0].key != key {
      UnnudgedPut(m[1..], key, debt);
      assert ([m[0]] + Put(m[1..], key, debt))[1..] == Put(m[1..], key, debt);
    } else if m != [] {
      assert ([Entry(key, debt)] + m[1..])[1..] == m[1..];
    }
  }

  lemma {:induction false} UnnudgedAppend(m: Dict<Debt>, n: Dict<Debt>)
    ensures Unnudged(m + n) == Unnudged(m) + Unnudged(n)
  {
    if m == [] { assert m + n == n; } else {
      assert (m + n)[1..] == m[1..] + n;
      UnnudgedAppend(m[1..], n);
    }
  }

  lemma {:induction false} UnnudgedDrop(m: Dict<Debt>, marked: Entry<Debt> -> bool)
    ensures Unnudged(Drop(m, marked)) <= Unnudged(m)
  {
    if m != [] {
      var init, last := m[..|m| - 1], m[|m| - 1];
      UnnudgedDrop(init, marked);
      assert m == init + [last];
      UnnudgedAppend(init, [last]);
      UnnudgedAppend(Drop(init, marked), [last]);
    }
  }

  lemma StepUnnudged(s: State, e: Event)
    requires WellFormed(s) && ClockRuns(e)
    ensures Unnudged(Step(s, e).replies) + (if Blocked(s, e) then 1 else 0) <= Unnudged(s.replies)
      + if HangsAny(e) then 1 else 0
  {
    hide Get, Put, Drop, Pick, Unique, OnClose, Touch, Noted, Unnudged;
    match e
    case Deliver(thread, msgId, address, who, _, origin, _, now) =>
      UnnudgedPut(s.replies, thread, Debt(msgId, address, who, now, origin, 0));
    case Response(inReplyTo, thread) => UnnudgedDrop(s.replies, Answered(inReplyTo, thread));
    case Reply(sender, address, _) => UnnudgedDrop(s.replies, OwedTo(sender, address));
    case StopArrives(_, channel, hook, active, _, afterAbort, now) =>
      var nudge := Nudge(s, channel, hook, active, afterAbort, now);
      if nudge.Some? {
        PickFound(s.replies, Get(s.clients, channel).value.ws, now);
        UnnudgedPut(s.replies, nudge.value.key, nudge.value.value.(nudgedAt := now));
      }
    case StopClears(id) => if Clears(s, id).Some? { UnnudgedDrop(s.replies, OwedBy(Clears(s, id).value)); }
    case Register(channel, who, pid, admitted, closesAtOnce, now) =>
      RegisterKeepsReplies(s, channel, who, pid, admitted, closesAtOnce, now);
    case Close(who) => CloseKeepsReplies(s, who);
    case _ =>
  }

  /** So no run holds back more Stops than it hands over requests; what is left over waits for its reminder. */
  lemma {:induction false} RemindersAreCovered(es: seq<Event>)
    requires forall i :: 0 <= i < |es| ==> ClockRuns(es[i])
    ensures BlockedStops(es) + Unnudged(Run(es).replies) <= Requests(es)
  {
    hide Step, Blocked, HangsAny, ClockRuns;
    if es != [] {
      var before, e := es[..|es| - 1], es[|es| - 1];
      forall i | 0 <= i < |before| ensures ClockRuns(before[i]) { assert before[i] == es[i]; }
      RemindersAreCovered(before);
      RunKeepsForm(before);
      StepUnnudged(Run(before), e);
    } else {
      assert Run(es).replies == [];
    }
  }

  /** A Stop is let through over an overdue debt of its socket only if the debts were not looked at. */
  lemma ClearedWereReminded(s: State, e: Event, ws: Socket, thread: string)
    requires WellFormed(s) && e.StopArrives? && !e.preempted && !Blocked(s, e)
    requires Holds(s, e.channel, ws) && Overdue(s, ws, thread, e.now)
    ensures !Asks(e)
  {
    hide Blocked, Asks, Overdue, WellFormed;
    BlockedIff(s, e);
  }
}

/**
 * The Stop hook of src/bridge.ts over a whole run. Between letting a Stop through and its clearing loop the handler
 * yields, so other events come in between.
 */
module BridgeStops {
  import opened Sequences
  import opened OrderedMap
  import opened Contention
  import opened Bridge
  import opened BridgeDebts

  // ---- the way of a Stop ----

  /** The hook arrived here and was neither swallowed nor held back. */
  predicate LetThrough(s: State, e: Event, id: nat, stop: InFlight) {
    && e.StopArrives? && e.id == id && !e.preempted && !Blocked(s, e)
    && e.channel == stop.channel && e.hook == stop.hook && stop.quiet == (e.afterAbort && e.hook == Stop)
    && stop.holder == HolderOf(s, e.channel) && stop.at == e.now
  }

  /** The hook passed the check for a repeated completion here. */
  predicate PassedCheck(s: State, e: Event, id: nat, stop: InFlight) {
    e.StopSettles? && e.id == id && !IsRepeat(s, stop, e.now)
  }

  ghost predicate CameThrough(es: seq<Event>, i: nat, j: nat, id: nat, stop: InFlight) {
    && i < |es| && LetThrough(Run(es[..i]), es[i], id, stop)
    && (stop.settled ==> i < j < |es| && PassedCheck(Run(es[..j]), es[j], id, stop))
  }

  lemma StillCameThrough(es: seq<Event>, e: Event, i: nat, j: nat, id: nat, stop: InFlight)
    requires CameThrough(es, i, j, id, stop)
    ensures CameThrough(es + [e], i, j, id, stop)
  {
    hide LetThrough, PassedCheck, Run;
    assert (es + [e])[..i] == es[..i];
    if stop.settled { assert (es + [e])[..j] == es[..j]; }
  }

  lemma StopsStep(s: State, e: Event, id: nat)
    requires id in Step(s, e).stops
    ensures var stop := Step(s, e).stops[id];
      || (id in s.stops && s.stops[id] == stop)
      || (!stop.settled && LetThrough(s, e, id, stop))
      || (stop.settled && id in s.stops && s.stops[id].(settled := true) == stop && PassedCheck(s, e, id, s.stops[id]))
  {
    hide Get, Put, Drop, Touch, Noted, Pick, OnRegister, OnClose, OnResponse, Nudge;
    match e
    case Register(channel, who, pid, admitted, closesAtOnce, now) =>
      RegisterKeepsReplies(s, channel, who, pid, admitted, closesAtOnce, now);
    case Close(who) => CloseKeepsReplies(s, who);
    case Response(inReplyTo, thread) => ResponseKeepsStops(s, inReplyTo, thread);
    case _ =>
  }

  lemma ResponseKeepsStops(s: State, inReplyTo: string, thread: string)
    ensures OnResponse(s, inReplyTo, thread).stops == s.stops
  {}

  /**
   * In every run, a Stop under way was let through by the reminder, and one that may clear has passed the check for a
   * repeat after that.
   */
  lemma {:induction false} StopIsHistory(es: seq<Event>, id: nat) returns (i: nat, j: nat)
    requires id in Run(es).stops
    ensures CameThrough(es, i, j, id, Run(es).stops[id])
  {
    hide Step, CameThrough, LetThrough, PassedCheck;
    assert es != [];
    var before, e := es[..|es| - 1], es[|es| - 1];
    var s, stop := Run(before), Run(es).stops[id];
    assert es == before + [e];
    StopsStep(s, e, id);
    if id in s.stops && s.stops[id] == stop {
      i, j := StopIsHistory(before, id);
      StillCameThrough(before, e, i, j, id, stop);
    } else if !stop.settled && LetThrough(s, e, id, stop) {
      i, j := |before|, 0;
      ArrivesNow(es, id, stop);
    } else {
      i, j := StopIsHistory(before, id);
      PassesNow(es, i, j, id, s.stops[id]);
      j := |before|;
    }
  }

  lemma ArrivesNow(es: seq<Event>, id: nat, stop: InFlight)
    requires es != [] && !stop.settled && LetThrough(Run(es[..|es| - 1]), es[|es| - 1], id, stop)
    ensures CameThrough(es, |es| - 1, 0, id, stop)
  {
    hide LetThrough, Run;
  }

  lemma PassesNow(es: seq<Event>, i: nat, k: nat, id: nat, stop: InFlight)
    requires es != [] && PassedCheck(Run(es[..|es| - 1]), es[|es| - 1], id, stop)
    requires CameThrough(es[..|es| - 1], i, k, id, stop)
    ensures CameThrough(es, i, |es| - 1, id, stop.(settled := true))
  {
    hide Run, Blocked;
    assert es[..|es| - 1][..i] == es[..i];
  }

  // ---- repeated completions ----

  predicate Completes(e: Event, channel: string) {
    e.CompletionSent? && e.channel == channel
  }

  /** Event i is the last completion sent on this channel so far. */
  predicate LastCompletion(es: seq<Event>, i: nat, channel: string) {
    i < |es| && es[i].CompletionSent? && Completes(es[i], channel) && forall j :: i < j < |es| ==>
      !Completes(es[j], channel)
  }

  lemma StepCompletes(s: State, e: Event, channel: string)
    ensures var after := Step(s, e).lastDone;
      if Completes(e, channel) then channel in after && after[channel] == e.now
      else
        && (channel in after <==> channel in s.lastDone)
        && (channel in after ==> after[channel] == s.lastDone[channel])
  {
    hide Get, Put, Drop, Touch, Noted, Pick, Nudge;
  }

  /** In every run, what is remembered of a channel is when its last completion was sent, and nothing if none was. */
  lemma {:induction false} LastDoneIsHistory(es: seq<Event>, channel: string)
    ensures channel in Run(es).lastDone <==> exists i :: 0 <= i < |es| && Completes(es[i], channel)
    ensures forall i :: 0 <= i < |es| && LastCompletion(es, i, channel) ==>
      channel in Run(es).lastDone && Run(es).lastDone[channel] == es[i].now
  {
    hide Step, Completes;
    if es != [] {
      var before, last := es[..|es| - 1], |es| - 1;
      LastDoneIsHistory(before, channel);
      StepCompletes(Run(before), es[last], channel);
      forall j | 0 <= j < last ensures before[j] == es[j] {}
      forall i | 0 <= i < |es| && LastCompletion(es, i, channel)
        ensures channel in Run(es).lastDone && Run(es).lastDone[channel] == es[i].now
      {
        if i < last { assert LastCompletion(before, i, channel); }
      }
    } else {
      assert Run(es).lastDone == map[];
    }
  }

  /** A turn's end that is no echo of an abort, less than ten seconds after the last completion of its channel. */
  predicate Repeats(es: seq<Event>, i: nat, stop: InFlight, now: int) {
    && stop.hook in {Stop, StopFailure, LegacyStop} && !stop.quiet
    && LastCompletion(es, i, stop.channel) && now - es[i].now < 10_000
  }

  /**
   * In every run: the check takes a hook for a repeat exactly when it repeats the last completion of its channel, or no
   * completion was sent and the clock reads less than ten seconds.
   */
  lemma RepeatIsHistory(es: seq<Event>, stop: InFlight, now: int)
    ensures IsRepeat(Run(es), stop, now) <==>
      || (exists i :: 0 <= i < |es| && Repeats(es, i, stop, now))
      || (stop.hook in {Stop, StopFailure, LegacyStop} && !stop.quiet && now < 10_000
          && forall i :: 0 <= i < |es| ==> !Completes(es[i], stop.channel))
  {
    hide Run, Completes;
    LastDoneIsHistory(es, stop.channel);
    if exists i :: 0 <= i < |es| && Completes(es[i], stop.channel) {
      var i := TheLast(es, stop.channel);
      assert Repeats(es, i, stop, now) <==> IsRepeat(Run(es), stop, now);
    }
  }

  lemma {:induction false} TheLast(es: seq<Event>, channel: string) returns (i: nat)
    requires exists i :: 0 <= i < |es| && Completes(es[i], channel)
    ensures LastCompletion(es, i, channel)
  {
    i := |es| - 1;
    if !Completes(es[i], channel) {
      assert es[..i] + [es[i]] == es;
      var k :| 0 <= k < |es| && Completes(es[k], channel);
      assert es[..i][k] == es[k];
      i := TheLast(es[..i], channel);
      forall j | i < j < |es| ensures !Completes(es[j], channel) {
        if j < |es| - 1 { assert es[..|es| - 1][j] == es[j]; }
      }
    }
  }

  /**
   * In every run, debts are cleared only for a turn's end that came through: it arrived, was not swallowed and not held
   * back, and when it was checked later it repeated no completion of the last ten seconds on its channel. What is
   * cleared belongs to the socket that holds the channel by then.
   */
  lemma ClearsOnlyWhatCameThrough(es: seq<Event>, id: nat) returns (i: nat, j: nat)
    requires Clears(Run(es), id).Some?
    ensures var stop := Run(es).stops[id];
      && stop.hook in {Stop, StopFailure, LegacyStop} && i < j < |es|
      && LetThrough(Run(es[..i]), es[i], id, stop) && PassedCheck(Run(es[..j]), es[j], id, stop)
      && (forall k :: 0 <= k < j ==> !Repeats(es[..j], k, stop, es[j].now))
      && Holds(Run(es), stop.channel, Clears(Run(es), id).value)
  {
    hide Run, LetThrough, IsRepeat, Repeats;
    i, j := StopIsHistory(es, id);
    RepeatIsHistory(es[..j], Run(es).stops[id], es[j].now);
  }

  /**
   * Left alone, a Stop that is neither swallowed nor held back nor a repeat takes every debt of its channel's holder,
   * if it ends a turn; any other hook takes none.
   */
  lemma LeftAloneItClears(s: State, id: nat, channel: string, hook: Hook, active: bool, afterAbort: bool, now: int,
      thread: string)
    requires WellFormed(s) && id !in s.stops
    requires var e := StopArrives(id, channel, hook, active, false, afterAbort, now);
      !Blocked(s, e) && !IsRepeat(s, InFlight(channel, hook, afterAbort && hook == Stop, false, None, now), now)
    ensures var e := StopArrives(id, channel, hook, active, false, afterAbort, now);
      var after := Step(Step(Step(s, e), StopSettles(id, now)), StopClears(id));
      Get(after.replies, thread) ==
        if hook in {Stop, StopFailure, LegacyStop} && Get(s.replies, thread).Some?
           && Holds(s, channel, Get(s.replies, thread).value.ws) then None
        else Get(s.replies, thread)
  {
    hide Get, Drop, Unique, Pick, Put;
    var stop := InFlight(channel, hook, afterAbort && hook == Stop, false, HolderOf(s, channel), now);
    var arrived := Step(s, StopArrives(id, channel, hook, active, false, afterAbort, now));
    assert arrived == if hook == OtherHook then s else s.(stops := s.stops[id := stop]);
    var settled := Step(arrived, StopSettles(id, now));
    assert settled == if hook == OtherHook then s else s.(stops := s.stops[id := stop.(settled := true)]);
    if Clears(settled, id).Some? { GetDrop(s.replies, OwedBy(Clears(settled, id).value), thread); }
  }

  // ---- what a Stop clears, against what it found ----

  /** A request handed over before a Stop arrives bears no later time, one handed over after it a later one. */
  predicate Ticking(es: seq<Event>) {
    forall j, k :: 0 <= j < k < |es| ==>
      && (HangsAny(es[j]) && es[k].StopArrives? ==> es[j].now <= es[k].now)
      && (es[j].StopArrives? && HangsAny(es[k]) ==> es[j].now < es[k].now)
  }

  /** The clearing takes this debt out of the book. */
  predicate Discharged(s: State, id: nat, thread: string) {
    Get(s.replies, thread).Some? && Get(Step(s, StopClears(id)).replies, thread).None?
  }

  /** The very debt was in the book when the Stop arrived, and its debtor held the channel then. */
  predicate OwedOnArrival(s: State, channel: string, thread: string, d: Debt) {
    Remained(s, thread, d) && Holds(s, channel, d.ws)
  }

  /** The Stop that arrived at i would now clear nothing but what the holder of the channel owed when it arrived. */
  ghost predicate ClearsItsOwn(es: seq<Event>, i: nat, id: nat)
    requires i <= |es| && id in Run(es).stops
  {
    forall thread :: Discharged(Run(es), id, thread) ==>
      OwedOnArrival(Run(es[..i]), Run(es).stops[id].channel, thread, Get(Run(es).replies, thread).value)
  }

  predicate OwesNothing(s: State, ws: Socket) {
    forall k :: 0 <= k < |s.replies| ==> s.replies[k].value.ws != ws
  }

  predicate OwesNothingSince(s: State, ws: Socket, at: int) {
    forall k :: 0 <= k < |s.replies| && s.replies[k].value.ws == ws ==> s.replies[k].value.since <= at
  }

  /**
   * What could be looked up right before the clearing: the channel is still with the socket that held it when the Stop
   * arrived, or its new holder owes nothing; and nothing was handed over to the holder since.
   */
  predicate Undisturbed(s: State, id: nat)
    requires Clears(s, id).Some?
  {
    var stop, ws := s.stops[id], Clears(s, id).value;
    (stop.holder == Some(ws) || OwesNothing(s, ws)) && OwesNothingSince(s, ws, stop.at)
  }

  lemma DischargedIff(s: State, id: nat, thread: string)
    requires WellFormed(s) && Clears(s, id).Some?
    ensures Discharged(s, id, thread) <==>
      Get(s.replies, thread).Some? && Get(s.replies, thread).value.ws == Clears(s, id).value
  {
    hide Get, Drop, Unique;
    GetDrop(s.replies, OwedBy(Clears(s, id).value), thread);
  }

  /** In terms of the entries of the book. */
  lemma UndisturbedByThread(s: State, id: nat)
    requires WellFormed(s) && Clears(s, id).Some?
    ensures Undisturbed(s, id) <==> forall thread :: Discharged(s, id, thread) ==>
      s.stops[id].holder == Some(Clears(s, id).value) && Get(s.replies, thread).value.since <= s.stops[id].at
  {
    hide Get;
    var stop, ws := s.stops[id], Clears(s, id).value;
    forall thread | Undisturbed(s, id) && Discharged(s, id, thread)
      ensures stop.holder == Some(ws) && Get(s.replies, thread).value.since <= stop.at
    {
      DischargedIff(s, id, thread);
      GetAt(s.replies, thread);
      var k :| 0 <= k < |s.replies| && s.replies[k] == Entry(thread, Get(s.replies, thread).value);
      assert s.replies[k].value.ws == ws;
    }
    forall k | 0 <= k < |s.replies| && s.replies[k].value.ws == ws ensures Discharged(s, id, s.replies[k].key) {
      GetIs(s.replies, k);
      DischargedIff(s, id, s.replies[k].key);
    }
    forall k | 0 <= k < |s.replies| ensures Get(s.replies, s.replies[k].key) == Some(s.replies[k].value) {
      GetIs(s.replies, k);
    }
  }

  lemma OwnedIfEarly(es: seq<Event>, i: nat, id: nat, stop: InFlight, thread: string)
    requires i < |es| && LetThrough(Run(es[..i]), es[i], id, stop) && Ticking(es) && Get(Run(es).replies, thread).Some?
    ensures var d := Get(Run(es).replies, thread).value;
      OwedOnArrival(Run(es[..i]), stop.channel, thread, d) <==> stop.holder == Some(d.ws) && d.since <= stop.at
  {
    hide Run, Get, Follows;
    var d := Get(Run(es).replies, thread).value;
    var k := KeptOrHung(es, i, thread);
    if Remained(Run(es[..i]), thread, d) {
      SinceEarlier(es, i, thread, d);
    } else {
      assert k != i && HangsAny(es[k]);
    }
  }

  /** What a Stop finds was handed over before it arrived. */
  lemma SinceEarlier(es: seq<Event>, i: nat, thread: string, d: Debt)
    requires i < |es| && es[i].StopArrives? && Ticking(es) && Remained(Run(es[..i]), thread, d)
    ensures d.since <= es[i].now
  {
    hide Step, Get;
    var before := es[..i];
    var k := KeptOrHung(before, 0, thread);
    assert before[..0] == [];
    assert Get(Run(before[..0]).replies, thread).None? by { NothingAtStart(thread); }
    assert HangsAny(es[k]) && es[k] == before[k];
  }

  lemma NothingAtStart(thread: string)
    ensures Get(Run([]).replies, thread).None?
  {}

  /**
   * In every run: a Stop that gets to its clearing loop discharges only debts that the holder of its channel owed when
   * it arrived if and only if it is undisturbed by then.
   */
  lemma StopIsCleanIff(es: seq<Event>, id: nat) returns (i: nat, j: nat)
    requires Clears(Run(es), id).Some? && Ticking(es)
    ensures var stop := Run(es).stops[id];
      i < j < |es| && LetThrough(Run(es[..i]), es[i], id, stop) && PassedCheck(Run(es[..j]), es[j], id, stop)
    ensures ClearsItsOwn(es, i, id) <==> Undisturbed(Run(es), id)
  {
    hide Run, LetThrough, PassedCheck, Get, Ticking, OwedOnArrival, Undisturbed, WellFormed, Step;
    i, j := ClearsOnlyWhatCameThrough(es, id);
    RunKeepsForm(es);
    var s, ws := Run(es), Clears(Run(es), id).value;
    UndisturbedByThread(s, id);
    forall thread | Discharged(s, id, thread)
      ensures OwedOnArrival(Run(es[..i]), s.stops[id].channel, thread, Get(s.replies, thread).value) <==>
        s.stops[id].holder == Some(ws) && Get(s.replies, thread).value.since <= s.stops[id].at
    {
      DischargedIff(s, id, thread);
      OwnedIfEarly(es, i, id, s.stops[id], thread);
    }
  }

  // ---- what a Stop clears in silence ----

  /** A request handed over after a Stop arrived bears no earlier time. */
  predicate Forwards(es: seq<Event>) {
    forall j, k :: 0 <= j < k < |es| && es[j].StopArrives? && HangsAny(es[k]) ==> es[j].now <= es[k].now
  }

  /** The clearing takes out a debt that was overdue at the given time and never reminded of. */
  predicate ClearedInSilence(s: State, id: nat, thread: string, at: int) {
    Discharged(s, id, thread) && Overdue(s, Get(s.replies, thread).value.ws, thread, at)
  }

  lemma SilentIfOverdue(s: State, id: nat, thread: string, at: int)
    requires WellFormed(s) && Clears(s, id).Some?
    ensures ClearedInSilence(s, id, thread, at) <==> Overdue(s, Clears(s, id).value, thread, at)
  {
    hide Unique, Get, Clears, Step;
    DischargedIff(s, id, thread);
  }

  /** What is overdue by the time of an earlier Stop was so when it arrived. */
  lemma OverdueOnArrival(es: seq<Event>, i: nat, ws: Socket, thread: string)
    requires i < |es| && es[i].StopArrives? && Forwards(es) && Overdue(Run(es), ws, thread, es[i].now)
    ensures Overdue(Run(es[..i]), ws, thread, es[i].now)
  {
    hide Run, Get;
    var k := KeptOrHung(es, i, thread);
    if i <= k < |es| && HangsOnThread(es[k], thread) { assert k != i && HangsAny(es[k]); }
  }

  /**
   * In every run: a Stop that gets to its clearing loop discharges in silence exactly the requests from outside that
   * its channel's holder has by then and that were overdue when the Stop arrived, if the reminder did not look at the
   * debts or looked at those of another holder; otherwise none.
   */
  lemma SilentIff(es: seq<Event>, id: nat) returns (i: nat, j: nat)
    requires Clears(Run(es), id).Some? && Forwards(es)
    ensures var stop := Run(es).stops[id];
      i < j < |es| && LetThrough(Run(es[..i]), es[i], id, stop) && PassedCheck(Run(es[..j]), es[j], id, stop)
    ensures var stop, ws := Run(es).stops[id], Clears(Run(es), id).value;
      forall thread :: ClearedInSilence(Run(es), id, thread, es[i].now) <==>
        Overdue(Run(es), ws, thread, es[i].now) && (!Asks(es[i]) || stop.holder != Some(ws))
  {
    hide Run, PassedCheck, Get, Forwards, ClearedInSilence, Overdue, Asks, Blocked, WellFormed, Step;
    i, j := ClearsOnlyWhatCameThrough(es, id);
    RunKeepsForm(es);
    RunKeepsForm(es[..i]);
    var ws := Clears(Run(es), id).value;
    forall thread
      ensures ClearedInSilence(Run(es), id, thread, es[i].now) <==>
        Overdue(Run(es), ws, thread, es[i].now) && (!Asks(es[i]) || Run(es).stops[id].holder != Some(ws))
    {
      SilentIfOverdue(Run(es), id, thread, es[i].now);
      if Overdue(Run(es), ws, thread, es[i].now) && Run(es).stops[id].holder == Some(ws) {
        OverdueOnArrival(es, i, ws, thread);
        ClearedWereReminded(Run(es[..i]), es[i], ws, thread);
      }
    }
  }

  /**
   * So an undisturbed end of turn clears overdue requests from outside without their reminder only if it was no plain
   * Stop, was forced on by a Stop held back before, or follows an abort; and then it clears every one the holder has.
   */
  lemma CleanStopReminded(es: seq<Event>, id: nat) returns (i: nat, j: nat)
    requires Clears(Run(es), id).Some? && Forwards(es) && Undisturbed(Run(es), id)
    ensures i < j < |es| && LetThrough(Run(es[..i]), es[i], id, Run(es).stops[id])
    ensures forall thread :: ClearedInSilence(Run(es), id, thread, es[i].now) <==>
      Overdue(Run(es), Clears(Run(es), id).value, thread, es[i].now) && !Asks(es[i])
  {
    hide Run, LetThrough, PassedCheck, Get, Forwards, Asks, WellFormed, Step, Undisturbed;
    i, j := SilentIff(es, id);
    RunKeepsForm(es);
    UndisturbedByThread(Run(es), id);
  }

  // ---- a run in which a request is forgotten ----

  /**
   * A turn with two requests pending: its Stop is held back for the first, which is then answered, and the next Stop is
   * let through.
   */
  const FIRST_STOP: seq<Event> :=
    [] + [Register("c", 1, None, true, true, 20_000)]
    + [Deliver("t1", "m1", "a1", 1, "request", "user", false, 20_001)]
      + [Deliver("t2", "m2", "a2", 1, "request", "user", false, 20_002)]
  const HELD_BACK := StopArrives(0, "c", Stop, false, false, false, 30_000)
  const FORCED_ON := StopArrives(1, "c", Stop, true, false, false, 40_000)
  const SECOND_STOP: seq<Event> :=
    FIRST_STOP + [HELD_BACK] + [Reply(1, "a1", 31_000)] + [FORCED_ON] + [StopSettles(1, 40_001)]

  const ONE_CLIENT: Dict<Client> := [Entry("c", Client(1, None, 20_000))]

  function FirstDebt(nudgedAt: int): Entry<Debt> {
    Entry("t1", Debt("m1", "a1", 1, 20_001, "user", nudgedAt))
  }

  const SECOND_DEBT: Entry<Debt> := Entry("t2", Debt("m2", "a2", 1, 20_002, "user", 0))

  predicate Stands(s: State, replies: Dict<Debt>) {
    s.clients == ONE_CLIENT && s.replies == replies && s.stops == map[] && s.lastDone == map[]
  }

  lemma TwoRequests()
    ensures Stands(Run(FIRST_STOP), [FirstDebt(0), SECOND_DEBT])
  {
    var e0 := Register("c", 1, None, true, true, 20_000);
    var e1 := Deliver("t1", "m1", "a1", 1, "request", "user", false, 20_001);
    RunSnoc([], e0);
    RunSnoc([] + [e0], e1);
    RunSnoc([] + [e0] + [e1], Deliver("t2", "m2", "a2", 1, "request", "user", false, 20_002));
    hide Run;
    assert Stands(Step(START, e0), []);
    assert Stands(Step(Step(START, e0), e1), [FirstDebt(0)]);
  }

  lemma FirstIsHeldBack(s: State)
    requires Stands(s, [FirstDebt(0), SECOND_DEBT])
    ensures HeldBackOver(s, HELD_BACK, "t1") && Stands(Step(s, HELD_BACK), [FirstDebt(30_000), SECOND_DEBT])
  {
    var m := s.replies;
    assert m[..1] == [FirstDebt(0)] && m[..1][..0] == [];
    assert Pick(m[..1][..0], 1, 30_000) == None && Pick(m[..1], 1, 30_000) == Some(FirstDebt(0));
  }

  lemma FirstIsAnswered(s: State)
    requires Stands(s, [FirstDebt(30_000), SECOND_DEBT])
    ensures Step(s, Reply(1, "a1", 31_000)) ==
      s.(clients := [Entry("c", Client(1, None, 31_000))], replies := [SECOND_DEBT])
  {
    var m := s.replies;
    assert m[..1] == [FirstDebt(30_000)] && m[..1][..0] == [];
    assert Drop(m[..1], OwedTo(1, "a1")) == [];
  }

  /**
   * A person's requests t1 and t2 are pending in one turn. The Stop is held back for t1, the agent answers t1, and its
   * next Stop, let through because one was held back before, takes t2 with it: undisturbed, long overdue, and
   * never reminded of.
   */
  lemma SecondRequestIsForgotten()
    ensures HeldBackOver(Run(FIRST_STOP), HELD_BACK, "t1")
    ensures var s := Run(SECOND_STOP);
      && Clears(s, 1) == Some(1) && Undisturbed(s, 1)
      && Owes(s, 1, Request("t2", "m2", "a2")) && ClearedInSilence(s, 1, "t2", FORCED_ON.now)
      && !Owes(Run(SECOND_STOP + [StopClears(1)]), 1, Request("t2", "m2", "a2"))
  {
    TwoRequests();
    FirstIsHeldBack(Run(FIRST_STOP));
    RunSnoc(FIRST_STOP, HELD_BACK);
    FirstIsAnswered(Run(FIRST_STOP + [HELD_BACK]));
    RunSnoc(FIRST_STOP + [HELD_BACK], Reply(1, "a1", 31_000));
    SecondIsLetThrough(Run(FIRST_STOP + [HELD_BACK] + [Reply(1, "a1", 31_000)]));
    RunSnoc(FIRST_STOP + [HELD_BACK] + [Reply(1, "a1", 31_000)], FORCED_ON);
    RunSnoc(FIRST_STOP + [HELD_BACK] + [Reply(1, "a1", 31_000)] + [FORCED_ON], StopSettles(1, 40_001));
    RunSnoc(SECOND_STOP, StopClears(1));
    RunKeepsForm(SECOND_STOP);
    SecondIsCleared(Run(SECOND_STOP));
  }

  lemma SecondIsLetThrough(s: State)
    requires s.clients == [Entry("c", Client(1, None, 31_000))] && s.replies == [SECOND_DEBT] && s.stops == map[]
      && s.lastDone == map[]
    ensures var stop := InFlight("c", Stop, false, true, Some(1), 40_000);
      Step(Step(s, FORCED_ON), StopSettles(1, 40_001)) == s.(stops := map[1 := stop])
  {
    var stop := InFlight("c", Stop, false, false, Some(1), 40_000);
    assert Step(s, FORCED_ON) == s.(stops := map[1 := stop]);
    assert !IsRepeat(s, stop, 40_001);
  }

  lemma SecondIsCleared(s: State)
    requires WellFormed(s) && s.clients == [Entry("c", Client(1, None, 31_000))] && s.replies == [SECOND_DEBT]
    requires s.stops == map[1 := InFlight("c", Stop, false, true, Some(1), 40_000)]
    ensures Clears(s, 1) == Some(1) && Undisturbed(s, 1) && Owes(s, 1, Request("t2", "m2", "a2"))
    ensures ClearedInSilence(s, 1, "t2", 40_000) && !Owes(Step(s, StopClears(1)), 1, Request("t2", "m2", "a2"))
  {
    SilentIfOverdue(s, 1, "t2", 40_000);
    StepDebts(s, StopClears(1), 1, Request("t2", "m2", "a2"));
  }

  // ---- runs in which a Stop is disturbed ----

  const REQUEST := Request("t", "m", "a")

  function HandOver(ws: Socket): Event {
    Deliver("t", "m", "a", ws, "request", "user", false, 20_003)
  }

  /** One socket holds channel c; a Stop of c has passed the reminder and the check for a repeated completion. */
  const STARTED: seq<Event> :=
    [] + [Register("c", 1, None, true, true, 20_000)] + [StopArrives(0, "c", Stop, false, false, false, 20_001)]
      + [StopSettles(0, 20_001)]

  lemma Started()
    ensures var s := Run(STARTED);
      && Get(s.clients, "c") == Some(Client(1, None, 20_000)) && |s.clients| == 1
      && s.replies == [] && s.stops == map[0 := InFlight("c", Stop, false, true, Some(1), 20_001)]
  {
    var e0, e1, e2 := Register("c", 1, None, true, true, 20_000),
      StopArrives(0, "c", Stop, false, false, false, 20_001), StopSettles(0, 20_001);
    RunSnoc([], e0);
    RunSnoc([] + [e0], e1);
    RunSnoc([] + [e0] + [e1], e2);
    NothingToNudge(Run([] + [e0]), e1);
    hide Run, Get, OnRegister, OnStopArrives;
    var stop := InFlight("c", Stop, false, false, Some(1), 20_001);
    assert Run([] + [e0] + [e1]).stops == map[0 := stop];
    assert !IsRepeat(Run([] + [e0] + [e1]), stop, 20_001);
  }

  lemma NothingToNudge(s: State, e: Event)
    requires s == START.(clients := [Entry("c", Client(1, None, 20_000))])
      && e == StopArrives(0, "c", Stop, false, false, false, 20_001)
    ensures Step(s, e) == s.(stops := map[0 := InFlight("c", Stop, false, false, Some(1), 20_001)])
    ensures Get(s.clients, "c") == Some(Client(1, None, 20_000))
  {}

  lemma HandOverKeeps(s: State, ws: Socket)
    requires WellFormed(s)
    ensures var s' := Step(s, HandOver(ws)); s'.clients == s.clients && s'.stops == s.stops && Owes(s', ws, REQUEST)
  {
    StepDebts(s, HandOver(ws), ws, REQUEST);
  }

  lemma ClearedFor(es: seq<Event>, ws: Socket)
    requires var s := Run(es);
      Holds(s, "c", ws) && s.stops == map[0 := InFlight("c", Stop, false, true, Some(1), 20_001)]
    ensures Owes(Run(es + [HandOver(ws)]), ws, REQUEST)
    ensures !Owes(Run(es + [HandOver(ws)] + [StopClears(0)]), ws, REQUEST)
  {
    hide Owes, Step, Run, WellFormed;
    RunKeepsForm(es);
    RunKeepsForm(es + [HandOver(ws)]);
    RunSnoc(es, HandOver(ws));
    RunSnoc(es + [HandOver(ws)], StopClears(0));
    HandOverKeeps(Run(es), ws);
    StepDebts(Run(es + [HandOver(ws)]), StopClears(0), ws, REQUEST);
  }

  /**
   * A request that comes in while a Stop is under way is cleared with it, although the Stop was let through before
   * there was a request.
   */
  lemma LateRequestIsCleared()
    ensures Owes(Run(STARTED + [HandOver(1)]), 1, REQUEST)
    ensures !Owes(Run(STARTED + [HandOver(1)] + [StopClears(0)]), 1, REQUEST)
  {
    Started();
    ClearedFor(STARTED, 1);
  }

  /**
   * A Stop that began while one socket held the channel clears the debts of the socket that has taken the channel over
   * since.
   */
  lemma SuccessorIsCleared(closesAtOnce: bool)
    ensures var taken := STARTED + [Register("c", 2, None, true, closesAtOnce, 20_002)] + [HandOver(2)];
      Owes(Run(taken), 2, REQUEST) && !Owes(Run(taken + [StopClears(0)]), 2, REQUEST)
  {
    hide Owes, Run;
    Started();
    var e := Register("c", 2, None, true, closesAtOnce, 20_002);
    RunSnoc(STARTED, e);
    RegisterTakes(Run(STARTED), "c", 2, None, closesAtOnce, 20_002);
    ClearedFor(STARTED + [e], 2);
  }
}

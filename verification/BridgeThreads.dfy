/** The book of threads, which outlives a reply but not its socket, against the history of events. */
module BridgeThreads {
  import opened Sequences
  import opened OrderedMap
  import opened Contention
  import opened Bridge

  // ---- the history of a thread ----

  /** A request that expects an answer opens its thread with the socket it is handed to. */
  predicate Opens(e: Event, thread: string) {
    && e.Deliver? && e.thread == thread
    && e.intent == "request" && (e.origin != "local" || !e.skipWatchdog)
  }

  /**
   * The thread is answered by name, a turn's end of its socket clears it, the socket is gone, by itself or by a
   * takeover on the spot, or the sweep finds it more than half an hour old.
   */
  predicate Ends(s: State, e: Event, thread: string, t: Thread) {
    match e
    case Response(inReplyTo, on) => inReplyTo != "" && on == thread
    case StopClears(id) => Clears(s, id) == Some(t.ws)
    case Close(ws) => ws == t.ws
    case Register(channel, ws, _, admitted, closesAtOnce, _) =>
      admitted && closesAtOnce && t.ws != ws && Holds(s, channel, t.ws)
    case Sweep(now) => now - t.since > 1_800_000
    case _ => false
  }

  /** The thread was opened with this socket by event i, and has neither ended nor been opened anew since. */
  predicate OpenedBy(es: seq<Event>, i: nat, thread: string, t: Thread) {
    && i < |es| && Opens(es[i], thread) && t == Thread(es[i].ws, es[i].now)
    && forall j :: i < j < |es| ==> !Opens(es[j], thread) && !Ends(Run(es[..j]), es[j], thread, t)
  }

  predicate IsOpen(es: seq<Event>, thread: string, t: Thread) {
    exists i :: 0 <= i < |es| && OpenedBy(es, i, thread, t)
  }

  lemma RegisterThreads(s: State, e: Event, thread: string)
    requires WellFormed(s) && e.Register?
    ensures var t := Get(s.threads, thread);
      Get(Step(s, e).threads, thread) == if t.Some? && Ends(s, e, thread, t.value) then None else t
  {
    hide Get, Put, Touch, Noted, Drop, Unique;
    var s0 := s.(clients := Touch(s.clients, e.ws, e.now));
    TouchGet(s.clients, e.ws, e.now, e.channel);
    if e.admitted && Replaces(s0, e.channel, e.ws) {
      GetDrop(s.threads, ThreadOf(Get(s0.clients, e.channel).value.ws), thread);
    }
  }

  lemma StepThreads(s: State, e: Event, thread: string)
    requires WellFormed(s)
    ensures var t := Get(s.threads, thread);
      Get(Step(s, e).threads, thread) ==
        if Opens(e, thread) then Some(Thread(e.ws, e.now))
        else if t.Some? && Ends(s, e, thread, t.value) then None else t
  {
    hide Get, Put, Drop, Pick, Unique, Touch, Noted, OnRegister;
    match e
    case Deliver(on, msgId, address, ws, _, origin, _, now) => GetPut(s.threads, on, Thread(ws, now), thread);
    case Response(inReplyTo, on) => GetDrop(s.threads, HasKey(on), thread);
    case StopClears(id) => if Clears(s, id).Some? { GetDrop(s.threads, ThreadOf(Clears(s, id).value), thread); }
    case Register(_, _, _, _, _, _) => RegisterThreads(s, e, thread);
    case Close(ws) => GetDrop(s.threads, ThreadOf(ws), thread);
    case Sweep(now) => GetDrop(s.threads, Stale(now), thread);
    case _ =>
  }

  lemma OpenedStep(es: seq<Event>, thread: string, t: Thread)
    requires es != []
    ensures var before, e := es[..|es| - 1], es[|es| - 1];
      IsOpen(es, thread, t) <==>
        if Opens(e, thread) then t == Thread(e.ws, e.now)
        else IsOpen(before, thread, t) && !Ends(Run(before), e, thread, t)
  {
    hide Opens, Ends, Run;
    var n := |es| - 1;
    var before, e := es[..n], es[n];
    forall j | 0 <= j < n ensures before[j] == es[j] && before[..j] == es[..j] {}
    OnlyRequestsOpen(e, thread);
    if Opens(e, thread) && t == Thread(e.ws, e.now) { assert OpenedBy(es, n, thread, t); }
    if IsOpen(before, thread, t) && !Opens(e, thread) && !Ends(Run(before), e, thread, t) {
      var i :| 0 <= i < |before| && OpenedBy(before, i, thread, t);
      assert OpenedBy(es, i, thread, t);
    }
    if IsOpen(es, thread, t) {
      var i :| 0 <= i < |es| && OpenedBy(es, i, thread, t);
      if i < n { assert OpenedBy(before, i, thread, t); }
    }
  }

  lemma OnlyRequestsOpen(e: Event, thread: string)
    ensures Opens(e, thread) ==> e.Deliver?
  {}

  /**
   * In every run, a thread stands in the book with a socket and a time exactly when a request opened it so, and nothing
   * has ended it since.
   */
  lemma {:induction false} ThreadIsHistory(es: seq<Event>, thread: string, t: Thread)
    ensures Get(Run(es).threads, thread) == Some(t) <==> IsOpen(es, thread, t)
  {
    hide Get, IsOpen, Step, Opens, Ends;
    if es == [] {
      NothingOpenAtStart(thread, t);
    } else {
      var before, e := es[..|es| - 1], es[|es| - 1];
      ThreadIsHistory(before, thread, t);
      RunKeepsForm(before);
      StepThreads(Run(before), e, thread);
      OpenedStep(es, thread, t);
      OnlyRequestsOpen(e, thread);
    }
  }

  lemma NothingOpenAtStart(thread: string, t: Thread)
    ensures Get(START.threads, thread) == None && !IsOpen([], thread, t)
  {}
}

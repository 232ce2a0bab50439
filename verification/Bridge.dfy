/**
 * src/bridge.ts: who holds a channel, and who owes whom a reply. The books of the bridge are maps that the handlers of
 * interleaved events update; each handler is a method proved to make one step of the state machine below.
 */
module Bridge {
  import opened Sequences
  import opened OrderedMap
  import opened Contention

  const COMPLETION_DEDUPE_MS := 10_000
  const NUDGE_MIN_AGE_MS := 500
  const THREAD_STALE_MS := 1_800_000

  type Socket = nat

  datatype Client = Client(ws: Socket, pid: Option<int>, lastSeen: int)

  /**
   * A request that was handed to a socket and waits for a reply to an address; `nudgedAt` is 0 until a Stop was held
   * back for it.
   */
  datatype Debt = Debt(msgId: string, address: string, ws: Socket, since: int, origin: string, nudgedAt: int)

  datatype Thread = Thread(ws: Socket, since: int)

  datatype Hook = Stop | StopFailure | LegacyStop | Notification | OtherHook

  /**
   * A hook that got past the nudge and works its way to the clearing loop, yielding in between. Who held the channel
   * when it came, and when that was, is written down for what is said about it; no handler looks at it.
   */
  datatype InFlight = InFlight(channel: string, hook: Hook, quiet: bool, settled: bool, holder: Option<Socket>, at: int)

  datatype State = State(
    clients: Dict<Client>, replaced: set<Socket>, tracker: Tracker, watching: set<string>,
    replies: Dict<Debt>, threads: Dict<Thread>, stops: map<nat, InFlight>, lastDone: map<string, int>)

  const START: State := State([], {}, Tracker(map[], map[]), {}, [], [], map[], map[])

  datatype Event =
    | Register(channel: string, ws: Socket, pid: Option<int>, admitted: bool, closesAtOnce: bool, now: int)
    | Close(ws: Socket)
    | Frame(ws: Socket, now: int)
    | Watch(channel: string)
    | Deliver(thread: string, msgId: string, address: string, ws: Socket, intent: string, origin: string,
      skipWatchdog: bool, now: int)
    | Response(inReplyTo: string, thread: string)
    | Reply(ws: Socket, address: string, now: int)
    | StopArrives(id: nat, channel: string, hook: Hook, active: bool, preempted: bool, afterAbort: bool, now: int)
    | StopSettles(id: nat, now: int)
    | StopClears(id: nat)
    | CompletionSent(channel: string, now: int)
    | Sweep(now: int)

  // ---- channels ----

  function HeldBy(ws: Socket): Entry<Client> -> bool {
    (e: Entry<Client>) => e.value.ws == ws
  }

  function ThreadOf(ws: Socket): Entry<Thread> -> bool {
    (e: Entry<Thread>) => e.value.ws == ws
  }

  /** The channels of a socket, oldest first. */
  function Held(clients: Dict<Client>, ws: Socket): seq<string> {
    Keys(clients, HeldBy(ws))
  }

  /** Every frame proves its connection alive; only the first entry of the socket is stamped. */
  function Touch(clients: Dict<Client>, ws: Socket, now: int): Dict<Client> {
    if clients == [] then []
    else if clients[0].value.ws == ws then [Entry(clients[0].key, clients[0].value.(lastSeen := now))] + clients[1..]
    else [clients[0]] + Touch(clients[1..], ws, now)
  }

  /**
   * Of the channels a closing socket held, those that count as given up: the first one uses up the mark of a replaced
   * socket.
   */
  function GivenUp(held: seq<string>, replaced: bool): seq<string> {
    if replaced && held != [] then held[1..] else held
  }

  function OnClose(s: State, ws: Socket): State {
    var held := Held(s.clients, ws);
    var gone := Elements(GivenUp(held, ws in s.replaced));
    s.(clients := Drop(s.clients, HeldBy(ws)), threads := Drop(s.threads, ThreadOf(ws)),
       replaced := (if held == [] then s.replaced else s.replaced - {ws}),
       tracker := Forget(s.tracker, gone), watching := s.watching - gone)
  }

  function FlipOf(holder: Client, pid: Option<int>, now: int): Flip {
    Flip(now, holder.pid, pid, now - holder.lastSeen)
  }

  /**
   * The old holder is noted, marked and closed; its close callback runs either inside this call or as an event of its
   * own.
   */
  function TakeOver(s: State, channel: string, holder: Client, pid: Option<int>, closesAtOnce: bool, now: int): State {
    var noted := s.(tracker := Noted(s.tracker, channel, FlipOf(holder, pid, now)).0,
      replaced := s.replaced + {holder.ws});
    if closesAtOnce then OnClose(noted, holder.ws) else noted
  }

  predicate Replaces(s: State, channel: string, ws: Socket) {
    Get(s.clients, channel).Some? && Get(s.clients, channel).value.ws != ws
  }

  function OnRegister(s: State, channel: string, ws: Socket, pid: Option<int>, admitted: bool, closesAtOnce: bool,
      now: int): State {
    var s0 := s.(clients := Touch(s.clients, ws, now));
    if !admitted then s0
    else
      var s1 := if Replaces(s0, channel, ws)
        then TakeOver(s0, channel, Get(s0.clients, channel).value, pid, closesAtOnce, now) else s0;
      s1.(clients := Put(s1.clients, channel, Client(ws, pid, now)))
  }

  /** What a registration reports about a fight over the channel. */
  function RegisterAlert(s: State, channel: string, ws: Socket, pid: Option<int>, admitted: bool,
      now: int): Option<Alert> {
    var s0 := s.(clients := Touch(s.clients, ws, now));
    if admitted && Replaces(s0, channel, ws)
      then Noted(s0.tracker, channel, FlipOf(Get(s0.clients, channel).value, pid, now)).1 else None
  }

  // ---- debts ----

  /** `hangsPendingReply`: a request hangs a debt unless an agent sent it without expecting an answer. */
  predicate HangsDebt(intent: string, origin: string, skipWatchdog: bool) {
    intent == "request" && !(origin == "local" && skipWatchdog)
  }

  function OnDeliver(s: State, thread: string, debt: Debt, hangs: bool): State {
    if !hangs then s
    else s.(replies := Put(s.replies, thread, debt), threads := Put(s.threads, thread, Thread(debt.ws, debt.since)))
  }

  /** `pendingKeysOwedBy`: what this socket owes to this address. */
  function OwedTo(ws: Socket, address: string): Entry<Debt> -> bool {
    (e: Entry<Debt>) => e.value.ws == ws && e.value.address == address && address != ""
  }

  function OwedBy(ws: Socket): Entry<Debt> -> bool {
    (e: Entry<Debt>) => e.value.ws == ws
  }

  function OnReply(s: State, ws: Socket, address: string, now: int): State {
    s.(clients := Touch(s.clients, ws, now), replies := Drop(s.replies, OwedTo(ws, address)))
  }

  function Answered(inReplyTo: string, thread: string): Entry<Debt> -> bool {
    (e: Entry<Debt>) => e.value.msgId == inReplyTo || e.key == thread
  }

  function OnResponse(s: State, inReplyTo: string, thread: string): State {
    if inReplyTo == "" then s
    else s.(replies := Drop(s.replies, Answered(inReplyTo, thread)), threads := Without(s.threads, thread))
  }

  function Stale(now: int): Entry<Thread> -> bool {
    (e: Entry<Thread>) => now - e.value.since > THREAD_STALE_MS
  }

  // ---- the Stop hook ----

  predicate EndsTurn(hook: Hook) {
    hook == Stop || hook == StopFailure || hook == LegacyStop
  }

  /**
   * A debt worth holding a Stop back for: a person's or a peer's, not nudged yet, and old enough for the agent to have
   * seen it.
   */
  predicate Nudgeable(e: Entry<Debt>, ws: Socket, now: int) {
    e.value.ws == ws && e.value.origin != "local" && e.value.nudgedAt == 0 && now - e.value.since >= NUDGE_MIN_AGE_MS
  }

  /** `pickUnrepliedForNudge`: the oldest such debt, the first listed among equals. */
  function Pick(m: Dict<Debt>, ws: Socket, now: int): Option<Entry<Debt>> {
    if m == [] then None
    else
      var best, last := Pick(m[..|m| - 1], ws, now), m[|m| - 1];
      if Nudgeable(last, ws, now) && (best.None? || last.value.since < best.value.value.since) then Some(last) else best
  }

  function HolderOf(s: State, channel: string): Option<Socket> {
    if Get(s.clients, channel).Some? then Some(Get(s.clients, channel).value.ws) else None
  }

  function Nudge(s: State, channel: string, hook: Hook, active: bool, afterAbort: bool, now: int): Option<Entry<Debt>> {
    if hook != Stop || afterAbort || active || Get(s.clients, channel).None? then None
    else Pick(s.replies, Get(s.clients, channel).value.ws, now)
  }

  /** The address a Stop is held back for, if it is. */
  function HeldBackFor(s: State, channel: string, hook: Hook, active: bool, preempted: bool, afterAbort: bool,
      now: int): Option<string> {
    var nudge := if preempted then None else Nudge(s, channel, hook, active, afterAbort, now);
    if nudge.Some? then Some(nudge.value.value.address) else None
  }

  function OnStopArrives(s: State, id: nat, channel: string, hook: Hook, active: bool, preempted: bool,
      afterAbort: bool, now: int): State {
    if preempted then s
    else
      match Nudge(s, channel, hook, active, afterAbort, now)
      case Some(e) => s.(replies := Put(s.replies, e.key, e.value.(nudgedAt := now)))
      case None =>
        if hook == OtherHook then s
        else s.(stops := s.stops[id :=
          InFlight(channel, hook, afterAbort && hook == Stop, false, HolderOf(s, channel), now)])
  }

  predicate IsRepeat(s: State, stop: InFlight, now: int) {
    EndsTurn(stop.hook) && !stop.quiet
    && now - (if stop.channel in s.lastDone then s.lastDone[stop.channel] else 0) < COMPLETION_DEDUPE_MS
  }

  /** The check for a repeated completion: it ends the hook before anything is cleared. */
  function OnStopSettles(s: State, id: nat, now: int): State {
    if id !in s.stops then s
    else if IsRepeat(s, s.stops[id], now) then s.(stops := s.stops - {id})
    else s.(stops := s.stops[id := s.stops[id].(settled := true)])
  }

  /** The socket whose debts and threads this hook clears, if it gets that far: whoever holds the channel by then. */
  function Clears(s: State, id: nat): Option<Socket> {
    if id in s.stops && s.stops[id].settled && EndsTurn(s.stops[id].hook) && Get(s.clients, s.stops[id].channel).Some?
    then Some(Get(s.clients, s.stops[id].channel).value.ws) else None
  }

  function OnStopClears(s: State, id: nat): State {
    var s0 := if id in s.stops && s.stops[id].settled then s.(stops := s.stops - {id}) else s;
    match Clears(s, id)
    case None => s0
    case Some(ws) => s0.(replies := Drop(s.replies, OwedBy(ws)), threads := Drop(s.threads, ThreadOf(ws)))
  }

  // ---- one step, and runs ----

  function Step(s: State, e: Event): State {
    match e
    case Register(channel, ws, pid, admitted, closesAtOnce, now) =>
      OnRegister(s, channel, ws, pid, admitted, closesAtOnce, now)
    case Close(ws) => OnClose(s, ws)
    case Frame(ws, now) => s.(clients := Touch(s.clients, ws, now))
    case Watch(channel) => s.(watching := s.watching + {channel})
    case Deliver(thread, msgId, address, ws, intent, origin, skipWatchdog, now) =>
      OnDeliver(s, thread, Debt(msgId, address, ws, now, origin, 0), HangsDebt(intent, origin, skipWatchdog))
    case Response(inReplyTo, thread) => OnResponse(s, inReplyTo, thread)
    case Reply(ws, address, now) => OnReply(s, ws, address, now)
    case StopArrives(id, channel, hook, active, preempted, afterAbort, now) =>
      OnStopArrives(s, id, channel, hook, active, preempted, afterAbort, now)
    case StopSettles(id, now) => OnStopSettles(s, id, now)
    case StopClears(id) => OnStopClears(s, id)
    case CompletionSent(channel, now) => s.(lastDone := s.lastDone[channel := now])
    case Sweep(now) => s.(threads := Drop(s.threads, Stale(now)))
  }

  function Run(es: seq<Event>): State {
    if es == [] then START else Step(Run(es[..|es| - 1]), es[|es| - 1])
  }

  lemma RunSnoc(es: seq<Event>, e: Event)
    ensures Run(es + [e]) == Step(Run(es), e)
  {
    assert (es + [e])[..|es|] == es;
  }

  predicate WellFormed(s: State) {
    Unique(s.clients) && Unique(s.replies) && Unique(s.threads)
  }

  /** The channel is this socket's. */
  predicate Holds(s: State, channel: string, ws: Socket) {
    Get(s.clients, channel).Some? && Get(s.clients, channel).value.ws == ws
  }

  // ---- what the helpers do to a book ----

  lemma TouchKeeps(clients: Dict<Client>, ws: Socket, now: int)
    ensures |Touch(clients, ws, now)| == |clients|
    ensures forall i :: 0 <= i < |clients| ==>
      && Touch(clients, ws, now)[i].key == clients[i].key && Touch(clients, ws, now)[i].value.ws == clients[i].value.ws
      && Touch(clients, ws, now)[i].value.pid == clients[i].value.pid
      && (clients[i].value.ws != ws ==> Touch(clients, ws, now)[i] == clients[i])
  {}

  lemma {:induction false} TouchGet(clients: Dict<Client>, ws: Socket, now: int, channel: string)
    ensures match (Get(clients, channel), Get(Touch(clients, ws, now), channel))
      case (None, None) => true
      case (Some(c), Some(d)) => c.ws == d.ws && c.pid == d.pid && (c.ws != ws ==> c == d)
      case _ => false
  {
    if clients != [] {
      TouchGet(clients[1..], ws, now, channel);
      var head := Entry(clients[0].key, clients[0].value.(lastSeen := now));
      assert ([head] + clients[1..])[1..] == clients[1..];
      assert ([clients[0]] + Touch(clients[1..], ws, now))[1..] == Touch(clients[1..], ws, now);
    }
  }

  lemma TouchHeld(clients: Dict<Client>, ws: Socket, now: int, other: Socket)
    ensures Held(Touch(clients, ws, now), other) == Held(clients, other)
  {
    TouchKeeps(clients, ws, now);
    SameKeys(Touch(clients, ws, now), clients, other);
  }

  lemma SameKeys(a: Dict<Client>, b: Dict<Client>, ws: Socket)
    requires |a| == |b| && forall i :: 0 <= i < |a| ==> a[i].key == b[i].key && a[i].value.ws == b[i].value.ws
    ensures Held(a, ws) == Held(b, ws)
  {
    if a != [] { SameKeys(a[..|a| - 1], b[..|b| - 1], ws); }
  }

  lemma CloseKeepsForm(s: State, ws: Socket)
    requires WellFormed(s)
    ensures WellFormed(OnClose(s, ws))
  {
    UniqueDrop(s.clients, HeldBy(ws));
    UniqueDrop(s.threads, ThreadOf(ws));
  }

  lemma RegisterKeepsForm(s: State, channel: string, ws: Socket, pid: Option<int>, admitted: bool, closesAtOnce: bool,
      now: int)
    requires WellFormed(s)
    ensures WellFormed(OnRegister(s, channel, ws, pid, admitted, closesAtOnce, now))
  {
    hide OnClose, Noted, Touch;
    TouchKeeps(s.clients, ws, now);
    var s0 := s.(clients := Touch(s.clients, ws, now));
    assert WellFormed(s0);
    if admitted {
      if Replaces(s0, channel, ws) {
        var holder := Get(s0.clients, channel).value;
        CloseKeepsForm(s0.(tracker := Noted(s0.tracker, channel, FlipOf(holder, pid, now)).0,
          replaced := s0.replaced + {holder.ws}), holder.ws);
        UniquePut(TakeOver(s0, channel, holder, pid, closesAtOnce, now).clients, channel, Client(ws, pid, now));
      } else {
        UniquePut(s0.clients, channel, Client(ws, pid, now));
      }
    }
  }

  /** An admitted registration ends with the channel in its hands, whenever the old socket's close callback runs. */
  lemma RegisterTakes(s: State, channel: string, ws: Socket, pid: Option<int>, closesAtOnce: bool, now: int)
    ensures var s' := OnRegister(s, channel, ws, pid, true, closesAtOnce, now);
      && Get(s'.clients, channel) == Some(Client(ws, pid, now)) && Holds(s', channel, ws)
      && s'.replies == s.replies && s'.stops == s.stops
  {
    hide Get, Put, Touch, Noted, Drop;
    var s0 := s.(clients := Touch(s.clients, ws, now));
    var s1 := if Replaces(s0, channel, ws)
      then TakeOver(s0, channel, Get(s0.clients, channel).value, pid, closesAtOnce, now) else s0;
    GetPut(s1.clients, channel, Client(ws, pid, now), channel);
  }

  lemma StepKeepsForm(s: State, e: Event)
    requires WellFormed(s)
    ensures WellFormed(Step(s, e))
  {
    hide Unique, OnRegister, Get, Put, Drop, Touch, Pick, Nudge, OnClose;
    match e
    case Register(channel, ws, pid, admitted, closesAtOnce, now) =>
      RegisterKeepsForm(s, channel, ws, pid, admitted, closesAtOnce, now);
    case Close(ws) => CloseKeepsForm(s, ws);
    case Frame(ws, now) => TouchKeepsUnique(s.clients, ws, now);
    case Deliver(thread, msgId, address, ws, _, origin, _, now) =>
      UniquePut(s.replies, thread, Debt(msgId, address, ws, now, origin, 0));
      UniquePut(s.threads, thread, Thread(ws, now));
    case Response(inReplyTo, thread) =>
      UniqueDrop(s.replies, Answered(inReplyTo, thread));
      UniqueDrop(s.threads, HasKey(thread));
    case Reply(ws, address, now) =>
      TouchKeepsUnique(s.clients, ws, now);
      UniqueDrop(s.replies, OwedTo(ws, address));
    case StopArrives(_, channel, hook, active, _, afterAbort, now) =>
      var nudge := Nudge(s, channel, hook, active, afterAbort, now);
      if nudge.Some? { UniquePut(s.replies, nudge.value.key, nudge.value.value.(nudgedAt := now)); }
    case StopClears(id) =>
      if Clears(s, id).Some? {
        UniqueDrop(s.replies, OwedBy(Clears(s, id).value));
        UniqueDrop(s.threads, ThreadOf(Clears(s, id).value));
      }
    case Sweep(now) => UniqueDrop(s.threads, Stale(now));
    case _ =>
  }

  lemma TouchKeepsUnique(clients: Dict<Client>, ws: Socket, now: int)
    requires Unique(clients)
    ensures Unique(Touch(clients, ws, now))
  {
    TouchKeeps(clients, ws, now);
  }

  lemma RunKeepsForm(es: seq<Event>)
    ensures WellFormed(Run(es))
  {
    hide Step, WellFormed;
    if es != [] {
      RunKeepsForm(es[..|es| - 1]);
      StepKeepsForm(Run(es[..|es| - 1]), es[|es| - 1]);
    } else {
      StartIsWellFormed();
    }
  }

  lemma StartIsWellFormed()
    ensures WellFormed(START)
  {}
}

/** src/lib/channel-contention.ts: telling a fight over a channel from a restart. */
module Contention {
  import opened Sequences

  const LIVE_IDLE_MS := 60_000
  const WINDOW_MS := 600_000
  const MIN_FLIPS := 3
  const COOLDOWN_MS := 1_800_000
  const MAX_HISTORY := 32

  /**
   * One live takeover of a channel: when, from which process to which, and how long the old connection had been silent.
   */
  datatype Flip = Flip(at: int, from: Option<int>, to: Option<int>, idle: int)

  datatype Tracker = Tracker(history: map<string, seq<Flip>>, alertedAt: map<string, int>)

  /**
   * `pids`: who took part, the latest first; `repeated`: who won the channel more than once, in the order of the first
   * win.
   */
  datatype Alert = Alert(channel: string, flips: nat, pids: seq<int>, repeated: seq<int>)

  function LastOf(flips: seq<Flip>, n: nat): seq<Flip> {
    if |flips| > n then flips[|flips| - n..] else flips
  }

  function Recent(now: int): Flip -> bool {
    (f: Flip) => now - f.at <= WINDOW_MS
  }

  function Kept(flips: seq<Flip>, now: int): seq<Flip> {
    LastOf(Filter(flips, Recent(now)), MAX_HISTORY)
  }

  function HistoryOf(t: Tracker, channel: string): seq<Flip> {
    if channel in t.history then t.history[channel] else []
  }

  function WasLive(): Flip -> bool {
    (f: Flip) => f.idle <= LIVE_IDLE_MS
  }

  function Live(flips: seq<Flip>): seq<Flip> {
    Filter(flips, WasLive())
  }

  function Pid(p: Option<int>): seq<int> {
    if p.Some? then [p.value] else []
  }

  /** The processes that took the channel, takeover after takeover. */
  function Winners(flips: seq<Flip>): seq<int> {
    if flips == [] then [] else Winners(flips[..|flips| - 1]) + Pid(flips[|flips| - 1].to)
  }

  function Twice(pids: seq<int>): int -> bool {
    (pid: int) => multiset(pids)[pid] >= 2
  }

  function Repeated(flips: seq<Flip>): seq<int> {
    Filter(Dedup(Winners(flips)), Twice(Winners(flips)))
  }

  /** All that are mentioned from flip i on, read backwards, each flip's winner before its loser. */
  function Mentioned(flips: seq<Flip>, i: nat): seq<int>
    decreases |flips| - i
  {
    if i >= |flips| then [] else Mentioned(flips, i + 1) + Pid(flips[i].to) + Pid(flips[i].from)
  }

  function Noted(t: Tracker, channel: string, flip: Flip): (Tracker, Option<Alert>) {
    var kept := Kept(HistoryOf(t, channel) + [flip], flip.at);
    var t' := t.(history := t.history[channel := kept]);
    var live := Live(kept);
    if |live| < MIN_FLIPS || Repeated(live) == []
      || (channel in t.alertedAt && flip.at - t.alertedAt[channel] < COOLDOWN_MS) then (t', None)
    else (t'.(alertedAt := t.alertedAt[channel := flip.at]),
      Some(Alert(channel, |live|, Dedup(Mentioned(live, 0)), Repeated(live))))
  }

  function Forget(t: Tracker, channels: set<string>): Tracker {
    Tracker(t.history - channels, t.alertedAt - channels)
  }

  lemma ForgetNothing(t: Tracker)
    ensures Forget(t, {}) == t
  {
    assert t.history - {} == t.history && t.alertedAt - {} == t.alertedAt;
  }

  lemma {:induction false} SameFilter(xs: seq<int>, p: int -> bool, q: int -> bool)
    requires forall x :: p(x) == q(x)
    ensures Filter(xs, p) == Filter(xs, q)
  {
    if xs != [] { SameFilter(xs[1..], p, q); }
  }

  function CountOf(counts: map<int, nat>, pid: int): nat {
    if pid in counts then counts[pid] else 0
  }

  /** The map counts how often each process is in the list. */
  ghost predicate Counted(counts: map<int, nat>, pids: seq<int>) {
    forall pid :: multiset(pids)[pid] == CountOf(counts, pid) && (pid in counts ==> counts[pid] > 0)
  }

  lemma CountedMore(counts: map<int, nat>, pids: seq<int>, pid: int)
    requires Counted(counts, pids)
    ensures Counted(counts[pid := CountOf(counts, pid) + 1], pids + [pid])
    ensures pid in counts <==> multiset(pids)[pid] > 0
  {
    var more := counts[pid := CountOf(counts, pid) + 1];
    forall p ensures multiset(pids + [pid])[p] == CountOf(more, p) && (p in more ==> more[p] > 0) {
      assert multiset(pids)[p] == CountOf(counts, p);
    }
  }

  lemma NothingCounted()
    ensures Counted(map[], []) && Dedup<int>([]) == []
  {}

  /** The map of counts, in the order in which its keys were first set. */
  method CountWins(flips: seq<Flip>) returns (repeated: seq<int>)
    ensures repeated == Repeated(flips)
  {
    hide Filter, Dedup, Counted, CountOf;
    var counts: map<int, nat>, order: seq<int> := map[], [];
    NothingCounted();
    for i := 0 to |flips|
      invariant order == Dedup(Winners(flips[..i])) && Counted(counts, Winners(flips[..i]))
    {
      assert flips[..i + 1][..i] == flips[..i];
      if flips[i].to.Some? {
        var pid := flips[i].to.value;
        DedupSnoc(Winners(flips[..i]), pid);
        CountedMore(counts, Winners(flips[..i]), pid);
        if pid !in counts { order := order + [pid]; }
        counts := counts[pid := CountOf(counts, pid) + 1];
      } else {
        assert Winners(flips[..i + 1]) == Winners(flips[..i]);
      }
    }
    assert flips[..|flips|] == flips;
    var often := (pid: int) => CountOf(counts, pid) >= 2;
    SameTwice(counts, Winners(flips), often);
    SameFilter(order, often, Twice(Winners(flips)));
    repeated := Filter(order, often);
  }

  lemma SameTwice(counts: map<int, nat>, pids: seq<int>, often: int -> bool)
    requires Counted(counts, pids) && forall pid :: often(pid) == (CountOf(counts, pid) >= 2)
    ensures forall pid :: often(pid) == Twice(pids)(pid)
  {
    forall pid ensures often(pid) == Twice(pids)(pid) { assert multiset(pids)[pid] == CountOf(counts, pid); }
  }

  lemma DedupSnoc(xs: seq<int>, x: int)
    ensures Dedup(xs + [x]) == if multiset(xs)[x] > 0 then Dedup(xs) else Dedup(xs) + [x]
  {
    assert (xs + [x])[..|xs|] == xs;
  }

  /** One more, unless it was seen. */
  method AddPid(pids: seq<int>, p: Option<int>, ghost all: seq<int>) returns (r: seq<int>)
    requires pids == Dedup(all)
    ensures r == Dedup(all + Pid(p))
  {
    r := pids;
    if p.Some? {
      DedupSnoc(all, p.value);
      if p.value !in pids { r := pids + [p.value]; }
    } else {
      assert all + [] == all;
    }
  }

  /** The loop over the flips from the latest to the earliest. */
  method ListPids(flips: seq<Flip>) returns (pids: seq<int>)
    ensures pids == Dedup(Mentioned(flips, 0))
  {
    hide Dedup, Pid;
    pids := [];
    assert Dedup(Mentioned(flips, |flips|)) == [] by { NobodyTwice(); }
    for i := |flips| downto 0
      invariant pids == Dedup(Mentioned(flips, i))
    {
      pids := AddPid(pids, flips[i].to, Mentioned(flips, i + 1));
      pids := AddPid(pids, flips[i].from, Mentioned(flips, i + 1) + Pid(flips[i].to));
    }
  }

  lemma NobodyTwice()
    ensures Dedup<int>([]) == []
  {}

  /** `note`. */
  method Note(t: Tracker, channel: string, flip: Flip) returns (t': Tracker, alert: Option<Alert>)
    ensures (t', alert) == Noted(t, channel, flip)
  {
    hide Kept, Live, Repeated, Mentioned, Dedup;
    var kept := Kept(HistoryOf(t, channel) + [flip], flip.at);
    t', alert := t.(history := t.history[channel := kept]), None;
    var live := Live(kept);
    if |live| < MIN_FLIPS { return; }
    var repeated := CountWins(live);
    if repeated == [] || (channel in t.alertedAt && flip.at - t.alertedAt[channel] < COOLDOWN_MS) { return; }
    t' := t'.(alertedAt := t.alertedAt[channel := flip.at]);
    var pids := ListPids(live);
    alert := Some(Alert(channel, |live|, pids, repeated));
  }

  // ---- a fight is noticed ----

  lemma {:induction false} FilterAll(a: seq<Flip>, keep: Flip -> bool)
    requires forall i :: 0 <= i < |a| ==> keep(a[i])
    ensures Filter(a, keep) == a
  {
    if a != [] {
      forall i | 0 <= i < |a[1..]| ensures keep(a[1..][i]) { assert a[1..][i] == a[i + 1]; }
      FilterAll(a[1..], keep);
    }
  }

  /** Recent flips at the end of a history survive the trimming. */
  lemma KeptEnd(before: seq<Flip>, recent: seq<Flip>, now: int) returns (rest: seq<Flip>)
    requires |recent| <= MAX_HISTORY && forall i :: 0 <= i < |recent| ==> Recent(now)(recent[i])
    ensures Kept(before + recent, now) == rest + recent
  {
    FilterAppend(before, recent, Recent(now));
    FilterAll(recent, Recent(now));
    var kept := Kept(before + recent, now);
    rest := kept[..|kept| - |recent|];
  }

  /** What is kept of a history are the takeovers of the last ten minutes, the latest 32 if there are more. */
  lemma KeptSays(h: seq<Flip>, now: int)
    ensures var recent := Filter(h, (f: Flip) => now - f.at <= 600_000);
      Kept(h, now) == if |recent| <= 32 then recent else recent[|recent| - 32..]
  {
    SameRecent(h, now, (f: Flip) => now - f.at <= 600_000);
  }

  lemma {:induction false} SameRecent(h: seq<Flip>, now: int, recent: Flip -> bool)
    requires forall f :: recent(f) <==> now - f.at <= 600_000
    ensures Filter(h, Recent(now)) == Filter(h, recent)
  {
    if h != [] { SameRecent(h[1..], now, recent); }
  }

  lemma NotedHistory(t: Tracker, channel: string, flip: Flip)
    ensures var (t', alert) := Noted(t, channel, flip);
      && HistoryOf(t', channel) == Kept(HistoryOf(t, channel) + [flip], flip.at)
      && (alert.None? ==> t'.alertedAt == t.alertedAt)
  {
    hide Kept, Live, Repeated;
  }

  lemma WinnersMore(flips: seq<Flip>, f: Flip)
    ensures Winners(flips + [f]) == Winners(flips) + Pid(f.to)
  {
    assert (flips + [f])[..|flips|] == flips;
  }

  lemma WinsTwice(live: seq<Flip>, a: Flip, b: Flip, c: Flip)
    requires c.to.Some? && c.to == a.to
    ensures Repeated(live + [a, b, c]) != []
  {
    hide Winners, Repeated;
    var pid := c.to.value;
    assert live + [a, b, c] == live + [a] + [b] + [c];
    WinnersMore(live, a);
    WinnersMore(live + [a], b);
    WinnersMore(live + [a] + [b], c);
    InRepeated(live + [a, b, c], pid);
  }

  lemma InRepeated(flips: seq<Flip>, pid: int)
    requires multiset(Winners(flips))[pid] >= 2
    ensures pid in Repeated(flips)
  {
    hide Winners;
    assert pid in Winners(flips);
  }

  lemma BackAgain(rest: seq<Flip>, a: Flip, b: Flip, c: Flip)
    requires WasLive()(a) && WasLive()(b) && WasLive()(c) && c.to.Some? && c.to == a.to
    ensures |Live(rest + [a, b, c])| >= MIN_FLIPS && Repeated(Live(rest + [a, b, c])) != []
  {
    hide Filter, Repeated;
    FilterAppend(rest, [a, b, c], WasLive());
    FilterAll([a, b, c], WasLive());
    WinsTwice(Live(rest), a, b, c);
  }

  /**
   * Of three live takeovers within one window, the first and the third by the same process, one is reported, unless an
   * earlier report is still cooling down.
   */
  lemma FightIsNoticed(t: Tracker, channel: string, a: Flip, b: Flip, c: Flip)
    requires b.at - a.at <= WINDOW_MS && c.at - a.at <= WINDOW_MS && c.at - b.at <= WINDOW_MS
    requires WasLive()(a) && WasLive()(b) && WasLive()(c) && c.to.Some? && c.to == a.to
    ensures var first := Noted(t, channel, a); var second := Noted(first.0, channel, b);
      var third := Noted(second.0, channel, c);
      || first.1.Some? || second.1.Some? || third.1.Some?
      || (channel in t.alertedAt && c.at - t.alertedAt[channel] < 1_800_000)
  {
    hide Kept, Live, Repeated, Winners, Mentioned;
    var first := Noted(t, channel, a);
    var second := Noted(first.0, channel, b);
    NotedHistory(t, channel, a);
    NotedHistory(first.0, channel, b);
    var rest := KeptEnd(HistoryOf(t, channel), [a], a.at);
    assert rest + [a] + [b] == rest + [a, b];
    rest := KeptEnd(rest, [a, b], b.at);
    assert rest + [a, b] + [c] == rest + [a, b, c];
    rest := KeptEnd(rest, [a, b, c], c.at);
    BackAgain(rest, a, b, c);
  }

  // ---- and nothing else is ----

  /** Increasing places. */
  ghost predicate Places(idx: seq<nat>, n: nat) {
    (forall k :: 0 <= k < |idx| ==> idx[k] < n) && forall j, k :: 0 <= j < k < |idx| ==> idx[j] < idx[k]
  }

  /** What a filter leaves stood at increasing places. */
  lemma {:induction false} FilterPlaces(xs: seq<Flip>, keep: Flip -> bool) returns (idx: seq<nat>)
    ensures Places(idx, |xs|) && |idx| == |Filter(xs, keep)|
    ensures forall k :: 0 <= k < |idx| ==> xs[idx[k]] == Filter(xs, keep)[k] && keep(xs[idx[k]])
  {
    idx := [];
    if xs != [] {
      var init, last := xs[..|xs| - 1], xs[|xs| - 1];
      idx := FilterPlaces(init, keep);
      assert xs == init + [last];
      FilterAppend(init, [last], keep);
      if keep(last) { idx := idx + [|xs| - 1]; }
    }
  }

  /** The live takeovers that count stood at increasing places of the history, each live and within the window. */
  lemma LivePlaces(h: seq<Flip>, now: int) returns (idx: seq<nat>)
    ensures Places(idx, |h|) && |idx| == |Live(Kept(h, now))|
    ensures forall k :: 0 <= k < |idx| ==>
      h[idx[k]] == Live(Kept(h, now))[k] && h[idx[k]].idle <= 60_000 && now - h[idx[k]].at <= 600_000
  {
    var recent, kept := Filter(h, Recent(now)), Kept(h, now);
    var a := FilterPlaces(h, Recent(now));
    var off := |recent| - |kept|;
    assert kept == recent[off..];
    var b := FilterPlaces(kept, WasLive());
    hide Filter, Kept, Live;
    idx := seq(|b|, k requires 0 <= k < |b| => a[off + b[k]]);
    forall k | 0 <= k < |idx|
      ensures h[idx[k]] == kept[b[k]] && h[idx[k]].idle <= 60_000 && now - h[idx[k]].at <= 600_000
    {
      assert kept[b[k]] == recent[off + b[k]];
      assert WasLive()(kept[b[k]]) && Recent(now)(h[a[off + b[k]]]);
    }
    forall j, k | 0 <= j < k < |idx| ensures idx[j] < idx[k] { assert b[j] < b[k]; }
  }

  lemma {:induction false} WonTwice(flips: seq<Flip>, pid: int) returns (i: nat, j: nat)
    requires multiset(Winners(flips))[pid] >= 2
    ensures i < j < |flips| && flips[i].to == flips[j].to == Some(pid)
  {
    var init, last := flips[..|flips| - 1], flips[|flips| - 1];
    if multiset(Winners(init))[pid] >= 2 {
      i, j := WonTwice(init, pid);
    } else {
      j := |flips| - 1;
      i := WonOnce(init, pid);
    }
  }

  lemma {:induction false} WonOnce(flips: seq<Flip>, pid: int) returns (i: nat)
    requires pid in Winners(flips)
    ensures i < |flips| && flips[i].to == Some(pid)
  {
    var init, last := flips[..|flips| - 1], flips[|flips| - 1];
    if last.to == Some(pid) { i := |flips| - 1; } else { i := WonOnce(init, pid); }
  }

  /** Takeover i of the history was of a live connection, and lies within the window that ends now. */
  predicate Counts(h: seq<Flip>, i: nat, now: int) {
    i < |h| && h[i].idle <= 60_000 && now - h[i].at <= 600_000
  }

  /**
   * A report needs three live takeovers within ten minutes, two of them by one process, and no report of the channel
   * within half an hour; it names the channel and the number of takeovers.
   */
  lemma ReportNeedsFight(t: Tracker, channel: string, flip: Flip)
    requires Noted(t, channel, flip).1.Some?
    ensures var h, now := HistoryOf(t, channel) + [flip], flip.at;
      && (exists i: nat, j: nat, k: nat :: i < j < k && Counts(h, i, now) && Counts(h, j, now) && Counts(h, k, now))
      && (exists i: nat, j: nat ::
        i < j && Counts(h, i, now) && Counts(h, j, now) && h[i].to.Some? && h[i].to == h[j].to)
    ensures channel in t.alertedAt ==> flip.at - t.alertedAt[channel] >= 1_800_000
    ensures Noted(t, channel, flip).1.value.channel == channel && Noted(t, channel, flip).1.value.flips >= 3
  {
    hide Kept, Live, Winners, Mentioned, Dedup;
    var h, now := HistoryOf(t, channel) + [flip], flip.at;
    var live := Live(Kept(h, now));
    var idx := LivePlaces(h, now);
    assert Counts(h, idx[0], now) && Counts(h, idx[1], now) && Counts(h, idx[2], now);
    var pid := Repeated(live)[0];
    assert pid in Repeated(live);
    assert Twice(Winners(live))(pid);
    var i, j := WonTwice(live, pid);
    assert Counts(h, idx[i], now) && Counts(h, idx[j], now);
  }

  // ---- reports over a run ----

  datatype Happening = Noting(channel: string, flip: Flip) | Forgetting(channels: set<string>)

  function After(hs: seq<Happening>): Tracker {
    if hs == [] then Tracker(map[], map[])
    else
      match hs[|hs| - 1]
      case Noting(channel, flip) => Noted(After(hs[..|hs| - 1]), channel, flip).0
      case Forgetting(channels) => Forget(After(hs[..|hs| - 1]), channels)
  }

  predicate Reports(hs: seq<Happening>, i: nat, channel: string) {
    i < |hs| && hs[i].Noting? && hs[i].channel == channel && Noted(After(hs[..i]), channel, hs[i].flip).1.Some?
  }

  predicate ForgottenAt(hs: seq<Happening>, i: nat, channel: string) {
    i < |hs| && hs[i].Forgetting? && channel in hs[i].channels
  }

  lemma StepAlerted(t: Tracker, channel: string, flip: Flip, other: string)
    ensures var (t', alert) := Noted(t, channel, flip);
      if alert.Some? && other == channel then other in t'.alertedAt && t'.alertedAt[other] == flip.at
      else
        && (other in t'.alertedAt <==> other in t.alertedAt)
        && (other in t.alertedAt ==> t'.alertedAt[other] == t.alertedAt[other])
  {
    hide Kept, Live, Repeated, Mentioned;
  }

  /**
   * After a report and until it is forgotten, the channel is known to have been reported then or half an hour later.
   */
  lemma {:induction false} StillCooling(hs: seq<Happening>, i: nat, channel: string)
    requires Reports(hs, i, channel) && forall k :: i < k < |hs| ==> !ForgottenAt(hs, k, channel)
    ensures channel in After(hs).alertedAt
    ensures After(hs).alertedAt[channel] == hs[i].flip.at || After(hs).alertedAt[channel] >= hs[i].flip.at + 1_800_000
  {
    hide Noted;
    var init, last := hs[..|hs| - 1], hs[|hs| - 1];
    assert init[..i] == hs[..i];
    if last.Noting? { StepAlerted(After(init), last.channel, last.flip, channel); }
    if i < |hs| - 1 {
      forall k | i < k < |init| ensures !ForgottenAt(init, k, channel) { assert !ForgottenAt(hs, k, channel); }
      StillCooling(init, i, channel);
      assert !ForgottenAt(hs, |hs| - 1, channel);
      if last.Noting? && last.channel == channel && Noted(After(init), channel, last.flip).1.Some? {
        ReportNeedsFight(After(init), channel, last.flip);
      }
    }
  }

  /** Two reports on one channel are at least half an hour apart, unless the channel was given up in between. */
  lemma ReportsAreApart(hs: seq<Happening>, i: nat, j: nat, channel: string)
    requires i < j && Reports(hs, i, channel) && Reports(hs, j, channel)
    requires forall k :: i < k < j ==> !ForgottenAt(hs, k, channel)
    ensures hs[j].flip.at - hs[i].flip.at >= 1_800_000
  {
    hide Noted, After;
    var before := hs[..j];
    assert before[..i] == hs[..i] && before[i] == hs[i];
    forall k | i < k < |before| ensures !ForgottenAt(before, k, channel) { assert !ForgottenAt(hs, k, channel); }
    StillCooling(before, i, channel);
    ReportNeedsFight(After(before), channel, hs[j].flip);
  }
}

/**
 * scripts/ci-proof-reuse.ts: a check either runs or is vouched for by an earlier run. Reading inputs, looking up
 * candidates and every write may fail at any time; each call and its outcome goes on a trace.
 */
module ProofReuse {
  import opened Sequences

  datatype Mode = Off | Observe | On

  /**
   * A candidate run as read back; `verified` sums up the facts that `verifyCiReuseOrigin` checks, with this run's
   * inputs and identity.
   */
  datatype Origin = Origin(id: int, verified: bool, digest: Option<string>)

  datatype Event =
    | StampWritten(ok: bool)
    | InputsRead(ok: bool)
    | LookedUp(origins: Option<seq<Origin>>)
    | ReceiptWritten(origin: Origin, ok: bool)
    | Executed(command: seq<string>, code: int)
    | RecordWritten(ok: bool)
    | OutputWritten(ok: bool)

  type Trace = seq<Event>

  datatype World = World(
    stamp: Trace -> bool, inputs: Trace -> bool, lookup: Trace -> Option<seq<Origin>>, receipt: (Trace, Origin) -> bool,
    exec: (Trace, seq<string>) -> int, record: Trace -> bool, output: Trace -> bool)

  datatype Config = Config(mode: Mode, commands: seq<seq<string>>)

  // ---- deciding ----

  /** `decideCiReuse`, as far as the run goes: a verified origin whose artifact has a digest is a candidate. */
  predicate IsCandidate(o: Origin) {
    o.verified && o.digest.Some?
  }

  function FirstCandidate(origins: seq<Origin>): Option<Origin> {
    if origins == [] then None else if IsCandidate(origins[0]) then Some(origins[0]) else FirstCandidate(origins[1..])
  }

  /** What was looked at, and the candidate it yields: any failure is a miss. */
  predicate Looked(look: Trace, found: Option<Origin>) {
    || (look == [InputsRead(false)] && found == None)
    || (look == [InputsRead(true), LookedUp(None)] && found == None)
    || (|look| == 2 && look[0] == InputsRead(true) && look[1].LookedUp? && look[1].origins.Some?
        && found == FirstCandidate(look[1].origins.value))
  }

  // ---- what a run may leave on the trace ----

  predicate Commands(commands: seq<seq<string>>, t: Trace) {
    |t| <= |commands| && forall i :: 0 <= i < |t| ==> t[i].Executed? && t[i].command == commands[i]
  }

  /** The commands ran in order up to the first failure, whose code this is; 0 if there was none. */
  predicate Ran(commands: seq<seq<string>>, t: Trace, code: int) {
    && Commands(commands, t)
    && (forall i :: 0 <= i < |t| - 1 ==> t[i].code == 0)
    && (if code == 0 then |t| == |commands| && (t != [] ==> t[|t| - 1].code == 0)
        else t != [] && t[|t| - 1].code == code)
  }

  datatype History = History(stamp: bool, look: Trace, found: Option<Origin>, receipt: Trace, execs: Trace, code: int,
    record: Trace)

  function Whole(h: History): Trace {
    [StampWritten(h.stamp)] + h.look + h.receipt + h.execs + h.record
  }

  predicate Reused(h: History) {
    h.found.Some? && h.receipt == [ReceiptWritten(h.found.value, true)]
  }

  /** A record was tried; if it was written, its name was announced. */
  predicate Recorded(t: Trace) {
    t == [RecordWritten(false)] || (|t| == 2 && t[0] == RecordWritten(true) && t[1].OutputWritten?)
  }

  predicate Lawful(cfg: Config, h: History) {
    && (if cfg.mode == Off then h.look == [] && h.found == None else Looked(h.look, h.found))
    && (if cfg.mode == On && h.found.Some?
        then h.receipt in [[ReceiptWritten(h.found.value, true)], [ReceiptWritten(h.found.value, false)]]
        else h.receipt == [])
    && (if Reused(h) then h.execs == [] && h.code == 0 else Ran(cfg.commands, h.execs, h.code))
    && (if !Reused(h) && h.code == 0 && h.look != [] && h.look[0] == InputsRead(true)
        then Recorded(h.record) else h.record == [])
  }

  // ---- the calls ----

  class Run {
    const world: World
    var trace: Trace

    constructor (world: World)
      ensures this.world == world && trace == []
    {
      this.world := world;
      trace := [];
    }

    /** `executeAll`. */
    method ExecuteAll(cfg: Config) returns (code: int)
      modifies this
      ensures old(trace) <= trace && Ran(cfg.commands, trace[|old(trace)|..], code)
    {
      ghost var n := |trace|;
      for i := 0 to |cfg.commands|
        invariant old(trace) <= trace && |trace| == n + i
        invariant forall j :: n <= j < |trace| ==>
          trace[j].Executed? && trace[j].command == cfg.commands[j - n] && trace[j].code == 0
      {
        code := world.exec(trace, cfg.commands[i]);
        trace := trace + [Executed(cfg.commands[i], code)];
        if code != 0 { return code; }
      }
      return 0;
    }

    /** `decide`: nothing that goes wrong here is more than a miss. */
    method Decide() returns (found: Option<Origin>, inputs: bool)
      modifies this
      ensures old(trace) < trace && Looked(trace[|old(trace)|..], found)
      ensures inputs <==> trace[|old(trace)|] == InputsRead(true)
    {
      hide FirstCandidate;
      inputs := world.inputs(trace);
      trace := trace + [InputsRead(inputs)];
      if !inputs {
        assert trace[|old(trace)|..] == [InputsRead(false)];
        return None, false;
      }
      var origins := world.lookup(trace);
      trace := trace + [LookedUp(origins)];
      assert trace[|old(trace)|..] == [InputsRead(true), LookedUp(origins)];
      found := None;
      if origins.Some? { found := FindCandidate(origins.value); }
    }

    method KeepRecord() returns (ghost record: Trace)
      modifies this
      ensures trace == old(trace) + record && Recorded(record)
    {
      var recorded := world.record(trace);
      trace := trace + [RecordWritten(recorded)];
      record := [RecordWritten(recorded)];
      if recorded {
        var put := world.output(trace);
        trace := trace + [OutputWritten(put)];
        record := [RecordWritten(true), OutputWritten(put)];
      }
    }

    /** On a hit with reuse on, the receipt is written; only that spares the commands. */
    method Vouch(cfg: Config, found: Option<Origin>) returns (reused: bool, ghost receipt: Trace)
      modifies this
      ensures trace == old(trace) + receipt
      ensures if cfg.mode == On && found.Some? then receipt == [ReceiptWritten(found.value, reused)]
        else receipt == [] && !reused
    {
      reused, receipt := false, [];
      if cfg.mode == On && found.Some? {
        reused := world.receipt(trace, found.value);
        receipt := [ReceiptWritten(found.value, reused)];
        trace := trace + [ReceiptWritten(found.value, reused)];
      }
    }

    /** `runCheck`. */
    method RunCheck(cfg: Config) returns (code: int, ghost h: History)
      requires trace == []
      modifies this
      ensures Lawful(cfg, h) && trace == Whole(h) && code == h.code
    {
      hide Looked, Ran, Lawful, Whole;
      var stamped := world.stamp(trace);
      trace := [StampWritten(stamped)];
      if cfg.mode == Off {
        code := ExecuteAll(cfg);
        h := History(stamped, [], None, [], trace[1..], code, []);
        OffIsLawful(cfg, h);
        return;
      }
      var found, inputs := Decide();
      ghost var look := trace[1..];
      assert trace == [StampWritten(stamped)] + look && (inputs <==> look[0] == InputsRead(true));
      var reused;
      ghost var receipt;
      reused, receipt := Vouch(cfg, found);
      ghost var before := trace;
      ghost var execs, record: Trace := [], [];
      code := 0;
      if !reused {
        code := ExecuteAll(cfg);
        execs := trace[|before|..];
        if code == 0 && inputs { record := KeepRecord(); }
      }
      h := History(stamped, look, found, receipt, execs, code, record);
      LookedIsLawful(cfg, h, reused);
      assert trace == before + execs + record;
    }
  }

  lemma OffIsLawful(cfg: Config, h: History)
    requires cfg.mode == Off && h.look == h.receipt == h.record == [] && h.found == None
      && Ran(cfg.commands, h.execs, h.code)
    ensures Lawful(cfg, h) && Whole(h) == [StampWritten(h.stamp)] + h.execs
  {
    hide Looked, Ran;
  }

  lemma LookedIsLawful(cfg: Config, h: History, reused: bool)
    requires cfg.mode != Off && h.look != [] && Looked(h.look, h.found)
    requires if cfg.mode == On && h.found.Some? then h.receipt == [ReceiptWritten(h.found.value, reused)]
      else h.receipt == [] && !reused
    requires if reused then h.execs == [] && h.code == 0 else Ran(cfg.commands, h.execs, h.code)
    requires if !reused && h.code == 0 && h.look[0] == InputsRead(true) then Recorded(h.record) else h.record == []
    ensures Lawful(cfg, h) && Whole(h) == [StampWritten(h.stamp)] + h.look + h.receipt + h.execs + h.record
  {
    hide Looked, Ran, Recorded;
  }

  /** `judged.find`. */
  method FindCandidate(origins: seq<Origin>) returns (found: Option<Origin>)
    ensures found == FirstCandidate(origins)
  {
    var i := 0;
    while i < |origins| && !IsCandidate(origins[i])
      invariant i <= |origins|
      invariant FirstCandidate(origins) == FirstCandidate(origins[i..])
    {
      i := i + 1;
    }
    found := if i < |origins| then Some(origins[i]) else None;
  }

  /** The facts checked about the origin hold, and its artifact has a digest. */
  predicate Vouches(o: Origin) {
    o.verified && o.digest != None
  }

  lemma {:induction false} CandidateIsFirst(origins: seq<Origin>)
    ensures match FirstCandidate(origins)
      case None => forall i :: 0 <= i < |origins| ==> !Vouches(origins[i])
      case Some(o) =>
        exists i :: 0 <= i < |origins| && origins[i] == o && Vouches(o)
          && forall j :: 0 <= j < i ==> !Vouches(origins[j])
  {
    assert forall o :: IsCandidate(o) <==> Vouches(o);
    hide IsCandidate, Vouches;
    if origins != [] && !Vouches(origins[0]) {
      CandidateIsFirst(origins[1..]);
      match FirstCandidate(origins)
      case None =>
        forall i | 0 <= i < |origins| ensures !Vouches(origins[i]) {
          if i > 0 { assert origins[1..][i - 1] == origins[i]; }
        }
      case Some(o) =>
        var i :| 0 <= i < |origins[1..]| && origins[1..][i] == o
          && forall j :: 0 <= j < i ==> !Vouches(origins[1..][j]);
        assert origins[i + 1] == o;
        forall j | 0 <= j < i + 1 ensures !Vouches(origins[j]) {
          if j > 0 { assert origins[1..][j - 1] == origins[j]; }
        }
    } else if origins != [] {
      assert origins[0] == FirstCandidate(origins).value;
    }
  }

  // ---- what the trace shows ----

  /** Every command ran, in order, each with code 0. */
  predicate AllGreen(commands: seq<seq<string>>, t: Trace) {
    |t| == |commands| && forall i :: 0 <= i < |t| ==> t[i] == Executed(commands[i], 0)
  }

  predicate Executes(t: Trace) {
    exists i :: 0 <= i < |t| && t[i].Executed?
  }

  /**
   * The check passes exactly when all its commands really ran green, or, with reuse on, a receipt for a verified
   * earlier run was written; in that case no command ran at all.
   */
  lemma ZeroIffRanOrVouched(cfg: Config, h: History)
    requires Lawful(cfg, h)
    ensures h.code == 0 <==> (!Reused(h) && AllGreen(cfg.commands, h.execs)) || Reused(h)
    ensures Reused(h) ==> cfg.mode == On && Vouches(h.found.value) && !Executes(Whole(h))
  {
    hide Vouches, FirstCandidate;
    if Reused(h) {
      FoundIsCandidate(h.look, h.found);
      LookNeverExecutes(h.look, h.found);
      assert Whole(h) == [StampWritten(h.stamp)] + h.look + h.receipt;
    }
  }

  lemma FoundIsCandidate(look: Trace, found: Option<Origin>)
    requires Looked(look, found)
    ensures found.Some? ==> Vouches(found.value)
  {
    hide Vouches, FirstCandidate;
    if found.Some? { CandidateIsFirst(look[1].origins.value); }
  }

  lemma LookNeverExecutes(look: Trace, found: Option<Origin>)
    requires Looked(look, found)
    ensures forall i :: 0 <= i < |look| ==> look[i].InputsRead? || look[i].LookedUp?
  {}

  /**
   * A record is left only behind a complete green execution whose inputs are known, and it is the last thing but its
   * announcement.
   */
  lemma RecordOnlyAfterSuccess(cfg: Config, h: History, i: nat)
    requires Lawful(cfg, h) && i < |Whole(h)| && Whole(h)[i].RecordWritten?
    ensures cfg.mode != Off && !Reused(h) && AllGreen(cfg.commands, h.execs) && h.look[0] == InputsRead(true)
    ensures i == |Whole(h)| - |h.record| && Whole(h)[..i] == [StampWritten(h.stamp)] + h.look + h.receipt + h.execs
  {
    hide FirstCandidate;
    var before := [StampWritten(h.stamp)] + h.look + h.receipt + h.execs;
    if cfg.mode != Off { LookNeverExecutes(h.look, h.found); }
    assert Whole(h) == before + h.record;
    assert h.record[i - |before|] == Whole(h)[i];
  }

  /** Off looks nothing up and writes neither receipt nor record; observe looks, but never lets a command go. */
  lemma OnlyOnSkips(cfg: Config, h: History)
    requires Lawful(cfg, h) && cfg.mode != On
    ensures h.receipt == [] && Ran(cfg.commands, h.execs, h.code)
    ensures cfg.mode == Off ==> Whole(h) == [StampWritten(h.stamp)] + h.execs
  {
    hide Looked, Ran;
  }
}

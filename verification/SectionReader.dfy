/**
 * src/lib/ci-selected-verdict.ts, the verifying side: the section of a coverage proof as whoever relies on the proof
 * reads it back.
 */
module SectionReader {
  import opened Sequences
  import opened Text
  import opened SelectedReceipts
  import opened SelectedGate

  // ---- what is read ----

  /** A listed receipt as it comes back; a shard or a digest of the wrong type counts as none. */
  datatype RawListed = NotListed | RawListed(shard: Option<int>, digest: Option<ReceiptDigest>, receipt: Raw)

  /**
   * A section as it comes back: no object, an object of another version or without a list of receipts, or one whose
   * fields of the wrong type count as none; `head` is what `String` makes of that field.
   */
  datatype RawSection =
    | NoSection
    | OtherSection
    | RawSection(runId: Option<int>, attempt: Option<int>, head: string, headIsText: bool,
                 responsibilityDigest: Option<string>, receipts: seq<RawListed>)

  datatype SectionDigest = SectionSha256(section: RawSection)

  datatype SectionProblem =
    | MissingSection | NotASection | OtherSectionDigest | SectionOfOtherRun | SectionOfOtherHead
    | BadListing | ListingDisagrees

  function ListedProblems(raw: RawSection, x: RawListed): seq<SectionProblem>
    requires raw.RawSection?
  {
    if x.NotListed? then [BadListing]
    else match ParseReceipt(x.receipt)
      case None => [BadListing]
      case Some(r) =>
        if x.digest != Some(ReceiptSha256(r)) || x.shard != Some(r.shard) then [BadListing]
        else if !r.applied || Some(r.runId) != raw.runId || Some(r.attempt) != raw.attempt
                || Lower(r.head) != Lower(raw.head) || r.responsibilityDigest != raw.responsibilityDigest
        then [ListingDisagrees]
        else []
  }

  function ListingProblems(raw: RawSection, xs: seq<RawListed>): seq<SectionProblem>
    requires raw.RawSection?
  {
    if xs == [] then [] else ListingProblems(raw, xs[..|xs| - 1]) + ListedProblems(raw, xs[|xs| - 1])
  }

  function BindingProblems(raw: RawSection, want: SectionDigest, run: Run): seq<SectionProblem>
    requires raw.RawSection?
  {
    (if SectionSha256(raw) != want then [OtherSectionDigest] else [])
    + (if raw.runId != Some(run.runId) || raw.attempt != Some(run.attempt) then [SectionOfOtherRun] else [])
    + (if !raw.headIsText || Lower(raw.head) != Lower(run.head) then [SectionOfOtherHead] else [])
  }

  /** `sectionProblems`: the digest is the one the proof names; `run.head` is the checkout of the proof. */
  function SectionProblems(raw: RawSection, want: SectionDigest, run: Run): seq<SectionProblem> {
    match raw
    case NoSection => [MissingSection]
    case OtherSection => [NotASection]
    case RawSection(_, _, _, _, _, receipts) =>
      if receipts == [] then [NotASection] else BindingProblems(raw, want, run) + ListingProblems(raw, receipts)
  }

  /** `sectionProblems` as written: early returns, then problem after problem. */
  method CheckSection(raw: RawSection, want: SectionDigest, run: Run) returns (out: seq<SectionProblem>)
    ensures out == SectionProblems(raw, want, run)
  {
    hide BindingProblems;
    if raw.NoSection? { return [MissingSection]; }
    if raw.OtherSection? || raw.receipts == [] { return [NotASection]; }
    out := BindingProblems(raw, want, run);
    for i := 0 to |raw.receipts|
      invariant out == BindingProblems(raw, want, run) + ListingProblems(raw, raw.receipts[..i])
    {
      assert raw.receipts[..i + 1][..i] == raw.receipts[..i];
      var x := raw.receipts[i];
      var parsed := if x.RawListed? then ParseReceipt(x.receipt) else None;
      if parsed.None? || x.digest != Some(ReceiptSha256(parsed.value)) || x.shard != Some(parsed.value.shard) {
        out := out + [BadListing];
        continue;
      }
      var r := parsed.value;
      if !r.applied || Some(r.runId) != raw.runId || Some(r.attempt) != raw.attempt
         || Lower(r.head) != Lower(raw.head) || r.responsibilityDigest != raw.responsibilityDigest {
        out := out + [ListingDisagrees];
      }
    }
    assert raw.receipts[..|raw.receipts|] == raw.receipts;
  }

  // ---- what passes ----

  /**
   * A well-formed, applied receipt under its own digest and shard, of the run, the head and the responsibility of the
   * section.
   */
  predicate ListedFits(raw: RawSection, x: RawListed)
    requires raw.RawSection?
  {
    && x.RawListed? && ParseReceipt(x.receipt).Some?
    && var r := ParseReceipt(x.receipt).value;
       && x.digest == Some(ReceiptSha256(r)) && x.shard == Some(r.shard) && r.applied
       && raw.runId == Some(r.runId) && raw.attempt == Some(r.attempt) && Lower(r.head) == Lower(raw.head)
       && r.responsibilityDigest == raw.responsibilityDigest
  }

  /** The section the proof names, of this run and checkout, with at least one receipt, all of them fitting. */
  predicate SectionFits(raw: RawSection, want: SectionDigest, run: Run) {
    && raw.RawSection? && raw.receipts != [] && SectionSha256(raw) == want
    && raw.runId == Some(run.runId) && raw.attempt == Some(run.attempt)
    && raw.headIsText && Lower(raw.head) == Lower(run.head)
    && forall i :: 0 <= i < |raw.receipts| ==> ListedFits(raw, raw.receipts[i])
  }

  lemma {:induction false} NoListingProblems(raw: RawSection, xs: seq<RawListed>)
    requires raw.RawSection?
    ensures ListingProblems(raw, xs) == [] <==> forall i :: 0 <= i < |xs| ==> ListedFits(raw, xs[i])
  {
    hide Lower, ParseReceipt;
    if xs != [] {
      NoListingProblems(raw, xs[..|xs| - 1]);
      assert xs == xs[..|xs| - 1] + [xs[|xs| - 1]];
    }
  }

  lemma NoSectionProblems(raw: RawSection, want: SectionDigest, run: Run)
    ensures SectionProblems(raw, want, run) == [] <==> SectionFits(raw, want, run)
  {
    hide Lower, ListedFits, ListingProblems;
    if raw.RawSection? { NoListingProblems(raw, raw.receipts); }
  }

  // ---- what was written ----

  function WrittenList(listed: seq<Listed>): (r: seq<RawListed>)
    ensures |r| == |listed|
    ensures forall i :: 0 <= i < |listed| ==>
      r[i] == RawListed(Some(listed[i].shard), Some(listed[i].digest), Fields(listed[i].receipt))
  {
    seq(|listed|, i requires 0 <= i < |listed| =>
      RawListed(Some(listed[i].shard), Some(listed[i].digest), Fields(listed[i].receipt)))
  }

  function AsWritten(s: Section): RawSection {
    RawSection(Some(s.runId), Some(s.attempt), s.head, true, Some(s.responsibilityDigest), WrittenList(s.receipts))
  }

  lemma OneResponsibility(rs: seq<ShardReceipt>, i: nat)
    requires i < |rs| && |Responsibilities(rs)| <= 1
    ensures Responsibilities(rs) == [rs[i].responsibilityDigest]
  {
    DigestAt(rs, i);
    assert rs[i].responsibilityDigest in Responsibilities(rs);
  }

  lemma DigestAt(rs: seq<ShardReceipt>, i: nat)
    requires i < |rs|
    ensures rs[i].responsibilityDigest in DigestsOf(rs)
  {
    if i > 0 { DigestAt(rs[1..], i - 1); }
  }

  /** The same run and attempt, on the same commit up to upper and lower case. */
  predicate SameRun(a: Run, b: Run) {
    a.runId == b.runId && a.attempt == b.attempt && Lower(a.head) == Lower(b.head)
  }

  /**
   * A section written without problems passes exactly unchanged, and exactly for the run, attempt and checkout it was
   * written for.
   */
  lemma SectionRoundTrip(run: Run, logs: Logs, receipts: Receipts, red: string -> bool, raw: RawSection, reader: Run)
    requires var (section, problems) := SectionOf(run, logs, receipts, red); problems == [] && section.Some?
    ensures var written := AsWritten(SectionOf(run, logs, receipts, red).0.value);
      SectionProblems(raw, SectionSha256(written), reader) == [] <==> raw == written && SameRun(reader, run)
  {
    hide ReleasedUpTo, SectionFrom, Lower, SectionProblems, AsWritten, ListedFits;
    var section := SectionOf(run, logs, receipts, red).0.value;
    var written := AsWritten(section);
    SectionIsBound(ReleasedUpTo(SHARDS, logs, receipts, red), run, logs, receipts);
    NoSectionProblems(raw, SectionSha256(written), reader);
  }

  lemma SectionIsBound(ks: seq<nat>, run: Run, logs: Logs, receipts: Receipts)
    requires SectionFrom(ks, run, logs, receipts).1 == [] && SectionFrom(ks, run, logs, receipts).0.Some?
    ensures var raw := AsWritten(SectionFrom(ks, run, logs, receipts).0.value);
      && raw.RawSection? && raw.receipts != [] && raw.headIsText
      && raw.runId == Some(run.runId) && raw.attempt == Some(run.attempt) && raw.head == run.head
      && forall i :: 0 <= i < |raw.receipts| ==> ListedFits(raw, raw.receipts[i])
  {
    hide Releases, ReceiptProblems, ParseReceipt, Responsibilities, Accepted, Parsed, ProblemsOf, ListedFits, Lower;
    NoProblemsOf(ks, run, logs, receipts);
    ReleasedReceipts(ks, run, logs, receipts);
    var rs, raw := Parsed(ks, receipts), AsWritten(SectionFrom(ks, run, logs, receipts).0.value);
    assert rs != [] by { if rs == [] { NoDigests(); } }
    DigestsKnown(rs);
    forall i | 0 <= i < |raw.receipts| ensures ListedFits(raw, raw.receipts[i]) {
      OneResponsibility(rs, i);
      ReleasedFits(raw, raw.receipts[i], rs[i], receipts(ks[i]), BoundFor(ks[i], run, logs));
    }
  }

  lemma NoDigests()
    ensures Responsibilities([]) == []
  {}

  lemma ReleasedFits(raw: RawSection, x: RawListed, r: ShardReceipt, found: Raw, want: Bound)
    requires found == Fields(r) && Releases(found, want)
    requires raw.RawSection? && raw.runId == Some(want.run.runId) && raw.attempt == Some(want.run.attempt)
    requires raw.head == want.run.head && raw.responsibilityDigest == r.responsibilityDigest
    requires x == RawListed(Some(r.shard), Some(ReceiptSha256(r)), found)
    ensures ListedFits(raw, x)
  {
    hide Lower, IsSha, IsDigest;
  }
}

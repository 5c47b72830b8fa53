/** Bounded merging of PutObject failure diagnostics, and the collector that checks the result. */
module Diagnostics {
  import opened Basics

  const MAX_FAILURE_DIAGNOSTIC_GROUPS: nat := 32
  const MAX_FAILURE_DIAGNOSTIC_LABELS: nat := 32
  const OTHER_DIAGNOSTIC_LABEL := "Other"
  /** The largest integer that JavaScript represents exactly. */
  const MAX_SAFE_INTEGER: nat := 9007199254740991

  // ---------- ranges ----------

  datatype Range = Range(min: nat, max: nat, total: nat) {
    function Merge(other: Range): Range {
      Range(Min(min, other.min), Max(max, other.max), SaturatingAdd(total, other.total))
    }

    predicate IsZero() {
      min == 0 && max == 0 && total == 0
    }

    predicate Safe() {
      min <= MAX_SAFE_INTEGER && max <= MAX_SAFE_INTEGER && total <= MAX_SAFE_INTEGER
    }

    /** The range and the total fit `count` observations. */
    predicate Fits(count: nat) {
      min <= max && min * count <= total <= max * count
    }
  }

  lemma Scaled(a: nat, b: nat, n: nat)
    requires a <= b
    ensures a * n <= b * n
  {
  }

  /** What merging keeps in any case: the range fits unless its count or its total has saturated. */
  predicate Sound(r: Range, count: nat) {
    r.min <= r.max && (count < U64_MAX && r.total < U64_MAX ==> r.Fits(count))
  }

  lemma MergedRangeIsSound(a: Range, n: nat, b: Range, m: nat)
    requires Sound(a, n) && Sound(b, m)
    ensures Sound(a.Merge(b), SaturatingAdd(n, m))
  {
    var r := a.Merge(b);
    Scaled(r.min, a.min, n);
    Scaled(r.min, b.min, m);
    Scaled(a.max, r.max, n);
    Scaled(b.max, r.max, m);
    assert r.min * (n + m) == r.min * n + r.min * m;
    assert r.max * (n + m) == r.max * n + r.max * m;
  }

  // ---------- failure states ----------

  /** What must agree for two failures to be counted in one group. */
  datatype Signature = Signature(
    sdkErrorKind: string,
    dispatchFailureKind: Option<string>,
    serviceCode: Option<string>,
    attemptObserved: bool,
    replay: bool,
    producerStage: string,
    finalFrameDelivered: bool,
    producerCompleted: bool,
    bodyErrorObserved: bool,
    receiverDropped: bool,
    receiverDropAbortedProducer: bool,
    sourceObserved: bool)

  datatype BodyRanges = BodyRanges(attemptNumber: Range, bytesEmitted: Range, remainingBytes: Range)

  datatype SourceRanges = SourceRanges(
    localWindowBytes: Range,
    localCommittedBytes: Range,
    localResidentBytes: Range,
    localCapacityWaiters: Range,
    globalBudgetBytes: Range,
    globalResidentBytes: Range,
    globalAvailablePermits: Range,
    globalPermitUnitBytes: Range,
    globalPermitWaiters: Range,
    activeFetches: Range)

  datatype FailureState = FailureState(
    count: nat,
    signature: Signature,
    elapsedMs: Range,
    body: BodyRanges,
    source: SourceRanges)

  function MergeBody(a: BodyRanges, b: BodyRanges): BodyRanges {
    BodyRanges(a.attemptNumber.Merge(b.attemptNumber), a.bytesEmitted.Merge(b.bytesEmitted),
               a.remainingBytes.Merge(b.remainingBytes))
  }

  function MergeSource(a: SourceRanges, b: SourceRanges): SourceRanges {
    SourceRanges(
      a.localWindowBytes.Merge(b.localWindowBytes),
      a.localCommittedBytes.Merge(b.localCommittedBytes),
      a.localResidentBytes.Merge(b.localResidentBytes),
      a.localCapacityWaiters.Merge(b.localCapacityWaiters),
      a.globalBudgetBytes.Merge(b.globalBudgetBytes),
      a.globalResidentBytes.Merge(b.globalResidentBytes),
      a.globalAvailablePermits.Merge(b.globalAvailablePermits),
      a.globalPermitUnitBytes.Merge(b.globalPermitUnitBytes),
      a.globalPermitWaiters.Merge(b.globalPermitWaiters),
      a.activeFetches.Merge(b.activeFetches))
  }

  function MergeState(a: FailureState, b: FailureState): FailureState {
    FailureState(SaturatingAdd(a.count, b.count), a.signature, a.elapsedMs.Merge(b.elapsedMs),
                 MergeBody(a.body, b.body), MergeSource(a.source, b.source))
  }

  function BodyList(b: BodyRanges): seq<Range> {
    [b.attemptNumber, b.bytesEmitted, b.remainingBytes]
  }

  function SourceList(s: SourceRanges): seq<Range> {
    [s.localWindowBytes, s.localCommittedBytes, s.localResidentBytes, s.localCapacityWaiters, s.globalBudgetBytes,
     s.globalResidentBytes, s.globalAvailablePermits, s.globalPermitUnitBytes, s.globalPermitWaiters, s.activeFetches]
  }

  // ---------- the collector's checks ----------

  predicate AllFit(ranges: seq<Range>, count: nat) {
    forall i :: 0 <= i < |ranges| ==> ranges[i].Fits(count)
  }

  predicate AllSafe(ranges: seq<Range>) {
    forall i :: 0 <= i < |ranges| ==> ranges[i].Safe()
  }

  predicate AllZero(ranges: seq<Range>) {
    forall i :: 0 <= i < |ranges| ==> ranges[i].IsZero()
  }

  const SDK_ERROR_KINDS: set<string> :=
    {"ConstructionFailure", "TimeoutError", "DispatchFailure", "ResponseError", "ServiceError", "SdkError"}
  const DISPATCH_FAILURE_KINDS: set<string> := {"timeout", "io", "user", "other"}
  const PRODUCER_STAGES: set<string> :=
    {"awaiting-first-poll", "reading-source", "final-frame-ready", "complete", "receiver-closed", "body-error", "not-observed"}
  const MAX_LABEL_CHARACTERS: nat := 64

  predicate IsLetter(c: char) {
    'A' <= c <= 'Z' || 'a' <= c <= 'z'
  }

  /** A letter and up to 63 letters and digits. */
  predicate DiagnosticLabel(name: string) {
    && 1 <= |name| <= MAX_LABEL_CHARACTERS && IsLetter(name[0])
    && forall i :: 0 <= i < |name| ==> IsLetter(name[i]) || '0' <= name[i] <= '9'
  }

  predicate KindLabel(name: string) {
    DiagnosticLabel(name) && (name == OTHER_DIAGNOSTIC_LABEL || name in SDK_ERROR_KINDS)
  }

  lemma OtherIsALabel()
    ensures KindLabel(OTHER_DIAGNOSTIC_LABEL) && DiagnosticLabel(OTHER_DIAGNOSTIC_LABEL)
  {
  }

  /** The names that the collector knows. */
  predicate KnownNames(s: Signature) {
    && s.sdkErrorKind in SDK_ERROR_KINDS
    && (s.dispatchFailureKind.Some? ==> s.dispatchFailureKind.value in DISPATCH_FAILURE_KINDS)
    && (s.serviceCode.Some? ==> DiagnosticLabel(s.serviceCode.value))
    && s.producerStage in PRODUCER_STAGES
  }

  /** The checks that look at a signature only. */
  predicate CoherentSignature(s: Signature) {
    && KnownNames(s)
    && ((s.sdkErrorKind == "DispatchFailure") <==> s.dispatchFailureKind.Some?)
    && (s.sdkErrorKind != "ServiceError" ==> s.serviceCode.None?)
    && (!s.attemptObserved ==> s.producerStage == "not-observed")
    && (s.producerCompleted <==> s.producerStage == "complete")
    && (s.receiverDropAbortedProducer ==> s.receiverDropped)
    && (!s.attemptObserved ==>
          !s.replay && !s.finalFrameDelivered && !s.producerCompleted && !s.bodyErrorObserved && !s.receiverDropped)
  }

  predicate AllSound(ranges: seq<Range>, count: nat) {
    forall i :: 0 <= i < |ranges| ==> Sound(ranges[i], count)
  }

  predicate AcceptsBody(s: Signature, body: BodyRanges, count: nat) {
    && AllFit(BodyList(body), count)
    && (!s.attemptObserved ==> AllZero(BodyList(body)))
    && (s.attemptObserved ==> body.attemptNumber.min >= 1)
  }

  predicate AcceptsSource(s: Signature, source: SourceRanges, count: nat) {
    AllFit(SourceList(source), count) && (!s.sourceObserved ==> AllZero(SourceList(source)))
  }

  predicate SafeState(f: FailureState) {
    f.count <= MAX_SAFE_INTEGER && f.elapsedMs.Safe() && AllSafe(BodyList(f.body)) && AllSafe(SourceList(f.source))
  }

  predicate AcceptsState(f: FailureState) {
    && f.count >= 1
    && CoherentSignature(f.signature)
    && f.elapsedMs.Fits(f.count)
    && AcceptsBody(f.signature, f.body, f.count)
    && AcceptsSource(f.signature, f.source, f.count)
    && SafeState(f)
  }

  /** `merged` is the range-by-range merge of two lists. */
  predicate Merged(a: seq<Range>, b: seq<Range>, merged: seq<Range>) {
    |a| == |b| == |merged| && forall i :: 0 <= i < |a| ==> merged[i] == a[i].Merge(b[i])
  }

  lemma MergedListIsSound(a: seq<Range>, n: nat, b: seq<Range>, m: nat, merged: seq<Range>)
    requires Merged(a, b, merged) && AllSound(a, n) && AllSound(b, m)
    ensures AllSound(merged, SaturatingAdd(n, m))
    ensures AllZero(a) && AllZero(b) ==> AllZero(merged)
  {
    forall i | 0 <= i < |merged|
      ensures Sound(merged[i], SaturatingAdd(n, m))
    {
      MergedRangeIsSound(a[i], n, b[i], m);
    }
  }

  /** What every group of a merge satisfies, whatever its numbers have grown to. */
  predicate SoundState(f: FailureState) {
    && f.count >= 1
    && CoherentSignature(f.signature)
    && Sound(f.elapsedMs, f.count)
    && AllSound(BodyList(f.body), f.count) && AllSound(SourceList(f.source), f.count)
    && (!f.signature.attemptObserved ==> AllZero(BodyList(f.body)))
    && (f.signature.attemptObserved ==> f.body.attemptNumber.min >= 1)
    && (!f.signature.sourceObserved ==> AllZero(SourceList(f.source)))
  }

  /** A sound group is accepted exactly when its numbers are safe integers. */
  lemma SoundIsAccepted(f: FailureState)
    ensures AcceptsState(f) <==> SoundState(f) && SafeState(f)
  {
    if SoundState(f) && SafeState(f) {
      ListFits(BodyList(f.body), f.count);
      ListFits(SourceList(f.source), f.count);
    }
    if AcceptsState(f) {
      assert forall r: Range :: r.Fits(f.count) ==> Sound(r, f.count);
    }
  }

  lemma ListFits(ranges: seq<Range>, count: nat)
    requires AllSound(ranges, count) && AllSafe(ranges) && count <= MAX_SAFE_INTEGER
    ensures AllFit(ranges, count)
  {
    forall i | 0 <= i < |ranges|
      ensures ranges[i].Fits(count)
    {
      assert Sound(ranges[i], count) && ranges[i].Safe();
    }
  }

  lemma MergedStateIsSound(a: FailureState, b: FailureState)
    requires SoundState(a) && SoundState(b) && a.signature == b.signature
    ensures SoundState(MergeState(a, b))
  {
    MergedRangeIsSound(a.elapsedMs, a.count, b.elapsedMs, b.count);
    MergedListIsSound(BodyList(a.body), a.count, BodyList(b.body), b.count, BodyList(MergeBody(a.body, b.body)));
    MergedListIsSound(SourceList(a.source), a.count, SourceList(b.source), b.count,
                      SourceList(MergeSource(a.source, b.source)));
  }

  // ---------- merging failure states ----------

  /** The failures counted in the first `n` groups. */
  function Represented(states: seq<FailureState>, n: nat): nat
    requires n <= |states|
  {
    if n == 0 then 0 else Represented(states, n - 1) + states[n - 1].count
  }

  lemma {:induction false} SameCounts(a: seq<FailureState>, b: seq<FailureState>, n: nat)
    requires n <= |a| && n <= |b| && forall i :: 0 <= i < n ==> a[i].count == b[i].count
    ensures Represented(a, n) == Represented(b, n)
  {
    if n > 0 {
      SameCounts(a, b, n - 1);
    }
  }

  /** The first group with the signature, or the number of groups. */
  function GroupOf(states: seq<FailureState>, signature: Signature): (i: nat)
    ensures i <= |states|
    ensures i < |states| ==> states[i].signature == signature
    ensures forall k :: 0 <= k < i ==> states[k].signature != signature
  {
    if states == [] then 0
    else
      var i := GroupOf(states[..|states| - 1], signature);
      if i < |states| - 1 || states[i].signature == signature then i else |states|
  }

  function MergeOne(states: seq<FailureState>, f: FailureState): (seq<FailureState>, nat) {
    var i := GroupOf(states, f.signature);
    if i < |states| then (states[i := MergeState(states[i], f)], 0)
    else if |states| < MAX_FAILURE_DIAGNOSTIC_GROUPS then (states + [f], 0)
    else (states, f.count)
  }

  /** The groups and the overflow after the first `n` failures of `source`. */
  function MergeStates(states: seq<FailureState>, source: seq<FailureState>, n: nat): (seq<FailureState>, nat)
    requires n <= |source|
  {
    if n == 0 then (states, 0)
    else
      var before := MergeStates(states, source, n - 1);
      var after := MergeOne(before.0, source[n - 1]);
      (after.0, SaturatingAdd(before.1, after.1))
  }

  predicate DistinctSignatures(states: seq<FailureState>) {
    forall i, j :: 0 <= i < j < |states| ==> states[i].signature != states[j].signature
  }

  lemma {:induction false} RepresentedUpdate(states: seq<FailureState>, i: nat, f: FailureState, n: nat)
    requires i < n <= |states|
    ensures Represented(states[i := f], n) + states[i].count == Represented(states, n) + f.count
  {
    if i < n - 1 {
      RepresentedUpdate(states, i, f, n - 1);
    } else {
      SameCounts(states[i := f], states, n - 1);
    }
  }

  lemma {:induction false} CountWithin(states: seq<FailureState>, i: nat, n: nat)
    requires i < n <= |states|
    ensures states[i].count <= Represented(states, n)
  {
    if i < n - 1 {
      CountWithin(states, i, n - 1);
    }
  }

  /** One failure: at most 32 groups with distinct signatures stay, and its count is kept either in
      a group or as overflow. */
  lemma MergeOneConserves(states: seq<FailureState>, f: FailureState)
    requires |states| <= MAX_FAILURE_DIAGNOSTIC_GROUPS && DistinctSignatures(states)
    ensures |MergeOne(states, f).0| <= MAX_FAILURE_DIAGNOSTIC_GROUPS && DistinctSignatures(MergeOne(states, f).0)
    ensures Represented(states, |states|) + f.count <= U64_MAX ==>
              var r := MergeOne(states, f); Represented(r.0, |r.0|) + r.1 == Represented(states, |states|) + f.count
  {
    var i := GroupOf(states, f.signature);
    if i < |states| {
      RepresentedUpdate(states, i, MergeState(states[i], f), |states|);
      CountWithin(states, i, |states|);
    } else {
      SameCounts(states + [f], states, |states|);
    }
  }

  predicate Extends(before: seq<FailureState>, merged: seq<FailureState>) {
    |before| <= |merged| && forall i :: 0 <= i < |before| ==> KeepsGroup(before[i], merged[i])
  }

  predicate KeepsGroup(before: FailureState, merged: FailureState) {
    before.signature == merged.signature && Min(before.count, U64_MAX) <= merged.count
  }

  lemma MergeOneExtends(states: seq<FailureState>, f: FailureState)
    ensures Extends(states, MergeOne(states, f).0)
    ensures |MergeOne(states, f).0| < MAX_FAILURE_DIAGNOSTIC_GROUPS ==> MergeOne(states, f).1 == 0
  {
  }

  /** Merged groups keep their place; failures overflow only when all groups are taken. */
  lemma {:induction false} MergeStatesExtends(states: seq<FailureState>, source: seq<FailureState>, n: nat)
    requires n <= |source|
    ensures Extends(states, MergeStates(states, source, n).0)
    ensures |MergeStates(states, source, n).0| < MAX_FAILURE_DIAGNOSTIC_GROUPS ==> MergeStates(states, source, n).1 == 0
  {
    if n > 0 {
      MergeStatesExtends(states, source, n - 1);
      var before := MergeStates(states, source, n - 1).0;
      MergeOneExtends(before, source[n - 1]);
      Extended(states, before, MergeOne(before, source[n - 1]).0);
    }
  }

  lemma Extended(a: seq<FailureState>, b: seq<FailureState>, c: seq<FailureState>)
    requires Extends(a, b) && Extends(b, c)
    ensures Extends(a, c)
  {
    forall i | 0 <= i < |a|
      ensures KeepsGroup(a[i], c[i])
    {
      assert KeepsGroup(b[i], c[i]);
    }
  }

  lemma {:induction false} MergeStatesBounded(states: seq<FailureState>, source: seq<FailureState>, n: nat)
    requires n <= |source| && |states| <= MAX_FAILURE_DIAGNOSTIC_GROUPS && DistinctSignatures(states)
    ensures |MergeStates(states, source, n).0| <= MAX_FAILURE_DIAGNOSTIC_GROUPS
    ensures DistinctSignatures(MergeStates(states, source, n).0)
  {
    if n > 0 {
      MergeStatesBounded(states, source, n - 1);
      MergeOneConserves(MergeStates(states, source, n - 1).0, source[n - 1]);
    }
  }

  /** Any number of failures: nothing is lost as long as the counts fit 64 bits. */
  lemma {:induction false} MergeStatesConserves(states: seq<FailureState>, source: seq<FailureState>, n: nat)
    requires n <= |source| && |states| <= MAX_FAILURE_DIAGNOSTIC_GROUPS && DistinctSignatures(states)
    requires Represented(states, |states|) + Represented(source, n) <= U64_MAX
    ensures var r := MergeStates(states, source, n);
      Represented(r.0, |r.0|) + r.1 == Represented(states, |states|) + Represented(source, n)
  {
    if n > 0 {
      MergeStatesConserves(states, source, n - 1);
      MergeStatesBounded(states, source, n - 1);
      MergeOneConserves(MergeStates(states, source, n - 1).0, source[n - 1]);
    }
  }

  predicate AllSoundStates(states: seq<FailureState>) {
    forall i :: 0 <= i < |states| ==> SoundState(states[i])
  }

  lemma {:induction false} MergeStatesKeepsSound(states: seq<FailureState>, source: seq<FailureState>, n: nat)
    requires n <= |source| && AllSoundStates(states) && AllSoundStates(source)
    ensures AllSoundStates(MergeStates(states, source, n).0)
  {
    if n > 0 {
      MergeStatesKeepsSound(states, source, n - 1);
      var before, f := MergeStates(states, source, n - 1).0, source[n - 1];
      var i := GroupOf(before, f.signature);
      if i < |before| {
        MergedStateIsSound(before[i], f);
      }
    }
  }

  // ---------- what a group says about its failures ----------

  function Capped(n: nat): nat {
    Min(n, U64_MAX)
  }

  function RangesOf(f: FailureState): seq<Range> {
    [f.elapsedMs] + BodyList(f.body) + SourceList(f.source)
  }

  const RANGES: nat := 14

  /** The failures with the signature, in order. */
  function OfSignature(failures: seq<FailureState>, signature: Signature): seq<FailureState> {
    if failures == [] then []
    else
      var front, last := OfSignature(failures[..|failures| - 1], signature), failures[|failures| - 1];
      if last.signature == signature then front + [last] else front
  }

  function SumOfTotals(members: seq<FailureState>, k: nat): nat
    requires k < RANGES
  {
    if members == [] then 0 else SumOfTotals(members[..|members| - 1], k) + RangesOf(members[|members| - 1])[k].total
  }

  function SumOfCounts(members: seq<FailureState>): nat {
    if members == [] then 0 else SumOfCounts(members[..|members| - 1]) + members[|members| - 1].count
  }

  /** The range reaches from the least minimum to the greatest maximum, and its total is the sum. */
  ghost predicate Spans(r: Range, members: seq<FailureState>, k: nat)
    requires k < RANGES
  {
    && (forall j :: 0 <= j < |members| ==> r.min <= RangesOf(members[j])[k].min && RangesOf(members[j])[k].max <= r.max)
    && (exists j :: 0 <= j < |members| && r.min == RangesOf(members[j])[k].min)
    && (exists j :: 0 <= j < |members| && r.max == RangesOf(members[j])[k].max)
    && r.total == Capped(SumOfTotals(members, k))
  }

  /** Every number of a group is that of all its failures together. */
  ghost predicate Summarizes(f: FailureState, members: seq<FailureState>) {
    && f.count == Capped(SumOfCounts(members))
    && forall k :: 0 <= k < RANGES ==> Spans(RangesOf(f)[k], members, k)
  }

  /** All numbers fit the 64 bits that they are kept in. */
  predicate FitsMachine(f: FailureState) {
    f.count <= U64_MAX && forall k :: 0 <= k < RANGES ==> RangesOf(f)[k].total <= U64_MAX
  }

  lemma MergedSpans(r: Range, f: FailureState, members: seq<FailureState>, k: nat)
    requires k < RANGES && Spans(r, members, k)
    ensures Spans(r.Merge(RangesOf(f)[k]), members + [f], k)
  {
    var all, merged := members + [f], r.Merge(RangesOf(f)[k]);
    assert all[..|members|] == members && all[|members|] == f;
    forall j | 0 <= j < |all|
      ensures merged.min <= RangesOf(all[j])[k].min && RangesOf(all[j])[k].max <= merged.max
    {
      if j < |members| {
        assert all[j] == members[j];
      }
    }
    var low :| 0 <= low < |members| && r.min == RangesOf(members[low])[k].min;
    var high :| 0 <= high < |members| && r.max == RangesOf(members[high])[k].max;
    assert all[low] == members[low] && all[high] == members[high];
    assert merged.min == RangesOf(all[if r.min <= RangesOf(f)[k].min then low else |members|])[k].min;
    assert merged.max == RangesOf(all[if r.max <= RangesOf(f)[k].max then |members| else high])[k].max;
  }

  lemma OneSpans(f: FailureState, k: nat)
    requires k < RANGES && RangesOf(f)[k].total <= U64_MAX
    ensures Spans(RangesOf(f)[k], [f], k)
  {
    assert [f][..0] == [] && [f][0] == f;
  }

  lemma RangesMerge(g: FailureState, f: FailureState, k: nat)
    requires k < RANGES
    ensures RangesOf(MergeState(g, f))[k] == RangesOf(g)[k].Merge(RangesOf(f)[k])
  {
  }

  lemma CountsMerge(g: FailureState, f: FailureState, members: seq<FailureState>)
    requires g.count == Capped(SumOfCounts(members))
    ensures MergeState(g, f).count == Capped(SumOfCounts(members + [f]))
  {
    assert (members + [f])[..|members|] == members;
  }

  lemma MergeSummarizes(g: FailureState, f: FailureState, members: seq<FailureState>)
    requires Summarizes(g, members)
    ensures Summarizes(MergeState(g, f), members + [f])
  {
    CountsMerge(g, f, members);
    forall k | 0 <= k < RANGES
      ensures Spans(RangesOf(MergeState(g, f))[k], members + [f], k)
    {
      RangesMerge(g, f, k);
      MergedSpans(RangesOf(g)[k], f, members, k);
    }
  }

  lemma OneSummarizes(f: FailureState)
    requires FitsMachine(f)
    ensures Summarizes(f, [f])
  {
    assert [f][..0] == [] && [f][0] == f;
    forall k | 0 <= k < RANGES
      ensures Spans(RangesOf(f)[k], [f], k)
    {
      OneSpans(f, k);
    }
  }

  predicate HasGroup(groups: seq<FailureState>, signature: Signature) {
    exists i :: 0 <= i < |groups| && groups[i].signature == signature
  }

  /** The groups of all failures: each says what its failures say together, and a failure without a
      group means that all 32 are taken. */
  ghost predicate Summary(groups: seq<FailureState>, failures: seq<FailureState>) {
    && (forall i :: 0 <= i < |groups| ==> Summarizes(groups[i], OfSignature(failures, groups[i].signature)))
    && (forall j :: 0 <= j < |failures| ==>
          HasGroup(groups, failures[j].signature) || |groups| == MAX_FAILURE_DIAGNOSTIC_GROUPS)
  }

  lemma {:induction false} NoneOfSignature(failures: seq<FailureState>, signature: Signature)
    requires forall j :: 0 <= j < |failures| ==> failures[j].signature != signature
    ensures OfSignature(failures, signature) == []
  {
    if failures != [] {
      NoneOfSignature(failures[..|failures| - 1], signature);
    }
  }

  lemma OneMoreOfSignature(failures: seq<FailureState>, f: FailureState, signature: Signature)
    ensures OfSignature(failures + [f], signature) ==
              if f.signature == signature then OfSignature(failures, signature) + [f] else OfSignature(failures, signature)
  {
    assert (failures + [f])[..|failures|] == failures;
  }

  lemma SummaryGrows(groups: seq<FailureState>, failures: seq<FailureState>, f: FailureState)
    requires Summary(groups, failures) && DistinctSignatures(groups) && FitsMachine(f)
    requires |groups| <= MAX_FAILURE_DIAGNOSTIC_GROUPS
    ensures Summary(MergeOne(groups, f).0, failures + [f])
  {
    var all, merged, at := failures + [f], MergeOne(groups, f).0, GroupOf(groups, f.signature);
    forall i | 0 <= i < |merged|
      ensures Summarizes(merged[i], OfSignature(all, merged[i].signature))
    {
      OneMoreOfSignature(failures, f, merged[i].signature);
      if i == at && at < |groups| {
        MergeSummarizes(groups[at], f, OfSignature(failures, f.signature));
      } else if i == at {
        NoneOfSignature(failures, f.signature);
        OneSummarizes(f);
      }
    }
    forall j | 0 <= j < |all|
      ensures HasGroup(merged, all[j].signature) || |merged| == MAX_FAILURE_DIAGNOSTIC_GROUPS
    {
      if j < |failures| {
        if i :| 0 <= i < |groups| && groups[i].signature == failures[j].signature {
          assert merged[i].signature == all[j].signature;
        }
      } else if at < |merged| {
        assert merged[at].signature == f.signature;
      }
    }
  }

  /** The groups of all failures, merged one by one. */
  function Groups(failures: seq<FailureState>): seq<FailureState> {
    if failures == [] then [] else MergeOne(Groups(failures[..|failures| - 1]), failures[|failures| - 1]).0
  }

  lemma OneMoreGrouped(failures: seq<FailureState>, f: FailureState)
    ensures Groups(failures + [f]) == MergeOne(Groups(failures), f).0
  {
    assert (failures + [f])[..|failures|] == failures;
  }

  lemma OneMoreMerged(states: seq<FailureState>, source: seq<FailureState>, n: nat)
    requires 0 < n <= |source|
    ensures MergeStates(states, source, n).0 == MergeOne(MergeStates(states, source, n - 1).0, source[n - 1]).0
  {
  }

  lemma OneMoreTaken(failures: seq<FailureState>, source: seq<FailureState>, n: nat)
    requires 0 < n <= |source|
    ensures failures + source[..n] == failures + source[..n - 1] + [source[n - 1]]
  {
  }

  /** Merging one report after the other is merging all failures one by one. */
  lemma {:induction false} MergedInTurn(failures: seq<FailureState>, source: seq<FailureState>, n: nat)
    requires n <= |source|
    ensures MergeStates(Groups(failures), source, n).0 == Groups(failures + source[..n])
  {
    if n == 0 {
      assert failures + source[..0] == failures;
    } else {
      MergedInTurn(failures, source, n - 1);
      OneMoreMerged(Groups(failures), source, n);
      OneMoreTaken(failures, source, n);
      OneMoreGrouped(failures + source[..n - 1], source[n - 1]);
    }
  }

  lemma {:induction false} GroupsAreDistinct(failures: seq<FailureState>)
    ensures |Groups(failures)| <= MAX_FAILURE_DIAGNOSTIC_GROUPS && DistinctSignatures(Groups(failures))
  {
    if failures != [] {
      GroupsAreDistinct(failures[..|failures| - 1]);
      MergeOneConserves(Groups(failures[..|failures| - 1]), failures[|failures| - 1]);
    }
  }

  /** Every number of every group is exactly that of all failures with its signature, and no failure
      lacks a group while one is free. */
  lemma {:induction false} GroupsSummarize(failures: seq<FailureState>)
    requires forall j :: 0 <= j < |failures| ==> FitsMachine(failures[j])
    ensures Summary(Groups(failures), failures)
  {
    if failures != [] {
      var front, last := failures[..|failures| - 1], failures[|failures| - 1];
      GroupsSummarize(front);
      GroupsAreDistinct(front);
      SummaryGrows(Groups(front), front, last);
      assert failures == front + [last];
    }
  }

  // ---------- merging label counts ----------

  ghost function Total(counts: map<string, nat>): nat
    decreases |counts|
  {
    if counts == map[] then 0
    else
      var key :| key in counts;
      assert |counts - {key}| < |counts| by {
        assert (counts - {key}).Keys == counts.Keys - {key};
        assert |counts.Keys| == |counts| && |(counts - {key}).Keys| == |counts - {key}|;
      }
      counts[key] + Total(counts - {key})
  }

  lemma {:induction false} TotalWithout(counts: map<string, nat>, key: string)
    requires key in counts
    ensures Total(counts) == counts[key] + Total(counts - {key})
    decreases |counts|
  {
    var other :| other in counts && Total(counts) == counts[other] + Total(counts - {other});
    if other != key {
      assert |counts - {other}| < |counts| by {
        assert (counts - {other}).Keys == counts.Keys - {other};
        assert |counts.Keys| == |counts| && |(counts - {other}).Keys| == |counts - {other}|;
      }
      assert |counts - {key}| < |counts| by {
        assert (counts - {key}).Keys == counts.Keys - {key};
        assert |counts.Keys| == |counts| && |(counts - {key}).Keys| == |counts - {key}|;
      }
      TotalWithout(counts - {other}, key);
      TotalWithout(counts - {key}, other);
      assert counts - {other} - {key} == counts - {key} - {other};
    }
  }

  lemma TotalUpdate(counts: map<string, nat>, key: string, value: nat)
    ensures Total(counts[key := value]) == Total(counts) - (if key in counts then counts[key] else 0) + value
  {
    TotalWithout(counts[key := value], key);
    assert counts[key := value] - {key} == counts - {key};
    if key in counts {
      TotalWithout(counts, key);
    } else {
      assert counts - {key} == counts;
    }
  }

  function LabelFor(counts: map<string, nat>, name: string): string {
    if name in counts || (name != OTHER_DIAGNOSTIC_LABEL && |counts| < MAX_FAILURE_DIAGNOSTIC_LABELS - 1)
    then name else OTHER_DIAGNOSTIC_LABEL
  }

  function AddCount(counts: map<string, nat>, name: string, count: nat): map<string, nat> {
    var key := LabelFor(counts, name);
    counts[key := SaturatingAdd(if key in counts then counts[key] else 0, count)]
  }

  type Entries = seq<(string, nat)>

  /** The counts after the first `n` entries of `source`. */
  function MergeCounts(counts: map<string, nat>, source: Entries, n: nat): map<string, nat>
    requires n <= |source|
  {
    if n == 0 then counts else AddCount(MergeCounts(counts, source, n - 1), source[n - 1].0, source[n - 1].1)
  }

  function EntriesTotal(source: Entries, n: nat): nat
    requires n <= |source|
  {
    if n == 0 then 0 else EntriesTotal(source, n - 1) + source[n - 1].1
  }

  /** At most 31 labels besides `Other`. */
  predicate Bounded(counts: map<string, nat>) {
    |counts| <= (if OTHER_DIAGNOSTIC_LABEL in counts then MAX_FAILURE_DIAGNOSTIC_LABELS else MAX_FAILURE_DIAGNOSTIC_LABELS - 1)
  }

  lemma AddCountConserves(counts: map<string, nat>, name: string, count: nat)
    requires Bounded(counts)
    ensures Bounded(AddCount(counts, name, count))
    ensures Total(counts) + count <= U64_MAX ==> Total(AddCount(counts, name, count)) == Total(counts) + count
  {
    var key := LabelFor(counts, name);
    var before := if key in counts then counts[key] else 0;
    TotalUpdate(counts, key, SaturatingAdd(before, count));
    if key in counts {
      TotalWithout(counts, key);
    }
    AddedLabel(counts, key, SaturatingAdd(before, count));
  }

  lemma AddedLabel(counts: map<string, nat>, key: string, value: nat)
    requires Bounded(counts)
    requires key in counts || key == OTHER_DIAGNOSTIC_LABEL || |counts| < MAX_FAILURE_DIAGNOSTIC_LABELS - 1
    ensures Bounded(counts[key := value])
  {
  }

  lemma {:induction false} MergeCountsBounded(counts: map<string, nat>, source: Entries, n: nat)
    requires n <= |source| && Bounded(counts)
    ensures Bounded(MergeCounts(counts, source, n))
  {
    if n > 0 {
      var before, name, count := MergeCounts(counts, source, n - 1), source[n - 1].0, source[n - 1].1;
      MergeCountsBounded(counts, source, n - 1);
      AddedBounded(before, name, count);
      assert MergeCounts(counts, source, n) == AddCount(before, name, count);
    }
  }

  lemma AddedBounded(counts: map<string, nat>, name: string, count: nat)
    requires Bounded(counts)
    ensures Bounded(AddCount(counts, name, count))
  {
    AddCountConserves(counts, name, count);
  }

  lemma {:induction false} MergeCountsConserves(counts: map<string, nat>, source: Entries, n: nat)
    requires n <= |source| && Bounded(counts) && Total(counts) + EntriesTotal(source, n) <= U64_MAX
    ensures Total(MergeCounts(counts, source, n)) == Total(counts) + EntriesTotal(source, n)
  {
    if n > 0 {
      MergeCountsConserves(counts, source, n - 1);
      MergeCountsBounded(counts, source, n - 1);
      AddCountConserves(MergeCounts(counts, source, n - 1), source[n - 1].0, source[n - 1].1);
    }
  }

  lemma {:induction false} MergeCountsKeeps(counts: map<string, nat>, source: Entries, n: nat)
    requires n <= |source|
    ensures forall key :: key in counts ==>
              key in MergeCounts(counts, source, n) && Min(counts[key], U64_MAX) <= MergeCounts(counts, source, n)[key]
  {
    if n > 0 {
      MergeCountsKeeps(counts, source, n - 1);
    }
  }

  predicate LabelsOk(counts: map<string, nat>, ok: string -> bool) {
    forall key :: key in counts ==> ok(key)
  }

  predicate EntriesOk(source: Entries, ok: string -> bool) {
    forall i :: 0 <= i < |source| ==> ok(source[i].0)
  }

  /** Merging introduces no label but `Other`. */
  lemma {:induction false} MergeCountsLabels(counts: map<string, nat>, source: Entries, n: nat, ok: string -> bool)
    requires n <= |source| && LabelsOk(counts, ok) && EntriesOk(source, ok) && ok(OTHER_DIAGNOSTIC_LABEL)
    ensures LabelsOk(MergeCounts(counts, source, n), ok)
  {
    if n > 0 {
      MergeCountsLabels(counts, source, n - 1, ok);
      assert ok(source[n - 1].0);
    }
  }

  /** What the first `n` entries say about one label. */
  function SumOfLabel(source: Entries, n: nat, name: string): nat
    requires n <= |source|
  {
    if n == 0 then 0 else SumOfLabel(source, n - 1, name) + (if source[n - 1].0 == name then source[n - 1].1 else 0)
  }

  /** A label that is kept has counted all its entries, and only those; one that is not kept came
      when 31 others were taken. */
  lemma {:induction false} LabelsAreExact(source: Entries, n: nat, name: string)
    requires n <= |source| && name != OTHER_DIAGNOSTIC_LABEL
    ensures var merged := MergeCounts(map[], source, n);
      && (name in merged ==> merged[name] == Min(SumOfLabel(source, n, name), U64_MAX))
      && (name in merged ==> exists i :: 0 <= i < n && source[i].0 == name)
      && (name !in merged && (exists i :: 0 <= i < n && source[i].0 == name) ==>
            |merged| >= MAX_FAILURE_DIAGNOSTIC_LABELS - 1)
      && (name !in merged && |merged| < MAX_FAILURE_DIAGNOSTIC_LABELS - 1 ==> SumOfLabel(source, n, name) == 0)
  {
    if n > 0 {
      LabelsAreExact(source, n - 1, name);
    }
  }

  /** Counting two lists one after the other is counting them as one. */
  lemma {:induction false} CountedInTurn(all: Entries, a: Entries, b: Entries, n: nat, at: nat)
    requires all == a + b && n <= |b| && at == |a| + n
    ensures MergeCounts(map[], all, at) == MergeCounts(MergeCounts(map[], a, |a|), b, n)
  {
    if n == 0 {
      SameEntries(all, a, |a|);
    } else {
      CountedInTurn(all, a, b, n - 1, at - 1);
      assert all[at - 1] == b[n - 1];
    }
  }

  lemma {:induction false} SameEntries(all: Entries, a: Entries, n: nat)
    requires n <= |a| <= |all| && a == all[..|a|]
    ensures MergeCounts(map[], all, n) == MergeCounts(map[], a, n)
  {
    if n > 0 {
      SameEntries(all, a, n - 1);
      assert all[n - 1] == a[n - 1];
    }
  }

  // ---------- the deployment's PutObject statistics ----------

  /** What one transfer reports. The label counts come in the order of its sorted maps. */
  datatype PutStats = PutStats(
    wireAttempts: nat,
    failedAttempts: nat,
    retryAttempts: nat,
    throttledAttempts: nat,
    retryWaitMs: nat,
    throttleCooldownWaits: nat,
    throttleCooldownWaitMs: nat,
    failuresBySdkErrorKind: Entries,
    failuresByServiceCode: Entries,
    failureStates: seq<FailureState>,
    overflowAttempts: nat)

  /** A report that agrees with itself, and breaks its failures down if that is asked for. */
  predicate CoherentReport(s: PutStats, detailed: bool) {
    && s.failedAttempts <= s.wireAttempts && s.retryAttempts <= s.wireAttempts && s.throttledAttempts <= s.failedAttempts
    && (detailed ==>
          && EntriesTotal(s.failuresBySdkErrorKind, |s.failuresBySdkErrorKind|) == s.failedAttempts
          && EntriesTotal(s.failuresByServiceCode, |s.failuresByServiceCode|) <= s.failedAttempts
          && Represented(s.failureStates, |s.failureStates|) + s.overflowAttempts == s.failedAttempts
          && EntriesOk(s.failuresBySdkErrorKind, KindLabel) && EntriesOk(s.failuresByServiceCode, DiagnosticLabel)
          && AllSoundStates(s.failureStates))
  }

  const TWO_64: nat := 0x1_0000_0000_0000_0000

  /** An atomic counter wraps around. */
  function FetchAdd(a: nat, b: nat): nat {
    if a + b < TWO_64 then a + b else (a + b) % TWO_64
  }

  /** Labels stay bounded and valid, and nothing is lost while the sums fit 64 bits. */
  ghost predicate MergedLabels(before: map<string, nat>, source: Entries, merged: map<string, nat>, ok: string -> bool) {
    && Bounded(merged)
    && LabelsOk(merged, ok)
    && (Total(before) + EntriesTotal(source, |source|) <= U64_MAX ==>
          Total(merged) == Total(before) + EntriesTotal(source, |source|))
  }

  /** No label loses what it counted. */
  ghost predicate KeepsLabels(before: map<string, nat>, merged: map<string, nat>) {
    forall key :: key in before ==> key in merged && Min(before[key], U64_MAX) <= merged[key]
  }

  /** Groups stay bounded, distinct and sound; failures overflow only when all groups are taken; and
      nothing is lost while the sums fit 64 bits. */
  ghost predicate MergedGroups(before: seq<FailureState>, source: seq<FailureState>, merged: seq<FailureState>,
                               overflowBefore: nat, overflowReported: nat, overflow: nat) {
    && |merged| <= MAX_FAILURE_DIAGNOSTIC_GROUPS && DistinctSignatures(merged) && AllSoundStates(merged)
    && (|merged| < MAX_FAILURE_DIAGNOSTIC_GROUPS ==>
          overflow == FetchAdd(overflowBefore, SaturatingAdd(0, overflowReported)))
    && (Represented(before, |before|) + Represented(source, |source|) + overflowBefore + overflowReported <= U64_MAX ==>
          Represented(merged, |merged|) + overflow == Represented(before, |before|) + Represented(source, |source|) + overflowBefore + overflowReported)
  }

  /** The counters of the statistics, which may wrap around. */
  datatype Counters = Counters(
    wireAttempts: nat,
    failedAttempts: nat,
    retryAttempts: nat,
    throttledAttempts: nat,
    retryWaitMs: nat,
    throttleCooldownWaits: nat,
    throttleCooldownWaitMs: nat)
  {
    function Add(stats: PutStats): Counters {
      Counters(FetchAdd(wireAttempts, stats.wireAttempts), FetchAdd(failedAttempts, stats.failedAttempts),
               FetchAdd(retryAttempts, stats.retryAttempts), FetchAdd(throttledAttempts, stats.throttledAttempts),
               FetchAdd(retryWaitMs, stats.retryWaitMs), FetchAdd(throttleCooldownWaits, stats.throttleCooldownWaits),
               FetchAdd(throttleCooldownWaitMs, stats.throttleCooldownWaitMs))
    }

    /** The waits are independent of the attempts. */
    predicate SafeWaits() {
      retryWaitMs <= MAX_SAFE_INTEGER && throttleCooldownWaits <= MAX_SAFE_INTEGER
      && throttleCooldownWaitMs <= MAX_SAFE_INTEGER
    }

    predicate SafeAttempts() {
      wireAttempts <= MAX_SAFE_INTEGER && failedAttempts <= MAX_SAFE_INTEGER
      && retryAttempts <= MAX_SAFE_INTEGER && throttledAttempts <= MAX_SAFE_INTEGER
    }

    predicate Ordered() {
      failedAttempts <= wireAttempts && retryAttempts <= wireAttempts && throttledAttempts <= failedAttempts
    }
  }

  /** What the collector demands of one map of label counts. */
  predicate AcceptsCounts(counts: map<string, nat>, ok: string -> bool) {
    && |counts| <= MAX_FAILURE_DIAGNOSTIC_LABELS
    && LabelsOk(counts, ok)
    && forall key :: key in counts ==> counts[key] <= MAX_SAFE_INTEGER
  }

  /** The statistics at one moment. `detailed` says whether failures are broken down; `reported`
      counts all wire attempts ever reported, without any wrap-around. */
  datatype Snapshot = Snapshot(
    detailed: bool,
    counters: Counters,
    sdkKinds: map<string, nat>,
    serviceCodes: map<string, nat>,
    failureStates: seq<FailureState>,
    overflowAttempts: nat,
    reported: nat)
  {
    /** The breakdown of the failures adds up to them; without one there is nothing. */
    ghost predicate AddsUp() {
      if detailed then
        && Total(sdkKinds) == counters.failedAttempts
        && Total(serviceCodes) <= counters.failedAttempts
        && Represented(failureStates, |failureStates|) + overflowAttempts == counters.failedAttempts
      else
        Total(sdkKinds) == 0 && Total(serviceCodes) == 0 && failureStates == [] && overflowAttempts == 0
    }

    /** What the counters keep as long as 64 bits are enough for all reported attempts. */
    ghost predicate Exact() {
      counters.wireAttempts == reported && counters.Ordered() && AddsUp()
    }

    ghost predicate Valid() {
      && Bounded(sdkKinds) && Bounded(serviceCodes)
      && LabelsOk(sdkKinds, KindLabel) && LabelsOk(serviceCodes, DiagnosticLabel)
      && |failureStates| <= MAX_FAILURE_DIAGNOSTIC_GROUPS
      && DistinctSignatures(failureStates)
      && AllSoundStates(failureStates)
      && (reported <= U64_MAX ==> Exact())
    }

    /** All of the collector's checks of the PutObject section. */
    ghost predicate Accepted() {
      && counters.SafeAttempts() && counters.SafeWaits() && overflowAttempts <= MAX_SAFE_INTEGER
      && AcceptsCounts(sdkKinds, KindLabel) && AcceptsCounts(serviceCodes, DiagnosticLabel)
      && |failureStates| <= MAX_FAILURE_DIAGNOSTIC_GROUPS
      && AllAcceptedStates(failureStates)
      && AddsUp() && counters.Ordered()
    }
  }

  /** Every label count is part of the total. */
  lemma CountsAreSafe(counts: map<string, nat>, ok: string -> bool)
    requires Bounded(counts) && LabelsOk(counts, ok) && Total(counts) <= MAX_SAFE_INTEGER
    ensures AcceptsCounts(counts, ok)
  {
    forall key | key in counts
      ensures counts[key] <= MAX_SAFE_INTEGER
    {
      TotalWithout(counts, key);
    }
  }

  predicate AllSafeStates(states: seq<FailureState>) {
    forall i :: 0 <= i < |states| ==> SafeState(states[i])
  }

  predicate AllAcceptedStates(states: seq<FailureState>) {
    forall i :: 0 <= i < |states| ==> AcceptsState(states[i])
  }

  lemma SoundStatesAreAccepted(states: seq<FailureState>)
    requires AllSoundStates(states)
    ensures AllAcceptedStates(states) <==> AllSafeStates(states)
  {
    forall i | 0 <= i < |states|
      ensures AcceptsState(states[i]) <==> SafeState(states[i])
    {
      SoundIsAccepted(states[i]);
    }
  }

  /** As long as all reported attempts fit 64 bits, the collector accepts the statistics exactly when
      the wire attempts, the waits and the numbers of every group are safe integers. */
  lemma ValidIsAccepted(s: Snapshot)
    requires s.Valid() && s.reported <= U64_MAX
    ensures s.Accepted() <==>
              && s.counters.wireAttempts <= MAX_SAFE_INTEGER && s.counters.SafeWaits()
              && AllSafeStates(s.failureStates)
  {
    SoundStatesAreAccepted(s.failureStates);
    if s.counters.wireAttempts <= MAX_SAFE_INTEGER {
      CountsAreSafe(s.sdkKinds, KindLabel);
      CountsAreSafe(s.serviceCodes, DiagnosticLabel);
    }
  }

  lemma OneLabel(name: string, count: nat)
    ensures Total(map[name := count]) == count && Bounded(map[name := count])
  {
    var counts := map[name := count];
    TotalWithout(counts, name);
    assert counts - {name} == map[];
  }

  lemma NoLabel()
    ensures Bounded(map[]) && Total(map[]) == 0
  {
  }

  lemma UnsafeCountsAreRejected(name: string)
    requires KindLabel(name)
    ensures var n := MAX_SAFE_INTEGER + 1;
      var s := Snapshot(true, Counters(n, n, 0, 0, 0, 0, 0), map[name := n], map[], [], n, n);
      s.Valid() && AllSafeStates(s.failureStates) && !s.Accepted()
  {
    OneLabel(name, MAX_SAFE_INTEGER + 1);
    NoLabel();
  }

  /** Statistics whose attempts are no safe integer are rejected although they are coherent and
      there is no group at all. */
  lemma UnsafeAttemptsAreRejected()
    ensures var n := MAX_SAFE_INTEGER + 1;
      var s := Snapshot(true, Counters(n, n, 0, 0, 0, 0, 0), map["TimeoutError" := n], map[], [], n, n);
      s.Valid() && AllSafeStates(s.failureStates) && !s.Accepted()
  {
    UnsafeCountsAreRejected("TimeoutError");
  }

  /** What one report does to the statistics. */
  ghost predicate Reported(s: Snapshot, stats: PutStats, t: Snapshot) {
    && t.detailed == s.detailed
    && t.reported == s.reported + stats.wireAttempts
    && t.counters == s.counters.Add(stats)
    && if s.detailed then
         && MergedLabels(s.sdkKinds, stats.failuresBySdkErrorKind, t.sdkKinds, KindLabel)
         && MergedLabels(s.serviceCodes, stats.failuresByServiceCode, t.serviceCodes, DiagnosticLabel)
         && MergedGroups(s.failureStates, stats.failureStates, t.failureStates, s.overflowAttempts,
                         stats.overflowAttempts, t.overflowAttempts)
       else
         && t.sdkKinds == s.sdkKinds && t.serviceCodes == s.serviceCodes
         && t.failureStates == s.failureStates && t.overflowAttempts == s.overflowAttempts
  }

  lemma ReportKeepsValid(s: Snapshot, stats: PutStats, t: Snapshot)
    requires s.Valid() && CoherentReport(stats, s.detailed)
    requires Reported(s, stats, t)
    ensures t.Valid()
  {
  }

  // ---------- the statistics and everything that was reported ----------

  /** The plain numbers of a report and the counters that they are added to, in the same order. */
  function Numbers(r: PutStats): seq<nat> {
    [r.wireAttempts, r.failedAttempts, r.retryAttempts, r.throttledAttempts,
     r.retryWaitMs, r.throttleCooldownWaits, r.throttleCooldownWaitMs]
  }

  function Values(c: Counters): seq<nat> {
    [c.wireAttempts, c.failedAttempts, c.retryAttempts, c.throttledAttempts,
     c.retryWaitMs, c.throttleCooldownWaits, c.throttleCooldownWaitMs]
  }

  function SumOf(history: seq<PutStats>, k: nat): nat
    requires k < 7
  {
    if history == [] then 0 else SumOf(history[..|history| - 1], k) + Numbers(history[|history| - 1])[k]
  }

  function AllFailures(history: seq<PutStats>): seq<FailureState> {
    if history == [] then [] else AllFailures(history[..|history| - 1]) + history[|history| - 1].failureStates
  }

  function AllKinds(history: seq<PutStats>): Entries {
    if history == [] then [] else AllKinds(history[..|history| - 1]) + history[|history| - 1].failuresBySdkErrorKind
  }

  function AllCodes(history: seq<PutStats>): Entries {
    if history == [] then [] else AllCodes(history[..|history| - 1]) + history[|history| - 1].failuresByServiceCode
  }

  /** Each counter is the sum of its own number, up to wrap-around, and the breakdowns are those of
      all reports in turn. */
  predicate Reflects(s: Snapshot, history: seq<PutStats>) {
    && s.reported == SumOf(history, 0)
    && (forall k :: 0 <= k < 7 ==> Values(s.counters)[k] == SumOf(history, k) % TWO_64)
    && (s.detailed ==>
          && s.failureStates == Groups(AllFailures(history))
          && s.sdkKinds == MergeCounts(map[], AllKinds(history), |AllKinds(history)|)
          && s.serviceCodes == MergeCounts(map[], AllCodes(history), |AllCodes(history)|))
  }

  lemma WrappedSum(sum: nat, more: nat)
    ensures FetchAdd(sum % TWO_64, more) == (sum + more) % TWO_64
  {
    var q := sum / TWO_64;
    assert sum == TWO_64 * q + sum % TWO_64;
    assert (TWO_64 * q + (sum % TWO_64 + more)) % TWO_64 == (sum % TWO_64 + more) % TWO_64;
  }

  lemma CountersReflect(c: Counters, history: seq<PutStats>, stats: PutStats)
    requires forall k :: 0 <= k < 7 ==> Values(c)[k] == SumOf(history, k) % TWO_64
    ensures forall k :: 0 <= k < 7 ==> Values(c.Add(stats))[k] == SumOf(history + [stats], k) % TWO_64
  {
    assert (history + [stats])[..|history|] == history;
    forall k | 0 <= k < 7
      ensures Values(c.Add(stats))[k] == SumOf(history + [stats], k) % TWO_64
    {
      assert Values(c.Add(stats))[k] == FetchAdd(Values(c)[k], Numbers(stats)[k]);
      WrappedSum(SumOf(history, k), Numbers(stats)[k]);
    }
  }

  lemma GroupsReflect(history: seq<PutStats>, stats: PutStats)
    ensures MergeStates(Groups(AllFailures(history)), stats.failureStates, |stats.failureStates|).0
         == Groups(AllFailures(history + [stats]))
  {
    assert (history + [stats])[..|history|] == history;
    MergedInTurn(AllFailures(history), stats.failureStates, |stats.failureStates|);
    assert stats.failureStates[..|stats.failureStates|] == stats.failureStates;
  }

  /** One more report. */
  lemma HistoryGrows(s: Snapshot, history: seq<PutStats>, stats: PutStats, t: Snapshot)
    requires Reflects(s, history) && t.detailed == s.detailed
    requires t.reported == s.reported + stats.wireAttempts && t.counters == s.counters.Add(stats)
    requires s.detailed ==>
               && t.failureStates == MergeStates(s.failureStates, stats.failureStates, |stats.failureStates|).0
               && t.sdkKinds == MergeCounts(s.sdkKinds, stats.failuresBySdkErrorKind, |stats.failuresBySdkErrorKind|)
               && t.serviceCodes == MergeCounts(s.serviceCodes, stats.failuresByServiceCode, |stats.failuresByServiceCode|)
    ensures Reflects(t, history + [stats])
  {
    assert (history + [stats])[..|history|] == history;
    CountersReflect(s.counters, history, stats);
    if s.detailed {
      GroupsReflect(history, stats);
      CountedInTurn(AllKinds(history + [stats]), AllKinds(history), stats.failuresBySdkErrorKind,
                    |stats.failuresBySdkErrorKind|, |AllKinds(history + [stats])|);
      CountedInTurn(AllCodes(history + [stats]), AllCodes(history), stats.failuresByServiceCode,
                    |stats.failuresByServiceCode|, |AllCodes(history + [stats])|);
    }
  }

  /** What the labels of a map say about all entries. */
  ghost predicate LabelSummary(counts: map<string, nat>, source: Entries) {
    forall name :: name != OTHER_DIAGNOSTIC_LABEL ==>
      && (name in counts ==> counts[name] == Min(SumOfLabel(source, |source|, name), U64_MAX))
      && (name !in counts && |counts| < MAX_FAILURE_DIAGNOSTIC_LABELS - 1 ==> SumOfLabel(source, |source|, name) == 0)
  }

  lemma LabelsSummarize(source: Entries)
    ensures LabelSummary(MergeCounts(map[], source, |source|), source)
  {
    forall name | name != OTHER_DIAGNOSTIC_LABEL
      ensures var counts := MergeCounts(map[], source, |source|);
        && (name in counts ==> counts[name] == Min(SumOfLabel(source, |source|, name), U64_MAX))
        && (name !in counts && |counts| < MAX_FAILURE_DIAGNOSTIC_LABELS - 1 ==> SumOfLabel(source, |source|, name) == 0)
    {
      LabelsAreExact(source, |source|, name);
    }
  }

  class DeploymentPutStats {
    const detailed: bool
    var counters: Counters
    var failuresBySdkErrorKind: map<string, nat>
    var failuresByServiceCode: map<string, nat>
    var failureStates: seq<FailureState>
    var overflowAttempts: nat
    ghost var reported: nat
    /** All reports so far, in order. */
    ghost var history: seq<PutStats>

    ghost function Now(): Snapshot
      reads this
    {
      Snapshot(detailed, counters, failuresBySdkErrorKind, failuresByServiceCode, failureStates, overflowAttempts, reported)
    }

    ghost predicate Valid()
      reads this
    {
      Now().Valid() && Reflects(Now(), history)
    }

    constructor (detailed: bool)
      ensures Valid() && history == [] && this.detailed == detailed
    {
      this.detailed := detailed;
      counters := Counters(0, 0, 0, 0, 0, 0, 0);
      failuresBySdkErrorKind, failuresByServiceCode := map[], map[];
      failureStates, overflowAttempts, reported, history := [], 0, 0, [];
    }

    /** Adds one report; the breakdowns only if they are asked for. */
    method AddPutStats(stats: PutStats)
      requires Valid() && CoherentReport(stats, detailed)
      modifies this
      ensures Valid() && Reported(old(Now()), stats, Now()) && history == old(history) + [stats]
      ensures KeepsLabels(old(failuresBySdkErrorKind), failuresBySdkErrorKind)
      ensures KeepsLabels(old(failuresByServiceCode), failuresByServiceCode)
      ensures Extends(old(failureStates), failureStates)
      ensures detailed ==> failuresBySdkErrorKind == MergeCounts(old(failuresBySdkErrorKind), stats.failuresBySdkErrorKind,
                                                                 |stats.failuresBySdkErrorKind|)
      ensures detailed ==> failuresByServiceCode == MergeCounts(old(failuresByServiceCode), stats.failuresByServiceCode,
                                                                |stats.failuresByServiceCode|)
      ensures detailed ==> failureStates == MergeStates(old(failureStates), stats.failureStates, |stats.failureStates|).0
    {
      ghost var before := Now();
      var kinds, codes, states, overflow := failuresBySdkErrorKind, failuresByServiceCode, failureStates, overflowAttempts;
      if detailed {
        OtherIsALabel();
        kinds := MergeLabels(kinds, stats.failuresBySdkErrorKind, KindLabel);
        codes := MergeLabels(codes, stats.failuresByServiceCode, DiagnosticLabel);
        states, overflow := MergeGroups(states, stats.failureStates, overflow, stats.overflowAttempts);
      }
      ghost var reports := history;
      Store(stats, kinds, codes, states, overflow);
      ReportKeepsValid(before, stats, Now());
      HistoryGrows(before, reports, stats, Now());
    }

    /** Counts the attempts and stores the merged breakdowns. */
    method Store(stats: PutStats, kinds: map<string, nat>, codes: map<string, nat>, states: seq<FailureState>, overflow: nat)
      modifies this
      ensures Now() == Snapshot(detailed, old(counters).Add(stats), kinds, codes, states, overflow,
                                old(reported) + stats.wireAttempts)
      ensures history == old(history) + [stats]
    {
      history := history + [stats];
      reported := reported + stats.wireAttempts;
      counters := counters.Add(stats);
      failuresBySdkErrorKind, failuresByServiceCode := kinds, codes;
      failureStates, overflowAttempts := states, overflow;
    }

    /** After any reports: each counter is the sum of its own number up to wrap-around, every number of
        every group is that of all failures with its signature, and every label but `Other` has
        counted exactly its own entries. */
    lemma StatisticsAreExact()
      requires Valid()
      requires forall j :: 0 <= j < |AllFailures(history)| ==> FitsMachine(AllFailures(history)[j])
      ensures forall k :: 0 <= k < 7 ==> Values(counters)[k] == SumOf(history, k) % TWO_64
      ensures detailed ==>
                && Summary(failureStates, AllFailures(history))
                && LabelSummary(failuresBySdkErrorKind, AllKinds(history))
                && LabelSummary(failuresByServiceCode, AllCodes(history))
    {
      GroupsSummarize(AllFailures(history));
      LabelsSummarize(AllKinds(history));
      LabelsSummarize(AllCodes(history));
    }

    /** After any reports whose attempts fit 64 bits, the collector accepts the statistics exactly
        when the wire attempts, the waits and the numbers of every group are safe integers. */
    lemma ReportsAreAccepted()
      requires Valid() && reported <= U64_MAX
      ensures Now().Accepted() <==>
                && counters.wireAttempts <= MAX_SAFE_INTEGER && counters.SafeWaits()
                && AllSafeStates(failureStates)
    {
      ValidIsAccepted(Now());
    }
  }

  method MergeDiagnosticCounts(counts: map<string, nat>, source: Entries) returns (merged: map<string, nat>)
    ensures merged == MergeCounts(counts, source, |source|)
  {
    merged := counts;
    for i := 0 to |source|
      invariant merged == MergeCounts(counts, source, i)
    {
      var (name, count) := source[i];
      var key :=
        if name in merged || (name != OTHER_DIAGNOSTIC_LABEL && |merged| < MAX_FAILURE_DIAGNOSTIC_LABELS - 1)
        then name else OTHER_DIAGNOSTIC_LABEL;
      var before := if key in merged then merged[key] else 0;
      merged := merged[key := SaturatingAdd(before, count)];
    }
  }

  method FindGroup(states: seq<FailureState>, signature: Signature) returns (i: nat)
    ensures i == GroupOf(states, signature)
  {
    i := 0;
    while i < |states| && states[i].signature != signature
      invariant 0 <= i <= |states|
      invariant forall k :: 0 <= k < i ==> states[k].signature != signature
    {
      i := i + 1;
    }
  }

  method MergeFailure(states: seq<FailureState>, failure: FailureState)
    returns (merged: seq<FailureState>, overflow: nat)
    ensures (merged, overflow) == MergeOne(states, failure)
  {
    var at := FindGroup(states, failure.signature);
    if at < |states| {
      return states[at := MergeState(states[at], failure)], 0;
    } else if |states| < MAX_FAILURE_DIAGNOSTIC_GROUPS {
      return states + [failure], 0;
    } else {
      return states, failure.count;
    }
  }

  method MergeFailureStates(states: seq<FailureState>, source: seq<FailureState>)
    returns (merged: seq<FailureState>, overflow: nat)
    ensures (merged, overflow) == MergeStates(states, source, |source|)
  {
    merged, overflow := states, 0;
    for i := 0 to |source|
      invariant (merged, overflow) == MergeStates(states, source, i)
    {
      var more;
      merged, more := MergeFailure(merged, source[i]);
      overflow := SaturatingAdd(overflow, more);
    }
  }

  /** Merges label counts; what that keeps. */
  method MergeLabels(counts: map<string, nat>, source: Entries, ghost ok: string -> bool) returns (merged: map<string, nat>)
    requires Bounded(counts) && LabelsOk(counts, ok) && EntriesOk(source, ok) && ok(OTHER_DIAGNOSTIC_LABEL)
    ensures merged == MergeCounts(counts, source, |source|)
    ensures MergedLabels(counts, source, merged, ok) && KeepsLabels(counts, merged)
  {
    MergeCountsLabels(counts, source, |source|, ok);
    MergeCountsBounded(counts, source, |source|);
    if Total(counts) + EntriesTotal(source, |source|) <= U64_MAX {
      MergeCountsConserves(counts, source, |source|);
    }
    MergeCountsKeeps(counts, source, |source|);
    merged := MergeDiagnosticCounts(counts, source);
  }

  /** Merges failure groups and adds what does not fit them to the overflow; what that keeps. */
  method MergeGroups(states: seq<FailureState>, source: seq<FailureState>, overflowBefore: nat, overflowReported: nat)
    returns (merged: seq<FailureState>, overflow: nat)
    requires |states| <= MAX_FAILURE_DIAGNOSTIC_GROUPS && DistinctSignatures(states)
    requires AllSoundStates(states) && AllSoundStates(source)
    ensures merged == MergeStates(states, source, |source|).0 && Extends(states, merged)
    ensures MergedGroups(states, source, merged, overflowBefore, overflowReported, overflow)
  {
    MergeStatesBounded(states, source, |source|);
    if Represented(states, |states|) + Represented(source, |source|) <= U64_MAX {
      MergeStatesConserves(states, source, |source|);
    }
    MergeStatesKeepsSound(states, source, |source|);
    MergeStatesExtends(states, source, |source|);
    var more;
    merged, more := MergeFailureStates(states, source);
    overflow := FetchAdd(overflowBefore, SaturatingAdd(more, overflowReported));
  }
}

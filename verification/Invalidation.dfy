/** CloudFront path lists: what is accepted, how two lists are merged, which list each outcome of
    a request sends, and why the preflight covers all of them. */
module Invalidation {
  import opened Basics
  import opened Namespace
  import opened Lifecycle

  const MAX_PATH_CHARACTERS: nat := 4000
  const MAX_PATHS: nat := 3000
  const MAX_WILDCARD_PATHS: nat := 15
  const I32_MAX: nat := 0x7FFF_FFFF

  datatype PathError =
    | NoPaths
    | TooManyFiles
    | TooManyWildcards
    | QuantityTooLarge
    | MissingSlash(path: nat)
    | TooLong(path: nat, characters: nat)
    | ControlCharacter(path: nat)
    | UnsupportedTilde(path: nat)

  // ---------- one path ----------

  predicate IsWildcard(path: string) {
    path != "" && path[|path| - 1] == '*'
  }

  predicate EncodedTildeAt(path: string, i: nat) {
    i + 2 < |path| && path[i] == '%' && path[i + 1] == '7' && (path[i + 2] == 'e' || path[i + 2] == 'E')
  }

  predicate ContainsTilde(path: string) {
    '~' in path || exists i :: 0 <= i < |path| && EncodedTildeAt(path, i)
  }

  predicate GoodPath(path: string) {
    && path != "" && path[0] == '/'
    && |path| <= MAX_PATH_CHARACTERS
    && (forall i :: 0 <= i < |path| ==> !IsControl(path[i]))
    && !ContainsTilde(path)
  }

  // ---------- a list of paths ----------

  function WildcardCount(paths: seq<string>): (n: nat)
    ensures n <= |paths|
  {
    if paths == [] then 0
    else WildcardCount(paths[..|paths| - 1]) + (if IsWildcard(paths[|paths| - 1]) then 1 else 0)
  }

  /** What CloudFront documents as acceptable in one request. */
  predicate Acceptable(paths: seq<string>) {
    && paths != []
    && |paths| - WildcardCount(paths) <= MAX_PATHS
    && WildcardCount(paths) <= MAX_WILDCARD_PATHS
    && forall i :: 0 <= i < |paths| ==> GoodPath(paths[i])
  }

  function PathProblem(path: string, index: nat): Option<PathError> {
    if path == "" || path[0] != '/' then Some(MissingSlash(index))
    else if |path| > MAX_PATH_CHARACTERS then Some(TooLong(index, |path|))
    else if exists i :: 0 <= i < |path| && IsControl(path[i]) then Some(ControlCharacter(index))
    else if ContainsTilde(path) then Some(UnsupportedTilde(index))
    else None
  }

  /** Checks the list in the provider's order; the answer is the quantity or the first problem. */
  method ValidateInvalidationPaths(paths: seq<string>) returns (result: Result<nat, PathError>)
    ensures result == Validated(paths)
    ensures result.Ok? <==> Acceptable(paths)
    ensures result.Ok? ==> result.value == |paths| <= I32_MAX
  {
    if paths == [] {
      return Err(NoPaths);
    }
    var wildcards := 0;
    for i := 0 to |paths|
      invariant wildcards == WildcardCount(paths[..i])
    {
      assert paths[..i + 1][..i] == paths[..i];
      if IsWildcard(paths[i]) {
        wildcards := wildcards + 1;
      }
    }
    assert paths[..|paths|] == paths;
    if |paths| - wildcards > MAX_PATHS {
      return Err(TooManyFiles);
    }
    if wildcards > MAX_WILDCARD_PATHS {
      return Err(TooManyWildcards);
    }
    for i := 0 to |paths|
      invariant forall k :: 0 <= k < i ==> GoodPath(paths[k])
      invariant FirstProblem(paths, 0) == FirstProblem(paths, i)
    {
      var problem := PathProblem(paths[i], i + 1);
      if problem.Some? {
        return Err(problem.value);
      }
    }
    return Ok(|paths|);
  }

  function FirstProblem(paths: seq<string>, i: nat): Option<PathError>
    requires i <= |paths|
    decreases |paths| - i
  {
    if i == |paths| then None
    else
      var problem := PathProblem(paths[i], i + 1);
      if problem.Some? then problem else FirstProblem(paths, i + 1)
  }

  /** The validation as a value, for the specifications below. */
  function Validated(paths: seq<string>): Result<nat, PathError> {
    if paths == [] then Err(NoPaths)
    else if |paths| - WildcardCount(paths) > MAX_PATHS then Err(TooManyFiles)
    else if WildcardCount(paths) > MAX_WILDCARD_PATHS then Err(TooManyWildcards)
    else
      match FirstProblem(paths, 0)
      case Some(problem) => Err(problem)
      case None => Ok(|paths|)
  }

  lemma {:induction false} NoProblemIsGood(paths: seq<string>, i: nat)
    requires i <= |paths|
    ensures FirstProblem(paths, i).None? <==> forall k :: i <= k < |paths| ==> GoodPath(paths[k])
    decreases |paths| - i
  {
    if i < |paths| {
      NoProblemIsGood(paths, i + 1);
    }
  }

  lemma ValidationIsExact(paths: seq<string>)
    ensures Validated(paths).Ok? <==> Acceptable(paths)
  {
    NoProblemIsGood(paths, 0);
  }

  lemma {:induction false} WildcardsAreCounted(paths: seq<string>)
    ensures WildcardCount(paths) == |set i | 0 <= i < |paths| && paths[i] != "" && paths[i][|paths[i]| - 1] == '*'|
  {
    var wild := set i | 0 <= i < |paths| && paths[i] != "" && paths[i][|paths[i]| - 1] == '*';
    if paths != [] {
      var front, last := paths[..|paths| - 1], |paths| - 1;
      WildcardsAreCounted(front);
      var before := set i | 0 <= i < |front| && front[i] != "" && front[i][|front[i]| - 1] == '*';
      assert wild == before + (if IsWildcard(paths[last]) then {last} else {});
    }
  }

  /** What is documented for one path: a leading slash, at most 4000 characters, no control
      character, and no tilde, plain or percent-encoded. */
  predicate DocumentedPath(path: string) {
    && "/" <= path && |path| <= 4000
    && forall k :: 0 <= k < |path| ==>
         && 0x20 <= path[k] as int && !(0x7F <= path[k] as int <= 0x9F) && path[k] != '~'
         && !(path[k] == '%' && k + 2 < |path| && path[k + 1] == '7' && (path[k + 2] == 'e' || path[k + 2] == 'E'))
  }

  /** Accepted are exactly the lists of at most 3000 documented paths without and 15 with a trailing
      wildcard, but not the empty list. */
  lemma LimitsAreDocumented(paths: seq<string>)
    ensures var wild := set i | 0 <= i < |paths| && paths[i] != "" && paths[i][|paths[i]| - 1] == '*';
      Validated(paths).Ok? <==>
        && 1 <= |paths| && |paths| - |wild| <= 3000 && |wild| <= 15
        && forall i :: 0 <= i < |paths| ==> DocumentedPath(paths[i])
  {
    ValidationIsExact(paths);
    WildcardsAreCounted(paths);
    forall i | 0 <= i < |paths|
      ensures GoodPath(paths[i]) <==> DocumentedPath(paths[i])
    {
      GoodPathIsDocumented(paths[i]);
    }
  }

  lemma GoodPathIsDocumented(path: string)
    ensures GoodPath(path) <==> DocumentedPath(path)
  {
    assert path != "" && path[0] == '/' <==> "/" <= path;
    if GoodPath(path) {
      forall k | 0 <= k < |path|
        ensures path[k] != '~' && !IsControl(path[k]) && !EncodedTildeAt(path, k)
      {
        assert path[k] in path;
      }
    }
    if DocumentedPath(path) {
      assert '~' !in path;
      assert forall k :: 0 <= k < |path| && EncodedTildeAt(path, k) ==> path[k] != '%';
    }
  }

  /** A problem with one path is real, and the paths before it have none. */
  lemma {:induction false} ReportedProblemIsReal(paths: seq<string>, from: nat)
    requires from <= |paths| && FirstProblem(paths, from).Some?
    ensures var problem := FirstProblem(paths, from).value;
      && (problem.MissingSlash? || problem.TooLong? || problem.ControlCharacter? || problem.UnsupportedTilde?)
      && from < problem.path <= |paths|
      && (forall k :: from <= k < problem.path - 1 ==> GoodPath(paths[k]))
      && var path := paths[problem.path - 1];
         match problem
         case MissingSlash(_) => !("/" <= path)
         case TooLong(_, characters) => "/" <= path && characters == |path| > 4000
         case ControlCharacter(_) => "/" <= path && |path| <= 4000 && exists i :: 0 <= i < |path| && IsControl(path[i])
         case UnsupportedTilde(_) =>
           "/" <= path && |path| <= 4000 && (forall i :: 0 <= i < |path| ==> !IsControl(path[i])) && ContainsTilde(path)
         case _ => false
    decreases |paths| - from
  {
    if PathProblem(paths[from], from + 1).None? {
      ReportedProblemIsReal(paths, from + 1);
    }
  }

  // ---------- merging two lists ----------

  /** The paths without later repetitions, in the order of their first occurrence. */
  function FirstOccurrences(paths: seq<string>): seq<string> {
    if paths == [] then []
    else
      var front, last := paths[..|paths| - 1], paths[|paths| - 1];
      if last in front then FirstOccurrences(front) else FirstOccurrences(front) + [last]
  }

  method MergeDistributionPaths(current: seq<string>, previous: seq<string>) returns (merged: seq<string>)
    ensures merged == FirstOccurrences(current + previous)
  {
    var chain := current + previous;
    var seen: set<string> := {};
    merged := [];
    for i := 0 to |chain|
      invariant seen == set p | p in chain[..i]
      invariant merged == FirstOccurrences(chain[..i])
    {
      assert chain[..i + 1][..i] == chain[..i] && chain[..i + 1][i] == chain[i];
      if chain[i] !in seen {
        merged := merged + [chain[i]];
      }
      seen := seen + {chain[i]};
    }
    assert chain[..|chain|] == chain;
  }

  /** The merged list invalidates exactly what the two lists invalidate, each path once. */
  lemma {:induction false} MergeCovers(paths: seq<string>)
    ensures forall p :: p in FirstOccurrences(paths) <==> p in paths
    ensures forall i, j :: 0 <= i < j < |FirstOccurrences(paths)| ==> FirstOccurrences(paths)[i] != FirstOccurrences(paths)[j]
    ensures |FirstOccurrences(paths)| <= |paths|
  {
    if paths != [] {
      var front, last := paths[..|paths| - 1], paths[|paths| - 1];
      MergeCovers(front);
      assert paths == front + [last];
    }
  }

  /** The merged list has the first occurrences, in the order of the lists. */
  lemma {:induction false} MergeKeepsOrder(paths: seq<string>) returns (positions: seq<nat>)
    ensures |positions| == |FirstOccurrences(paths)|
    ensures forall i, j :: 0 <= i < j < |positions| ==> positions[i] < positions[j]
    ensures forall i :: 0 <= i < |positions| ==>
              positions[i] < |paths| && paths[positions[i]] == FirstOccurrences(paths)[i]
              && paths[positions[i]] !in paths[..positions[i]]
  {
    if paths == [] {
      positions := [];
    } else {
      var front := paths[..|paths| - 1];
      positions := MergeKeepsOrder(front);
      forall i | 0 <= i < |positions|
        ensures paths[positions[i]] == front[positions[i]] && paths[..positions[i]] == front[..positions[i]]
      {
      }
      if paths[|paths| - 1] !in front {
        positions := positions + [|paths| - 1];
      }
    }
  }

  /** Merging never makes a list longer in either dimension that CloudFront limits. */
  lemma {:induction false} MergeCounts(paths: seq<string>)
    ensures WildcardCount(FirstOccurrences(paths)) <= WildcardCount(paths)
    ensures |FirstOccurrences(paths)| - WildcardCount(FirstOccurrences(paths)) <= |paths| - WildcardCount(paths)
  {
    if paths != [] {
      var front, last := paths[..|paths| - 1], paths[|paths| - 1];
      MergeCounts(front);
      var merged := FirstOccurrences(front);
      assert (merged + [last])[..|merged|] == merged;
    }
  }

  // ---------- preflight ----------

  function NonEmpty(id: Option<string>): Option<string> {
    if id == Some("") then None else id
  }

  datatype PreflightError = CurrentInvalid(PathError) | PreviousInvalid(PathError) | MergedInvalid(PathError)

  function Merged(request: Request, previous: Previous): seq<string> {
    FirstOccurrences(request.distributionPaths + previous.distributionPaths)
  }

  predicate CurrentMayInvalidate(kind: RequestType, request: Request) {
    kind == Create || kind == Update || (kind == Delete && request.deleteCurrentOnDelete)
  }

  predicate PreviousMayChange(request: Request, previous: Previous) {
    DestinationsOverlap(request, previous) || PlanDestinationChangeCleanup(request, previous).DeletePrevious?
  }

  function Preflight(kind: RequestType, request: Request, previous: Option<Previous>): Option<PreflightError> {
    var current := Validated(request.distributionPaths);
    if CurrentMayInvalidate(kind, request) && NonEmpty(request.distributionId).Some? && current.Err? then
      Some(CurrentInvalid(current.error))
    else if kind != Update || previous.None? || NonEmpty(previous.value.distributionId).None?
         || !PreviousMayChange(request, previous.value) then
      None
    else
      var same := request.distributionId == previous.value.distributionId;
      var before, merged := Validated(previous.value.distributionPaths), Validated(Merged(request, previous.value));
      if (same || PreviousDistributionAuthorized(request, previous.value)) && before.Err? then
        Some(PreviousInvalid(before.error))
      else if same && merged.Err? then
        Some(MergedInvalid(merged.error))
      else
        None
  }

  // ---------- which lists are sent ----------

  /** One invalidation request. */
  datatype Batch = Batch(distributionId: string, paths: seq<string>, missingIsSuccess: bool)

  /** What happened to the destinations before the invalidations: whether the guarded cleanup of
      the previous namespace and of the current one deleted anything. */
  datatype Outcome = Outcome(previousCleaned: bool, currentDeleted: bool)

  /** The outcomes a request can have. */
  predicate Possible(kind: RequestType, request: Request, previous: Option<Previous>, outcome: Outcome) {
    && (kind != Update ==> previous.None?)
    && (outcome.previousCleaned ==>
          kind == Update && previous.Some?
          && PlanDestinationChangeCleanup(request, previous.value).DeletePrevious?
          && PlanDestinationChangeCleanup(request, previous.value).strategy.DeleteNamespace?)
    && (outcome.currentDeleted ==> kind == Delete && request.deleteCurrentOnDelete)
  }

  predicate PreviousContentChanged(request: Request, previous: Option<Previous>, outcome: Outcome) {
    previous.Some? && (outcome.previousCleaned || DestinationsOverlap(request, previous.value))
  }

  function PreviousBatch(request: Request, previous: Option<Previous>, outcome: Outcome): Option<Batch> {
    if PreviousContentChanged(request, previous, outcome)
       && previous.value.distributionId != request.distributionId
       && NonEmpty(previous.value.distributionId).Some?
       && PreviousDistributionAuthorized(request, previous.value)
    then Some(Batch(previous.value.distributionId.value, previous.value.distributionPaths, true))
    else None
  }

  function CurrentBatch(kind: RequestType, request: Request, previous: Option<Previous>, outcome: Outcome): Option<Batch> {
    if (kind != Delete || outcome.currentDeleted) && NonEmpty(request.distributionId).Some? then
      var paths :=
        if PreviousContentChanged(request, previous, outcome) && previous.value.distributionId == request.distributionId
        then Merged(request, previous.value)
        else request.distributionPaths;
      Some(Batch(request.distributionId.value, paths, kind == Delete))
    else
      None
  }

  /** A request that passes the preflight never has an invalidation rejected for its paths,
      whatever the cleanups turn out to delete. */
  lemma PreflightCoversEveryOutcome(kind: RequestType, request: Request, previous: Option<Previous>, outcome: Outcome)
    requires Preflight(kind, request, previous).None? && Possible(kind, request, previous, outcome)
    ensures var batch := PreviousBatch(request, previous, outcome); batch.Some? ==> Acceptable(batch.value.paths)
    ensures var batch := CurrentBatch(kind, request, previous, outcome); batch.Some? ==> Acceptable(batch.value.paths)
  {
    ValidationIsExact(request.distributionPaths);
    if previous.Some? {
      ValidationIsExact(previous.value.distributionPaths);
      ValidationIsExact(Merged(request, previous.value));
    }
  }

  /** Every outcome that the request can have sends only acceptable lists. */
  ghost predicate SendsOnlyAcceptable(kind: RequestType, request: Request, previous: Option<Previous>) {
    && (kind != Update ==> previous.None?)
    && forall outcome :: Possible(kind, request, previous, outcome) ==> AcceptableBatches(kind, request, previous, outcome)
  }

  predicate AcceptableBatches(kind: RequestType, request: Request, previous: Option<Previous>, outcome: Outcome) {
    var first, second := PreviousBatch(request, previous, outcome), CurrentBatch(kind, request, previous, outcome);
    && (first.Some? ==> Acceptable(first.value.paths))
    && (second.Some? ==> Acceptable(second.value.paths))
  }

  /** An update of a distribution that stays the same, where the merged list is acceptable, and so
      is the current one unless it is never sent alone, but one of the two lists that were merged
      is not. */
  predicate MergingRepairs(kind: RequestType, request: Request, previous: Option<Previous>) {
    && kind == Update && previous.Some?
    && NonEmpty(request.distributionId).Some? && request.distributionId == previous.value.distributionId
    && PreviousMayChange(request, previous.value)
    && Acceptable(Merged(request, previous.value))
    && (DestinationsOverlap(request, previous.value) || Acceptable(request.distributionPaths))
    && (!Acceptable(request.distributionPaths) || !Acceptable(previous.value.distributionPaths))
  }

  /** A previous namespace that is deleted as a part of the current one overlaps it. */
  lemma InnerDeletionOverlaps(request: Request, previous: Previous)
    ensures PlanDestinationChangeCleanup(request, previous) == DeletePrevious(DeleteStaleWithinCurrent) ==>
              DestinationsOverlap(request, previous)
  {
  }

  /** The preflight rejects a request that could never send an unacceptable list exactly when
      merging repairs one of the lists. */
  lemma PreflightIsOverstrictExactlyWhen(kind: RequestType, request: Request, previous: Option<Previous>)
    ensures Preflight(kind, request, previous).Some? && SendsOnlyAcceptable(kind, request, previous) <==>
              MergingRepairs(kind, request, previous)
  {
    RejectionIsExact(kind, request, previous);
    if kind == Update && previous.Some? {
      UpdateSendsOnlyAcceptable(request, previous.value);
    } else if SendsOnlyAcceptable(kind, request, previous) {
      SingleListIsSent(kind, request);
    }
  }

  /** The preflight in terms of what is acceptable, without the order of its checks. */
  lemma RejectionIsExact(kind: RequestType, request: Request, previous: Option<Previous>)
    ensures Preflight(kind, request, previous).Some? <==>
              || CurrentIsRejected(kind, request)
              || (kind == Update && previous.Some? && PreviousIsRejected(request, previous.value))
  {
    ValidationIsExact(request.distributionPaths);
    if previous.Some? {
      ValidationIsExact(previous.value.distributionPaths);
      ValidationIsExact(Merged(request, previous.value));
    }
  }

  predicate CurrentIsRejected(kind: RequestType, request: Request) {
    && CurrentMayInvalidate(kind, request)
    && NonEmpty(request.distributionId).Some?
    && !Acceptable(request.distributionPaths)
  }

  predicate PreviousIsRejected(request: Request, previous: Previous) {
    var same := request.distributionId == previous.distributionId;
    && NonEmpty(previous.distributionId).Some?
    && PreviousMayChange(request, previous)
    && (|| ((same || PreviousDistributionAuthorized(request, previous)) && !Acceptable(previous.distributionPaths))
        || (same && !Acceptable(Merged(request, previous))))
  }

  /** What an update needs to send only acceptable lists: the merged list, or each list alone. */
  lemma UpdateSendsOnlyAcceptable(request: Request, previous: Previous)
    ensures SendsOnlyAcceptable(Update, request, Some(previous)) <==>
              if request.distributionId == previous.distributionId then
                NonEmpty(request.distributionId).Some? ==>
                  && (PreviousMayChange(request, previous) ==> Acceptable(Merged(request, previous)))
                  && (DestinationsOverlap(request, previous) || Acceptable(request.distributionPaths))
              else
                && (NonEmpty(request.distributionId).Some? ==> Acceptable(request.distributionPaths))
                && (NonEmpty(previous.distributionId).Some? ==>
                      PreviousMayChange(request, previous) ==>
                        PreviousDistributionAuthorized(request, previous) ==>
                          Acceptable(previous.distributionPaths))
  {
    InnerDeletionOverlaps(request, previous);
    OutcomesDecide(Update, request, Some(previous));
  }

  /** Without a previous namespace the current list is sent as soon as anything was changed. */
  lemma SingleListIsSent(kind: RequestType, request: Request)
    requires SendsOnlyAcceptable(kind, request, None)
    ensures !CurrentIsRejected(kind, request)
  {
    OutcomesDecide(kind, request, None);
  }

  /** The outcomes differ only in whether anything was cleaned: the extreme ones decide. */
  lemma OutcomesDecide(kind: RequestType, request: Request, previous: Option<Previous>)
    ensures SendsOnlyAcceptable(kind, request, previous) <==>
              && (kind != Update ==> previous.None?)
              && AcceptableBatches(kind, request, previous, Outcome(false, false))
              && (Possible(kind, request, previous, Outcome(true, false)) ==>
                    AcceptableBatches(kind, request, previous, Outcome(true, false)))
              && (Possible(kind, request, previous, Outcome(false, true)) ==>
                    AcceptableBatches(kind, request, previous, Outcome(false, true)))
  {
    assert Possible(kind, request, previous, Outcome(false, false)) <==> (kind != Update ==> previous.None?);
    forall outcome | Possible(kind, request, previous, outcome)
      ensures outcome in {Outcome(false, false), Outcome(true, false), Outcome(false, true)}
    {
    }
  }

  // ---------- two requests that are rejected in vain ----------

  /** The same wildcard path `n` times. */
  function Stars(n: nat): seq<string> {
    if n == 0 then [] else Stars(n - 1) + ["/*"]
  }

  lemma {:induction false} StarsFacts(n: nat)
    ensures |Stars(n)| == n && WildcardCount(Stars(n)) == n
    ensures forall i :: 0 <= i < n ==> Stars(n)[i] == "/*"
    ensures n > 0 ==> FirstOccurrences(Stars(n)) == ["/*"]
  {
    if n > 0 {
      StarsFacts(n - 1);
      assert Stars(n)[..n - 1] == Stars(n - 1);
      if n > 1 {
        assert Stars(n - 1)[0] == "/*";
      }
    }
  }

  /** An update in place of one distribution. */
  function UpdateInPlace(paths: seq<string>): Request {
    Request("site", "", "amy", Some("D"), paths, false, false, false, None, None)
  }

  function PreviousInPlace(paths: seq<string>): Previous {
    Previous("site", "", Some("D"), paths, "amy")
  }

  lemma StarsAreAcceptable(n: nat)
    ensures Acceptable(Stars(n)) <==> 1 <= n <= MAX_WILDCARD_PATHS
    ensures n > MAX_WILDCARD_PATHS ==> Validated(Stars(n)) == Err(TooManyWildcards)
  {
    StarsFacts(n);
    StarIsGood();
  }

  lemma StarIsGood()
    ensures GoodPath("/*")
  {
  }

  lemma {:induction false} StarsConcat(a: nat, b: nat)
    ensures Stars(a) + Stars(b) == Stars(a + b)
  {
    if b == 0 {
      assert Stars(a) + [] == Stars(a);
    } else {
      StarsConcat(a, b - 1);
      assert Stars(a) + (Stars(b - 1) + ["/*"]) == Stars(a) + Stars(b - 1) + ["/*"];
    }
  }

  lemma StarsMerge(a: nat, b: nat)
    requires a + b > 0
    ensures Acceptable(FirstOccurrences(Stars(a) + Stars(b)))
  {
    StarsConcat(a, b);
    StarsFacts(a + b);
    OneStar();
    StarsAreAcceptable(1);
  }

  lemma OneStar()
    ensures Stars(1) == ["/*"]
  {
    assert Stars(0) == [];
  }

  lemma InPlaceIsRepaired(current: seq<string>, previous: seq<string>)
    requires Acceptable(FirstOccurrences(current + previous)) && (!Acceptable(current) || !Acceptable(previous))
    ensures SendsOnlyAcceptable(Update, UpdateInPlace(current), Some(PreviousInPlace(previous)))
    ensures Validated(current).Err? ==>
              Preflight(Update, UpdateInPlace(current), Some(PreviousInPlace(previous)))
              == Some(CurrentInvalid(Validated(current).error))
    ensures Validated(current).Ok? && Validated(previous).Err? ==>
              Preflight(Update, UpdateInPlace(current), Some(PreviousInPlace(previous)))
              == Some(PreviousInvalid(Validated(previous).error))
  {
    PreflightIsOverstrictExactlyWhen(Update, UpdateInPlace(current), Some(PreviousInPlace(previous)));
  }

  /** Sixteen times the same wildcard as the current list is rejected, although only the merged
      list with one wildcard would ever be sent. */
  lemma CurrentListRejectedInVain()
    ensures var request, previous := UpdateInPlace(Stars(16)), Some(PreviousInPlace(Stars(1)));
      && Preflight(Update, request, previous) == Some(CurrentInvalid(TooManyWildcards))
      && SendsOnlyAcceptable(Update, request, previous)
  {
    StarsMerge(16, 1);
    StarsAreAcceptable(16);
    InPlaceIsRepaired(Stars(16), Stars(1));
  }

  /** The same with the sixteen in the previous list. */
  lemma PreviousListRejectedInVain()
    ensures var request, previous := UpdateInPlace(Stars(1)), Some(PreviousInPlace(Stars(16)));
      && Preflight(Update, request, previous) == Some(PreviousInvalid(TooManyWildcards))
      && SendsOnlyAcceptable(Update, request, previous)
  {
    StarsMerge(1, 16);
    StarsAreAcceptable(1);
    StarsAreAcceptable(16);
    ValidationIsExact(Stars(1));
    InPlaceIsRepaired(Stars(1), Stars(16));
  }
}

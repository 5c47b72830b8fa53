/** One custom resource request, from decoding to the callback.

    Every step may fail or be cut off by a deadline, with part of its effects done. The script of
    a request says which steps an outcome calls for; a run attempts a prefix of it. What a run may
    delete is justified key by key. */
module Provider {
  import opened Basics
  import opened Namespace
  import opened Lifecycle
  import opened Listing
  import opened Destination
  import opened Invalidation

  // ---------- the script of a request ----------

  datatype Step =
    | CleanCurrent
    | Deploy
    | CleanPrevious
    | CreateInvalidation(batch: Batch)
    | AwaitInvalidations

  function WhenSome(batch: Option<Batch>): seq<Step> {
    if batch.Some? then [CreateInvalidation(batch.value)] else []
  }

  predicate CleansCurrent(kind: RequestType, request: Request) {
    kind == Delete && request.deleteCurrentOnDelete
  }

  /** An update whose plan is to delete the previous namespace as a whole. */
  predicate CleansPrevious(kind: RequestType, request: Request, previous: Option<Previous>) {
    && kind == Update && previous.Some?
    && PlanDestinationChangeCleanup(request, previous.value).DeletePrevious?
    && PlanDestinationChangeCleanup(request, previous.value).strategy.DeleteNamespace?
  }

  function Cleanups(kind: RequestType, request: Request, previous: Option<Previous>): seq<Step> {
    (if CleansCurrent(kind, request) then [CleanCurrent] else [])
    + (if kind != Delete then [Deploy] else [])
    + (if CleansPrevious(kind, request, previous) then [CleanPrevious] else [])
  }

  function Creations(kind: RequestType, request: Request, previous: Option<Previous>, outcome: Outcome): seq<Step> {
    WhenSome(PreviousBatch(request, previous, outcome)) + WhenSome(CurrentBatch(kind, request, previous, outcome))
  }

  function Waits(request: Request): seq<Step> {
    if request.waitForInvalidation then [AwaitInvalidations] else []
  }

  function Script(kind: RequestType, request: Request, previous: Option<Previous>, outcome: Outcome): seq<Step> {
    Cleanups(kind, request, previous) + Creations(kind, request, previous, outcome) + Waits(request)
  }

  // ---------- what the script guarantees ----------

  function Rank(step: Step): nat {
    match step
    case CleanCurrent => 0
    case Deploy => 1
    case CleanPrevious => 2
    case CreateInvalidation(_) => 3
    case AwaitInvalidations => 4
  }

  /** Which steps a request calls for. */
  lemma ScriptIsExact(kind: RequestType, request: Request, previous: Option<Previous>, outcome: Outcome)
    ensures var s := Script(kind, request, previous, outcome);
      && (CleanCurrent in s <==> kind == Delete && request.deleteCurrentOnDelete)
      && (Deploy in s <==> kind == Create || kind == Update)
      && (AwaitInvalidations in s <==> request.waitForInvalidation)
      && (CleanPrevious in s <==>
            && kind == Update && previous.Some?
            && request.deletePreviousOnChange == Some(previous.value.bucket)
            && request.ownerId == previous.value.ownerId
            && !(request.bucket == previous.value.bucket && PreviousKeys(previous.value) <= CurrentKeys(request)))
      && forall batch :: CreateInvalidation(batch) in s <==>
           OwedToPrevious(request, previous, outcome, batch) || OwedToCurrent(kind, request, previous, outcome, batch)
  {
    forall batch
      ensures CreateInvalidation(batch) in Script(kind, request, previous, outcome) <==>
                OwedToPrevious(request, previous, outcome, batch) || OwedToCurrent(kind, request, previous, outcome, batch)
    {
      StepIsFrom(kind, request, previous, outcome, CreateInvalidation(batch));
    }
    StepIsFrom(kind, request, previous, outcome, CleanCurrent);
    StepIsFrom(kind, request, previous, outcome, Deploy);
    StepIsFrom(kind, request, previous, outcome, CleanPrevious);
    StepIsFrom(kind, request, previous, outcome, AwaitInvalidations);
    CleanPreviousIsExact(kind, request, previous);
  }

  lemma StepIsFrom(kind: RequestType, request: Request, previous: Option<Previous>, outcome: Outcome, step: Step)
    ensures step in Script(kind, request, previous, outcome) <==>
              match step
              case CleanCurrent => CleansCurrent(kind, request)
              case Deploy => kind != Delete
              case CleanPrevious => CleansPrevious(kind, request, previous)
              case CreateInvalidation(batch) =>
                PreviousBatch(request, previous, outcome) == Some(batch) || CurrentBatch(kind, request, previous, outcome) == Some(batch)
              case AwaitInvalidations => request.waitForInvalidation
  {
    var c, n, w := Cleanups(kind, request, previous), Creations(kind, request, previous, outcome), Waits(request);
    assert step in c + n + w <==> step in c || step in n || step in w;
  }

  lemma CleanPreviousIsExact(kind: RequestType, request: Request, previous: Option<Previous>)
    ensures CleansPrevious(kind, request, previous) <==>
              && kind == Update && previous.Some?
              && request.deletePreviousOnChange == Some(previous.value.bucket)
              && request.ownerId == previous.value.ownerId
              && !(request.bucket == previous.value.bucket && PreviousKeys(previous.value) <= CurrentKeys(request))
  {
    if kind == Update && previous.Some? {
      DeletionIsAuthorized(request, previous.value);
      if PlanDestinationChangeCleanup(request, previous.value).DeletePrevious? {
        StrategyIsExact(request, previous.value);
      }
    }
  }

  /** The previous distribution gets the previous paths once previous content changed, if it is
      another one than the current distribution and the request names it. */
  predicate OwedToPrevious(request: Request, previous: Option<Previous>, outcome: Outcome, batch: Batch) {
    && previous.Some? && (outcome.previousCleaned || DestinationsOverlap(request, previous.value))
    && batch.distributionId != "" && previous.value.distributionId == Some(batch.distributionId)
    && request.distributionId != previous.value.distributionId
    && request.invalidatePreviousOnChange == Some(batch.distributionId)
    && batch.paths == previous.value.distributionPaths
    && batch.missingIsSuccess
  }

  /** The current distribution gets the current paths, and the previous ones with them if previous
      content changed behind the same distribution; on a delete only if something was deleted. */
  predicate OwedToCurrent(kind: RequestType, request: Request, previous: Option<Previous>, outcome: Outcome, batch: Batch) {
    && batch.distributionId != "" && request.distributionId == Some(batch.distributionId)
    && (kind == Delete ==> outcome.currentDeleted)
    && batch.missingIsSuccess == (kind == Delete)
    && batch.paths ==
         if previous.Some? && (outcome.previousCleaned || DestinationsOverlap(request, previous.value))
            && request.distributionId == previous.value.distributionId
         then FirstOccurrences(request.distributionPaths + previous.value.distributionPaths)
         else request.distributionPaths
  }

  /** Every run deploys before it deletes the previous namespace, finishes all deletions before it
      creates an invalidation, creates both invalidations before it waits, and attempts nothing
      twice; two invalidations go to different distributions. */
  lemma ScriptIsOrdered(kind: RequestType, request: Request, previous: Option<Previous>, outcome: Outcome, i: nat, j: nat)
    requires i < j < |Script(kind, request, previous, outcome)|
    ensures var s := Script(kind, request, previous, outcome);
      || Rank(s[i]) < Rank(s[j])
      || (s[i].CreateInvalidation? && s[j].CreateInvalidation? && s[i].batch.distributionId != s[j].batch.distributionId)
  {
    var c, n := Cleanups(kind, request, previous), Creations(kind, request, previous, outcome);
    CreationRank(kind, request, previous, outcome);
    Concatenated(c, n, Waits(request), i);
    Concatenated(c, n, Waits(request), j);
    if j < |c| {
      CleanupRank(kind, request, previous, i, j);
    } else if i < |c| {
      CleanupRank(kind, request, previous, i, i + 1);
    }
  }

  lemma Concatenated(c: seq<Step>, n: seq<Step>, w: seq<Step>, i: nat)
    requires i < |c + n + w|
    ensures (c + n + w)[i] == if i < |c| then c[i] else if i < |c| + |n| then n[i - |c|] else w[i - |c| - |n|]
  {
  }

  lemma CleanupRank(kind: RequestType, request: Request, previous: Option<Previous>, i: nat, j: nat)
    requires i < j && i < |Cleanups(kind, request, previous)|
    ensures var c := Cleanups(kind, request, previous);
      Rank(c[i]) <= 2 && (j < |c| ==> Rank(c[i]) < Rank(c[j]))
  {
  }

  lemma CreationRank(kind: RequestType, request: Request, previous: Option<Previous>, outcome: Outcome)
    ensures var n := Creations(kind, request, previous, outcome);
      && |n| <= 2
      && (forall i :: 0 <= i < |n| ==> n[i].CreateInvalidation?)
      && (|n| == 2 ==> n[0].batch.distributionId != n[1].batch.distributionId)
  {
  }

  /** The previous namespace is deleted only by an authorized update with the same owner, whose
      deployment comes earlier in the run. */
  lemma PreviousCleanupIsEarned(kind: RequestType, request: Request, previous: Option<Previous>, outcome: Outcome, i: nat)
    requires i < |Script(kind, request, previous, outcome)|
    requires Script(kind, request, previous, outcome)[i] == CleanPrevious
    ensures kind == Update && previous.Some?
    ensures request.deletePreviousOnChange == Some(previous.value.bucket)
    ensures request.ownerId == previous.value.ownerId
    ensures 0 < i && Script(kind, request, previous, outcome)[i - 1] == Deploy
  {
    var c, n := Cleanups(kind, request, previous), Creations(kind, request, previous, outcome);
    assert i < |c|;
    DeletionIsAuthorized(request, previous.value);
  }

  // ---------- what a run may delete ----------

  /** The listing scope of the deployment: a previous namespace inside the current one is
      protected, and it is a cleanup leg of its own when its deletion was planned. */
  function ScopeOf(request: Request, previous: Option<Previous>, manifest: set<string>, included: string -> bool): Scope {
    var inner := if previous.Some? && PreviousIsWithinCurrent(request, previous.value) then Some(previous.value.prefix) else None;
    var cleans := inner.Some? && PlanDestinationChangeCleanup(request, previous.value) == DeletePrevious(DeleteStaleWithinCurrent);
    Scope(request.prefix, inner, if cleans then inner else None, manifest, included, request.ownerId)
  }

  function Excluded(request: Request, previous: Previous): Option<string> {
    match PlanDestinationChangeCleanup(request, previous)
    case DeletePrevious(DeleteNamespace(excluded)) => excluded
    case _ => None
  }

  /** The reasons for which a request may delete a key of a bucket that carries `tags`. */
  ghost predicate Justified(kind: RequestType, request: Request, previous: Option<Previous>, scope: Scope,
                            bucket: string, tags: seq<string>, key: string)
  {
    || (CleansCurrent(kind, request) && bucket == request.bucket
        && !HasCompetingOwner(tags, request.prefix, None, request.ownerId)
        && CleanupDeletes(key, request.prefix, None))
    || (kind != Delete && bucket == request.bucket && Listed(scope, key)
        && Stale(scope, key, CurrentLeg(scope, tags, request.deleteStaleOnDeployment), PreviousLeg(scope, tags)))
    || (CleansPrevious(kind, request, previous) && bucket == previous.value.bucket
        && !HasCompetingOwner(tags, previous.value.prefix, Excluded(request, previous.value), request.ownerId)
        && CleanupDeletes(key, previous.value.prefix, Excluded(request, previous.value)))
  }

  /** No justified deletion hits a key of another owner. */
  lemma JustifiedIsOurs(kind: RequestType, request: Request, previous: Option<Previous>,
                        manifest: set<string>, included: string -> bool,
                        bucket: string, tags: seq<string>, key: string, i: nat)
    requires Justified(kind, request, previous, ScopeOf(request, previous, manifest, included), bucket, tags, key)
    requires i < |tags|
    ensures !OwnedByOther(key, tags[i], request.ownerId)
  {
    var scope := ScopeOf(request, previous, manifest, included);
    if CleansCurrent(kind, request) && bucket == request.bucket
       && !HasCompetingOwner(tags, request.prefix, None, request.ownerId) && CleanupDeletes(key, request.prefix, None) {
      PassedGuardIsSafe(tags, request.prefix, None, request.ownerId);
    } else if kind != Delete && bucket == request.bucket && Listed(scope, key)
       && Stale(scope, key, CurrentLeg(scope, tags, request.deleteStaleOnDeployment), PreviousLeg(scope, tags)) {
      if scope.protectedPrefix.Some? {
        WithinCurrentIsProper(request, previous.value);
      }
      StaleKeysAreOurs(scope, tags, request.deleteStaleOnDeployment, key, i);
    } else {
      PlannedCleanupIsSafe(request, previous.value, tags);
    }
  }

  lemma PlannedKeyIsCurrent(request: Request, relative: string)
    ensures JoinKey(request.prefix, relative) in CurrentKeys(request)
  {
    StripUndoesJoin(request.prefix, relative);
    ListedWithinCanonical(request.prefix);
    assert JoinKey(request.prefix, relative) in Keys(NamespaceOf(request.prefix));
  }

  /** No justified deletion of a create or update hits a key that the deployment planned. */
  lemma JustifiedSparesPlanned(kind: RequestType, request: Request, previous: Option<Previous>,
                               manifest: set<string>, included: string -> bool, tags: seq<string>, key: string)
    requires kind != Delete
    requires Justified(kind, request, previous, ScopeOf(request, previous, manifest, included), request.bucket, tags, key)
    ensures key !in PlannedKeys(ScopeOf(request, previous, manifest, included))
  {
    var scope := ScopeOf(request, previous, manifest, included);
    if relative :| relative in manifest && key == JoinKey(scope.prefix, relative) {
      PlannedKeysAreKept(scope, relative, CurrentLeg(scope, tags, request.deleteStaleOnDeployment), PreviousLeg(scope, tags));
      PlannedKeyIsCurrent(request, relative);
      PreviousCleanupSparesCurrent(request, previous.value, key);
      assert false;
    }
  }

  /** Without a planned deletion nothing of the previous namespace is deleted, except where that
      namespace is, or contains, the current one. */
  lemma UnauthorizedPreviousIsKept(kind: RequestType, request: Request, previous: Previous,
                                   manifest: set<string>, included: string -> bool,
                                   bucket: string, tags: seq<string>, key: string)
    requires kind == Update && !PlanDestinationChangeCleanup(request, previous).DeletePrevious?
    requires Justified(kind, request, Some(previous), ScopeOf(request, Some(previous), manifest, included), bucket, tags, key)
    requires bucket == previous.bucket && key in PreviousKeys(previous)
    ensures PreviousKeys(previous) >= CurrentKeys(request) && key in CurrentKeys(request)
  {
    RelationIsExact(previous.prefix, request.prefix);
    ListedWithinCanonical(request.prefix);
    assert key in Keys(NamespaceOf(request.prefix));
    if PreviousIsWithinCurrent(request, previous) {
      WithinCurrentIsProper(request, previous);
      InnerNamespaceIsListed(request.prefix, previous.prefix);
    }
  }

  // ---------- what a run owes to the distributions ----------

  /** A key that the planned deletion of the previous namespace covers was lost. */
  ghost predicate LosesPlanned(request: Request, previous: Previous, before: set<string>, now: set<string>) {
    exists k :: k in before && k !in now && CleanupDeletes(k, previous.prefix, Excluded(request, previous))
  }

  ghost predicate LosesKey(keys: iset<string>, before: set<string>, now: set<string>) {
    exists k :: k in before && k !in now && k in keys
  }

  /** One of the steps invalidates all the paths in the distribution. */
  predicate Invalidates(steps: seq<Step>, distributionId: Option<string>, paths: seq<string>) {
    exists i :: 0 <= i < |steps| && steps[i].CreateInvalidation?
      && Some(steps[i].batch.distributionId) == distributionId
      && forall p :: p in paths ==> p in steps[i].batch.paths
  }

  lemma CreationIsInScript(kind: RequestType, request: Request, previous: Option<Previous>, outcome: Outcome, i: nat)
    requires i < |Creations(kind, request, previous, outcome)|
    ensures var at := |Cleanups(kind, request, previous)| + i;
      at < |Script(kind, request, previous, outcome)|
      && Script(kind, request, previous, outcome)[at] == Creations(kind, request, previous, outcome)[i]
  {
  }

  /** Once content of the previous destination changed, its paths are invalidated in its own
      distribution, if that one is the current one or the request names it. */
  lemma ChangedPreviousIsInvalidated(request: Request, previous: Previous, outcome: Outcome)
    requires PreviousContentChanged(request, Some(previous), outcome)
    requires NonEmpty(previous.distributionId).Some?
    requires request.distributionId == previous.distributionId || PreviousDistributionAuthorized(request, previous)
    ensures Invalidates(Script(Update, request, Some(previous), outcome), previous.distributionId, previous.distributionPaths)
  {
    MergeCovers(request.distributionPaths + previous.distributionPaths);
    CreationIsInScript(Update, request, Some(previous), outcome, 0);
  }

  /** An update that lost a key of the previous namespace changed content that is invalidated. */
  lemma LossChangesContent(request: Request, previous: Previous, manifest: set<string>, included: string -> bool,
                           tags: seq<string>, key: string, outcome: Outcome)
    requires Justified(Update, request, Some(previous), ScopeOf(request, Some(previous), manifest, included),
                       previous.bucket, tags, key)
    requires key in PreviousKeys(previous)
    requires CleansPrevious(Update, request, Some(previous)) ==>
               CleanupDeletes(key, previous.prefix, Excluded(request, previous)) ==> outcome.previousCleaned
    ensures PreviousContentChanged(request, Some(previous), outcome)
  {
    ListedWithinCanonical(request.prefix);
    DestinationOverlapIsExact(request, previous);
    assert Listed(ScopeOf(request, Some(previous), manifest, included), key) ==> key in CurrentKeys(request);
  }

  /** Whatever a request does to the current destination, its paths are invalidated, unless it is a
      delete that deleted nothing. */
  lemma CurrentIsInvalidated(kind: RequestType, request: Request, previous: Option<Previous>, outcome: Outcome)
    requires NonEmpty(request.distributionId).Some? && (kind != Delete || outcome.currentDeleted)
    ensures Invalidates(Script(kind, request, previous, outcome), request.distributionId, request.distributionPaths)
  {
    if previous.Some? {
      MergeCovers(request.distributionPaths + previous.value.distributionPaths);
    }
    CreationIsInScript(kind, request, previous, outcome, |WhenSome(PreviousBatch(request, previous, outcome))|);
  }

  // ---------- a run ----------

  /** How the creation of one invalidation ends. A distribution that is missing counts as created
      where the batch allows it. */
  datatype Creation = Created | PathsRejected(error: PathError) | ServiceFailed

  /** One request in execution. `bucket` and `oldBucket` are the current and the previous
      destination bucket, which may be the same; the tags are their ownership tags. */
  class Execution {
    const kind: RequestType
    const request: Request
    const previous: Option<Previous>
    const scope: Scope
    const bucket: Bucket
    const oldBucket: Bucket
    const tags: seq<string>
    const oldTags: seq<string>
    const maxAttempts: nat
    var attempted: seq<Step>
    /** The callbacks attempted so far: true for success, false for failure. */
    var callbacks: seq<bool>
    /** Whether a request to CloudFront failed or a wait was cut off. */
    var faulted: bool

    ghost predicate Consistent() {
      && (kind != Update ==> previous.None?)
      && (previous.Some? ==> (bucket == oldBucket <==> request.bucket == previous.value.bucket))
      && (previous.None? ==> bucket == oldBucket)
      && (bucket == oldBucket ==> tags == oldTags)
      && scope == ScopeOf(request, previous, scope.manifest, scope.included)
    }

    constructor (kind: RequestType, request: Request, previous: Option<Previous>,
                 manifest: set<string>, included: string -> bool,
                 bucket: Bucket, oldBucket: Bucket, tags: seq<string>, oldTags: seq<string>, maxAttempts: nat)
      ensures this.kind == kind && this.request == request && this.previous == previous
      ensures scope == ScopeOf(request, previous, manifest, included)
      ensures this.bucket == bucket && this.oldBucket == oldBucket && this.tags == tags && this.oldTags == oldTags
      ensures attempted == [] && callbacks == [] && !faulted
    {
      this.kind, this.request, this.previous := kind, request, previous;
      this.scope := ScopeOf(request, previous, manifest, included);
      this.bucket, this.oldBucket, this.tags, this.oldTags := bucket, oldBucket, tags, oldTags;
      this.maxAttempts, attempted, callbacks, faulted := maxAttempts, [], [], false;
    }

    method Succeeds() returns (ok: bool)
      modifies this`faulted
      ensures faulted == (old(faulted) || !ok)
    {
      var answered: bool := *;
      ok := answered;
      faulted := faulted || !ok;
    }

    predicate Faulted()
      reads this, bucket, oldBucket
    {
      faulted || bucket.faulted || oldBucket.faulted
    }

    /** Every key lost since `before` was deleted for a reason. */
    ghost predicate OnlyJustified(name: string, tags: seq<string>, before: set<string>, now: set<string>) {
      forall k :: k in before && k !in now ==> Justified(kind, request, previous, scope, name, tags, k)
    }

    /** Creates the invalidations that the outcome calls for, and waits for them if asked to. */
    method InvalidateDistributions(outcome: Outcome) returns (ok: bool)
      requires Possible(kind, request, previous, outcome) && Preflight(kind, request, previous).None?
      modifies this`attempted, this`faulted
      ensures faulted == (old(faulted) || !ok)
      ensures ok ==> attempted == old(attempted) + Creations(kind, request, previous, outcome) + Waits(request)
      ensures attempted <= old(attempted) + Creations(kind, request, previous, outcome) + Waits(request)
    {
      PreflightCoversEveryOutcome(kind, request, previous, outcome);
      ok := CreateBoth(PreviousBatch(request, previous, outcome), CurrentBatch(kind, request, previous, outcome));
      if ok && request.waitForInvalidation {
        attempted := attempted + [AwaitInvalidations];
        ok := Succeeds();
      }
    }

    /** The invalidation of the previous distribution is created first. */
    method CreateBoth(first: Option<Batch>, second: Option<Batch>) returns (ok: bool)
      requires first.Some? ==> Acceptable(first.value.paths)
      requires second.Some? ==> Acceptable(second.value.paths)
      modifies this`attempted, this`faulted
      ensures faulted == (old(faulted) || !ok)
      ensures ok ==> attempted == old(attempted) + (WhenSome(first) + WhenSome(second))
      ensures attempted <= old(attempted) + (WhenSome(first) + WhenSome(second))
    {
      var creation := Created;
      if first.Some? {
        creation := Create(first.value);
        assert !creation.PathsRejected?;
      }
      if creation.Created? && second.Some? {
        creation := Create(second.value);
        assert !creation.PathsRejected?;
      }
      ok := creation.Created?;
    }

    /** Creates one invalidation. Its paths are the reason for a failure exactly when CloudFront
        documents them as unacceptable. */
    method Create(batch: Batch) returns (creation: Creation)
      modifies this`attempted, this`faulted
      ensures faulted == (old(faulted) || creation.ServiceFailed?)
      ensures attempted == old(attempted) + [CreateInvalidation(batch)]
      ensures creation.PathsRejected? <==> !Acceptable(batch.paths)
    {
      attempted := attempted + [CreateInvalidation(batch)];
      var quantity := ValidateInvalidationPaths(batch.paths);
      if quantity.Err? {
        return PathsRejected(quantity.error);
      }
      var answered := Succeeds();
      creation := if answered then Created else ServiceFailed;
    }

    /** What the run has done to the two buckets: nothing is lost without a reason, and after a
        successful deployment all planned objects are there. */
    ghost predicate Effects(before: set<string>, oldBefore: set<string>, deployed: bool)
      reads bucket, oldBucket
    {
      && OnlyJustified(request.bucket, tags, before, bucket.keys)
      && (previous.Some? ==> OnlyJustified(previous.value.bucket, oldTags, oldBefore, oldBucket.keys))
      && (deployed ==> PlannedKeys(scope) <= bucket.keys)
      && (deployed ==> Completed(scope, tags, request.deleteStaleOnDeployment, bucket.keys))
    }

    /** What the plan deletes as a whole is gone, unless a competing owner's tag forbade it. */
    ghost predicate PreviousCleaned()
      reads oldBucket
    {
      CleansPrevious(kind, request, previous) ==>
        !HasCompetingOwner(oldTags, previous.value.prefix, Excluded(request, previous.value), request.ownerId) ==>
          CleanupKeys(oldBucket.keys, previous.value.prefix, Excluded(request, previous.value)) == {}
    }

    /** The guarded deletion of the current namespace, when a delete request asks for it. */
    method CleanCurrentDestination() returns (ok: bool, deleted: bool)
      requires Consistent()
      modifies this`attempted, bucket
      ensures attempted == old(attempted) + (if CleansCurrent(kind, request) then [CleanCurrent] else [])
      ensures Effects(old(bucket.keys), old(oldBucket.keys), false)
      ensures !CleansCurrent(kind, request) ==> ok && !deleted && bucket.keys == old(bucket.keys)
      ensures deleted ==> CleansCurrent(kind, request)
      ensures ok ==> (deleted <==> bucket.keys != old(bucket.keys))
      ensures ok && CleansCurrent(kind, request) && !HasCompetingOwner(tags, request.prefix, None, request.ownerId) ==>
                CleanupKeys(bucket.keys, request.prefix, None) == {}
      ensures (old(bucket.faulted) || !ok) ==> bucket.faulted
    {
      ok, deleted := true, false;
      if CleansCurrent(kind, request) {
        attempted := attempted + [CleanCurrent];
        var outcome := GuardedDeleteNamespace(bucket, tags, request.prefix, None, request.ownerId, maxAttempts);
        ok := outcome.Some?;
        deleted := ok && outcome.value.Deleted? && outcome.value.objects > 0;
        Counted(old(bucket.keys), CleanupKeys(old(bucket.keys), request.prefix, None));
      }
    }

    lemma Counted(before: set<string>, gone: set<string>)
      requires gone <= before
      ensures |gone| > 0 <==> before - gone != before
    {
      if key :| key in gone {
        assert key !in before - gone;
      }
    }

    /** The guarded deletion of the previous namespace, when the plan calls for it. */
    method CleanPreviousDestination(ghost before: set<string>, ghost oldBefore: set<string>) returns (ok: bool, deleted: bool)
      requires Consistent() && kind != Delete && Effects(before, oldBefore, true)
      modifies this`attempted, oldBucket
      ensures (old(oldBucket.faulted) || !ok) ==> oldBucket.faulted
      ensures attempted == old(attempted) + (if CleansPrevious(kind, request, previous) then [CleanPrevious] else [])
      ensures Effects(before, oldBefore, true)
      ensures deleted ==> CleansPrevious(kind, request, previous)
      ensures !CleansPrevious(kind, request, previous) ==> oldBucket.keys == old(oldBucket.keys)
      ensures ok ==> (deleted <==> oldBucket.keys != old(oldBucket.keys))
      ensures ok ==> PreviousCleaned()
      ensures oldBucket.keys <= old(oldBucket.keys)
      ensures CleansPrevious(kind, request, previous) ==>
                forall k :: k in old(oldBucket.keys) && k !in oldBucket.keys ==>
                  CleanupDeletes(k, previous.value.prefix, Excluded(request, previous.value))
    {
      ok, deleted := true, false;
      if CleansPrevious(kind, request, previous) {
        var excluded := Excluded(request, previous.value);
        ghost var now, name := oldBucket.keys, previous.value.bucket;
        attempted := attempted + [CleanPrevious];
        var outcome := GuardedDeleteNamespace(oldBucket, oldTags, previous.value.prefix, excluded, request.ownerId, maxAttempts);
        ok := outcome.Some?;
        deleted := ok && outcome.value.Deleted? && outcome.value.objects > 0;
        assert OnlyJustified(name, oldTags, now, oldBucket.keys);
        Counted(now, CleanupKeys(now, previous.value.prefix, excluded));
        if bucket == oldBucket {
          SparesPlanned(now);
          StaysCompleted(now);
        }
      }
    }

    lemma StaysCompleted(before: set<string>)
      requires Completed(scope, tags, request.deleteStaleOnDeployment, before)
      requires PlannedKeys(scope) <= bucket.keys <= before
      ensures Completed(scope, tags, request.deleteStaleOnDeployment, bucket.keys)
    {
      forall r | r in scope.manifest
        ensures NamespaceOf(scope.prefix) + r in bucket.keys
      {
        PlannedIsWrittenOut(scope, r);
      }
    }

    lemma SparesPlanned(before: set<string>)
      requires Consistent() && kind != Delete && PlannedKeys(scope) <= before
      requires OnlyJustified(request.bucket, tags, before, bucket.keys)
      ensures PlannedKeys(scope) <= bucket.keys
    {
      forall key | key in PlannedKeys(scope)
        ensures key in bucket.keys
      {
        if key !in bucket.keys {
          JustifiedSparesPlanned(kind, request, previous, scope.manifest, scope.included, tags, key);
        }
      }
    }

    /** Between the two states only keys of the current namespace came or went. */
    ghost predicate OutsideUntouched(before: set<string>, now: set<string>) {
      forall k :: k !in CurrentKeys(request) ==> (k in before <==> k in now)
    }

    lemma DeploymentStaysInside(before: set<string>, now: set<string>, current: bool, previousLeg: bool)
      requires Consistent()
      requires before - StaleKeys(scope, before, current, previousLeg) <= now <= before + PlannedKeys(scope)
      ensures OutsideUntouched(before, now)
    {
      ListedWithinCanonical(request.prefix);
      forall k | k !in CurrentKeys(request)
        ensures k in before <==> k in now
      {
        assert k !in Keys(NamespaceOf(request.prefix));
        if r :| r in scope.manifest && k == JoinKey(scope.prefix, r) {
          PlannedKeyIsCurrent(request, r);
        }
      }
    }

    /** The cleanup of the previous destination lost exactly the planned keys that are gone. */
    lemma CleanedIsLost(before: set<string>, between: set<string>, now: set<string>)
      requires Consistent() && CleansPrevious(kind, request, previous)
      requires bucket == oldBucket ==> OutsideUntouched(before, between)
      requires bucket != oldBucket ==> before == between
      requires now <= between
      requires forall k :: k in between && k !in now ==>
                 CleanupDeletes(k, previous.value.prefix, Excluded(request, previous.value))
      ensures now != between <==> LosesPlanned(request, previous.value, before, now)
    {
      forall k | CleanupDeletes(k, previous.value.prefix, Excluded(request, previous.value))
        ensures k in before <==> k in between
      {
        if bucket == oldBucket {
          PreviousCleanupSparesCurrent(request, previous.value, k);
        }
      }
      if now != between {
        var k :| k in between && k !in now;
      }
    }

    /** Deployment of a create or update, or nothing. */
    method DeployDestination() returns (ok: bool)
      requires Consistent()
      modifies this`attempted, bucket
      ensures attempted == old(attempted) + (if kind != Delete then [Deploy] else [])
      ensures Effects(old(bucket.keys), old(oldBucket.keys), ok && kind != Delete)
      ensures kind == Delete ==> ok && bucket.keys == old(bucket.keys)
      ensures OutsideUntouched(old(bucket.keys), bucket.keys)
      ensures (old(bucket.faulted) || !ok) ==> bucket.faulted
    {
      ok := true;
      if kind != Delete {
        attempted := attempted + [Deploy];
        ok := DeployTo(bucket, tags, scope, request.deleteStaleOnDeployment, maxAttempts);
        DeploymentStaysInside(old(bucket.keys), bucket.keys,
                              CurrentLeg(scope, tags, request.deleteStaleOnDeployment), PreviousLeg(scope, tags));
      }
    }

    /** The previous prefix when its namespace is a strict part of the current one. */
    ghost function Inner(): Option<string> {
      if previous.Some? && request.bucket == previous.value.bucket && PreviousKeys(previous.value) < CurrentKeys(request)
      then Some(previous.value.prefix)
      else None
    }

    /** What a successful deployment leaves below the current prefix: every planned object, nothing
        unplanned of an inner previous namespace that the update may delete, and nothing else
        unplanned that the filter admits, if stale objects are to be deleted. */
    ghost predicate StaleIsGone()
      reads bucket
    {
      var ns := NamespaceOf(request.prefix);
      && (forall r :: r in scope.manifest ==> ns + r in bucket.keys)
      && (Inner().Some? && PlanDestinationChangeCleanup(request, previous.value).DeletePrevious?
          && !HasCompetingOwner(tags, previous.value.prefix, None, request.ownerId) ==>
            forall r: string :: ns + r in bucket.keys && ns + r in PreviousKeys(previous.value) && r != "" ==> r in scope.manifest)
      && (request.deleteStaleOnDeployment && !HasCompetingOwner(tags, request.prefix, Inner(), request.ownerId) ==>
            forall r: string :: ns + r in bucket.keys && scope.included(r) && r != "" ==>
              r in scope.manifest || (Inner().Some? && ns + r in PreviousKeys(previous.value)))
    }

    lemma InnerIsProtected()
      requires Consistent()
      ensures scope.protectedPrefix == Inner()
      ensures Inner().Some? ==>
                && Inner().value != ""
                && (scope.previousPrefix.Some? <==> PlanDestinationChangeCleanup(request, previous.value).DeletePrevious?)
                && (scope.previousPrefix.Some? ==> scope.previousPrefix == Inner())
    {
      if previous.Some? {
        RelationIsExact(previous.value.prefix, request.prefix);
        if PreviousIsWithinCurrent(request, previous.value) {
          WithinCurrentIsProper(request, previous.value);
        } else if Relate(request, previous.value) == Disjoint {
          assert CanonicalNamespace(previous.value.prefix) in PreviousKeys(previous.value);
        }
      }
    }

    lemma CompletedHasNoStale()
      requires Consistent() && Completed(scope, tags, request.deleteStaleOnDeployment, bucket.keys)
      ensures StaleIsGone()
    {
      InnerIsProtected();
      var ns := NamespaceOf(request.prefix);
      if Inner().Some? {
        forall r: string
          ensures ns + r in PreviousKeys(previous.value) <==> LiesUnder(ns + r, previous.value.prefix)
        {
          KeysOfPrefix(previous.value.prefix, ns + r);
          WithinCurrentIsProper(request, previous.value);
        }
      }
      forall r: string | ns + r in bucket.keys
        ensures !Obsolete(scope, tags, request.deleteStaleOnDeployment, r)
      {
      }
    }

    /** If keys of the previous namespace were lost, and its distribution is the current one or the
        request names it, all its paths are invalidated there. */
    ghost predicate PreviousInvalidated(steps: seq<Step>, oldBefore: set<string>)
      reads oldBucket
    {
      previous.Some? ==>
        LosesKey(PreviousKeys(previous.value), oldBefore, oldBucket.keys) ==>
          NonEmpty(previous.value.distributionId).Some? ==>
            (request.distributionId == previous.value.distributionId
             || PreviousDistributionAuthorized(request, previous.value)) ==>
              Invalidates(steps, previous.value.distributionId, previous.value.distributionPaths)
    }

    /** If the current bucket changed, the current paths are invalidated. */
    ghost predicate CurrentInvalidated(steps: seq<Step>, before: set<string>)
      reads bucket
    {
      bucket.keys != before && NonEmpty(request.distributionId).Some? ==>
        Invalidates(steps, request.distributionId, request.distributionPaths)
    }

    lemma LossIsInvalidated(before: set<string>, oldBefore: set<string>, outcome: Outcome)
      requires Consistent() && Effects(before, oldBefore, false)
      requires CleansPrevious(kind, request, previous) ==>
                 (outcome.previousCleaned <==> LosesPlanned(request, previous.value, oldBefore, oldBucket.keys))
      ensures PreviousInvalidated(Script(kind, request, previous, outcome), oldBefore)
    {
      if previous.Some? && LosesKey(PreviousKeys(previous.value), oldBefore, oldBucket.keys) {
        var k :| k in oldBefore && k !in oldBucket.keys && k in PreviousKeys(previous.value);
        LossChangesContent(request, previous.value, scope.manifest, scope.included, oldTags, k, outcome);
        if NonEmpty(previous.value.distributionId).Some?
           && (request.distributionId == previous.value.distributionId
               || PreviousDistributionAuthorized(request, previous.value)) {
          ChangedPreviousIsInvalidated(request, previous.value, outcome);
        }
      }
    }

    /** What the two destinations are like once every step that changes them has succeeded. */
    ghost predicate Settled()
      reads bucket, oldBucket
    {
      && (CleansCurrent(kind, request) && !HasCompetingOwner(tags, request.prefix, None, request.ownerId) ==>
            CleanupKeys(bucket.keys, request.prefix, None) == {})
      && PreviousCleaned()
      && (kind != Delete ==> StaleIsGone())
    }

    /** Whether the outcome tells what was lost since `before` and `oldBefore`. */
    ghost predicate Tells(outcome: Outcome, before: set<string>, oldBefore: set<string>)
      reads bucket, oldBucket
    {
      && (kind == Delete ==> (outcome.currentDeleted <==> bucket.keys != before))
      && (kind != Delete && bucket != oldBucket ==> (outcome.previousCleaned <==> oldBucket.keys != oldBefore))
      && (CleansPrevious(kind, request, previous) ==>
            (outcome.previousCleaned <==> LosesPlanned(request, previous.value, oldBefore, oldBucket.keys)))
    }

    /** The steps that change the destinations. */
    method ChangeDestinations() returns (ok: bool, outcome: Outcome)
      requires Consistent() && attempted == []
      modifies this`attempted, bucket, oldBucket
      ensures ok || Faulted()
      ensures Possible(kind, request, previous, outcome)
      ensures attempted <= Cleanups(kind, request, previous)
      ensures ok ==> attempted == Cleanups(kind, request, previous)
      ensures Effects(old(bucket.keys), old(oldBucket.keys), ok && kind != Delete)
      ensures ok ==> Settled() && Tells(outcome, old(bucket.keys), old(oldBucket.keys))
    {
      outcome := Outcome(false, false);
      var deleted;
      ok, deleted := CleanCurrentDestination();
      if !ok {
        return;
      }
      outcome := Outcome(false, deleted);
      ok := DeployDestination();
      if !ok || kind == Delete {
        return;
      }
      ghost var between := oldBucket.keys;
      ok, deleted := CleanPreviousDestination(old(bucket.keys), old(oldBucket.keys));
      outcome := Outcome(deleted, false);
      if ok {
        CompletedHasNoStale();
        if CleansPrevious(kind, request, previous) {
          CleanedIsLost(old(oldBucket.keys), between, oldBucket.keys);
        }
      }
    }

    /** The whole request behind the preflight. */
    method ProcessRequestInner() returns (ok: bool, outcome: Outcome)
      requires Consistent() && Preflight(kind, request, previous).None? && attempted == []
      modifies this`attempted, this`faulted, bucket, oldBucket
      ensures ok || Faulted()
      ensures Possible(kind, request, previous, outcome)
      ensures attempted <= Script(kind, request, previous, outcome)
      ensures ok ==> attempted == Script(kind, request, previous, outcome)
      ensures Effects(old(bucket.keys), old(oldBucket.keys), ok && kind != Delete)
      ensures ok ==> Settled() && Tells(outcome, old(bucket.keys), old(oldBucket.keys))
      ensures ok ==> PreviousInvalidated(attempted, old(oldBucket.keys)) && CurrentInvalidated(attempted, old(bucket.keys))
    {
      ok, outcome := ChangeDestinations();
      if !ok {
        return;
      }
      ok := InvalidateDistributions(outcome);
      LossIsInvalidated(old(bucket.keys), old(oldBucket.keys), outcome);
      if NonEmpty(request.distributionId).Some? && bucket.keys != old(bucket.keys) {
        CurrentIsInvalidated(kind, request, previous, outcome);
      }
    }

    /** No key that was lost belongs to another owner. */
    ghost predicate SparesOthers(tags: seq<string>, before: set<string>, now: set<string>) {
      forall k, i :: k in before && k !in now && 0 <= i < |tags| ==> !OwnedByOther(k, tags[i], request.ownerId)
    }

    lemma JustifiedSparesOthers(name: string, tags: seq<string>, before: set<string>, now: set<string>)
      requires Consistent() && OnlyJustified(name, tags, before, now)
      ensures SparesOthers(tags, before, now)
    {
      forall k, i | k in before && k !in now && 0 <= i < |tags|
        ensures !OwnedByOther(k, tags[i], request.ownerId)
      {
        JustifiedIsOurs(kind, request, previous, scope.manifest, scope.included, name, tags, k, i);
      }
    }

    predicate ReportedSuccess()
      reads this
    {
      |callbacks| == 1 && callbacks[0]
    }

    /** From the event to the callback. Decoding, the callback URL, parsing and the preflight may
        each end the request early; a cut at the drain deadline is the failure of a step. */
    method HandleEvent(decoded: bool, answerable: bool, parsed: bool) returns (outcome: Outcome)
      requires Consistent() && attempted == [] && callbacks == []
      modifies this, bucket, oldBucket
      ensures |callbacks| == (if answerable then 1 else 0)
      ensures attempted != [] ==> decoded && answerable && parsed && Preflight(kind, request, previous).None?
      ensures decoded && answerable && parsed && Preflight(kind, request, previous).None? ==> ReportedSuccess() || Faulted()
      ensures !decoded || !parsed ==> !ReportedSuccess()
      ensures ReportedSuccess() ==>
                && Preflight(kind, request, previous).None? && Possible(kind, request, previous, outcome)
                && attempted == Script(kind, request, previous, outcome)
      ensures ReportedSuccess() ==> Settled() && Tells(outcome, old(bucket.keys), old(oldBucket.keys))
      ensures ReportedSuccess() ==>
                PreviousInvalidated(attempted, old(oldBucket.keys)) && CurrentInvalidated(attempted, old(bucket.keys))
      ensures Effects(old(bucket.keys), old(oldBucket.keys), ReportedSuccess() && kind != Delete)
      ensures SparesOthers(tags, old(bucket.keys), bucket.keys)
      ensures previous.Some? ==> SparesOthers(oldTags, old(oldBucket.keys), oldBucket.keys)
      ensures Preflight(kind, request, previous).Some? ==>
                !ReportedSuccess() && bucket.keys == old(bucket.keys) && oldBucket.keys == old(oldBucket.keys)
    {
      outcome := Outcome(false, false);
      if !decoded && answerable {
        callbacks := callbacks + [false];
      }
      if !decoded || !answerable {
        return;
      }
      var ok := false;
      if parsed && Preflight(kind, request, previous).None? {
        ok, outcome := ProcessRequestInner();
      }
      JustifiedSparesOthers(request.bucket, tags, old(bucket.keys), bucket.keys);
      if previous.Some? {
        JustifiedSparesOthers(previous.value.bucket, oldTags, old(oldBucket.keys), oldBucket.keys);
      }
      callbacks := callbacks + [ok];
    }
  }
}

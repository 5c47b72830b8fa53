/** What an update decides about the previous destination, and why that never endangers the
    current one. */
module Lifecycle {
  import opened Basics
  import opened Namespace

  datatype RequestType = Create | Update | Delete

  /** The fields of a deployment request that cleanup and invalidation depend on.
      `deletePreviousOnChange` is the bucket whose previous objects may be deleted. */
  datatype Request = Request(
    bucket: string,
    prefix: string,
    ownerId: string,
    distributionId: Option<string>,
    distributionPaths: seq<string>,
    waitForInvalidation: bool,
    deleteCurrentOnDelete: bool,
    deleteStaleOnDeployment: bool,
    deletePreviousOnChange: Option<string>,
    invalidatePreviousOnChange: Option<string>)

  datatype Previous = Previous(
    bucket: string,
    prefix: string,
    distributionId: Option<string>,
    distributionPaths: seq<string>,
    ownerId: string)

  datatype RetainReason = MissingAuthorization | AuthorizationMismatch | OwnerMismatch

  datatype Strategy = DeleteNamespace(excluded: Option<string>) | DeleteStaleWithinCurrent

  datatype Decision = NotNeeded | Retain(reason: RetainReason) | DeletePrevious(strategy: Strategy)

  function Relate(current: Request, previous: Previous): Relation {
    if current.bucket == previous.bucket then NamespaceRelation(previous.prefix, current.prefix) else Disjoint
  }

  predicate PreviousNamespaceAuthorized(current: Request, previous: Previous) {
    current.deletePreviousOnChange == Some(previous.bucket)
  }

  predicate PreviousDistributionAuthorized(current: Request, previous: Previous) {
    current.invalidatePreviousOnChange.Some? && current.invalidatePreviousOnChange == previous.distributionId
  }

  function PlanDestinationChangeCleanup(current: Request, previous: Previous): Decision {
    match Relate(current, previous)
    case Same => NotNeeded
    case PreviousContainsCurrent => Authorize(current, previous, DeleteNamespace(Some(current.prefix)))
    case CurrentContainsPrevious => Authorize(current, previous, DeleteStaleWithinCurrent)
    case Disjoint => Authorize(current, previous, DeleteNamespace(None))
  }

  function Authorize(current: Request, previous: Previous, strategy: Strategy): Decision {
    if current.deletePreviousOnChange.None? then Retain(MissingAuthorization)
    else if !PreviousNamespaceAuthorized(current, previous) then Retain(AuthorizationMismatch)
    else if current.ownerId != previous.ownerId then Retain(OwnerMismatch)
    else DeletePrevious(strategy)
  }

  predicate PreviousIsWithinCurrent(current: Request, previous: Previous) {
    Relate(current, previous) == CurrentContainsPrevious
  }

  predicate DestinationsOverlap(current: Request, previous: Previous) {
    && current.bucket == previous.bucket
    && NamespacesOverlap(CanonicalNamespace(current.prefix), CanonicalNamespace(previous.prefix))
  }

  // ---------- what is decided, in terms of keys ----------

  ghost function CurrentKeys(current: Request): iset<string> {
    Keys(CanonicalNamespace(current.prefix))
  }

  ghost function PreviousKeys(previous: Previous): iset<string> {
    Keys(CanonicalNamespace(previous.prefix))
  }

  /** Previous objects are deleted exactly when the destination really moved, the deletion was
      authorized for that bucket, and the owner is the same. */
  lemma DeletionIsAuthorized(current: Request, previous: Previous)
    ensures PlanDestinationChangeCleanup(current, previous).DeletePrevious? <==>
              && (current.bucket == previous.bucket ==> CurrentKeys(current) != PreviousKeys(previous))
              && PreviousNamespaceAuthorized(current, previous)
              && current.ownerId == previous.ownerId
  {
    RelationIsExact(previous.prefix, current.prefix);
    if current.bucket == previous.bucket && NamespaceRelation(previous.prefix, current.prefix) == Disjoint {
      assert CanonicalNamespace(previous.prefix) in PreviousKeys(previous);
    }
  }

  /** Overlap of destinations is overlap of their keys. */
  lemma DestinationOverlapIsExact(current: Request, previous: Previous)
    ensures DestinationsOverlap(current, previous) <==>
              current.bucket == previous.bucket && CurrentKeys(current) * PreviousKeys(previous) != iset{}
  {
    OverlapIsExact(CanonicalNamespace(current.prefix), CanonicalNamespace(previous.prefix));
  }

  /** A namespace inside another one is neither the root nor `/`, so listing it lists all of it. */
  lemma InnerNamespaceIsListed(outer: string, inner: string)
    requires CanonicalNamespace(outer) != CanonicalNamespace(inner)
    requires CanonicalNamespace(outer) <= CanonicalNamespace(inner)
    ensures inner != "" && NamespaceOf(inner) == CanonicalNamespace(inner)
  {
  }

  /** The planned whole-namespace deletion never excludes the root namespace. */
  lemma PlannedExclusionIsProper(current: Request, previous: Previous)
    requires PlanDestinationChangeCleanup(current, previous).DeletePrevious?
    requires PlanDestinationChangeCleanup(current, previous).strategy.DeleteNamespace?
    ensures PlanDestinationChangeCleanup(current, previous).strategy.excluded != Some("")
  {
    if Relate(current, previous) == PreviousContainsCurrent {
      InnerNamespaceIsListed(previous.prefix, current.prefix);
    }
  }

  /** In the same bucket, deleting the previous namespace deletes only keys of the previous
      namespace, and none of the current one. */
  lemma PreviousCleanupSparesCurrent(current: Request, previous: Previous, key: string)
    requires current.bucket == previous.bucket
    requires PlanDestinationChangeCleanup(current, previous).DeletePrevious?
    requires PlanDestinationChangeCleanup(current, previous).strategy.DeleteNamespace?
    requires CleanupDeletes(key, previous.prefix, PlanDestinationChangeCleanup(current, previous).strategy.excluded)
    ensures key in PreviousKeys(previous) && key !in CurrentKeys(current)
  {
    ListedWithinCanonical(previous.prefix);
    assert key in Keys(NamespaceOf(previous.prefix));
    RelationIsExact(previous.prefix, current.prefix);
    if Relate(current, previous) == PreviousContainsCurrent {
      InnerNamespaceIsListed(previous.prefix, current.prefix);
    }
  }

  /** What a planned deletion covers: a previous namespace strictly inside the current one is left
      to the deployment's stale cleanup, and otherwise everything that is listed under the previous
      prefix is deleted, except for current keys of the same bucket. */
  lemma StrategyIsExact(current: Request, previous: Previous)
    requires PlanDestinationChangeCleanup(current, previous).DeletePrevious?
    ensures var strategy := PlanDestinationChangeCleanup(current, previous).strategy;
      && (strategy == DeleteStaleWithinCurrent <==>
            current.bucket == previous.bucket && PreviousKeys(previous) < CurrentKeys(current))
      && (strategy.DeleteNamespace? ==>
            forall key :: CleanupDeletes(key, previous.prefix, strategy.excluded) <==>
              (previous.prefix == "" || LiesUnder(key, previous.prefix))
              && !(current.bucket == previous.bucket && key in CurrentKeys(current)))
  {
    RelationIsExact(previous.prefix, current.prefix);
    var strategy := PlanDestinationChangeCleanup(current, previous).strategy;
    assert PreviousKeys(previous) !! CurrentKeys(current) ==> !(PreviousKeys(previous) < CurrentKeys(current)) by {
      assert CanonicalNamespace(previous.prefix) in PreviousKeys(previous);
    }
    if strategy.DeleteNamespace? {
      forall key
        ensures CleanupDeletes(key, previous.prefix, strategy.excluded) <==>
                  (previous.prefix == "" || LiesUnder(key, previous.prefix))
                  && !(current.bucket == previous.bucket && key in CurrentKeys(current))
      {
        CleanedKey(current, previous, key);
      }
    }
  }

  lemma CleanedKey(current: Request, previous: Previous, key: string)
    requires PlanDestinationChangeCleanup(current, previous).DeletePrevious?
    requires PlanDestinationChangeCleanup(current, previous).strategy.DeleteNamespace?
    ensures CleanupDeletes(key, previous.prefix, PlanDestinationChangeCleanup(current, previous).strategy.excluded) <==>
              (previous.prefix == "" || LiesUnder(key, previous.prefix))
              && !(current.bucket == previous.bucket && key in CurrentKeys(current))
  {
    KeysOfPrefix(previous.prefix, key);
    ListedWithinCanonical(previous.prefix);
    if Relate(current, previous) == PreviousContainsCurrent {
      InnerNamespaceIsListed(previous.prefix, current.prefix);
    } else {
      RelationIsExact(previous.prefix, current.prefix);
      assert key in Keys(NamespaceOf(previous.prefix)) ==> key in PreviousKeys(previous);
    }
  }

  /** Why a previous destination is retained, in the order in which the reasons are looked at. */
  lemma RetentionIsExact(current: Request, previous: Previous)
    ensures var plan := PlanDestinationChangeCleanup(current, previous);
      && (plan == NotNeeded <==> current.bucket == previous.bucket && CurrentKeys(current) == PreviousKeys(previous))
      && (plan == Retain(MissingAuthorization) <==> plan != NotNeeded && current.deletePreviousOnChange.None?)
      && (plan == Retain(AuthorizationMismatch) <==>
            plan != NotNeeded && current.deletePreviousOnChange.Some? && current.deletePreviousOnChange.value != previous.bucket)
      && (plan == Retain(OwnerMismatch) <==>
            plan != NotNeeded && current.deletePreviousOnChange == Some(previous.bucket) && current.ownerId != previous.ownerId)
  {
    RelationIsExact(previous.prefix, current.prefix);
    assert CanonicalNamespace(previous.prefix) in PreviousKeys(previous);
  }

  /** A planned whole-namespace deletion that passes the guard deletes no key of another owner. */
  lemma PlannedCleanupIsSafe(current: Request, previous: Previous, tags: seq<string>)
    requires PlanDestinationChangeCleanup(current, previous).DeletePrevious?
    requires PlanDestinationChangeCleanup(current, previous).strategy.DeleteNamespace?
    requires !HasCompetingOwner(tags, previous.prefix,
                                PlanDestinationChangeCleanup(current, previous).strategy.excluded, current.ownerId)
    ensures SafeCleanup(tags, previous.prefix,
                        PlanDestinationChangeCleanup(current, previous).strategy.excluded, current.ownerId)
  {
    PlannedExclusionIsProper(current, previous);
    PassedGuardIsSafe(tags, previous.prefix, PlanDestinationChangeCleanup(current, previous).strategy.excluded,
                      current.ownerId);
  }

  /** The stale cleanup inside the current namespace gets a previous prefix that is listed as a
      part of the current canonical namespace, and is not all of it. */
  lemma WithinCurrentIsProper(current: Request, previous: Previous)
    requires PreviousIsWithinCurrent(current, previous)
    ensures current.bucket == previous.bucket && previous.prefix != ""
    ensures Keys(NamespaceOf(previous.prefix)) == PreviousKeys(previous) < CurrentKeys(current)
  {
    InnerNamespaceIsListed(current.prefix, previous.prefix);
    RelationIsExact(previous.prefix, current.prefix);
  }
}

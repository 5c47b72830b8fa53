/** Which objects of a bucket a deployment deletes.

    The provider either deletes the stale keys it retained while planning or, when they were too
    many to retain, lists the namespace again. Both are proved to delete exactly the keys of one
    specification, and that specification is proved safe. */
module Destination {
  import opened Basics
  import opened Namespace
  import opened Listing

  /** Everything that decides whether a listed key is stale. `manifest` holds the relative keys
      that the deployment planned; `included` is the compiled exclude/include filter. */
  datatype Scope = Scope(
    prefix: string,
    protectedPrefix: Option<string>,
    previousPrefix: Option<string>,
    manifest: set<string>,
    included: string -> bool,
    owner: string)

  function JoinKey(prefix: string, relative: string): string {
    if prefix == "" then relative
    else if EndsWithSlash(prefix) then prefix + relative
    else prefix + "/" + relative
  }

  function StripPrefix(prefix: string, key: string): string {
    if prefix == "" then key
    else if prefix <= key then key[|prefix|..]
    else key
  }

  predicate UnplannedKey(key: string, strip: string, protectedNamespace: Option<string>,
                         included: Option<string -> bool>, manifest: set<string>) {
    var relative := StripPrefix(strip, key);
    && relative != ""
    && !KeyIsExcluded(key, protectedNamespace)
    && relative !in manifest
    && (included.None? || included.value(relative))
  }

  predicate CurrentStale(scope: Scope, key: string) {
    UnplannedKey(key, NamespaceOf(scope.prefix), OptionalListPrefix(scope.protectedPrefix), Some(scope.included),
                 scope.manifest)
  }

  predicate PreviousStale(scope: Scope, key: string) {
    var previous := OptionalListPrefix(scope.previousPrefix);
    && previous.Some? && previous.value <= key
    && UnplannedKey(key, NamespaceOf(scope.prefix), None, None, scope.manifest)
  }

  predicate Stale(scope: Scope, key: string, current: bool, previous: bool) {
    (current && CurrentStale(scope, key)) || (previous && PreviousStale(scope, key))
  }

  predicate Listed(scope: Scope, key: string) {
    NamespaceOf(scope.prefix) <= key
  }

  /** The stale keys among `keys`, for the legs that are enabled. */
  ghost function StaleKeys(scope: Scope, keys: set<string>, current: bool, previous: bool): set<string> {
    set k | k in keys && Listed(scope, k) && Stale(scope, k, current, previous)
  }

  // ---------- what the specification promises ----------

  lemma StripUndoesJoin(prefix: string, relative: string)
    ensures NamespaceOf(prefix) <= JoinKey(prefix, relative)
    ensures StripPrefix(NamespaceOf(prefix), JoinKey(prefix, relative)) == relative
    ensures JoinKey(prefix, relative) == NamespaceOf(prefix) + relative
  {
  }

  /** The deployment's own keys are never stale, in neither leg. */
  lemma PlannedKeysAreKept(scope: Scope, relative: string, current: bool, previous: bool)
    requires relative in scope.manifest
    ensures !Stale(scope, JoinKey(scope.prefix, relative), current, previous)
  {
    StripUndoesJoin(scope.prefix, relative);
  }

  /** Which legs the ownership tags authorize. */
  predicate CurrentLeg(scope: Scope, tags: seq<string>, enabled: bool) {
    enabled && !HasCompetingOwner(tags, scope.prefix, scope.protectedPrefix, scope.owner)
  }

  predicate PreviousLeg(scope: Scope, tags: seq<string>) {
    scope.previousPrefix.Some? && !HasCompetingOwner(tags, scope.previousPrefix.value, None, scope.owner)
  }

  /** No authorized stale key belongs to another owner. */
  lemma StaleKeysAreOurs(scope: Scope, tags: seq<string>, enabled: bool, key: string, i: nat)
    requires scope.protectedPrefix != Some("") && i < |tags|
    requires Listed(scope, key)
    requires Stale(scope, key, CurrentLeg(scope, tags, enabled), PreviousLeg(scope, tags))
    ensures !OwnedByOther(key, tags[i], scope.owner)
  {
    if CurrentLeg(scope, tags, enabled) && CurrentStale(scope, key) {
      PassedGuardIsSafe(tags, scope.prefix, scope.protectedPrefix, scope.owner);
      assert CleanupDeletes(key, scope.prefix, scope.protectedPrefix);
    } else {
      var previous := scope.previousPrefix.value;
      PassedGuardIsSafe(tags, previous, None, scope.owner);
      assert CleanupDeletes(key, previous, None);
    }
  }

  /** The keys below the destination that a deployment has to delete, written out: the object was
      not planned, and either the filter admits it and no protected namespace holds it, or it lies in
      the previous namespace; and no competing owner forbids it. */
  predicate Obsolete(scope: Scope, tags: seq<string>, deleteStale: bool, relative: string) {
    var key := NamespaceOf(scope.prefix) + relative;
    && relative != "" && relative !in scope.manifest
    && (|| (deleteStale && scope.included(relative)
            && !(scope.protectedPrefix.Some? && scope.protectedPrefix.value != "" && LiesUnder(key, scope.protectedPrefix.value))
            && !HasCompetingOwner(tags, scope.prefix, scope.protectedPrefix, scope.owner))
        || (scope.previousPrefix.Some? && scope.previousPrefix.value != "" && LiesUnder(key, scope.previousPrefix.value)
            && !HasCompetingOwner(tags, scope.previousPrefix.value, None, scope.owner)))
  }

  /** The stale keys of the authorized legs are the obsolete ones, and nothing outside the destination. */
  lemma StaleIsObsolete(scope: Scope, tags: seq<string>, deleteStale: bool, keys: set<string>, relative: string)
    ensures var key := NamespaceOf(scope.prefix) + relative;
      key in StaleKeys(scope, keys, CurrentLeg(scope, tags, deleteStale), PreviousLeg(scope, tags)) <==>
        key in keys && Obsolete(scope, tags, deleteStale, relative)
  {
    var ns := NamespaceOf(scope.prefix);
    var key := ns + relative;
    assert StripPrefix(ns, key) == relative;
    if scope.protectedPrefix.Some? {
      KeysOfPrefix(scope.protectedPrefix.value, key);
    }
    if scope.previousPrefix.Some? {
      KeysOfPrefix(scope.previousPrefix.value, key);
    }
  }

  // ---------- retained candidates ----------

  const MAX_RETAINED_DELETION_KEY_BYTES: nat := 4 * 1024 * 1024
  const SIZE_OF_STRING: nat := 24

  ghost function RetainedBytes(keys: seq<string>): nat {
    if keys == [] then 0 else RetainedBytes(keys[..|keys| - 1]) + Utf8Length(keys[|keys| - 1]) + SIZE_OF_STRING
  }

  lemma OneMoreRetained(keys: seq<string>, key: string)
    ensures RetainedBytes(keys + [key]) == RetainedBytes(keys) + Utf8Length(key) + SIZE_OF_STRING
  {
    assert (keys + [key])[..|keys|] == keys;
  }

  /** Candidate keys, or only the fact that there were too many to retain. */
  class DeletionCandidates {
    var overflow: bool
    var keys: seq<string>
    var bytes: nat
    /** Every key offered so far, in order. */
    ghost var offered: seq<string>

    ghost predicate Valid()
      reads this
    {
      && (!overflow ==> keys == offered && bytes == RetainedBytes(offered))
      && (!overflow <==> RetainedBytes(offered) <= MAX_RETAINED_DELETION_KEY_BYTES)
    }

    constructor ()
      ensures Valid() && offered == []
    {
      overflow, keys, bytes, offered := false, [], 0, [];
    }

    method Retain(key: string)
      requires Valid()
      modifies this
      ensures Valid() && offered == old(offered) + [key]
    {
      OneMoreRetained(offered, key);
      offered := offered + [key];
      if overflow {
        return;
      }
      var next := bytes + Utf8Length(key) + SIZE_OF_STRING;
      if next > MAX_RETAINED_DELETION_KEY_BYTES {
        overflow := true;
        return;
      }
      keys := keys + [key];
      bytes := next;
    }

    predicate HasCandidates()
      reads this
    {
      overflow || keys != []
    }
  }

  // ---------- planning ----------

  datatype Plan = Plan(objects: set<string>, current: DeletionCandidates, previous: DeletionCandidates)

  /** What planning knows about the listed keys: the planned ones that exist, and both stale sets. */
  ghost predicate Knows(plan: Plan, scope: Scope, keys: set<string>, detectStale: bool)
    reads plan.current, plan.previous
  {
    && plan.current.Valid() && plan.previous.Valid() && plan.current != plan.previous
    && plan.objects == Present(scope, keys)
    && ToSet(plan.current.offered) == StaleKeys(scope, keys, detectStale, false)
    && ToSet(plan.previous.offered) == StaleKeys(scope, keys, false, true)
  }

  function Relative(scope: Scope, key: string): string {
    StripPrefix(NamespaceOf(scope.prefix), key)
  }

  ghost function Present(scope: Scope, keys: set<string>): set<string> {
    set k | k in keys && Listed(scope, k) && Relative(scope, k) in scope.manifest && Relative(scope, k) != "" :: Relative(scope, k)
  }

  lemma StaleKeysGrow(scope: Scope, seen: set<string>, key: string, current: bool, previous: bool)
    requires Listed(scope, key)
    ensures StaleKeys(scope, seen + {key}, current, previous)
         == StaleKeys(scope, seen, current, previous) + (if Stale(scope, key, current, previous) then {key} else {})
  {
  }

  lemma PresentGrows(scope: Scope, seen: set<string>, key: string)
    requires Listed(scope, key)
    ensures Present(scope, seen + {key}) == Present(scope, seen)
          + (if Relative(scope, key) in scope.manifest && Relative(scope, key) != "" then {Relative(scope, key)} else {})
  {
    forall r | r in Present(scope, seen)
      ensures r in Present(scope, seen + {key})
    {
      var k :| k in seen && Listed(scope, k) && Relative(scope, k) == r && r in scope.manifest && r != "";
      assert k in seen + {key};
    }
    if Relative(scope, key) in scope.manifest && Relative(scope, key) != "" {
      assert key in seen + {key};
    }
  }

  method Offer(candidates: DeletionCandidates, key: string, stale: bool)
    requires candidates.Valid()
    modifies candidates
    ensures candidates.Valid()
    ensures ToSet(candidates.offered) == ToSet(old(candidates.offered)) + (if stale then {key} else {})
  {
    if stale {
      candidates.Retain(key);
      assert key in candidates.offered;
    }
  }

  /** Adds one listed key to the plan. */
  method Record(scope: Scope, detectStale: bool, key: string, plan: Plan, ghost seen: set<string>)
    returns (next: Plan)
    requires Knows(plan, scope, seen, detectStale) && Listed(scope, key)
    modifies plan.current, plan.previous
    ensures next.current == plan.current && next.previous == plan.previous
    ensures Knows(next, scope, seen + {key}, detectStale)
  {
    StaleKeysGrow(scope, seen, key, detectStale, false);
    StaleKeysGrow(scope, seen, key, false, true);
    PresentGrows(scope, seen, key);
    var relative := Relative(scope, key);
    var planned := relative in scope.manifest;
    var previous := OptionalListPrefix(scope.previousPrefix);
    next := if relative != "" && planned then plan.(objects := plan.objects + {relative}) else plan;
    Offer(plan.current, key,
          && relative != "" && !planned && detectStale
          && !KeyIsExcluded(key, OptionalListPrefix(scope.protectedPrefix)) && scope.included(relative));
    Offer(plan.previous, key, relative != "" && previous.Some? && previous.value <= key && !planned);
  }

  method RecordPage(scope: Scope, detectStale: bool, page: seq<string>, plan: Plan, ghost seen: set<string>)
    returns (next: Plan)
    requires Knows(plan, scope, seen, detectStale) && forall k :: k in ToSet(page) ==> Listed(scope, k)
    modifies plan.current, plan.previous
    ensures next.current == plan.current && next.previous == plan.previous
    ensures Knows(next, scope, seen + ToSet(page), detectStale)
  {
    next := plan;
    assert seen + ToSet(page[..0]) == seen;
    for i := 0 to |page|
      invariant next.current == plan.current && next.previous == plan.previous
      invariant Knows(next, scope, seen + ToSet(page[..i]), detectStale)
    {
      assert page[i] in ToSet(page);
      assert seen + ToSet(page[..i + 1]) == (seen + ToSet(page[..i])) + {page[i]};
      next := Record(scope, detectStale, page[i], next, seen + ToSet(page[..i]));
    }
    assert page[..|page|] == page;
  }

  /** Lists the destination and plans against it. */
  method PlanDestination(bucket: Bucket, scope: Scope, detectStale: bool) returns (ok: bool, plan: Plan)
    modifies bucket`faulted
    ensures (old(bucket.faulted) || !ok) ==> bucket.faulted
    ensures fresh(plan.current) && fresh(plan.previous)
    ensures ok ==> Knows(plan, scope, bucket.keys, detectStale)
  {
    var current := new DeletionCandidates();
    var previous := new DeletionCandidates();
    plan := Plan({}, current, previous);
    var pager := new Pager(bucket, NamespaceOf(scope.prefix));
    ghost var after: Option<string> := None;
    ghost var seen: set<string> := {};
    assert Present(scope, seen) == {};
    while !pager.finished
      invariant fresh(pager) && fresh(plan.current) && fresh(plan.previous)
      invariant pager.bucket == bucket && pager.prefix == NamespaceOf(scope.prefix)
      invariant bucket.faulted == old(bucket.faulted)
      invariant Knows(plan, scope, seen, detectStale)
      invariant seen == if pager.finished then Listable(bucket.keys, pager.prefix, None)
                        else SeenBefore(bucket.keys, pager.prefix, after)
      invariant !pager.finished ==> pager.startAfter == after
      decreases if pager.finished then 0 else 1 + |Listable(bucket.keys, pager.prefix, after)|
    {
      var listed, page := pager.NextPage({});
      if !listed {
        return false, plan;
      }
      assert bucket.keys - {} == bucket.keys;
      PageSeen(bucket.keys, pager.prefix, page.value, !pager.finished, after);
      if !pager.finished {
        CursorAdvances(page.value, true, bucket.keys, bucket.keys, pager.prefix, after);
      }
      plan := RecordPage(scope, detectStale, page.value, plan, seen);
      seen := seen + ToSet(page.value);
      after := Cursor(page.value, after);
    }
    StaleWithin(scope, bucket.keys, detectStale, false);
    StaleWithin(scope, bucket.keys, false, true);
    return true, plan;
  }

  ghost function SeenBefore(keys: set<string>, prefix: string, after: Option<string>): set<string> {
    set k | k in keys && prefix <= k && !Beyond(k, after)
  }

  lemma PageSeen(keys: set<string>, prefix: string, page: seq<string>, truncated: bool, after: Option<string>)
    requires IsPage(page, truncated, keys, prefix, after)
    ensures SeenBefore(keys, prefix, after) + ToSet(page) ==
              if truncated then SeenBefore(keys, prefix, Cursor(page, after)) else Listable(keys, prefix, None)
  {
    forall k | k in keys && prefix <= k
      ensures !Beyond(k, Cursor(page, after)) <==> !Beyond(k, after) || k in page
      ensures !truncated ==> !Beyond(k, after) || k in page
    {
      PageCovers(page, truncated, keys, prefix, after, k);
    }
    assert forall k :: k in page <==> k in ToSet(page);
  }

  /** Only listed keys matter. */
  lemma StaleWithin(scope: Scope, keys: set<string>, current: bool, previous: bool)
    ensures var listed := Listable(keys, NamespaceOf(scope.prefix), None);
      && StaleKeys(scope, listed, current, previous) == StaleKeys(scope, keys, current, previous)
      && Present(scope, listed) == Present(scope, keys)
  {
    var listed := Listable(keys, NamespaceOf(scope.prefix), None);
    forall r | r in Present(scope, keys)
      ensures r in Present(scope, listed)
    {
      var k :| k in keys && Listed(scope, k) && Relative(scope, k) == r && r in scope.manifest && r != "";
      assert k in listed;
    }
  }

  // ---------- deletion ----------

  /** Since planning, the transfer has touched only keys that the deployment planned. */
  ghost predicate OnlyPlannedKeysChanged(scope: Scope, before: set<string>, now: set<string>) {
    forall k :: Listed(scope, k) && Relative(scope, k) !in scope.manifest ==> (k in before <==> k in now)
  }

  lemma StaleKeysStay(scope: Scope, before: set<string>, now: set<string>, current: bool, previous: bool)
    requires OnlyPlannedKeysChanged(scope, before, now)
    ensures StaleKeys(scope, before, current, previous) == StaleKeys(scope, now, current, previous)
  {
  }

  /** The legs are independent: each contributes its own keys, and a disabled one none. */
  lemma LegsAreIndependent(scope: Scope, keys: set<string>, current: bool, previous: bool)
    ensures StaleKeys(scope, keys, current, previous) ==
              (if current then StaleKeys(scope, keys, true, false) else {})
            + (if previous then StaleKeys(scope, keys, false, true) else {})
    ensures StaleKeys(scope, keys, false, false) == {}
  {
  }

  lemma NoCandidates(candidates: DeletionCandidates)
    requires candidates.Valid()
    ensures candidates.HasCandidates() <==> ToSet(candidates.offered) != {}
  {
    if candidates.offered != [] {
      assert candidates.offered[0] in ToSet(candidates.offered);
    }
  }

  method DeleteRetained(bucket: Bucket, candidates: DeletionCandidates, enabled: bool, maxAttempts: nat)
    returns (ok: bool)
    requires enabled ==> candidates.Valid() && !candidates.overflow
    modifies bucket
    ensures (old(bucket.faulted) || !ok) ==> bucket.faulted
    ensures ok ==> bucket.keys == old(bucket.keys) - (if enabled then ToSet(candidates.offered) else {})
    ensures old(bucket.keys) - (if enabled then ToSet(candidates.offered) else {}) <= bucket.keys <= old(bucket.keys)
  {
    ok := true;
    if enabled {
      var count;
      ok, count := DeleteKeys(bucket, candidates.keys, maxAttempts);
    }
  }

  /** Deletes the stale keys of both legs, from the retained lists when those are complete and by
      listing the namespace again otherwise. The two ways cannot be told apart by the result. */
  method DeleteBothLegs(bucket: Bucket, scope: Scope, plan: Plan, current: bool, previous: bool, maxAttempts: nat,
                        ghost planned: set<string>, ghost detectStale: bool)
    returns (ok: bool)
    requires Knows(plan, scope, planned, detectStale) && OnlyPlannedKeysChanged(scope, planned, bucket.keys)
    requires current ==> detectStale
    modifies bucket
    ensures (old(bucket.faulted) || !ok) ==> bucket.faulted
    ensures ok ==> bucket.keys == old(bucket.keys) - StaleKeys(scope, old(bucket.keys), current, previous)
    ensures old(bucket.keys) - StaleKeys(scope, old(bucket.keys), current, previous) <= bucket.keys <= old(bucket.keys)
  {
    ghost var whole := bucket.keys;
    StaleKeysStay(scope, planned, whole, true, false);
    StaleKeysStay(scope, planned, whole, false, true);
    LegsAreIndependent(scope, whole, current, previous);
    if (!current || !plan.current.overflow) && (!previous || !plan.previous.overflow) {
      ok := DeleteRetained(bucket, plan.current, current, maxAttempts);
      if ok {
        ok := DeleteRetained(bucket, plan.previous, previous, maxAttempts);
      }
    } else {
      var deleted;
      ok, deleted := DeleteListed(bucket, NamespaceOf(scope.prefix), key => Stale(scope, key, current, previous), maxAttempts);
      assert Matching(whole, NamespaceOf(scope.prefix), key => Stale(scope, key, current, previous))
          == StaleKeys(scope, whole, current, previous);
    }
  }

  /** The stale cleanup at the end of a deployment. `tags` are the bucket's ownership tags, read
      only when there is something to delete; reading them may fail. */
  method DeleteStaleObjects(bucket: Bucket, tags: seq<string>, scope: Scope, deleteStale: bool, plan: Plan, maxAttempts: nat,
                            ghost planned: set<string>)
    returns (ok: bool)
    requires Knows(plan, scope, planned, deleteStale) && OnlyPlannedKeysChanged(scope, planned, bucket.keys)
    modifies bucket
    ensures (old(bucket.faulted) || !ok) ==> bucket.faulted
    ensures var stale := StaleKeys(scope, old(bucket.keys), CurrentLeg(scope, tags, deleteStale), PreviousLeg(scope, tags));
      && (ok ==> bucket.keys == old(bucket.keys) - stale)
      && old(bucket.keys) - stale <= bucket.keys <= old(bucket.keys)
  {
    var deleteCurrent := deleteStale && plan.current.HasCandidates();
    var deletePrevious := scope.previousPrefix.Some? && plan.previous.HasCandidates();
    EnabledLegs(scope, plan, planned, bucket.keys, deleteStale, CurrentLeg(scope, tags, deleteStale), PreviousLeg(scope, tags));
    if deleteCurrent || deletePrevious {
      var tagsRead := bucket.Succeeds();
      if !tagsRead {
        return false;
      }
    }
    var currentAuthorized := deleteCurrent && !HasCompetingOwner(tags, scope.prefix, scope.protectedPrefix, scope.owner);
    var previousAuthorized := deletePrevious && !HasCompetingOwner(tags, scope.previousPrefix.value, None, scope.owner);
    if !currentAuthorized && !previousAuthorized {
      LegsAreIndependent(scope, bucket.keys, false, false);
      return true;
    }
    ok := DeleteBothLegs(bucket, scope, plan, currentAuthorized, previousAuthorized, maxAttempts, planned, deleteStale);
  }

  /** A leg without candidates contributes nothing, so skipping it changes nothing. */
  lemma EnabledLegs(scope: Scope, plan: Plan, planned: set<string>, keys: set<string>, deleteStale: bool,
                    current: bool, previous: bool)
    requires Knows(plan, scope, planned, deleteStale) && OnlyPlannedKeysChanged(scope, planned, keys)
    requires current ==> deleteStale
    ensures StaleKeys(scope, keys, current, previous) ==
              StaleKeys(scope, keys, current && plan.current.HasCandidates(), previous && plan.previous.HasCandidates())
  {
    StaleKeysStay(scope, planned, keys, true, false);
    StaleKeysStay(scope, planned, keys, false, true);
    LegsAreIndependent(scope, keys, current, previous);
    LegsAreIndependent(scope, keys, current && plan.current.HasCandidates(), previous && plan.previous.HasCandidates());
    NoCandidates(plan.current);
    NoCandidates(plan.previous);
  }

  // ---------- a deployment ----------

  function PlannedKeys(scope: Scope): set<string> {
    set r | r in scope.manifest :: JoinKey(scope.prefix, r)
  }

  lemma WritingPlannedKeys(scope: Scope, before: set<string>, written: set<string>)
    requires written <= PlannedKeys(scope)
    ensures OnlyPlannedKeysChanged(scope, before, before + written)
  {
    forall k | k in written
      ensures Relative(scope, k) in scope.manifest
    {
      var r :| r in scope.manifest && k == JoinKey(scope.prefix, r);
      StripUndoesJoin(scope.prefix, r);
    }
  }

  /** Uploads or copies the planned objects; a failed transfer may have written any of them. */
  method Transfer(bucket: Bucket, scope: Scope) returns (ok: bool)
    modifies bucket
    ensures bucket.faulted == (old(bucket.faulted) || !ok)
    ensures old(bucket.keys) <= bucket.keys <= old(bucket.keys) + PlannedKeys(scope)
    ensures ok ==> bucket.keys == old(bucket.keys) + PlannedKeys(scope)
  {
    var planned := PlannedKeys(scope);
    var written: set<string> :| written <= planned;
    ok := bucket.Succeeds();
    bucket.keys := bucket.keys + (if ok then planned else written);
  }

  /** What any deployment leaves alone: it loses only obsolete keys below the destination, so none
      that the filter rejects unless a previous namespace is cleaned, and it adds only planned ones. */
  ghost predicate Carried(scope: Scope, tags: seq<string>, deleteStale: bool, before: set<string>, now: set<string>) {
    var ns := NamespaceOf(scope.prefix);
    && (forall r: string :: ns + r in before && ns + r !in now ==> Obsolete(scope, tags, deleteStale, r))
    && (forall k :: !(ns <= k) ==> (k in before <==> k in now))
    && (forall r: string :: ns + r in now && ns + r !in before ==> r in scope.manifest)
    && (scope.previousPrefix.None? ==> forall r: string :: ns + r in before && !scope.included(r) ==> ns + r in now)
    && (scope.previousPrefix.None? && !deleteStale ==> before <= now)
  }

  /** What a successful deployment achieves: all planned keys are there and no obsolete one is. */
  ghost predicate Completed(scope: Scope, tags: seq<string>, deleteStale: bool, now: set<string>) {
    var ns := NamespaceOf(scope.prefix);
    && (forall r :: r in scope.manifest ==> ns + r in now)
    && (forall r: string :: Obsolete(scope, tags, deleteStale, r) ==> ns + r !in now)
  }

  lemma PlannedIsWrittenOut(scope: Scope, relative: string)
    ensures NamespaceOf(scope.prefix) + relative in PlannedKeys(scope) <==> relative in scope.manifest
  {
    var ns := NamespaceOf(scope.prefix);
    StripUndoesJoin(scope.prefix, relative);
    if ns + relative in PlannedKeys(scope) {
      var r :| r in scope.manifest && JoinKey(scope.prefix, r) == ns + relative;
      StripUndoesJoin(scope.prefix, r);
      assert (ns + r)[|ns|..] == r && (ns + relative)[|ns|..] == relative;
    }
  }

  /** The bounds of a deployment in terms of stale keys, read as what it leaves alone. */
  lemma BetweenIsCarried(scope: Scope, tags: seq<string>, deleteStale: bool, before: set<string>, now: set<string>)
    requires var stale := StaleKeys(scope, before, CurrentLeg(scope, tags, deleteStale), PreviousLeg(scope, tags));
      before - stale <= now <= before + PlannedKeys(scope)
    ensures Carried(scope, tags, deleteStale, before, now)
  {
    var ns := NamespaceOf(scope.prefix);
    forall r: string | ns + r in before && ns + r !in now
      ensures Obsolete(scope, tags, deleteStale, r)
    {
      StaleIsObsolete(scope, tags, deleteStale, before, r);
    }
    forall r: string | ns + r in now && ns + r !in before
      ensures r in scope.manifest
    {
      PlannedIsWrittenOut(scope, r);
    }
    forall k | k in PlannedKeys(scope)
      ensures ns <= k
    {
      var r :| r in scope.manifest && JoinKey(scope.prefix, r) == k;
      StripUndoesJoin(scope.prefix, r);
    }
    if scope.previousPrefix.None? && !deleteStale {
      LegsAreIndependent(scope, before, false, false);
    }
  }

  lemma ExactIsCompleted(scope: Scope, tags: seq<string>, deleteStale: bool, before: set<string>, now: set<string>)
    requires var stale := StaleKeys(scope, before, CurrentLeg(scope, tags, deleteStale), PreviousLeg(scope, tags));
      now == before - stale + PlannedKeys(scope)
    ensures Completed(scope, tags, deleteStale, now)
  {
    var ns := NamespaceOf(scope.prefix);
    forall r | r in scope.manifest
      ensures ns + r in now
    {
      PlannedIsWrittenOut(scope, r);
    }
    forall r: string | Obsolete(scope, tags, deleteStale, r)
      ensures ns + r !in now
    {
      PlannedIsWrittenOut(scope, r);
      StaleIsObsolete(scope, tags, deleteStale, before, r);
    }
  }

  /** Plans, transfers and cleans up. On success the bucket holds what it held, without what was
      stale, and the planned objects; on failure it lies between the two. */
  method DeployTo(bucket: Bucket, tags: seq<string>, scope: Scope, deleteStale: bool, maxAttempts: nat)
    returns (ok: bool)
    modifies bucket
    ensures (old(bucket.faulted) || !ok) ==> bucket.faulted
    ensures var stale := StaleKeys(scope, old(bucket.keys), CurrentLeg(scope, tags, deleteStale), PreviousLeg(scope, tags));
      && (ok ==> bucket.keys == old(bucket.keys) - stale + PlannedKeys(scope))
      && old(bucket.keys) - stale <= bucket.keys <= old(bucket.keys) + PlannedKeys(scope)
    ensures Carried(scope, tags, deleteStale, old(bucket.keys), bucket.keys)
    ensures ok ==> Completed(scope, tags, deleteStale, bucket.keys)
    ensures bucket.keys >= old(bucket.keys) || bucket.keys >= PlannedKeys(scope)
  {
    ghost var before := bucket.keys;
    ghost var current, previous := CurrentLeg(scope, tags, deleteStale), PreviousLeg(scope, tags);
    var plan;
    ok, plan := PlanDestination(bucket, scope, deleteStale);
    if ok {
      ok := Transfer(bucket, scope);
      ghost var written := bucket.keys - before;
      WritingPlannedKeys(scope, before, written);
      assert before + written == bucket.keys;
      if ok {
        StaleKeysStay(scope, before, bucket.keys, current, previous);
        PlannedKeysAreNotStale(scope, before, current, previous);
        ok := DeleteStaleObjects(bucket, tags, scope, deleteStale, plan, maxAttempts, before);
      }
    }
    BetweenIsCarried(scope, tags, deleteStale, before, bucket.keys);
    if ok {
      ExactIsCompleted(scope, tags, deleteStale, before, bucket.keys);
    }
  }

  lemma PlannedKeysAreNotStale(scope: Scope, keys: set<string>, current: bool, previous: bool)
    ensures StaleKeys(scope, keys, current, previous) !! PlannedKeys(scope)
  {
    forall r | r in scope.manifest
      ensures !Stale(scope, JoinKey(scope.prefix, r), current, previous)
    {
      PlannedKeysAreKept(scope, r, current, previous);
    }
  }

  // ---------- guarded deletion of a whole namespace ----------

  datatype GuardedOutcome = Retained | Deleted(objects: nat)

  ghost function CleanupKeys(keys: set<string>, prefix: string, excluded: Option<string>): set<string> {
    set k | k in keys && CleanupDeletes(k, prefix, excluded)
  }

  /** Deletes a namespace unless a competing owner's tag forbids it. */
  method GuardedDeleteNamespace(bucket: Bucket, tags: seq<string>, prefix: string, excluded: Option<string>,
                                owner: string, maxAttempts: nat)
    returns (outcome: Option<GuardedOutcome>)
    modifies bucket
    ensures (old(bucket.faulted) || outcome.None?) ==> bucket.faulted
    ensures HasCompetingOwner(tags, prefix, excluded, owner) ==>
              bucket.keys == old(bucket.keys) && (outcome.Some? ==> outcome.value == Retained)
    ensures !HasCompetingOwner(tags, prefix, excluded, owner) && outcome.Some? ==>
              var gone := CleanupKeys(old(bucket.keys), prefix, excluded);
              bucket.keys == old(bucket.keys) - gone && outcome.value == Deleted(|gone|)
    ensures old(bucket.keys) - CleanupKeys(old(bucket.keys), prefix, excluded) <= bucket.keys <= old(bucket.keys)
  {
    var tagsRead := bucket.Succeeds();
    if !tagsRead {
      return None;
    }
    if HasCompetingOwner(tags, prefix, excluded, owner) {
      return Some(Retained);
    }
    var excludedNamespace := OptionalListPrefix(excluded);
    ghost var whole := bucket.keys;
    var ok, objects := DeleteListed(bucket, NamespaceOf(prefix), key => !KeyIsExcluded(key, excludedNamespace), maxAttempts);
    assert Matching(whole, NamespaceOf(prefix), key => !KeyIsExcluded(key, excludedNamespace))
        == CleanupKeys(whole, prefix, excluded);
    return if ok then Some(Deleted(objects)) else None;
  }
}

/** A bucket, its listing pages and the paginated deletion of what a predicate selects.

    Keys are listed in code point order. Deleting a page runs concurrently with listing the next
    one; the proof is that the cursor makes the two independent. */
module Listing {
  import opened Basics

  // ---------- the order of keys ----------

  predicate Less(a: string, b: string) {
    b != "" && (a == "" || a[0] < b[0] || (a[0] == b[0] && Less(a[1..], b[1..])))
  }

  lemma {:induction false} LessIsTotal(a: string, b: string)
    ensures Less(a, b) || a == b || Less(b, a)
  {
    if a != "" && b != "" && a[0] == b[0] {
      LessIsTotal(a[1..], b[1..]);
      assert a == [a[0]] + a[1..] && b == [b[0]] + b[1..];
    }
  }

  lemma {:induction false} LessIsTransitive(a: string, b: string, c: string)
    requires Less(a, b) && Less(b, c)
    ensures Less(a, c)
  {
    if a != "" && a[0] == b[0] == c[0] {
      LessIsTransitive(a[1..], b[1..], c[1..]);
    }
  }

  lemma {:induction false} LessIsIrreflexive(a: string)
    ensures !Less(a, a)
  {
    if a != "" {
      LessIsIrreflexive(a[1..]);
    }
  }

  ghost predicate First(key: string, keys: set<string>) {
    key in keys && forall k :: k in keys && k != key ==> Less(key, k)
  }

  lemma {:induction false} FirstExists(keys: set<string>)
    requires keys != {}
    ensures exists key :: First(key, keys)
  {
    var some :| some in keys;
    var others := keys - {some};
    if others == {} {
      assert keys == {some};
      assert First(some, keys);
    } else {
      FirstExists(others);
      var first :| First(first, others);
      LessIsTotal(some, first);
      if Less(some, first) {
        forall k | k in keys && k != some
          ensures Less(some, k)
        {
          if k != first {
            LessIsTransitive(some, first, k);
          }
        }
        assert First(some, keys);
      } else {
        assert First(first, keys);
      }
    }
  }

  // ---------- what a cursor has left behind ----------

  predicate Beyond(key: string, after: Option<string>) {
    after.None? || Less(after.value, key)
  }

  ghost function Listable(keys: set<string>, prefix: string, after: Option<string>): set<string> {
    set k | k in keys && prefix <= k && Beyond(k, after)
  }

  function ToSet(keys: seq<string>): set<string> {
    set k | k in keys
  }

  predicate Distinct(keys: seq<string>) {
    forall i, j :: 0 <= i < j < |keys| ==> keys[i] != keys[j]
  }

  lemma {:induction false} DistinctCount(keys: seq<string>)
    requires Distinct(keys)
    ensures |ToSet(keys)| == |keys|
  {
    if keys != [] {
      var front, last := keys[..|keys| - 1], keys[|keys| - 1];
      DistinctCount(front);
      assert ToSet(keys) == ToSet(front) + {last};
      assert last !in ToSet(front);
    }
  }

  /** The last key of a page; `after` itself when the page is empty. */
  function Cursor(page: seq<string>, after: Option<string>): Option<string> {
    if page == [] then after else Some(page[|page| - 1])
  }

  /** `page` is a correct answer to listing `keys` under `prefix` behind `after`: ascending, and
      whatever it leaves out lies behind its last key, which only a truncated page may leave. */
  ghost predicate IsPage(page: seq<string>, truncated: bool, keys: set<string>, prefix: string, after: Option<string>) {
    && Distinct(page)
    && ToSet(page) <= Listable(keys, prefix, after)
    && (truncated ==> page != [])
    && (forall k :: k in page ==> !Beyond(k, Cursor(page, after)))
    && (forall k :: k in Listable(keys, prefix, after) && k !in page ==> truncated && Beyond(k, Cursor(page, after)))
  }

  /** `page` holds, in ascending order, what comes first in `all`; `remaining` is the rest. */
  ghost predicate Collected(page: seq<string>, remaining: set<string>, all: set<string>) {
    && remaining <= all && ToSet(page) == all - remaining
    && (forall i, j :: 0 <= i < j < |page| ==> Less(page[i], page[j]))
    && (forall i, k :: 0 <= i < |page| && k in remaining ==> Less(page[i], k))
  }

  lemma CollectFirst(page: seq<string>, remaining: set<string>, all: set<string>, first: string)
    requires Collected(page, remaining, all) && First(first, remaining)
    ensures Collected(page + [first], remaining - {first}, all)
  {
    assert ToSet(page + [first]) == ToSet(page) + {first};
  }

  lemma CollectedIsPage(page: seq<string>, remaining: set<string>, keys: set<string>, prefix: string, after: Option<string>)
    requires Collected(page, remaining, Listable(keys, prefix, after)) && (page == [] ==> remaining == {})
    ensures IsPage(page, remaining != {}, keys, prefix, after)
  {
    var all := Listable(keys, prefix, after);
    forall i, j | 0 <= i < j < |page|
      ensures page[i] != page[j]
    {
      LessIsIrreflexive(page[i]);
    }
    forall k | k in page
      ensures !Beyond(k, Cursor(page, after))
    {
      var i :| 0 <= i < |page| && page[i] == k;
      var last := page[|page| - 1];
      LessIsIrreflexive(last);
      if Less(last, k) {
        LessIsTransitive(last, k, last);
      }
    }
    forall k | k in all && k !in page
      ensures remaining != {} && Beyond(k, Cursor(page, after))
    {
      assert k !in ToSet(page);
    }
  }

  datatype DeleteResponse = Answered(failed: set<string>, retryable: bool) | RequestFailed(retryable: bool)

  /** The most keys that one delete request may name. */
  const MAX_DELETE_KEYS: nat := 1000

  /** A bucket; `faulted` tells whether any request failed, in whole or for a key, or came too late. */
  class Bucket {
    var keys: set<string>
    var faulted: bool

    /** Whether the next step is answered, before the deadline and without an error. */
    method Succeeds() returns (ok: bool)
      modifies this`faulted
      ensures faulted == (old(faulted) || !ok)
    {
      var early: bool := *;
      ok := early;
      faulted := faulted || !ok;
    }

    /** One list request; the page may stop anywhere, or the request fails. `lost` is what a
        deletion under way has already removed when the request is answered. */
    method List(prefix: string, after: Option<string>, lost: set<string>)
      returns (ok: bool, page: seq<string>, truncated: bool)
      modifies this`faulted
      ensures ok ==> IsPage(page, truncated, keys - lost, prefix, after)
      ensures faulted == (old(faulted) || !ok)
    {
      var remaining := set k | k in keys - lost && prefix <= k && Beyond(k, after);
      ghost var all := remaining;
      page := [];
      var more := true;
      while remaining != {} && more
        invariant Collected(page, remaining, all)
        invariant page == [] ==> more
        invariant faulted == old(faulted)
        decreases |remaining|
      {
        FirstExists(remaining);
        var first :| first in remaining && forall k :: k in remaining && k != first ==> Less(first, k);
        CollectFirst(page, remaining, all, first);
        page, remaining := page + [first], remaining - {first};
        more := *;
      }
      truncated := remaining != {};
      ok := Succeeds();
      CollectedIsPage(page, remaining, keys - lost, prefix, after);
    }

    /** One delete request. Its answer names the keys that failed; when the request itself fails,
        any part of the keys may be gone. */
    method DeleteObjects(pending: set<string>) returns (response: DeleteResponse)
      requires |pending| <= MAX_DELETE_KEYS
      modifies this
      ensures faulted == (old(faulted) || response.RequestFailed? || response.failed != {})
      ensures response.Answered? ==> response.failed <= pending && keys == old(keys) - (pending - response.failed)
      ensures old(keys) - pending <= keys <= old(keys)
    {
      var failed: set<string> :| failed <= pending;
      var answered: bool, retryable: bool := *, *;
      keys := keys - (pending - failed);
      faulted := faulted || !answered || failed != {};
      if answered {
        return Answered(failed, retryable);
      }
      return RequestFailed(retryable);
    }
  }

  // ---------- deleting a list of keys ----------

  const CHUNK_KEYS: nat := 1000

  /** Deletes one chunk, retrying only what the service reports as failed. */
  method DeleteKeyChunk(bucket: Bucket, chunk: set<string>, maxAttempts: nat) returns (ok: bool, deleted: nat)
    requires |chunk| <= MAX_DELETE_KEYS
    modifies bucket
    ensures (old(bucket.faulted) || !ok) ==> bucket.faulted
    ensures ok ==> bucket.keys == old(bucket.keys) - chunk && deleted == |chunk|
    ensures old(bucket.keys) - chunk <= bucket.keys <= old(bucket.keys)
  {
    var pending := chunk;
    deleted := 0;
    var attempt, attempts := 1, Max(maxAttempts, 1);
    while attempt <= attempts
      invariant pending <= chunk && deleted + |pending| == |chunk|
      invariant old(bucket.faulted) || attempt > 1 ==> bucket.faulted
      invariant old(bucket.keys) - chunk <= bucket.keys <= old(bucket.keys) - (chunk - pending)
    {
      var beforeDeadline := bucket.Succeeds();
      if !beforeDeadline {
        return false, deleted;
      }
      var response := bucket.DeleteObjects(pending);
      if response.Answered? {
        assert pending == response.failed + (pending - response.failed);
        deleted := deleted + (|pending| - |response.failed|);
        pending := response.failed;
        if pending == {} {
          return true, deleted;
        }
      }
      if !response.retryable || attempt == attempts {
        return false, deleted;
      }
      var retrySucceeds := bucket.Succeeds();
      if !retrySucceeds {
        return false, deleted;
      }
      attempt := attempt + 1;
    }
    return false, deleted;
  }

  lemma {:induction false} NoMoreThanListed(keys: seq<string>)
    ensures |ToSet(keys)| <= |keys|
  {
    if keys != [] {
      var front, last := keys[..|keys| - 1], keys[|keys| - 1];
      NoMoreThanListed(front);
      assert ToSet(keys) == ToSet(front) + {last};
    }
  }

  lemma ChunkOfKeys(keys: seq<string>, i: nat, next: nat)
    requires i <= next <= |keys|
    ensures ToSet(keys[..next]) == ToSet(keys[..i]) + ToSet(keys[i..next])
    ensures ToSet(keys[..next]) <= ToSet(keys)
    ensures |ToSet(keys[i..next])| <= next - i
    ensures Distinct(keys) ==> |ToSet(keys[i..next])| == next - i
  {
    assert keys[..next] == keys[..i] + keys[i..next];
    assert keys == keys[..next] + keys[next..];
    NoMoreThanListed(keys[i..next]);
    if Distinct(keys) {
      DistinctCount(keys[i..next]);
    }
  }

  /** Deletes `keys` in chunks; a failed chunk stops the deletion. */
  method DeleteKeys(bucket: Bucket, keys: seq<string>, maxAttempts: nat) returns (ok: bool, deleted: nat)
    modifies bucket
    ensures ok ==> bucket.keys == old(bucket.keys) - ToSet(keys)
    ensures ok && Distinct(keys) ==> deleted == |keys|
    ensures (old(bucket.faulted) || !ok) ==> bucket.faulted
    ensures old(bucket.keys) - ToSet(keys) <= bucket.keys <= old(bucket.keys)
  {
    deleted := 0;
    var i := 0;
    while i < |keys|
      invariant 0 <= i <= |keys| && (Distinct(keys) ==> deleted == i)
      invariant bucket.keys == old(bucket.keys) - ToSet(keys[..i])
      invariant old(bucket.faulted) ==> bucket.faulted
    {
      var next := Min(i + CHUNK_KEYS, |keys|);
      ChunkOfKeys(keys, i, next);
      var done, count := DeleteKeyChunk(bucket, ToSet(keys[i..next]), maxAttempts);
      if !done {
        return false, deleted + count;
      }
      deleted := deleted + count;
      i := next;
    }
    assert keys[..i] == keys;
    return true, deleted;
  }

  // ---------- deleting what a listing selects ----------

  ghost predicate Selected(key: string, prefix: string, shouldDelete: string -> bool) {
    prefix <= key && shouldDelete(key)
  }

  /** The selected keys that a cursor has left behind. */
  ghost function Passed(keys: set<string>, prefix: string, shouldDelete: string -> bool, after: Option<string>): set<string> {
    set k | k in keys && Selected(k, prefix, shouldDelete) && !Beyond(k, after)
  }

  ghost function Matching(keys: set<string>, prefix: string, shouldDelete: string -> bool): set<string> {
    set k | k in keys && Selected(k, prefix, shouldDelete)
  }

  method Filter(page: seq<string>, shouldDelete: string -> bool) returns (selected: seq<string>)
    requires Distinct(page)
    ensures Distinct(selected)
    ensures forall k :: k in selected <==> k in page && shouldDelete(k)
  {
    selected := [];
    for i := 0 to |page|
      invariant Distinct(selected)
      invariant forall k :: k in selected <==> k in page[..i] && shouldDelete(k)
    {
      assert page[i] !in page[..i];
      if shouldDelete(page[i]) {
        selected := selected + [page[i]];
      }
    }
    assert page[..|page|] == page;
  }

  /** Drives one pagination loop; the cursor is the last key of the previous page. */
  class Pager {
    const bucket: Bucket
    const prefix: string
    var startAfter: Option<string>
    var finished: bool

    constructor (bucket: Bucket, prefix: string)
      ensures this.bucket == bucket && this.prefix == prefix && startAfter == None && !finished
    {
      this.bucket, this.prefix, startAfter, finished := bucket, prefix, None, false;
    }

    method NextPage(lost: set<string>) returns (ok: bool, page: Option<seq<string>>)
      modifies this, bucket`faulted
      ensures bucket.faulted == (old(bucket.faulted) || !ok)
      ensures old(finished) ==> ok && page == None && finished
      ensures !old(finished) && ok ==> page.Some?
      ensures ok && page.Some? ==>
                && IsPage(page.value, !finished, bucket.keys - lost, prefix, old(startAfter))
                && (!finished ==> startAfter == Cursor(page.value, old(startAfter)))
    {
      if finished {
        return true, None;
      }
      var listed, keys, truncated := bucket.List(prefix, startAfter, lost);
      startAfter := None;
      if !listed {
        return false, None;
      }
      if !truncated || keys == [] {
        finished := true;
      } else {
        startAfter := Some(keys[|keys| - 1]);
      }
      return true, Some(keys);
    }
  }

  lemma PassedStaysPassed(page: seq<string>, truncated: bool, keys: set<string>, prefix: string,
                          after: Option<string>, k: string)
    requires IsPage(page, truncated, keys, prefix, after) && !Beyond(k, after)
    ensures !Beyond(k, Cursor(page, after))
  {
    if page != [] {
      var last := page[|page| - 1];
      assert last in ToSet(page);
      if Less(last, k) {
        LessIsTransitive(after.value, last, k);
      }
    }
  }

  /** Behind a page's cursor lies what lay behind the previous one, and the page. */
  lemma PageCovers(page: seq<string>, truncated: bool, keys: set<string>, prefix: string, after: Option<string>, k: string)
    requires IsPage(page, truncated, keys, prefix, after) && k in keys && prefix <= k
    ensures !Beyond(k, Cursor(page, after)) <==> !Beyond(k, after) || k in page
    ensures !truncated ==> !Beyond(k, after) || k in page
  {
    if !Beyond(k, after) {
      PassedStaysPassed(page, truncated, keys, prefix, after, k);
    } else {
      assert k in Listable(keys, prefix, after);
    }
  }

  /** Deleting what a page selects takes the deletion as far as the page's cursor, and all the way
      when the page is the last one. */
  lemma PageStep(whole: set<string>, keys: set<string>, prefix: string, shouldDelete: string -> bool,
                 page: seq<string>, truncated: bool, after: Option<string>, selected: seq<string>)
    requires keys == whole - Passed(whole, prefix, shouldDelete, after)
    requires IsPage(page, truncated, keys, prefix, after)
    requires forall k :: k in selected <==> k in page && shouldDelete(k)
    ensures ToSet(selected) <= keys && ToSet(selected) <= Matching(whole, prefix, shouldDelete)
    ensures forall k :: k in selected ==> !Beyond(k, Cursor(page, after))
    ensures truncated ==> keys - ToSet(selected) == whole - Passed(whole, prefix, shouldDelete, Cursor(page, after))
    ensures !truncated ==> keys - ToSet(selected) == whole - Matching(whole, prefix, shouldDelete)
  {
    forall k | k in selected
      ensures k in keys && k in Matching(whole, prefix, shouldDelete) && Beyond(k, after)
    {
      assert k in ToSet(page);
    }
    forall k | k in whole && Selected(k, prefix, shouldDelete)
      ensures k in page <==> k in keys && !(truncated && Beyond(k, Cursor(page, after)))
      ensures !Beyond(k, after) ==> !Beyond(k, Cursor(page, after))
    {
      assert k in page <==> k in ToSet(page);
      if !Beyond(k, after) {
        PassedStaysPassed(page, truncated, keys, prefix, after, k);
      } else {
        assert k in keys && k in Listable(keys, prefix, after);
      }
    }
  }

  /** A page stays correct when only keys behind its cursor are deleted. */
  lemma PageUnaffected(page: seq<string>, truncated: bool, keys: set<string>, lost: set<string>,
                       prefix: string, after: Option<string>)
    requires IsPage(page, truncated, keys, prefix, after)
    requires forall k :: k in lost ==> !Beyond(k, after)
    ensures IsPage(page, truncated, keys - lost, prefix, after)
  {
    assert Listable(keys - lost, prefix, after) == Listable(keys, prefix, after);
  }

  lemma CursorAdvances(page: seq<string>, truncated: bool, keys: set<string>, whole: set<string>,
                       prefix: string, after: Option<string>)
    requires IsPage(page, truncated, keys, prefix, after) && page != [] && keys <= whole
    ensures |Listable(whole, prefix, Cursor(page, after))| < |Listable(whole, prefix, after)|
  {
    var last := page[|page| - 1];
    var now, behind := Listable(whole, prefix, after), Listable(whole, prefix, Cursor(page, after));
    assert last in ToSet(page) && last in now && last !in behind;
    forall k | k in behind
      ensures k in now
    {
      if !Beyond(k, after) {
        PassedStaysPassed(page, truncated, keys, prefix, after, k);
      }
    }
    assert behind <= now - {last};
    Fewer(behind, now - {last});
  }

  /** Deletes the selected keys of one page while the next page is listed: the listing sees any
      part of them gone. */
  method DeleteAndList(pager: Pager, selected: seq<string>, maxAttempts: nat)
    returns (ok: bool, deleted: nat, next: Option<seq<string>>)
    requires Distinct(selected) && !pager.finished
    requires forall k :: k in selected ==> !Beyond(k, pager.startAfter)
    modifies pager, pager.bucket
    ensures (old(pager.bucket.faulted) || !ok) ==> pager.bucket.faulted
    ensures ok ==>
              && pager.bucket.keys == old(pager.bucket.keys) - ToSet(selected) && deleted == |selected|
              && next.Some?
              && IsPage(next.value, !pager.finished, pager.bucket.keys, pager.prefix, old(pager.startAfter))
              && (!pager.finished ==> pager.startAfter == Cursor(next.value, old(pager.startAfter)))
    ensures old(pager.bucket.keys) - ToSet(selected) <= pager.bucket.keys <= old(pager.bucket.keys)
  {
    var lost: set<string> :| lost <= ToSet(selected);
    var listed, done;
    listed, next := pager.NextPage(lost);
    done, deleted := DeleteKeys(pager.bucket, selected, maxAttempts);
    ok := done && listed;
    if ok {
      ghost var seen := old(pager.bucket.keys) - lost;
      assert pager.bucket.keys == seen - ToSet(selected);
      PageUnaffected(next.value, !pager.finished, seen, ToSet(selected), pager.prefix, old(pager.startAfter));
    }
  }

  /** Exactly `gone` was deleted, and counted. */
  ghost predicate Swept(whole: set<string>, keys: set<string>, deleted: nat, gone: set<string>) {
    keys == whole - gone && deleted == |gone| && gone <= whole
  }

  lemma SweptMore(whole: set<string>, keys: set<string>, deleted: nat, before: set<string>,
                  more: set<string>, gone: set<string>)
    requires Swept(whole, keys, deleted, before) && more <= keys
    requires gone <= whole && keys - more == whole - gone
    ensures Swept(whole, keys - more, deleted + |more|, gone)
  {
    forall k
      ensures k in gone <==> k in before + more
    {
      assert k in keys - more <==> k in whole - gone;
    }
    assert gone == before + more;
  }

  lemma SweepStep(whole: set<string>, keys: set<string>, prefix: string, shouldDelete: string -> bool,
                  page: seq<string>, truncated: bool, after: Option<string>, selected: seq<string>, deleted: nat)
    requires Swept(whole, keys, deleted, Passed(whole, prefix, shouldDelete, after))
    requires IsPage(page, truncated, keys, prefix, after) && Distinct(selected)
    requires forall k :: k in selected <==> k in page && shouldDelete(k)
    ensures ToSet(selected) <= Matching(whole, prefix, shouldDelete)
    ensures forall k :: k in selected ==> !Beyond(k, Cursor(page, after))
    ensures var gone := if truncated then Passed(whole, prefix, shouldDelete, Cursor(page, after))
                        else Matching(whole, prefix, shouldDelete);
      Swept(whole, keys - ToSet(selected), deleted + |selected|, gone)
  {
    PageStep(whole, keys, prefix, shouldDelete, page, truncated, after, selected);
    DistinctCount(selected);
    var gone := if truncated then Passed(whole, prefix, shouldDelete, Cursor(page, after))
                else Matching(whole, prefix, shouldDelete);
    SweptMore(whole, keys, deleted, Passed(whole, prefix, shouldDelete, after), ToSet(selected), gone);
  }

  /** Deletes every key under `prefix` that the predicate selects, page by page. */
  method DeleteListed(bucket: Bucket, prefix: string, shouldDelete: string -> bool, maxAttempts: nat)
    returns (ok: bool, deleted: nat)
    modifies bucket
    ensures (old(bucket.faulted) || !ok) ==> bucket.faulted
    ensures ok ==> Swept(old(bucket.keys), bucket.keys, deleted, Matching(old(bucket.keys), prefix, shouldDelete))
    ensures old(bucket.keys) - Matching(old(bucket.keys), prefix, shouldDelete) <= bucket.keys <= old(bucket.keys)
  {
    ghost var whole, after := bucket.keys, None;
    var pager := new Pager(bucket, prefix);
    var listed, first := pager.NextPage({});
    if !listed {
      return false, 0;
    }
    assert whole - {} == whole;
    var page := first.value;
    deleted := 0;
    while true
      invariant pager.bucket == bucket && pager.prefix == prefix && fresh(pager)
      invariant old(bucket.faulted) ==> bucket.faulted
      invariant Swept(whole, bucket.keys, deleted, Passed(whole, prefix, shouldDelete, after))
      invariant IsPage(page, !pager.finished, bucket.keys, prefix, after)
      invariant !pager.finished ==> pager.startAfter == Cursor(page, after)
      decreases |Listable(whole, prefix, after)|
    {
      var selected := Filter(page, shouldDelete);
      SweepStep(whole, bucket.keys, prefix, shouldDelete, page, !pager.finished, after, selected, deleted);
      if pager.finished {
        var done, count := DeleteKeys(bucket, selected, maxAttempts);
        return done, deleted + count;
      }
      CursorAdvances(page, true, bucket.keys, whole, prefix, after);
      var done, count, next := DeleteAndList(pager, selected, maxAttempts);
      deleted := deleted + count;
      if !done {
        return false, deleted;
      }
      after := Cursor(page, after);
      page := next.value;
    }
  }
}

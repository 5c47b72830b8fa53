/** Destination namespaces, ownership tags and the guard in front of whole-namespace deletion.

    A namespace is a slash-terminated key prefix; the bucket root is the empty one. The lemmas
    say what the string comparisons mean for the unbounded sets of keys behind them. */
module Namespace {
  import opened Basics

  const OWNER_TAG_BASE := "aws-cdk:cr-owned"

  datatype Relation = Same | PreviousContainsCurrent | CurrentContainsPrevious | Disjoint

  // ---------- canonical forms ----------

  predicate EndsWithSlash(s: string) {
    s != "" && s[|s| - 1] == '/'
  }

  function CanonicalNamespace(prefix: string): string {
    if prefix == "" || prefix == "/" then ""
    else if EndsWithSlash(prefix) then prefix
    else prefix + "/"
  }

  function ListPrefix(prefix: string): Option<string> {
    if prefix == "" then None
    else Some(if EndsWithSlash(prefix) then prefix else prefix + "/")
  }

  function OptionalListPrefix(prefix: Option<string>): Option<string> {
    match prefix
    case None => None
    case Some(p) => ListPrefix(p)
  }

  function NamespaceOf(prefix: string): string {
    match ListPrefix(prefix)
    case None => ""
    case Some(p) => p
  }

  predicate NamespaceContains(parent: string, child: string) {
    parent == "" || parent <= child
  }

  predicate NamespacesOverlap(left: string, right: string) {
    NamespaceContains(left, right) || NamespaceContains(right, left)
  }

  function NamespaceRelation(previous: string, current: string): Relation {
    var p, c := CanonicalNamespace(previous), CanonicalNamespace(current);
    if p == c then Same
    else if p == "" || p <= c then PreviousContainsCurrent
    else if c == "" || c <= p then CurrentContainsPrevious
    else Disjoint
  }

  predicate KeyIsExcluded(key: string, excluded: Option<string>) {
    excluded.Some? && excluded.value <= key
  }

  // ---------- what the comparisons mean ----------

  predicate StartsWith(key: string, prefix: string) {
    prefix <= key
  }

  /** All keys, of any length, that lie in a namespace. */
  ghost function Keys(ns: string): iset<string> {
    iset key: string | StartsWith(key, ns)
  }

  lemma ContainmentIsExact(parent: string, child: string)
    ensures NamespaceContains(parent, child) <==> Keys(child) <= Keys(parent)
  {
    if Keys(child) <= Keys(parent) {
      assert child in Keys(child);
    }
  }

  /** Two prefixes of one key are prefixes of each other. */
  lemma PrefixesCompare(a: string, b: string, key: string)
    requires a <= key && b <= key
    ensures a <= b || b <= a
  {
    assert a == key[..|a|] && b == key[..|b|];
  }

  lemma OverlapIsExact(left: string, right: string)
    ensures NamespacesOverlap(left, right) <==> Keys(left) * Keys(right) != iset{}
  {
    if NamespacesOverlap(left, right) {
      var longer := if |left| <= |right| then right else left;
      assert longer in Keys(left) * Keys(right);
    } else if key :| key in Keys(left) * Keys(right) {
      PrefixesCompare(left, right, key);
    }
  }

  /** The relation of two prefixes is the relation of the key sets they canonically denote. */
  lemma RelationIsExact(previous: string, current: string)
    ensures var p, c := Keys(CanonicalNamespace(previous)), Keys(CanonicalNamespace(current));
      match NamespaceRelation(previous, current)
      case Same => p == c
      case PreviousContainsCurrent => c < p
      case CurrentContainsPrevious => p < c
      case Disjoint => p !! c
  {
    var p, c := CanonicalNamespace(previous), CanonicalNamespace(current);
    ContainmentIsExact(p, c);
    ContainmentIsExact(c, p);
    OverlapIsExact(p, c);
  }

  /** The keys a deployment to `prefix` writes and lists are keys of its canonical namespace, and
      they are all of them except for the prefix `/`. */
  lemma ListedWithinCanonical(prefix: string)
    ensures Keys(NamespaceOf(prefix)) <= Keys(CanonicalNamespace(prefix))
    ensures Keys(NamespaceOf(prefix)) == Keys(CanonicalNamespace(prefix)) <==> prefix != "/"
  {
    if prefix == "/" {
      assert "" in Keys("") && "" !in Keys("/");
    }
  }

  /** The keys of a prefix, character by character: the prefix itself has to end in a slash, or a
      slash has to follow it. */
  predicate LiesUnder(key: string, prefix: string)
    requires prefix != ""
  {
    prefix <= key && (prefix[|prefix| - 1] == '/' || (|prefix| < |key| && key[|prefix|] == '/'))
  }

  /** What both forms of a prefix denote. */
  lemma KeysOfPrefix(prefix: string, key: string)
    ensures key in Keys(NamespaceOf(prefix)) <==> prefix == "" || LiesUnder(key, prefix)
    ensures key in Keys(CanonicalNamespace(prefix)) <==> prefix == "" || prefix == "/" || LiesUnder(key, prefix)
  {
    if prefix != "" && prefix[|prefix| - 1] != '/' {
      assert prefix + "/" <= key <==> LiesUnder(key, prefix) by {
        if LiesUnder(key, prefix) {
          assert key[..|prefix| + 1] == prefix + "/";
        }
      }
    }
  }

  /** A prefix that goes on with anything but a slash denotes a sibling. */
  lemma SiblingsAreDisjoint(prefix: string, c: char, rest: string)
    requires prefix != "" && prefix[|prefix| - 1] != '/' && c != '/'
    ensures NamespaceRelation(prefix, prefix + [c] + rest) == Disjoint
    ensures NamespaceRelation(prefix + [c] + rest, prefix) == Disjoint
    ensures Keys(NamespaceOf(prefix)) !! Keys(NamespaceOf(prefix + [c] + rest))
  {
    var sibling := prefix + [c] + rest;
    forall key
      ensures !(key in Keys(CanonicalNamespace(prefix)) && key in Keys(CanonicalNamespace(sibling)))
    {
      KeysOfPrefix(prefix, key);
      KeysOfPrefix(sibling, key);
      assert sibling[|prefix|] == c;
    }
    RelationIsExact(prefix, sibling);
    RelationIsExact(sibling, prefix);
    assert CanonicalNamespace(prefix) in Keys(CanonicalNamespace(prefix));
    assert CanonicalNamespace(sibling) in Keys(CanonicalNamespace(sibling));
  }

  // ---------- ownership tags ----------

  /** Splits at the last colon. */
  function RSplitOnce(s: string): (parts: Option<(string, string)>)
    ensures parts.Some? ==> s == parts.value.0 + ":" + parts.value.1 && ':' !in parts.value.1
    ensures parts.None? <==> ':' !in s
  {
    if s == "" then None
    else
      var front, last := s[..|s| - 1], s[|s| - 1];
      if last == ':' then Some((front, ""))
      else
        match RSplitOnce(front)
        case None => None
        case Some((left, right)) => Some((left, right + [last]))
  }

  /** A tag's (prefix, owner id), if it is an ownership tag. */
  function ParseOwnerTag(tag: string): Option<(string, string)> {
    var base := OWNER_TAG_BASE + ":";
    if !(base <= tag) then None
    else
      var suffix := tag[|base|..];
      if suffix == "" then None
      else
        match RSplitOnce(suffix)
        case Some((prefix, id)) => if id != "" then Some((prefix, id)) else None
        case None => Some(("", suffix))
  }

  function OwnerPrefix(prefix: Option<string>): string {
    if prefix == Some("/") || prefix.None? then "" else prefix.value
  }

  /** The tag key that the construct puts on the destination bucket. */
  function OwnerTag(prefix: Option<string>, id: string): string {
    var p := OwnerPrefix(prefix);
    OWNER_TAG_BASE + (if p != "" then ":" + p else "") + ":" + id
  }

  lemma {:induction false} RSplitUndoesJoin(left: string, right: string)
    requires ':' !in right
    ensures RSplitOnce(left + ":" + right) == Some((left, right))
  {
    var s := left + ":" + right;
    if right == "" {
      assert s[..|s| - 1] == left;
    } else {
      var front, last := right[..|right| - 1], right[|right| - 1];
      RSplitUndoesJoin(left, front);
      assert s[..|s| - 1] == left + ":" + front && s[|s| - 1] == last && last in right;
      assert front + [last] == right;
    }
  }

  /** The provider reads back what the construct wrote, for every prefix, exactly when the owner
      id is not empty and has no colon. */
  lemma OwnerTagRoundTrip(prefix: Option<string>, id: string)
    ensures ParseOwnerTag(OwnerTag(prefix, id)) == Some((OwnerPrefix(prefix), id)) <==> id != "" && ':' !in id
  {
    var tag, base, p := OwnerTag(prefix, id), OWNER_TAG_BASE + ":", OwnerPrefix(prefix);
    var suffix := if p == "" then id else p + ":" + id;
    assert tag == base + suffix;
    assert tag[|base|..] == suffix;
    if ':' !in id && p != "" {
      RSplitUndoesJoin(p, id);
    }
  }

  /** The tag that the construct writes for a prefix, and the keys that it claims: those of the
      canonical namespace. */
  lemma TagClaimsTheNamespace(prefix: string, id: string)
    ensures OwnerTag(Some(prefix), id) ==
              (if prefix == "" || prefix == "/" then "aws-cdk:cr-owned:" + id else "aws-cdk:cr-owned:" + prefix + ":" + id)
    ensures Keys(NamespaceOf(OwnerPrefix(Some(prefix)))) == Keys(CanonicalNamespace(prefix))
    ensures OwnerTag(None, id) == OwnerTag(Some(""), id)
  {
    assert OWNER_TAG_BASE + (":" + prefix) + ":" + id == "aws-cdk:cr-owned:" + prefix + ":" + id;
    assert OWNER_TAG_BASE + "" + ":" + id == "aws-cdk:cr-owned:" + id;
  }

  /** Exactly these tags are read as ownership tags. */
  lemma ParsedTagIsExact(tag: string, prefix: string, id: string)
    ensures ParseOwnerTag(tag) == Some((prefix, id)) <==>
              && id != "" && ':' !in id
              && (tag == "aws-cdk:cr-owned:" + prefix + ":" + id || (prefix == "" && tag == "aws-cdk:cr-owned:" + id))
  {
    var base := OWNER_TAG_BASE + ":";
    assert base == "aws-cdk:cr-owned:";
    if ParseOwnerTag(tag) == Some((prefix, id)) {
      var suffix := tag[|base|..];
      assert tag == base + suffix;
      assert base + (prefix + ":" + id) == base + prefix + ":" + id;
    } else if id != "" && ':' !in id && tag == base + prefix + ":" + id {
      assert tag[|base|..] == prefix + ":" + id;
      RSplitUndoesJoin(prefix, id);
    }
  }

  /** Different deployments in a bucket carry different tags. */
  lemma OwnerTagIsInjective(p: Option<string>, i: string, q: Option<string>, j: string)
    requires i != "" && ':' !in i && j != "" && ':' !in j
    requires OwnerTag(p, i) == OwnerTag(q, j)
    ensures OwnerPrefix(p) == OwnerPrefix(q) && i == j
  {
    OwnerTagRoundTrip(p, i);
    OwnerTagRoundTrip(q, j);
  }

  /** The length of a string in UTF-16 code units. */
  function Utf16Length(s: string): nat {
    if s == "" then 0
    else Utf16Length(s[..|s| - 1]) + (if s[|s| - 1] as int >= 0x1_0000 then 2 else 1)
  }

  lemma {:induction false} Utf16LengthOfConcat(s: string, t: string)
    ensures Utf16Length(s + t) == Utf16Length(s) + Utf16Length(t)
  {
    if t == "" {
      assert s + t == s;
    } else {
      assert (s + t)[..|s + t| - 1] == s + t[..|t| - 1];
      Utf16LengthOfConcat(s, t[..|t| - 1]);
    }
  }

  lemma {:induction false} Utf16LengthOfBmp(s: string)
    requires forall i :: 0 <= i < |s| ==> s[i] as int < 0x1_0000
    ensures Utf16Length(s) == |s|
  {
    if s != "" {
      Utf16LengthOfBmp(s[..|s| - 1]);
    }
  }

  const MAX_TAG_KEY_UNITS: nat := 128
  const MAX_PREFIX_UNITS: nat := 128 - 16 - 1 - 16 - 1

  /** With a 16-unit owner id, the prefix limit is exactly what S3's limit on tag keys leaves. */
  lemma PrefixLimitIsTight(prefix: Option<string>, id: string)
    requires Utf16Length(id) == 16
    ensures Utf16Length(OwnerTag(prefix, id)) <= MAX_TAG_KEY_UNITS <==>
              Utf16Length(OwnerPrefix(prefix)) <= MAX_PREFIX_UNITS
  {
    var p := OwnerPrefix(prefix);
    var middle := if p != "" then ":" + p else "";
    Utf16LengthOfBmp(OWNER_TAG_BASE);
    Utf16LengthOfBmp(":");
    Utf16LengthOfConcat(":", p);
    Utf16LengthOfConcat(OWNER_TAG_BASE, middle);
    Utf16LengthOfConcat(OWNER_TAG_BASE + middle, ":");
    Utf16LengthOfConcat(OWNER_TAG_BASE + middle + ":", id);
  }

  // ---------- the guard ----------

  predicate OwnerTagOverlapsCleanup(tag: string, prefix: string, excluded: Option<string>, owner: string) {
    match ParseOwnerTag(tag)
    case None => false
    case Some((ownerPrefix, id)) =>
      && owner != id
      && NamespacesOverlap(NamespaceOf(ownerPrefix), NamespaceOf(prefix))
      && !(excluded.Some? && NamespaceContains(NamespaceOf(excluded.value), NamespaceOf(ownerPrefix)))
  }

  predicate HasCompetingOwner(tags: seq<string>, prefix: string, excluded: Option<string>, owner: string) {
    exists i :: 0 <= i < |tags| && OwnerTagOverlapsCleanup(tags[i], prefix, excluded, owner)
  }

  /** Whether a namespace cleanup deletes `key` when the bucket holds it. */
  predicate CleanupDeletes(key: string, prefix: string, excluded: Option<string>) {
    NamespaceOf(prefix) <= key && !KeyIsExcluded(key, OptionalListPrefix(excluded))
  }

  lemma CleanupIsExact(key: string, prefix: string, excluded: Option<string>)
    ensures CleanupDeletes(key, prefix, excluded) <==>
              && (prefix == "" || LiesUnder(key, prefix))
              && (excluded.None? || excluded.value == "" || !LiesUnder(key, excluded.value))
  {
    KeysOfPrefix(prefix, key);
    if excluded.Some? {
      KeysOfPrefix(excluded.value, key);
    }
  }

  /** Some tag gives `key` to an owner other than `owner`. */
  ghost predicate OwnedByOther(key: string, tag: string, owner: string) {
    var parsed := ParseOwnerTag(tag);
    parsed.Some? && parsed.value.1 != owner && key in Keys(NamespaceOf(parsed.value.0))
  }

  /** No key that the cleanup could ever delete belongs to another owner. */
  ghost predicate SafeCleanup(tags: seq<string>, prefix: string, excluded: Option<string>, owner: string) {
    forall i, key :: 0 <= i < |tags| && CleanupDeletes(key, prefix, excluded) ==> !OwnedByOther(key, tags[i], owner)
  }

  /** The exclusion spares the whole cleanup namespace. */
  predicate NothingToDelete(prefix: string, excluded: Option<string>) {
    excluded.Some? && excluded.value != "" && NamespaceOf(excluded.value) <= NamespaceOf(prefix)
  }

  /** One tag is no danger exactly when the guard lets it pass, or when nothing is deleted at all. */
  lemma TagIsDecided(tag: string, prefix: string, excluded: Option<string>, owner: string)
    requires excluded != Some("")
    ensures (forall key :: CleanupDeletes(key, prefix, excluded) ==> !OwnedByOther(key, tag, owner)) <==>
              !OwnerTagOverlapsCleanup(tag, prefix, excluded, owner) || NothingToDelete(prefix, excluded)
  {
    var parsed := ParseOwnerTag(tag);
    if parsed.Some? && parsed.value.1 != owner {
      var theirs, ours := NamespaceOf(parsed.value.0), NamespaceOf(prefix);
      if OwnerTagOverlapsCleanup(tag, prefix, excluded, owner) && !NothingToDelete(prefix, excluded) {
        var longer := if |theirs| <= |ours| then ours else theirs;
        assert CleanupDeletes(longer, prefix, excluded) && OwnedByOther(longer, tag, owner);
      } else {
        forall key | CleanupDeletes(key, prefix, excluded)
          ensures !OwnedByOther(key, tag, owner)
        {
          if theirs <= key {
            PrefixesCompare(theirs, ours, key);
          }
        }
      }
    }
  }

  /** What the guard decides, over all tags and all keys. */
  lemma GuardIsExact(tags: seq<string>, prefix: string, excluded: Option<string>, owner: string)
    requires excluded != Some("")
    ensures SafeCleanup(tags, prefix, excluded, owner) <==>
              !HasCompetingOwner(tags, prefix, excluded, owner) || NothingToDelete(prefix, excluded)
  {
    forall i | 0 <= i < |tags|
      ensures (forall key :: CleanupDeletes(key, prefix, excluded) ==> !OwnedByOther(key, tags[i], owner)) <==>
                !OwnerTagOverlapsCleanup(tags[i], prefix, excluded, owner) || NothingToDelete(prefix, excluded)
    {
      TagIsDecided(tags[i], prefix, excluded, owner);
    }
    if SafeCleanup(tags, prefix, excluded, owner) {
      forall i | 0 <= i < |tags|
        ensures forall key :: CleanupDeletes(key, prefix, excluded) ==> !OwnedByOther(key, tags[i], owner)
      {
      }
    }
  }

  /** A guarded cleanup that proceeds is safe, except that an exclusion of the root namespace
      passes the guard while the deletion then excludes nothing: that one is safe exactly when it
      would also pass without the exclusion. */
  lemma PassedGuardIsSafe(tags: seq<string>, prefix: string, excluded: Option<string>, owner: string)
    requires !HasCompetingOwner(tags, prefix, excluded, owner)
    ensures SafeCleanup(tags, prefix, excluded, owner) <==>
              excluded != Some("") || !HasCompetingOwner(tags, prefix, None, owner)
  {
    if excluded == Some("") {
      assert forall key :: CleanupDeletes(key, prefix, excluded) <==> CleanupDeletes(key, prefix, None);
      GuardIsExact(tags, prefix, None, owner);
      assert SafeCleanup(tags, prefix, excluded, owner) <==> SafeCleanup(tags, prefix, None, owner);
    } else {
      GuardIsExact(tags, prefix, excluded, owner);
    }
  }

  /** A bucket where excluding the root passes the guard and the cleanup is not safe. */
  lemma RootExclusionIsUnsafe()
    ensures var tags := [OwnerTag(Some("site"), "bob")];
            && !HasCompetingOwner(tags, "site", Some(""), "amy")
            && CleanupDeletes("site/index.html", "site", Some(""))
            && OwnedByOther("site/index.html", tags[0], "amy")
  {
    OwnerTagRoundTrip(Some("site"), "bob");
  }
}

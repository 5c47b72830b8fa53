/** The order in which a deployment's sources apply: each source keeps only its last occurrence.

    `AddSource` edits the list in place. The list is proved to be the last occurrences of
    everything added so far, and to deploy the same contents as the full sequence would. */
module SourceOrder {
  import opened Basics

  /** A bound source. Objects are compared by identity first. */
  class Config {
    const bucketName: string
    const zipObjectKey: string
    const catalogVersion: Option<nat>
    const catalogSha256: Option<string>
    const hasMarkers: bool

    constructor (bucketName: string, zipObjectKey: string, catalogVersion: Option<nat>, catalogSha256: Option<string>,
                 hasMarkers: bool)
    {
      this.bucketName, this.zipObjectKey, this.hasMarkers := bucketName, zipObjectKey, hasMarkers;
      this.catalogVersion, this.catalogSha256 := catalogVersion, catalogSha256;
    }
  }

  /** A source object and what binding it gives. */
  class Source {
    const config: Config

    constructor (config: Config)
      ensures this.config == config
    {
      this.config := config;
    }
  }

  predicate SourceConfigEqual(a: Config, b: Config) {
    && a.bucketName == b.bucketName
    && a.zipObjectKey == b.zipObjectKey
    && a.catalogVersion == b.catalogVersion
    && a.catalogSha256 == b.catalogSha256
    && !a.hasMarkers && !b.hasMarkers
  }

  predicate Equivalent(a: Config, b: Config) {
    a == b || SourceConfigEqual(a, b)
  }

  // ---------- last occurrences ----------

  predicate OccursBehind(s: seq<Config>, i: nat)
    requires i < |s|
  {
    exists j :: i < j < |s| && Equivalent(s[i], s[j])
  }

  /** The elements from position `i` on that have no equivalent behind them, in order. */
  function LastOccurrences(s: seq<Config>, i: nat): seq<Config>
    requires i <= |s|
    decreases |s| - i
  {
    if i == |s| then []
    else if OccursBehind(s, i) then LastOccurrences(s, i + 1)
    else [s[i]] + LastOccurrences(s, i + 1)
  }

  function Without(s: seq<Config>, c: Config): seq<Config> {
    if s == [] then []
    else if Equivalent(s[|s| - 1], c) then Without(s[..|s| - 1], c)
    else Without(s[..|s| - 1], c) + [s[|s| - 1]]
  }

  predicate Inequivalent(s: seq<Config>) {
    forall i, j :: 0 <= i < j < |s| ==> !Equivalent(s[i], s[j])
  }

  lemma {:induction false} WithoutFirst(x: Config, s: seq<Config>, c: Config)
    ensures Without([x] + s, c) == if Equivalent(x, c) then Without(s, c) else [x] + Without(s, c)
  {
    var whole := [x] + s;
    if s == [] {
      assert whole[..0] == [] && whole[0] == x;
    } else {
      var front := s[..|s| - 1];
      assert whole[..|whole| - 1] == [x] + front && whole[|whole| - 1] == s[|s| - 1];
      WithoutFirst(x, front, c);
    }
  }

  /** Adding one more element drops its earlier equivalent and appends it. */
  lemma {:induction false} AddedLast(s: seq<Config>, c: Config, i: nat)
    requires i <= |s|
    ensures LastOccurrences(s + [c], i) == Without(LastOccurrences(s, i), c) + [c]
    decreases |s| - i
  {
    if i < |s| {
      AddedLast(s, c, i + 1);
      OccursBehindAdded(s, c, i);
      var rest := Without(LastOccurrences(s, i + 1), c);
      WithoutFirst(s[i], LastOccurrences(s, i + 1), c);
      assert (s + [c])[i] == s[i];
      assert [s[i]] + (rest + [c]) == ([s[i]] + rest) + [c];
    } else {
      assert LastOccurrences(s + [c], i + 1) == [];
    }
  }

  lemma OccursBehindAdded(s: seq<Config>, c: Config, i: nat)
    requires i < |s|
    ensures OccursBehind(s + [c], i) <==> OccursBehind(s, i) || Equivalent(s[i], c)
  {
    var t := s + [c];
    if OccursBehind(s, i) {
      var j :| i < j < |s| && Equivalent(s[i], s[j]);
      assert Equivalent(t[i], t[j]);
    }
    if Equivalent(s[i], c) {
      assert Equivalent(t[i], t[|s|]);
    }
    if OccursBehind(t, i) {
      var j :| i < j < |t| && Equivalent(t[i], t[j]);
      if j < |s| {
        assert Equivalent(s[i], s[j]);
      }
    }
  }

  lemma {:induction false} LastFromInput(s: seq<Config>, i: nat, k: nat)
    requires i <= |s| && k < |LastOccurrences(s, i)|
    ensures exists j :: i <= j < |s| && s[j] == LastOccurrences(s, i)[k] && !OccursBehind(s, j)
    decreases |s| - i
  {
    if !OccursBehind(s, i) && k == 0 {
      assert s[i] == LastOccurrences(s, i)[k];
    } else {
      LastFromInput(s, i + 1, if OccursBehind(s, i) then k else k - 1);
    }
  }

  /** No two of the last occurrences are equivalent. */
  lemma {:induction false} LastAreInequivalent(s: seq<Config>, i: nat)
    requires i <= |s|
    ensures Inequivalent(LastOccurrences(s, i))
    decreases |s| - i
  {
    if i < |s| {
      LastAreInequivalent(s, i + 1);
      var rest := LastOccurrences(s, i + 1);
      if !OccursBehind(s, i) {
        forall k | 0 <= k < |rest|
          ensures !Equivalent(s[i], rest[k])
        {
          LastFromInput(s, i + 1, k);
        }
      }
    }
  }

  /** Every class that was added is still there, through its last occurrence. */
  lemma {:induction false} EveryClassRemains(s: seq<Config>, i: nat, j: nat)
    requires i <= j < |s|
    ensures exists k :: 0 <= k < |LastOccurrences(s, i)| && Equivalent(s[j], LastOccurrences(s, i)[k])
    decreases |s| - i
  {
    var rest := LastOccurrences(s, i + 1);
    var whole := LastOccurrences(s, i);
    if i < j {
      EveryClassRemains(s, i + 1, j);
      var k :| 0 <= k < |rest| && Equivalent(s[j], rest[k]);
      assert whole[k + |whole| - |rest|] == rest[k];
    } else if OccursBehind(s, i) {
      var later :| i < later < |s| && Equivalent(s[i], s[later]);
      EveryClassRemains(s, i + 1, later);
      var k :| 0 <= k < |rest| && Equivalent(s[later], rest[k]);
      assert Equivalent(s[j], whole[k]);
    } else {
      assert whole[0] == s[i];
    }
  }

  // ---------- what is deployed ----------

  /** The destination contents when each source overwrites the ones before it. */
  function Overlay(s: seq<Config>, content: Config -> map<string, string>): map<string, string> {
    if s == [] then map[] else Overlay(s[..|s| - 1], content) + content(s[|s| - 1])
  }

  lemma OverwrittenAgain(x: map<string, string>, y: map<string, string>, m: map<string, string>, n: map<string, string>)
    requires x + m == y + m
    ensures x + n + m == y + n + m
  {
    forall k
      ensures k in x + n + m <==> k in y + n + m
      ensures k in x + n + m ==> (x + n + m)[k] == (y + n + m)[k]
    {
      assert k in x + m <==> k in y + m;
      assert k in x + m ==> (x + m)[k] == (y + m)[k];
    }
  }

  /** What is overwritten by an equivalent source behind it does not matter. */
  lemma {:induction false} WithoutSameOverlay(s: seq<Config>, c: Config, content: Config -> map<string, string>)
    requires forall a, b :: Equivalent(a, b) ==> content(a) == content(b)
    ensures Overlay(s, content) + content(c) == Overlay(Without(s, c), content) + content(c)
  {
    if s != [] {
      var front, last := s[..|s| - 1], s[|s| - 1];
      WithoutSameOverlay(front, c, content);
      if Equivalent(last, c) {
        assert content(last) == content(c);
        assert Overlay(front, content) + content(c) + content(c) == Overlay(front, content) + content(c);
      } else {
        var kept := Without(front, c);
        assert (kept + [last])[..|kept|] == kept;
        OverwrittenAgain(Overlay(front, content), Overlay(kept, content), content(c), content(last));
      }
    }
  }

  /** Keeping only last occurrences deploys exactly what the full sequence deploys. */
  lemma {:induction false} LastOccurrencesDeployTheSame(s: seq<Config>, content: Config -> map<string, string>)
    requires forall a, b :: Equivalent(a, b) ==> content(a) == content(b)
    ensures Overlay(LastOccurrences(s, 0), content) == Overlay(s, content)
  {
    if s != [] {
      var front, last := s[..|s| - 1], s[|s| - 1];
      LastOccurrencesDeployTheSame(front, content);
      assert s == front + [last];
      AddedLast(front, last, 0);
      var kept := Without(LastOccurrences(front, 0), last);
      assert (kept + [last])[..|kept|] == kept;
      WithoutSameOverlay(LastOccurrences(front, 0), last, content);
    }
  }

  /** Without markers, what a source deploys is a matter of its bucket, archive and catalog. */
  ghost predicate SameArchive(a: Config, b: Config) {
    && !a.hasMarkers && !b.hasMarkers
    && a.bucketName == b.bucketName && a.zipObjectKey == b.zipObjectKey
    && a.catalogVersion == b.catalogVersion && a.catalogSha256 == b.catalogSha256
  }

  /** So keeping only last occurrences changes nothing for any contents that are such a matter. */
  lemma SameArchivesDeployTheSame(s: seq<Config>, content: Config -> map<string, string>)
    requires forall a, b :: SameArchive(a, b) ==> content(a) == content(b)
    ensures Overlay(LastOccurrences(s, 0), content) == Overlay(s, content)
  {
    forall a, b | Equivalent(a, b)
      ensures content(a) == content(b)
    {
      assert a == b || SameArchive(a, b);
    }
    LastOccurrencesDeployTheSame(s, content);
  }

  /** Exactly the sources that are added again, as the same object or as the same archive without
      markers, are dropped; a source with markers is dropped only for itself. */
  lemma {:induction false} KeptUnlessAddedAgain(s: seq<Config>, i: nat, c: Config)
    requires i <= |s|
    ensures c in LastOccurrences(s, i) <==>
              exists j :: i <= j < |s| && s[j] == c && forall k :: j < k < |s| ==> s[k] != c && !SameArchive(s[k], c)
    decreases |s| - i
  {
    if i < |s| {
      KeptUnlessAddedAgain(s, i + 1, c);
      assert OccursBehind(s, i) <==> exists k :: i < k < |s| && (s[k] == s[i] || SameArchive(s[k], s[i])) by {
        if OccursBehind(s, i) {
          var k :| i < k < |s| && Equivalent(s[i], s[k]);
          assert s[k] == s[i] || SameArchive(s[k], s[i]);
        }
        if k :| i < k < |s| && (s[k] == s[i] || SameArchive(s[k], s[i])) {
          assert Equivalent(s[i], s[k]);
        }
      }
    }
  }

  // ---------- the construct ----------

  class Deployment {
    var sources: seq<Config>
    var boundSources: map<Source, Config>
    /** The bindings of all sources added so far, in order. */
    ghost var added: seq<Config>

    ghost predicate Valid()
      reads this
    {
      sources == LastOccurrences(added, 0)
    }

    constructor ()
      ensures Valid() && added == [] && boundSources == map[]
    {
      sources, boundSources, added := [], map[], [];
    }

    method AddSource(source: Source)
      requires Valid()
      modifies this
      ensures Valid() && source in boundSources && added == old(added) + [boundSources[source]]
      ensures forall s :: s in old(boundSources) ==> s in boundSources && boundSources[s] == old(boundSources[s])
      ensures source !in old(boundSources) ==> boundSources[source] == source.config
    {
      LastAreInequivalent(added, 0);
      if source !in boundSources {
        boundSources := boundSources[source := source.config];
      }
      var config := boundSources[source];
      AddedLast(added, config, 0);
      var earlier := 0;
      while earlier < |sources| && !Equivalent(sources[earlier], config)
        invariant 0 <= earlier <= |sources|
        invariant forall k :: 0 <= k < earlier ==> !Equivalent(sources[k], config)
      {
        earlier := earlier + 1;
      }
      SplicedOnce(sources, config, earlier);
      if earlier < |sources| {
        sources := sources[..earlier] + sources[earlier + 1..];
      }
      sources := sources + [config];
      added := added + [config];
    }
  }

  /** Removing the first equivalent element removes all of them when no two are equivalent. */
  lemma {:induction false} SplicedOnce(s: seq<Config>, c: Config, i: nat)
    requires Inequivalent(s) && i <= |s| && forall k :: 0 <= k < i ==> !Equivalent(s[k], c)
    requires i < |s| ==> Equivalent(s[i], c)
    ensures Without(s, c) == if i < |s| then s[..i] + s[i + 1..] else s
  {
    if i == |s| {
      NothingRemoved(s, c);
    } else {
      var last := |s| - 1;
      if i == last {
        NothingRemoved(s[..last], c);
        assert s[..i] + s[i + 1..] == s[..last];
      } else {
        SplicedOnce(s[..last], c, i);
        assert !Equivalent(s[i], s[last]);
        assert s[..last][..i] + s[..last][i + 1..] + [s[last]] == s[..i] + s[i + 1..];
      }
    }
  }

  lemma {:induction false} NothingRemoved(s: seq<Config>, c: Config)
    requires forall k :: 0 <= k < |s| ==> !Equivalent(s[k], c)
    ensures Without(s, c) == s
  {
    if s != [] {
      NothingRemoved(s[..|s| - 1], c);
    }
  }
}

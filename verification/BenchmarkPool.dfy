/** The benchmark workers: planned samples are grouped by stack shape, and workers take whole
    groups from a shared queue until it is empty or something stops them. */
module BenchmarkPool {
  import opened Basics

  datatype Sample = Sample(id: string, memoryMb: nat, parallel: Option<nat>, implementation: string)

  /** The stack shape that a sample deploys. */
  datatype Key = Key(memoryMb: nat, parallel: Option<nat>, implementation: string)

  function KeyOf(sample: Sample): Key {
    Key(sample.memoryMb, sample.parallel, sample.implementation)
  }

  // ---------- grouping ----------

  /** The samples of one shape, in planned order. */
  function OfShape(samples: seq<Sample>, key: Key): seq<Sample> {
    if samples == [] then []
    else
      var front, last := samples[..|samples| - 1], samples[|samples| - 1];
      OfShape(front, key) + (if KeyOf(last) == key then [last] else [])
  }

  /** The shapes in the order of their first sample. */
  function Shapes(samples: seq<Sample>): seq<Key> {
    if samples == [] then []
    else
      var front, last := samples[..|samples| - 1], samples[|samples| - 1];
      if KeyOf(last) in Shapes(front) then Shapes(front) else Shapes(front) + [KeyOf(last)]
  }

  lemma {:induction false} ShapesCover(samples: seq<Sample>)
    ensures forall i :: 0 <= i < |samples| ==> KeyOf(samples[i]) in Shapes(samples)
    ensures forall key :: key !in Shapes(samples) ==> OfShape(samples, key) == []
    ensures forall i, j :: 0 <= i < j < |Shapes(samples)| ==> Shapes(samples)[i] != Shapes(samples)[j]
    ensures forall i :: 0 <= i < |Shapes(samples)| ==> OfShape(samples, Shapes(samples)[i]) != []
  {
    if samples != [] {
      var front := samples[..|samples| - 1];
      ShapesCover(front);
      forall i | 0 <= i < |samples|
        ensures KeyOf(samples[i]) in Shapes(samples)
      {
        if i < |front| {
          assert samples[i] == front[i];
        }
      }
    }
  }

  /** The samples group by group. */
  function Grouped(samples: seq<Sample>): seq<seq<Sample>> {
    seq(|Shapes(samples)|, i requires 0 <= i < |Shapes(samples)| => OfShape(samples, Shapes(samples)[i]))
  }

  method IndexOf(keys: seq<Key>, key: Key) returns (at: nat)
    ensures at <= |keys| && (at < |keys| ==> keys[at] == key) && (at == |keys| ==> key !in keys)
  {
    at := 0;
    while at < |keys| && keys[at] != key
      invariant 0 <= at <= |keys| && key !in keys[..at]
    {
      at := at + 1;
    }
    assert keys[..|keys|] == keys;
  }

  /** Buckets the samples like an insertion-ordered map of lists. */
  method GroupRunsByMemoryConfiguration(samples: seq<Sample>) returns (groups: seq<seq<Sample>>)
    ensures groups == Grouped(samples)
    ensures forall i :: 0 <= i < |groups| ==> groups[i] != []
    ensures forall i, j :: 0 <= i < j < |groups| ==> Shapes(samples)[i] != Shapes(samples)[j]
  {
    var keys: seq<Key> := [];
    groups := [];
    for n := 0 to |samples|
      invariant keys == Shapes(samples[..n]) && |groups| == |keys|
      invariant forall i :: 0 <= i < |groups| ==> groups[i] == OfShape(samples[..n], keys[i])
    {
      var sample := samples[n];
      var before := samples[..n];
      assert samples[..n + 1][..n] == before && samples[..n + 1][n] == sample;
      ShapesCover(before);
      var at := IndexOf(keys, KeyOf(sample));
      if at < |keys| {
        groups := groups[at := groups[at] + [sample]];
      } else {
        keys := keys + [KeyOf(sample)];
        groups := groups + [[sample]];
      }
    }
    assert samples[..|samples|] == samples;
    ShapesCover(samples);
  }

  /** Grouping loses no sample and repeats none: each is in the group of its shape as often as it
      was planned, and in no other group. */
  lemma {:induction false} GroupsPartition(samples: seq<Sample>, key: Key, sample: Sample)
    ensures multiset(OfShape(samples, key))[sample] == if KeyOf(sample) == key then multiset(samples)[sample] else 0
  {
    if samples != [] {
      var front, last := samples[..|samples| - 1], samples[|samples| - 1];
      GroupsPartition(front, key, sample);
      assert samples == front + [last];
    }
  }

  // ---------- the workers ----------

  datatype Phase =
    | Looking
    | Ready(group: nat, run: nat)
    | Checking(group: nat, run: nat)
    | Running(group: nat, run: nat)
    | Exited

  datatype Ending = Passed | CapError | Failed

  /** The history of an execution: the stacks that were started, and the caps, failures and aborts. */
  datatype Event = Started(group: nat, run: nat) | CapReached | StackFailed | AbortRaised

  predicate Stops(e: Event) {
    !e.Started?
  }

  /** Everything the workers share, and how many stacks of each group were started, which have
      passed, and who shifted the group. */
  datatype State = State(
    sizes: seq<nat>,
    phases: seq<Phase>,
    shifted: nat,
    capReached: bool,
    failed: bool,
    aborted: bool,
    log: seq<Event>,
    started: seq<nat>,
    passed: seq<nat>,
    owner: seq<nat>)
  {
    predicate Stop() {
      capReached || failed || aborted
    }

    function Move(w: nat, phase: Phase): State
      requires w < |phases|
    {
      this.(phases := phases[w := phase])
    }

    function Log(e: Event): State {
      this.(log := log + [e])
    }
  }

  datatype Action =
    | Abort
    | Shift(w: nat)
    | Begin(w: nat, cap: bool)
    | SourceChecked(w: nat, same: bool)
    | StackEnds(w: nat, ending: Ending)

  predicate Enabled(s: State, a: Action) {
    match a
    case Abort => true
    case Shift(w) => w < |s.phases| && s.phases[w].Looking?
    case Begin(w, _) => w < |s.phases| && s.phases[w].Ready? && s.phases[w].group < |s.sizes|
    case SourceChecked(w, _) => w < |s.phases| && s.phases[w].Checking? && s.phases[w].group < |s.started|
    case StackEnds(w, _) => w < |s.phases| && s.phases[w].Running? && s.phases[w].group < |s.passed|
  }

  function ShiftNext(s: State, w: nat): State
    requires Enabled(s, Shift(w))
  {
    if s.shifted >= |s.sizes| then s.Move(w, Exited)
    else
      s.Move(w, Ready(s.shifted, 0)).(
        shifted := s.shifted + 1,
        owner := if s.shifted < |s.owner| then s.owner[s.shifted := w] else s.owner)
  }

  function BeginNext(s: State, w: nat, cap: bool): State
    requires Enabled(s, Begin(w, cap))
  {
    var g, r := s.phases[w].group, s.phases[w].run;
    if r >= s.sizes[g] then s.Move(w, Looking)
    else if s.Stop() then s.Move(w, Exited)
    else if cap then s.Move(w, Exited).Log(CapReached).(capReached := true)
    else s.Move(w, Checking(g, r))
  }

  function CheckedNext(s: State, w: nat, same: bool): State
    requires Enabled(s, SourceChecked(w, same))
  {
    var g, r := s.phases[w].group, s.phases[w].run;
    if !same then s.Move(w, Exited).Log(StackFailed).(failed := true)
    else if s.Stop() then s.Move(w, Exited)
    else s.Move(w, Running(g, r)).Log(Started(g, r)).(started := s.started[g := r + 1])
  }

  function EndsNext(s: State, w: nat, ending: Ending): State
    requires Enabled(s, StackEnds(w, ending))
  {
    var g, r := s.phases[w].group, s.phases[w].run;
    match ending
    case Passed => s.Move(w, Ready(g, r + 1)).(passed := s.passed[g := r + 1])
    case CapError => s.Move(w, Exited).Log(CapReached).(capReached := true)
    case Failed => s.Move(w, Exited).Log(StackFailed).(failed := true)
  }

  function Next(s: State, a: Action): State {
    if !Enabled(s, a) then s
    else
      match a
      case Abort => s.Log(AbortRaised).(aborted := true)
      case Shift(w) => ShiftNext(s, w)
      case Begin(w, cap) => BeginNext(s, w, cap)
      case SourceChecked(w, same) => CheckedNext(s, w, same)
      case StackEnds(w, ending) => EndsNext(s, w, ending)
  }

  function Zeros(n: nat): seq<nat> {
    seq(n, i => 0)
  }

  function Sizes(groups: seq<seq<Sample>>): seq<nat> {
    seq(|groups|, i requires 0 <= i < |groups| => |groups[i]|)
  }

  function Initial(sizes: seq<nat>, concurrency: nat): State {
    State(sizes, seq(Max(1, Min(concurrency, |sizes|)), i => Looking), 0, false, false, false, [],
          Zeros(|sizes|), Zeros(|sizes|), Zeros(|sizes|))
  }

  /** The runs of a group whose stack was started, in order. */
  function StartsOf(log: seq<Event>, g: nat): seq<nat> {
    if log == [] then []
    else
      var front, last := log[..|log| - 1], log[|log| - 1];
      if last.Started? && last.group == g then StartsOf(front, g) + [last.run] else StartsOf(front, g)
  }

  predicate HasStopped(log: seq<Event>) {
    log != [] && (Stops(log[|log| - 1]) || HasStopped(log[..|log| - 1]))
  }

  /** No stack is started behind a cap, a failure or an abort. */
  predicate NoLateStart(log: seq<Event>) {
    log == [] || (NoLateStart(log[..|log| - 1]) && (log[|log| - 1].Started? ==> !HasStopped(log[..|log| - 1])))
  }

  lemma AfterEvent(log: seq<Event>, e: Event)
    ensures HasStopped(log + [e]) <==> Stops(e) || HasStopped(log)
    ensures NoLateStart(log + [e]) <==> NoLateStart(log) && (e.Started? ==> !HasStopped(log))
  {
    assert (log + [e])[..|log|] == log;
  }

  lemma AfterEventIn(log: seq<Event>, e: Event, g: nat)
    ensures StartsOf(log + [e], g) ==
              if e.Started? && e.group == g then StartsOf(log, g) + [e.run] else StartsOf(log, g)
  {
    assert (log + [e])[..|log|] == log;
  }

  predicate WorkerOk(s: State, w: nat)
    requires w < |s.phases| && |s.started| == |s.passed| == |s.owner| == |s.sizes|
  {
    match s.phases[w]
    case Looking => true
    case Exited => s.Stop() || s.shifted == |s.sizes|
    case Ready(g, r) => At(s, w, g, r) && s.started[g] == r && r <= s.sizes[g]
    case Checking(g, r) => At(s, w, g, r) && s.started[g] == r && r < s.sizes[g]
    case Running(g, r) => At(s, w, g, r) && s.started[g] == r + 1 && r < s.sizes[g]
  }

  predicate At(s: State, w: nat, g: nat, r: nat) {
    g < s.shifted && g < |s.sizes| == |s.owner| == |s.passed| && s.owner[g] == w && s.passed[g] == r
  }

  predicate Owned(s: State, g: nat)
    requires g < |s.owner|
  {
    var w := s.owner[g];
    w < |s.phases| && !s.phases[w].Looking? && !s.phases[w].Exited? && s.phases[w].group == g
  }

  predicate GroupOk(s: State, g: nat)
    requires g < |s.sizes| && |s.started| == |s.passed| == |s.owner| == |s.sizes|
  {
    && StartsOf(s.log, g) == Upto(s.started[g])
    && s.passed[g] <= s.started[g] <= s.sizes[g]
    && (g >= s.shifted ==> s.started[g] == 0)
    && (g < s.shifted && s.passed[g] < s.sizes[g] && !s.Stop() ==> Owned(s, g))
  }

  /** The flags agree with the history. */
  predicate SharedOk(s: State) {
    && s.shifted <= |s.sizes|
    && NoLateStart(s.log)
    && (s.Stop() <==> HasStopped(s.log))
    && (s.capReached <==> CapReached in s.log)
    && (s.failed <==> StackFailed in s.log)
    && (s.aborted <==> AbortRaised in s.log)
  }

  predicate Good(s: State) {
    && SharedOk(s)
    && |s.started| == |s.passed| == |s.owner| == |s.sizes|
    && (forall g :: 0 <= g < |s.sizes| ==> GroupOk(s, g))
    && (forall w :: 0 <= w < |s.phases| ==> WorkerOk(s, w))
  }

  predicate OneStart(log: seq<Event>, later: seq<Event>, g: nat) {
    |later| > |log| && later == log + [later[|log|]] && later[|log|].Started? && later[|log|].group == g
  }

  /** Only worker `w` and group `g` change, and at most a stack of that group is started. */
  predicate Local(s: State, t: State, w: nat, g: nat) {
    && w < |s.phases| == |t.phases| && t.phases == s.phases[w := t.phases[w]]
    && g < |s.sizes| == |s.started| == |s.passed| == |s.owner| && t.sizes == s.sizes
    && |t.started| == |t.passed| == |t.owner| == |s.sizes|
    && t.started == s.started[g := t.started[g]]
    && t.passed == s.passed[g := t.passed[g]]
    && t.owner == s.owner[g := t.owner[g]]
    && (s.phases[w].Looking? || s.phases[w].Exited? || s.phases[w].group == g)
    && (t.phases[w].Looking? || t.phases[w].Exited? || t.phases[w].group == g)
    && t.capReached == s.capReached && t.failed == s.failed && t.aborted == s.aborted
    && (t.log == s.log || (!s.Stop() && OneStart(s.log, t.log, g)))
    && (t.shifted == s.shifted || t.shifted == s.shifted + 1 == g + 1)
    && (s.owner[g] == w || g == s.shifted)
  }

  lemma LocalKeeps(s: State, t: State, w: nat, g: nat)
    requires Good(s) && Local(s, t, w, g) && WorkerOk(t, w) && GroupOk(t, g)
    ensures Good(t)
  {
    forall v | 0 <= v < |t.phases|
      ensures WorkerOk(t, v)
    {
      if v != w {
        assert WorkerOk(s, v);
      }
    }
    forall h | 0 <= h < |t.sizes|
      ensures GroupOk(t, h)
    {
      if h != g {
        assert GroupOk(s, h);
        OtherStarts(s, t, w, g, h);
      }
    }
    if t.log != s.log {
      AfterEvent(s.log, t.log[|s.log|]);
    }
  }

  lemma OtherStarts(s: State, t: State, w: nat, g: nat, h: nat)
    requires Local(s, t, w, g) && h != g
    ensures StartsOf(t.log, h) == StartsOf(s.log, h)
  {
    if t.log != s.log {
      AfterEventIn(s.log, t.log[|s.log|], h);
    }
  }

  /** A stop is raised and recorded. */
  predicate OneStop(s: State, t: State, e: Event) {
    && t.log == s.log + [e] && Stops(e)
    && t.capReached == (s.capReached || e.CapReached?)
    && t.failed == (s.failed || e.StackFailed?)
    && t.aborted == (s.aborted || e.AbortRaised?)
  }

  /** A stop is raised, or was raised before; nobody but a leaving worker moves. */
  predicate Quits(s: State, t: State) {
    && t == s.(phases := t.phases, capReached := t.capReached, failed := t.failed, aborted := t.aborted, log := t.log)
    && |t.phases| == |s.phases|
    && (forall w :: 0 <= w < |s.phases| ==> t.phases[w] == s.phases[w] || t.phases[w].Exited?)
    && ((t.log == s.log && t.capReached == s.capReached && t.failed == s.failed && t.aborted == s.aborted)
        || (|t.log| > |s.log| && OneStop(s, t, t.log[|s.log|])))
    && (t.Stop() || (s.shifted == |s.sizes|
          && forall w :: 0 <= w < |s.phases| && t.phases[w] != s.phases[w] ==> s.phases[w].Looking?))
  }

  lemma QuitKeeps(s: State, t: State)
    requires Good(s) && Quits(s, t)
    ensures Good(t)
  {
    if t.log != s.log {
      AfterEvent(s.log, t.log[|s.log|]);
    }
    forall v | 0 <= v < |t.phases|
      ensures WorkerOk(t, v)
    {
      assert WorkerOk(s, v);
    }
    forall h | 0 <= h < |t.sizes|
      ensures GroupOk(t, h)
    {
      assert GroupOk(s, h);
      if t.log != s.log {
        AfterEventIn(s.log, t.log[|s.log|], h);
      }
    }
  }

  lemma ShiftKeeps(s: State, w: nat)
    requires Good(s) && Enabled(s, Shift(w))
    ensures Good(ShiftNext(s, w))
  {
    var t := ShiftNext(s, w);
    if s.shifted >= |s.sizes| {
      QuitKeeps(s, t);
    } else {
      assert GroupOk(s, s.shifted);
      LocalKeeps(s, t, w, s.shifted);
    }
  }

  lemma BeginKeeps(s: State, w: nat, cap: bool)
    requires Good(s) && Enabled(s, Begin(w, cap))
    ensures Good(BeginNext(s, w, cap))
  {
    var t, g := BeginNext(s, w, cap), s.phases[w].group;
    assert WorkerOk(s, w) && GroupOk(s, g);
    if t.phases[w].Exited? {
      QuitKeeps(s, t);
    } else {
      LocalKeeps(s, t, w, g);
    }
  }

  lemma CheckedKeeps(s: State, w: nat, same: bool)
    requires Good(s) && Enabled(s, SourceChecked(w, same))
    ensures Good(CheckedNext(s, w, same))
  {
    var t, g, r := CheckedNext(s, w, same), s.phases[w].group, s.phases[w].run;
    assert WorkerOk(s, w) && GroupOk(s, g);
    if t.phases[w].Exited? {
      QuitKeeps(s, t);
    } else {
      AfterEventIn(s.log, Started(g, r), g);
      LocalKeeps(s, t, w, g);
    }
  }

  lemma PassedKeeps(s: State, w: nat)
    requires Good(s) && Enabled(s, StackEnds(w, Passed))
    ensures Good(EndsNext(s, w, Passed))
  {
    var t, g := EndsNext(s, w, Passed), s.phases[w].group;
    assert WorkerOk(s, w) && GroupOk(s, g);
    LocalKeeps(s, t, w, g);
  }

  lemma EndsKeeps(s: State, w: nat, ending: Ending)
    requires Good(s) && Enabled(s, StackEnds(w, ending))
    ensures Good(EndsNext(s, w, ending))
  {
    if ending.Passed? {
      PassedKeeps(s, w);
    } else {
      QuitKeeps(s, EndsNext(s, w, ending));
    }
  }

  lemma NextKeeps(s: State, a: Action)
    requires Good(s)
    ensures Good(Next(s, a))
  {
    if Enabled(s, a) {
      match a
      case Abort => QuitKeeps(s, s.Log(AbortRaised).(aborted := true));
      case Shift(w) => ShiftKeeps(s, w);
      case Begin(w, cap) => BeginKeeps(s, w, cap);
      case SourceChecked(w, same) => CheckedKeeps(s, w, same);
      case StackEnds(w, ending) => EndsKeeps(s, w, ending);
    }
  }

  lemma NextFrame(s: State, a: Action)
    ensures Next(s, a).sizes == s.sizes && |Next(s, a).phases| == |s.phases|
  {
    if Enabled(s, a) && a.StackEnds? {
      assert EndsNext(s, a.w, a.ending).sizes == s.sizes;
    }
  }

  lemma InitialIsGood(sizes: seq<nat>, concurrency: nat)
    ensures Good(Initial(sizes, concurrency)) && |Initial(sizes, concurrency).phases| > 0
  {
    var s := Initial(sizes, concurrency);
    forall g | 0 <= g < |sizes|
      ensures GroupOk(s, g)
    {
    }
  }

  // ---------- every interleaving ----------

  function After(s: State, schedule: seq<Action>): State {
    if schedule == [] then s else Next(After(s, schedule[..|schedule| - 1]), schedule[|schedule| - 1])
  }

  lemma {:induction false} AfterIsGood(s: State, schedule: seq<Action>)
    requires Good(s)
    ensures Good(After(s, schedule)) && After(s, schedule).sizes == s.sizes
    ensures |After(s, schedule).phases| == |s.phases|
  {
    if schedule != [] {
      AfterIsGood(s, schedule[..|schedule| - 1]);
      NextKeeps(After(s, schedule[..|schedule| - 1]), schedule[|schedule| - 1]);
      NextFrame(After(s, schedule[..|schedule| - 1]), schedule[|schedule| - 1]);
    }
  }

  predicate Finished(s: State) {
    forall w :: 0 <= w < |s.phases| ==> s.phases[w].Exited?
  }

  /** Whatever the interleaving, the stacks of a group start in order and each at most once, none
      of them behind a stop; and when the workers are done without a cap, a failure or an abort,
      all of them were started and have passed. */
  lemma EveryInterleaving(sizes: seq<nat>, concurrency: nat, schedule: seq<Action>, g: nat)
    requires g < |sizes|
    ensures var s := After(Initial(sizes, concurrency), schedule);
      && |s.phases| == Max(1, Min(concurrency, |sizes|))
      && NoLateStart(s.log) && (s.Stop() <==> HasStopped(s.log))
      && (exists n: nat :: n <= sizes[g] && StartsOf(s.log, g) == Upto(n))
      && (Finished(s) && !s.Stop() ==>
            StartsOf(s.log, g) == Upto(sizes[g]) && g < |s.passed| && s.passed[g] == sizes[g])
  {
    InitialIsGood(sizes, concurrency);
    AfterIsGood(Initial(sizes, concurrency), schedule);
    var s := After(Initial(sizes, concurrency), schedule);
    assert GroupOk(s, g) && WorkerOk(s, 0);
  }

  // ---------- how a run ends ----------

  /** What the caller gets: the failure, or whether the cap was reached. */
  datatype RunResult = Threw | Returned(capReached: bool)

  function ResultOf(s: State): RunResult {
    if s.failed then Threw else Returned(s.capReached)
  }

  /** A failure is thrown whatever else happened; a cap is reported exactly when one was reached and
      nothing failed; and without a failure, a cap and an abort everything was run. */
  lemma ResultIsExact(sizes: seq<nat>, concurrency: nat, schedule: seq<Action>)
    ensures var s := After(Initial(sizes, concurrency), schedule);
      && (ResultOf(s) == Threw <==> StackFailed in s.log)
      && (ResultOf(s) == Returned(true) <==> CapReached in s.log && StackFailed !in s.log)
      && (Finished(s) && ResultOf(s) == Returned(false) && AbortRaised !in s.log ==>
            forall g :: 0 <= g < |sizes| ==> StartsOf(s.log, g) == Upto(sizes[g]))
  {
    InitialIsGood(sizes, concurrency);
    AfterIsGood(Initial(sizes, concurrency), schedule);
    var s := After(Initial(sizes, concurrency), schedule);
    forall g | 0 <= g < |sizes| && Finished(s) && !s.Stop()
      ensures StartsOf(s.log, g) == Upto(sizes[g])
    {
      EveryInterleaving(sizes, concurrency, schedule, g);
    }
  }

  /** What a step is told about the outside is what the history records of it. */
  lemma ReportsAreRecorded(s: State, a: Action)
    requires Good(s) && Enabled(s, a)
    ensures a.Abort? ==> Next(s, a).log == s.log + [AbortRaised]
    ensures a.Begin? && !s.Stop() && s.phases[a.w].run < s.sizes[s.phases[a.w].group] ==>
              Next(s, a).log == s.log + (if a.cap then [CapReached] else [])
    ensures a.SourceChecked? ==>
              Next(s, a).log == s.log + (if !a.same then [StackFailed] else if s.Stop() then []
                                         else [Started(s.phases[a.w].group, s.phases[a.w].run)])
    ensures a.StackEnds? ==>
              Next(s, a).log == s.log + (match a.ending
                                         case Passed => []
                                         case CapError => [CapReached]
                                         case Failed => [StackFailed])
  {
    assert s.log + [] == s.log;
  }

  // ---------- the samples that are run ----------

  predicate IsStart(groups: seq<seq<Sample>>, e: Event) {
    e.Started? && e.group < |groups| && e.run < |groups[e.group]|
  }

  /** The samples whose stacks were started, in order. */
  function StartedSamples(groups: seq<seq<Sample>>, log: seq<Event>): seq<Sample> {
    if log == [] then []
    else
      var front, last := StartedSamples(groups, log[..|log| - 1]), log[|log| - 1];
      if IsStart(groups, last) then front + [groups[last.group][last.run]] else front
  }

  /** Those of one group. */
  function StartedIn(groups: seq<seq<Sample>>, log: seq<Event>, g: nat): seq<Sample> {
    if log == [] then []
    else
      var front, last := StartedIn(groups, log[..|log| - 1], g), log[|log| - 1];
      if IsStart(groups, last) && last.group == g then front + [groups[g][last.run]] else front
  }

  lemma {:induction false} StartedInOrder(groups: seq<seq<Sample>>, log: seq<Event>, g: nat, n: nat)
    requires g < |groups| && n <= |groups[g]| && StartsOf(log, g) == Upto(n)
    ensures StartedIn(groups, log, g) == groups[g][..n]
  {
    if log != [] {
      var front, last := log[..|log| - 1], log[|log| - 1];
      if last.Started? && last.group == g {
        assert n > 0;
        assert StartsOf(front, g) == StartsOf(log, g)[..|StartsOf(log, g)| - 1] == Upto(n - 1);
        StartedInOrder(groups, front, g, n - 1);
      } else {
        StartedInOrder(groups, front, g, n);
      }
    }
  }

  lemma {:induction false} OfShapeHasShape(samples: seq<Sample>, key: Key)
    ensures forall i :: 0 <= i < |OfShape(samples, key)| ==> KeyOf(OfShape(samples, key)[i]) == key
  {
    if samples != [] {
      OfShapeHasShape(samples[..|samples| - 1], key);
    }
  }

  /** A sample is started only in the group of its shape. */
  lemma {:induction false} StartedInItsGroup(samples: seq<Sample>, log: seq<Event>, x: Sample, g: nat)
    requires g < |Shapes(samples)| ==> Shapes(samples)[g] == KeyOf(x)
    requires g >= |Shapes(samples)| ==> KeyOf(x) !in Shapes(samples)
    ensures multiset(StartedSamples(Grouped(samples), log))[x] == multiset(StartedIn(Grouped(samples), log, g))[x]
  {
    if log != [] {
      var last := log[|log| - 1];
      StartedInItsGroup(samples, log[..|log| - 1], x, g);
      if IsStart(Grouped(samples), last) {
        ShapesCover(samples);
        OfShapeHasShape(samples, Shapes(samples)[last.group]);
      }
    }
  }

  /** No interleaving starts a sample out of the order of its group or more often than planned;
      and when the workers are done without a stop, each group was run completely and in order,
      and every planned sample exactly as often as it was planned. */
  lemma EverySampleRunsOnce(samples: seq<Sample>, concurrency: nat, schedule: seq<Action>)
    ensures var groups := Grouped(samples);
      var s := After(Initial(Sizes(groups), concurrency), schedule);
      && (forall g :: 0 <= g < |groups| ==> StartedIn(groups, s.log, g) <= groups[g])
      && multiset(StartedSamples(groups, s.log)) <= multiset(samples)
      && (Finished(s) && !s.Stop() ==>
            && (forall g :: 0 <= g < |groups| ==> StartedIn(groups, s.log, g) == groups[g])
            && multiset(StartedSamples(groups, s.log)) == multiset(samples))
  {
    var groups := Grouped(samples);
    var s := After(Initial(Sizes(groups), concurrency), schedule);
    forall g | 0 <= g < |groups|
      ensures StartedIn(groups, s.log, g) <= groups[g]
      ensures Finished(s) && !s.Stop() ==> StartedIn(groups, s.log, g) == groups[g]
    {
      GroupIsRun(groups, concurrency, schedule, g);
    }
    forall x: Sample
      ensures multiset(StartedSamples(groups, s.log))[x] <= multiset(samples)[x]
      ensures Finished(s) && !s.Stop() ==> multiset(StartedSamples(groups, s.log))[x] == multiset(samples)[x]
    {
      SampleIsRun(samples, s, x);
    }
  }

  lemma GroupIsRun(groups: seq<seq<Sample>>, concurrency: nat, schedule: seq<Action>, g: nat)
    requires g < |groups|
    ensures var s := After(Initial(Sizes(groups), concurrency), schedule);
      && StartedIn(groups, s.log, g) <= groups[g]
      && (Finished(s) && !s.Stop() ==> StartedIn(groups, s.log, g) == groups[g])
  {
    EveryInterleaving(Sizes(groups), concurrency, schedule, g);
    var s := After(Initial(Sizes(groups), concurrency), schedule);
    var n: nat :| n <= |groups[g]| && StartsOf(s.log, g) == Upto(n);
    StartedInOrder(groups, s.log, g, n);
    if Finished(s) && !s.Stop() {
      StartedInOrder(groups, s.log, g, |groups[g]|);
    }
  }

  lemma SampleIsRun(samples: seq<Sample>, s: State, x: Sample)
    requires forall g :: 0 <= g < |Grouped(samples)| ==> StartedIn(Grouped(samples), s.log, g) <= Grouped(samples)[g]
    ensures multiset(StartedSamples(Grouped(samples), s.log))[x] <= multiset(samples)[x]
    ensures (forall g :: 0 <= g < |Grouped(samples)| ==> StartedIn(Grouped(samples), s.log, g) == Grouped(samples)[g]) ==>
              multiset(StartedSamples(Grouped(samples), s.log))[x] == multiset(samples)[x]
  {
    var groups := Grouped(samples);
    if KeyOf(x) in Shapes(samples) {
      var g :| 0 <= g < |Shapes(samples)| && Shapes(samples)[g] == KeyOf(x);
      StartedInItsGroup(samples, s.log, x, g);
      GroupsPartition(samples, KeyOf(x), x);
      PrefixCounts(StartedIn(groups, s.log, g), groups[g], x);
    } else {
      StartedInItsGroup(samples, s.log, x, |groups|);
      NothingBeyond(groups, s.log, |groups|);
      NothingUnplanned(samples, x);
    }
  }

  lemma NothingUnplanned(samples: seq<Sample>, x: Sample)
    requires KeyOf(x) !in Shapes(samples)
    ensures multiset(samples)[x] == 0
  {
    ShapesCover(samples);
    GroupsPartition(samples, KeyOf(x), x);
  }

  lemma PrefixCounts<T>(part: seq<T>, whole: seq<T>, x: T)
    requires part <= whole
    ensures multiset(part)[x] <= multiset(whole)[x]
  {
    assert whole == part + whole[|part|..];
  }

  lemma {:induction false} NothingBeyond(groups: seq<seq<Sample>>, log: seq<Event>, g: nat)
    requires g >= |groups|
    ensures StartedIn(groups, log, g) == []
  {
    if log != [] {
      NothingBeyond(groups, log[..|log| - 1], g);
    }
  }

  // ---------- every execution ends ----------

  /** How much is left to do for a worker at `phase`. */
  function Left(sizes: seq<nat>, phase: Phase): nat {
    match phase
    case Exited => 0
    case Looking => 1
    case Ready(g, r) => 2 + Later(sizes, g, r)
    case Checking(g, r) => 4 + Later(sizes, g, r + 1)
    case Running(g, r) => 3 + Later(sizes, g, r + 1)
  }

  /** The runs of group `g` from `r` on, at three steps each. */
  function Later(sizes: seq<nat>, g: nat, r: nat): nat {
    if g < |sizes| && r < sizes[g] then 3 * (sizes[g] - r) else 0
  }

  function WorkersLeft(sizes: seq<nat>, phases: seq<Phase>, n: nat): nat
    requires n <= |phases|
  {
    if n == 0 then 0 else WorkersLeft(sizes, phases, n - 1) + Left(sizes, phases[n - 1])
  }

  /** The groups that no worker has shifted, from the last one back to `g`. */
  function Queued(sizes: seq<nat>, g: nat): nat
    decreases |sizes| - g
  {
    if g >= |sizes| then 0 else 2 + Later(sizes, g, 0) + Queued(sizes, g + 1)
  }

  function StepsLeft(s: State): nat {
    WorkersLeft(s.sizes, s.phases, |s.phases|) + Queued(s.sizes, s.shifted)
  }

  lemma {:induction false} WorkerMoves(sizes: seq<nat>, phases: seq<Phase>, w: nat, phase: Phase, n: nat)
    requires w < |phases| && n <= |phases|
    ensures WorkersLeft(sizes, phases[w := phase], n) + (if w < n then Left(sizes, phases[w]) else 0)
         == WorkersLeft(sizes, phases, n) + (if w < n then Left(sizes, phase) else 0)
  {
    if n > 0 {
      WorkerMoves(sizes, phases, w, phase, n - 1);
    }
  }

  /** Worker `w` moves so that it and the queued groups together have less to do. */
  predicate Drops(s: State, t: State, w: nat) {
    && w < |s.phases| == |t.phases| && t.phases == s.phases[w := t.phases[w]] && t.sizes == s.sizes
    && Left(s.sizes, t.phases[w]) + Queued(s.sizes, t.shifted) < Left(s.sizes, s.phases[w]) + Queued(s.sizes, s.shifted)
  }

  lemma ShiftDrops(s: State, w: nat)
    requires Good(s) && Enabled(s, Shift(w))
    ensures Drops(s, ShiftNext(s, w), w)
  {
  }

  lemma BeginDrops(s: State, w: nat, cap: bool)
    requires Good(s) && Enabled(s, Begin(w, cap))
    ensures Drops(s, BeginNext(s, w, cap), w)
  {
    assert WorkerOk(s, w);
  }

  lemma CheckedDrops(s: State, w: nat, same: bool)
    requires Good(s) && Enabled(s, SourceChecked(w, same))
    ensures Drops(s, CheckedNext(s, w, same), w)
  {
  }

  lemma EndsDrops(s: State, w: nat, ending: Ending)
    requires Good(s) && Enabled(s, StackEnds(w, ending))
    ensures Drops(s, EndsNext(s, w, ending), w)
  {
  }

  lemma WorkerDrops(s: State, a: Action)
    requires Good(s) && Enabled(s, a) && !a.Abort?
    ensures Drops(s, Next(s, a), a.w)
  {
    match a
    case Shift(w) => ShiftDrops(s, w);
    case Begin(w, cap) => BeginDrops(s, w, cap);
    case SourceChecked(w, same) => CheckedDrops(s, w, same);
    case StackEnds(w, ending) => EndsDrops(s, w, ending);
  }

  /** Every step of a worker leaves less to do, so no execution goes on for ever. */
  lemma EveryStepCounts(s: State, a: Action)
    requires Good(s) && Enabled(s, a) && !a.Abort?
    ensures StepsLeft(Next(s, a)) < StepsLeft(s)
  {
    var t := Next(s, a);
    WorkerDrops(s, a);
    WorkerMoves(s.sizes, s.phases, a.w, t.phases[a.w], |s.phases|);
  }

  /** Until all workers have left, one of them can go on. */
  lemma SomethingCanMove(s: State) returns (a: Action)
    requires Good(s) && !Finished(s)
    ensures Enabled(s, a) && !a.Abort?
  {
    var w :| 0 <= w < |s.phases| && !s.phases[w].Exited?;
    assert WorkerOk(s, w);
    match s.phases[w]
    case Looking => a := Shift(w);
    case Ready(_, _) => a := Begin(w, false);
    case Checking(_, _) => a := SourceChecked(w, true);
    case Running(_, _) => a := StackEnds(w, Passed);
  }

  // ---------- the pool ----------

  /** The workers over the groups of one plan; `queue` holds the groups that no worker has taken. */
  class Pool {
    const groups: seq<seq<Sample>>
    var queue: seq<seq<Sample>>
    var phases: seq<Phase>
    var capReached: bool
    var failed: bool
    var aborted: bool
    /** The same with its history. */
    ghost var state: State

    ghost predicate Valid()
      reads this
    {
      Good(state) && Agrees(state, queue, phases, capReached, failed, aborted)
    }

    ghost predicate Agrees(s: State, queue: seq<seq<Sample>>, phases: seq<Phase>, capReached: bool, failed: bool,
                           aborted: bool)
    {
      && |queue| <= |groups| && queue == groups[|groups| - |queue|..]
      && s.sizes == Sizes(groups) && s.shifted == |groups| - |queue| && s.phases == phases
      && s.capReached == capReached && s.failed == failed && s.aborted == aborted
    }

    constructor (groups: seq<seq<Sample>>, concurrency: nat)
      ensures Valid() && this.groups == groups && state == Initial(Sizes(groups), concurrency)
    {
      this.groups, queue := groups, groups;
      phases := seq(Max(1, Min(concurrency, |groups|)), i => Looking);
      capReached, failed, aborted := false, false, false;
      state := Initial(Sizes(groups), concurrency);
      new;
      InitialIsGood(Sizes(groups), concurrency);
    }

    /** Completes a step: the shared variables and the history move together. */
    method Become(ghost next: State, queue: seq<seq<Sample>>, phases: seq<Phase>, capReached: bool, failed: bool,
                  aborted: bool)
      requires Good(next) && Agrees(next, queue, phases, capReached, failed, aborted)
      modifies this
      ensures Valid() && state == next
    {
      state := next;
      this.queue, this.phases, this.capReached, this.failed, this.aborted := queue, phases, capReached, failed, aborted;
    }

    method RaiseAbort()
      requires Valid()
      modifies this
      ensures Valid() && state == Next(old(state), Abort)
    {
      NextKeeps(state, Abort);
      Become(Next(state, Abort), queue, phases, capReached, failed, true);
    }

    method Finish() returns (result: RunResult)
      requires Valid()
      ensures result == ResultOf(state)
    {
      return if failed then Threw else Returned(capReached);
    }

    method TakeGroup(w: nat)
      requires Valid() && Enabled(state, Shift(w))
      modifies this
      ensures Valid() && state == Next(old(state), Shift(w))
    {
      NextKeeps(state, Shift(w));
      if queue == [] {
        Become(ShiftNext(state, w), queue, phases[w := Exited], capReached, failed, aborted);
      } else {
        Become(ShiftNext(state, w), queue[1..], phases[w := Ready(|groups| - |queue|, 0)], capReached, failed, aborted);
      }
    }

    method StartSample(w: nat, cap: bool)
      requires Valid() && Enabled(state, Begin(w, cap))
      modifies this
      ensures Valid() && state == Next(old(state), Begin(w, cap))
    {
      NextKeeps(state, Begin(w, cap));
      var g, r := phases[w].group, phases[w].run;
      var phase, reached := Checking(g, r), capReached;
      if r >= |groups[g]| {
        phase := Looking;
      } else if capReached || failed || aborted {
        phase := Exited;
      } else if cap {
        phase, reached := Exited, true;
      }
      Become(BeginNext(state, w, cap), queue, phases[w := phase], reached, failed, aborted);
    }

    method SourceWasChecked(w: nat, same: bool)
      requires Valid() && Enabled(state, SourceChecked(w, same))
      modifies this
      ensures Valid() && state == Next(old(state), SourceChecked(w, same))
    {
      NextKeeps(state, SourceChecked(w, same));
      var phase, changed := Running(phases[w].group, phases[w].run), failed;
      if !same {
        phase, changed := Exited, true;
      } else if capReached || failed || aborted {
        phase := Exited;
      }
      Become(CheckedNext(state, w, same), queue, phases[w := phase], capReached, changed, aborted);
    }

    method StackEnded(w: nat, ending: Ending)
      requires Valid() && Enabled(state, StackEnds(w, ending))
      modifies this
      ensures Valid() && state == Next(old(state), StackEnds(w, ending))
    {
      NextKeeps(state, StackEnds(w, ending));
      ghost var next := EndsNext(state, w, ending);
      match ending
      case Passed => Become(next, queue, phases[w := Ready(phases[w].group, phases[w].run + 1)], capReached, failed, aborted);
      case CapError => Become(next, queue, phases[w := Exited], true, failed, aborted);
      case Failed => Become(next, queue, phases[w := Exited], capReached, true, aborted);
    }
  }
}

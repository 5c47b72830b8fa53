/** The worker pool that executes a scenario plan.

    Several workers share the next group index, an abort signal and the first failure. Each method
    of `Pool` is one stretch of a worker between two awaits; a schedule is any sequence of such
    stretches, process completions and external aborts. */
module ScenarioPool {
  import opened Basics

  datatype Run = Run(name: string, hasVerifier: bool)

  datatype Group = Group(runs: seq<Run>, cleanupCommand: Option<string>)

  datatype Process = Command | Verifier

  /** Where a worker is. `Ready` is in front of a run, `Running` awaits a process, `Returned` is
      inside a run behind its command, `Settling` is behind a run. */
  datatype Phase =
    | Looking
    | Ready(group: nat, run: nat)
    | Running(group: nat, run: nat, process: Process)
    | Returned(group: nat, run: nat, status: int)
    | Settling(group: nat, run: nat, status: int)
    | Exited

  predicate Busy(phase: Phase) {
    !phase.Looking? && !phase.Exited?
  }

  // ---------- the history of an execution ----------

  datatype Event =
    | Claimed(group: nat)
    | Unprepared(group: nat, run: nat, process: Process)
    | Started(group: nat, run: nat, process: Process)
    | Ended(group: nat, run: nat, process: Process, code: int)
    | Held(group: nat, run: nat)
    | Settled(group: nat, run: nat, status: int)
    | Aborted

  /** The groups claimed, in order. */
  function Claims(log: seq<Event>): seq<nat> {
    if log == [] then []
    else
      var front, last := log[..|log| - 1], log[|log| - 1];
      if last.Claimed? then Claims(front) + [last.group] else Claims(front)
  }

  /** The runs of a group whose command was started, in order. */
  function RunsStarted(log: seq<Event>, g: nat): seq<nat> {
    if log == [] then []
    else
      var front, last := log[..|log| - 1], log[|log| - 1];
      if last.Started? && last.group == g && last.process == Command then RunsStarted(front, g) + [last.run]
      else RunsStarted(front, g)
  }

  /** The runs of a group that finished with status 0, in order. */
  function RunsPassed(log: seq<Event>, g: nat): seq<nat> {
    if log == [] then []
    else
      var front, last := log[..|log| - 1], log[|log| - 1];
      if last.Settled? && last.group == g && last.status == 0 then RunsPassed(front, g) + [last.run]
      else RunsPassed(front, g)
  }

  /** The first non-zero status of a run, or 0. */
  function FirstNonZero(log: seq<Event>): int {
    if log == [] then 0
    else
      var front, last := log[..|log| - 1], log[|log| - 1];
      if FirstNonZero(front) == 0 && last.Settled? then last.status else FirstNonZero(front)
  }

  predicate HasAborted(log: seq<Event>) {
    log != [] && (log[|log| - 1].Aborted? || HasAborted(log[..|log| - 1]))
  }

  /** No process is started behind an abort. */
  predicate NoLateStart(log: seq<Event>) {
    log == [] || (NoLateStart(log[..|log| - 1]) && (log[|log| - 1].Started? ==> !HasAborted(log[..|log| - 1])))
  }

  /** No verifier is held back but behind an abort. */
  predicate NoEarlyHold(log: seq<Event>) {
    log == [] || (NoEarlyHold(log[..|log| - 1]) && (log[|log| - 1].Held? ==> HasAborted(log[..|log| - 1])))
  }

  function Cleanups(groups: seq<Group>, n: nat): seq<string>
    requires n <= |groups|
  {
    if n == 0 then []
    else Cleanups(groups, n - 1)
         + (if groups[n - 1].cleanupCommand.Some? then [groups[n - 1].cleanupCommand.value] else [])
  }

  lemma Appended(log: seq<Event>, e: Event)
    ensures (log + [e])[..|log + [e]| - 1] == log && (log + [e])[|log + [e]| - 1] == e
  {
  }

  /** One more event changes each summary in the expected way. */
  lemma AfterEvent(log: seq<Event>, e: Event)
    ensures Claims(log + [e]) == if e.Claimed? then Claims(log) + [e.group] else Claims(log)
    ensures FirstNonZero(log + [e]) == if FirstNonZero(log) == 0 && e.Settled? then e.status else FirstNonZero(log)
    ensures HasAborted(log + [e]) <==> e.Aborted? || HasAborted(log)
    ensures NoLateStart(log + [e]) <==> NoLateStart(log) && (e.Started? ==> !HasAborted(log))
    ensures NoEarlyHold(log + [e]) <==> NoEarlyHold(log) && (e.Held? ==> HasAborted(log))
  {
    Appended(log, e);
  }

  lemma AfterEventIn(log: seq<Event>, e: Event, g: nat)
    ensures RunsStarted(log + [e], g) ==
              if e.Started? && e.group == g && e.process == Command then RunsStarted(log, g) + [e.run] else RunsStarted(log, g)
    ensures RunsPassed(log + [e], g) ==
              if e.Settled? && e.group == g && e.status == 0 then RunsPassed(log, g) + [e.run] else RunsPassed(log, g)
  {
    Appended(log, e);
  }

  // ---------- the steps ----------

  /** The shared variables and the workers, with a history: how many runs of each group were
      started and passed, which worker claimed it, and the group whose failure came first. */
  datatype State = State(
    groups: seq<Group>,
    phases: seq<Phase>,
    nextGroupIndex: nat,
    firstFailure: int,
    externalAborted: bool,
    startedCleanupCommands: seq<string>,
    log: seq<Event>,
    started: seq<nat>,
    passed: seq<nat>,
    owner: seq<nat>,
    failedGroup: nat)
  {
    /** The abort signal is raised from outside or by the first failure. */
    predicate Abort() {
      externalAborted || firstFailure != 0
    }

    function Move(w: nat, phase: Phase): State
      requires w < |phases|
    {
      this.(phases := phases[w := phase])
    }

    function Log(e: Event): State {
      this.(log := log + [e])
    }
  }

  function Initial(groups: seq<Group>, concurrency: nat, abortedBefore: bool): State {
    var zero := seq(|groups|, i => 0);
    State(groups, seq(Min(concurrency, |groups|), i => Looking), 0, 0, abortedBefore, [],
          if abortedBefore then [Aborted] else [], zero, zero, zero, 0)
  }

  /** What can happen next. `prepared` says whether a run gets as far as its process; `code` is a
      process's exit code. */
  datatype Action =
    | ExternalAbort
    | Look(w: nat)
    | Begin(w: nat, prepared: bool)
    | ProcessEnds(w: nat, code: int)
    | Return(w: nat, prepared: bool)
    | Settle(w: nat)

  predicate Enabled(s: State, a: Action) {
    match a
    case ExternalAbort => true
    case Look(w) => w < |s.phases| && s.phases[w].Looking?
    case Begin(w, _) => w < |s.phases| && s.phases[w].Ready? && s.phases[w].group < |s.groups| == |s.started|
    case ProcessEnds(w, _) => w < |s.phases| && s.phases[w].Running?
    case Return(w, _) =>
      w < |s.phases| && s.phases[w].Returned?
      && s.phases[w].group < |s.groups| && s.phases[w].run < |s.groups[s.phases[w].group].runs|
    case Settle(w) => w < |s.phases| && s.phases[w].Settling? && s.phases[w].group < |s.passed|
  }

  /** The head of a worker's loop: claims the next group or leaves. */
  function LookNext(s: State, w: nat): State
    requires Enabled(s, Look(w))
  {
    var g := s.nextGroupIndex;
    if s.Abort() || g >= |s.groups| then s.Move(w, Exited)
    else
      var claimed := s.Move(w, Ready(g, 0)).Log(Claimed(g));
      claimed.(nextGroupIndex := g + 1,
               owner := if g < |s.owner| then s.owner[g := w] else s.owner,
               startedCleanupCommands := s.startedCleanupCommands
                 + (if s.groups[g].cleanupCommand.Some? then [s.groups[g].cleanupCommand.value] else []))
  }

  /** In front of a run: leaves the group, fails before any process, or starts the command. */
  function BeginNext(s: State, w: nat, prepared: bool): State
    requires Enabled(s, Begin(w, prepared))
  {
    var g, r := s.phases[w].group, s.phases[w].run;
    if s.Abort() || r >= |s.groups[g].runs| then s.Move(w, Looking)
    else if !prepared then s.Move(w, Settling(g, r, 1)).Log(Unprepared(g, r, Command))
    else s.Move(w, Running(g, r, Command)).Log(Started(g, r, Command)).(started := s.started[g := r + 1])
  }

  /** Behind the command: a failed one ends the run; otherwise the verifier, if there is one, is
      missing, is not started because of an abort, or is started. */
  function ReturnNext(s: State, w: nat, prepared: bool): State
    requires Enabled(s, Return(w, prepared))
  {
    var g, r, code := s.phases[w].group, s.phases[w].run, s.phases[w].status;
    if code != 0 || !s.groups[g].runs[r].hasVerifier then s.Move(w, Settling(g, r, code))
    else if !prepared then s.Move(w, Settling(g, r, 1)).Log(Unprepared(g, r, Verifier))
    else if s.Abort() then s.Move(w, Settling(g, r, 130)).Log(Held(g, r))
    else s.Move(w, Running(g, r, Verifier)).Log(Started(g, r, Verifier))
  }

  /** Behind a run: the first failure is recorded and aborts the others. */
  function SettleNext(s: State, w: nat): State
    requires Enabled(s, Settle(w))
  {
    var g, r, status := s.phases[w].group, s.phases[w].run, s.phases[w].status;
    var settled := s.Log(Settled(g, r, status));
    if status == 0 then settled.Move(w, Ready(g, r + 1)).(passed := s.passed[g := r + 1])
    else if s.externalAborted || s.firstFailure != 0 then settled.Move(w, Looking)
    else settled.Move(w, Looking).(firstFailure := status, failedGroup := g, log := s.log + [Settled(g, r, status), Aborted])
  }

  function Next(s: State, a: Action): State {
    if !Enabled(s, a) then s
    else
      match a
      case ExternalAbort => s.(externalAborted := true).Log(Aborted)
      case Look(w) => LookNext(s, w)
      case Begin(w, prepared) => BeginNext(s, w, prepared)
      case ProcessEnds(w, code) =>
        var p := s.phases[w];
        s.Move(w, if p.process == Command then Returned(p.group, p.run, code) else Settling(p.group, p.run, code))
         .Log(Ended(p.group, p.run, p.process, code))
      case Return(w, prepared) => ReturnNext(s, w, prepared)
      case Settle(w) => SettleNext(s, w)
  }

  // ---------- the invariant ----------

  predicate At(s: State, w: nat, g: nat, r: nat) {
    g < s.nextGroupIndex && g < |s.groups| == |s.owner| == |s.passed| && s.owner[g] == w && s.passed[g] == r
  }

  /** A worker inside a group is its owner and stands at the run behind the passed ones. */
  predicate WorkerOk(s: State, w: nat)
    requires w < |s.phases| && |s.started| == |s.groups|
  {
    match s.phases[w]
    case Looking => true
    case Exited => s.Abort() || s.nextGroupIndex == |s.groups|
    case Ready(g, r) => At(s, w, g, r) && s.started[g] == r && r <= |s.groups[g].runs|
    case Running(g, r, _) => At(s, w, g, r) && s.started[g] == r + 1 && r < |s.groups[g].runs|
    case Returned(g, r, _) => At(s, w, g, r) && s.started[g] == r + 1 && r < |s.groups[g].runs|
    case Settling(g, r, status) =>
      At(s, w, g, r) && r < |s.groups[g].runs| && (s.started[g] == r + 1 || (s.started[g] == r && status != 0))
  }

  predicate Owned(s: State, g: nat) {
    g < |s.owner| && s.owner[g] < |s.phases| && Busy(s.phases[s.owner[g]]) && s.phases[s.owner[g]].group == g
  }

  predicate GroupOk(s: State, g: nat)
    requires g < |s.started| == |s.passed| == |s.groups|
  {
    && RunsStarted(s.log, g) == Upto(s.started[g])
    && RunsPassed(s.log, g) == Upto(s.passed[g])
    && s.passed[g] <= s.started[g] <= |s.groups[g].runs| && s.started[g] <= s.passed[g] + 1
    && (g >= s.nextGroupIndex ==> s.started[g] == 0)
    && (g < s.nextGroupIndex && s.passed[g] < |s.groups[g].runs| && !s.Abort() ==> Owned(s, g))
  }

  /** A group that can never be completed: a run of it failed and its worker has left. */
  predicate Failed(s: State, g: nat) {
    g < s.nextGroupIndex && g < |s.groups| == |s.passed| && s.passed[g] < |s.groups[g].runs| && !Owned(s, g)
  }

  /** The shared variables agree with the history. */
  predicate SharedOk(s: State) {
    && s.nextGroupIndex <= |s.groups|
    && Claims(s.log) == Upto(s.nextGroupIndex)
    && s.startedCleanupCommands == Cleanups(s.groups, s.nextGroupIndex)
    && NoLateStart(s.log) && NoEarlyHold(s.log)
    && (s.Abort() <==> HasAborted(s.log))
    && (!s.externalAborted ==> s.firstFailure == FirstNonZero(s.log))
    && (s.firstFailure != 0 ==> Failed(s, s.failedGroup))
  }

  predicate Good(s: State) {
    && |s.started| == |s.passed| == |s.owner| == |s.groups|
    && SharedOk(s)
    && (forall g :: 0 <= g < |s.groups| ==> GroupOk(s, g))
    && (forall w :: 0 <= w < |s.phases| ==> WorkerOk(s, w))
  }

  lemma InitialIsGood(groups: seq<Group>, concurrency: nat, abortedBefore: bool)
    ensures Good(Initial(groups, concurrency, abortedBefore))
  {
    var s := Initial(groups, concurrency, abortedBefore);
    assert s.log != [] ==> s.log[..|s.log| - 1] == [];
    forall g | 0 <= g < |groups|
      ensures GroupOk(s, g)
    {
    }
  }

  /** Only worker `w` and group `g` change, and the events are about that group. */
  predicate Local(s: State, t: State, w: nat, g: nat, es: seq<Event>) {
    && w < |s.phases| == |t.phases| && t.phases == s.phases[w := t.phases[w]]
    && t.groups == s.groups
    && g < |s.groups| == |s.started| == |s.passed| == |s.owner|
    && |t.started| == |t.passed| == |t.owner| == |s.groups|
    && t.started == s.started[g := t.started[g]]
    && t.passed == s.passed[g := t.passed[g]]
    && t.owner == s.owner[g := t.owner[g]]
    && (Busy(s.phases[w]) ==> s.phases[w].group == g)
    && (Busy(t.phases[w]) ==> t.phases[w].group == g)
    && (s.Abort() ==> t.Abort())
    && t.log == s.log + es && |es| <= 2
    && (forall i :: 0 <= i < |es| && (es[i].Started? || es[i].Settled?) ==> es[i].group == g)
  }

  lemma OtherWorkerKeeps(s: State, t: State, w: nat, g: nat, es: seq<Event>, v: nat)
    requires Good(s) && Local(s, t, w, g, es) && v < |s.phases| && v != w
    requires t.nextGroupIndex == s.nextGroupIndex || t.nextGroupIndex == s.nextGroupIndex + 1 == g + 1
    requires s.owner[g] == w || g == s.nextGroupIndex
    ensures WorkerOk(t, v)
  {
    assert WorkerOk(s, v);
  }

  lemma OtherGroupKeeps(s: State, t: State, w: nat, g: nat, es: seq<Event>, h: nat)
    requires Good(s) && Local(s, t, w, g, es) && h < |s.groups| && h != g
    requires t.nextGroupIndex == s.nextGroupIndex || t.nextGroupIndex == s.nextGroupIndex + 1 == g + 1
    ensures GroupOk(t, h)
  {
    assert GroupOk(s, h);
    AfterEventsIn(s.log, es, h);
  }

  /** Every other worker and group is where it was. */
  lemma OthersKeep(s: State, t: State, w: nat, g: nat, es: seq<Event>)
    requires Good(s) && Local(s, t, w, g, es)
    requires t.nextGroupIndex == s.nextGroupIndex || t.nextGroupIndex == s.nextGroupIndex + 1 == g + 1
    requires s.owner[g] == w || g == s.nextGroupIndex
    requires SharedOk(t) && GroupOk(t, g) && WorkerOk(t, w)
    ensures Good(t)
  {
    forall v | 0 <= v < |t.phases|
      ensures WorkerOk(t, v)
    {
      if v != w {
        OtherWorkerKeeps(s, t, w, g, es, v);
      }
    }
    forall h | 0 <= h < |t.groups|
      ensures GroupOk(t, h)
    {
      if h != g {
        OtherGroupKeeps(s, t, w, g, es, h);
      }
    }
  }

  lemma AfterEventsIn(log: seq<Event>, es: seq<Event>, h: nat)
    requires |es| <= 2 && forall i :: 0 <= i < |es| && (es[i].Started? || es[i].Settled?) ==> es[i].group != h
    ensures RunsStarted(log + es, h) == RunsStarted(log, h) && RunsPassed(log + es, h) == RunsPassed(log, h)
  {
    if |es| == 0 {
      assert log + es == log;
    } else {
      AfterEventIn(log, es[0], h);
      if |es| == 1 {
        assert log + es == log + [es[0]];
      } else {
        AfterEventIn(log + [es[0]], es[1], h);
        assert log + es == log + [es[0]] + [es[1]];
      }
    }
  }

  lemma ClaimIsRecorded(s: State, w: nat)
    requires SharedOk(s) && |s.owner| == |s.groups| && Enabled(s, Look(w)) && !s.Abort() && s.nextGroupIndex < |s.groups|
    ensures SharedOk(LookNext(s, w))
  {
    AfterEvent(s.log, Claimed(s.nextGroupIndex));
  }

  lemma ClaimedGroupIsOk(s: State, w: nat)
    requires Good(s) && Enabled(s, Look(w)) && !s.Abort() && s.nextGroupIndex < |s.groups|
    ensures GroupOk(LookNext(s, w), s.nextGroupIndex) && WorkerOk(LookNext(s, w), w)
  {
    assert GroupOk(s, s.nextGroupIndex);
    AfterEventIn(s.log, Claimed(s.nextGroupIndex), s.nextGroupIndex);
  }

  lemma LookKeeps(s: State, w: nat)
    requires Good(s) && Enabled(s, Look(w))
    ensures Good(LookNext(s, w))
  {
    var t, g := LookNext(s, w), s.nextGroupIndex;
    if s.Abort() || g >= |s.groups| {
      Stays(s, t, w);
    } else {
      ClaimIsRecorded(s, w);
      ClaimedGroupIsOk(s, w);
      OthersKeep(s, t, w, g, [Claimed(g)]);
    }
  }

  /** A step that moves a worker without a group, or one that may leave its group. */
  lemma Stays(s: State, t: State, w: nat)
    requires Good(s) && w < |s.phases| == |t.phases| && t == s.Move(w, t.phases[w])
    requires !Busy(t.phases[w]) && WorkerOk(t, w)
    requires Busy(s.phases[w]) ==>
               var g := s.phases[w].group; g < |s.groups| && (s.Abort() || s.passed[g] == |s.groups[g].runs|)
    ensures Good(t)
  {
    forall v | 0 <= v < |t.phases|
      ensures WorkerOk(t, v)
    {
      assert WorkerOk(s, v);
    }
    forall h | 0 <= h < |t.groups|
      ensures GroupOk(t, h)
    {
      assert GroupOk(s, h);
    }
  }

  lemma StartKeeps(s: State, t: State, w: nat)
    requires Good(s) && w < |s.phases| && s.phases[w].Ready? && s.phases[w].group < |s.groups| && !s.Abort()
    requires s.phases[w].run < |s.groups[s.phases[w].group].runs|
    requires t == s.Move(w, Running(s.phases[w].group, s.phases[w].run, Command))
                   .Log(Started(s.phases[w].group, s.phases[w].run, Command))
                   .(started := s.started[s.phases[w].group := s.phases[w].run + 1])
    ensures Good(t)
  {
    var g, r := s.phases[w].group, s.phases[w].run;
    assert WorkerOk(s, w) && GroupOk(s, g);
    AfterEventIn(s.log, Started(g, r, Command), g);
    Within(s, t, w, g, [Started(g, r, Command)]);
  }

  lemma BeginKeeps(s: State, w: nat, prepared: bool)
    requires Good(s) && Enabled(s, Begin(w, prepared))
    ensures Good(BeginNext(s, w, prepared))
  {
    var t, g, r := BeginNext(s, w, prepared), s.phases[w].group, s.phases[w].run;
    assert WorkerOk(s, w) && GroupOk(s, g);
    if s.Abort() || r >= |s.groups[g].runs| {
      Stays(s, t, w);
    } else if !prepared {
      MovesWithin(s, t, w, [Unprepared(g, r, Command)]);
    } else {
      StartKeeps(s, t, w);
    }
  }

  /** An event that neither claims, starts, settles nor aborts anything. */
  predicate Neutral(s: State, e: Event) {
    e.Unprepared? || e.Ended? || (e.Held? && s.Abort())
  }

  /** A step inside a group that starts a process before any abort, settles a passed run, or only
      moves the worker. */
  lemma Within(s: State, t: State, w: nat, g: nat, es: seq<Event>)
    requires Good(s) && Local(s, t, w, g, es) && |es| <= 1
    requires t == s.(phases := t.phases, started := t.started, passed := t.passed, log := t.log)
    requires Busy(s.phases[w]) && Busy(t.phases[w])
    requires es != [] ==> (es[0].Started? && !s.Abort()) || (es[0].Settled? && es[0].status == 0) || Neutral(s, es[0])
    requires GroupOk(t, g) && WorkerOk(t, w)
    ensures Good(t)
  {
    assert WorkerOk(s, w);
    FailedStaysFailed(s, t, w, g, es);
    if es == [] {
      assert t.log == s.log;
    } else {
      AfterEvent(s.log, es[0]);
    }
    OthersKeep(s, t, w, g, es);
  }

  /** The failed group is not the one a worker is in, so it stays failed. */
  lemma FailedStaysFailed(s: State, t: State, w: nat, g: nat, es: seq<Event>)
    requires Local(s, t, w, g, es) && s.owner[g] == w && Owned(s, g)
    requires t.nextGroupIndex == s.nextGroupIndex && t.failedGroup == s.failedGroup
    ensures Failed(s, s.failedGroup) ==> Failed(t, t.failedGroup)
  {
  }

  /** A step inside a group that starts no process and settles nothing. */
  lemma MovesWithin(s: State, t: State, w: nat, es: seq<Event>)
    requires Good(s) && w < |s.phases| == |t.phases| && t == s.Move(w, t.phases[w]).(log := s.log + es)
    requires |es| <= 1 && (es != [] ==> Neutral(s, es[0]))
    requires Busy(s.phases[w]) && Busy(t.phases[w]) && s.phases[w].group == t.phases[w].group
    requires WorkerOk(t, w)
    ensures Good(t)
  {
    var g := s.phases[w].group;
    assert WorkerOk(s, w) && GroupOk(s, g);
    AfterEventsIn(s.log, es, g);
    Within(s, t, w, g, es);
  }

  lemma VerifierStartKeeps(s: State, w: nat)
    requires Good(s) && w < |s.phases| && s.phases[w].Returned? && !s.Abort()
    ensures var g, r := s.phases[w].group, s.phases[w].run;
      Good(s.Move(w, Running(g, r, Verifier)).Log(Started(g, r, Verifier)))
  {
    var g, r := s.phases[w].group, s.phases[w].run;
    var t := s.Move(w, Running(g, r, Verifier)).Log(Started(g, r, Verifier));
    assert WorkerOk(s, w) && GroupOk(s, g);
    AfterEventIn(s.log, Started(g, r, Verifier), g);
    Within(s, t, w, g, [Started(g, r, Verifier)]);
  }

  lemma VerifierSkipKeeps(s: State, w: nat, status: int, es: seq<Event>)
    requires Good(s) && w < |s.phases| && s.phases[w].Returned?
    requires |es| <= 1 && (es != [] ==> Neutral(s, es[0]))
    ensures Good(s.Move(w, Settling(s.phases[w].group, s.phases[w].run, status)).(log := s.log + es))
  {
    assert WorkerOk(s, w);
    MovesWithin(s, s.Move(w, Settling(s.phases[w].group, s.phases[w].run, status)).(log := s.log + es), w, es);
  }

  lemma ReturnKeeps(s: State, w: nat, prepared: bool)
    requires Good(s) && Enabled(s, Return(w, prepared))
    ensures Good(ReturnNext(s, w, prepared))
  {
    var g, r, code := s.phases[w].group, s.phases[w].run, s.phases[w].status;
    if code != 0 || !s.groups[g].runs[r].hasVerifier {
      VerifierSkipKeeps(s, w, code, []);
      assert s.log + [] == s.log;
    } else if !prepared {
      VerifierSkipKeeps(s, w, 1, [Unprepared(g, r, Verifier)]);
    } else if s.Abort() {
      VerifierSkipKeeps(s, w, 130, [Held(g, r)]);
    } else {
      VerifierStartKeeps(s, w);
    }
  }

  lemma ProcessEndsKeeps(s: State, w: nat, code: int)
    requires Good(s) && Enabled(s, ProcessEnds(w, code))
    ensures Good(Next(s, ProcessEnds(w, code)))
  {
    assert WorkerOk(s, w);
    var p := s.phases[w];
    MovesWithin(s, Next(s, ProcessEnds(w, code)), w, [Ended(p.group, p.run, p.process, code)]);
  }

  lemma PassedRunKeeps(s: State, w: nat)
    requires Good(s) && Enabled(s, Settle(w)) && s.phases[w].status == 0
    ensures Good(SettleNext(s, w))
  {
    var t, g, r := SettleNext(s, w), s.phases[w].group, s.phases[w].run;
    var e := Settled(g, r, 0);
    assert WorkerOk(s, w) && GroupOk(s, g);
    AfterEventIn(s.log, e, g);
    Within(s, t, w, g, [e]);
  }

  lemma LaterFailureKeeps(s: State, w: nat)
    requires Good(s) && Enabled(s, Settle(w)) && s.phases[w].status != 0 && s.Abort()
    ensures Good(SettleNext(s, w))
  {
    var t, g, r := SettleNext(s, w), s.phases[w].group, s.phases[w].run;
    var e := Settled(g, r, s.phases[w].status);
    assert WorkerOk(s, w) && GroupOk(s, g);
    AfterEvent(s.log, e);
    AfterEventIn(s.log, e, g);
    assert Local(s, t, w, g, [e]);
    FailedStaysFailed(s, t, w, g, [e]);
    OthersKeep(s, t, w, g, [e]);
  }

  lemma AfterFailure(log: seq<Event>, e: Event, g: nat)
    requires e.Settled? && e.status != 0
    ensures var t := log + [e, Aborted];
      && Claims(t) == Claims(log) && HasAborted(t) && (NoLateStart(t) <==> NoLateStart(log)) && (NoEarlyHold(t) <==> NoEarlyHold(log))
      && FirstNonZero(t) == (if FirstNonZero(log) == 0 then e.status else FirstNonZero(log))
      && RunsStarted(t, g) == RunsStarted(log, g) && RunsPassed(t, g) == RunsPassed(log, g)
  {
    AfterEvent(log, e);
    AfterEventIn(log, e, g);
    AfterEvent(log + [e], Aborted);
    AfterEventIn(log + [e], Aborted, g);
    assert log + [e, Aborted] == (log + [e]) + [Aborted];
  }

  lemma FirstFailureKeeps(s: State, w: nat)
    requires Good(s) && Enabled(s, Settle(w)) && s.phases[w].status != 0 && !s.Abort()
    ensures Good(SettleNext(s, w))
  {
    var t, g, r := SettleNext(s, w), s.phases[w].group, s.phases[w].run;
    var e := Settled(g, r, s.phases[w].status);
    assert WorkerOk(s, w) && GroupOk(s, g);
    AfterFailure(s.log, e, g);
    assert Local(s, t, w, g, [e, Aborted]);
    assert Failed(t, g);
    OthersKeep(s, t, w, g, [e, Aborted]);
  }

  lemma ExternalAbortKeeps(s: State)
    requires Good(s)
    ensures Good(Next(s, ExternalAbort))
  {
    var t := Next(s, ExternalAbort);
    AfterEvent(s.log, Aborted);
    forall v | 0 <= v < |t.phases|
      ensures WorkerOk(t, v)
    {
      assert WorkerOk(s, v);
    }
    forall h | 0 <= h < |t.groups|
      ensures GroupOk(t, h)
    {
      assert GroupOk(s, h);
      AfterEventIn(s.log, Aborted, h);
    }
  }

  lemma NextKeeps(s: State, a: Action)
    requires Good(s)
    ensures Good(Next(s, a))
  {
    if Enabled(s, a) {
      match a
      case ExternalAbort => ExternalAbortKeeps(s);
      case Look(w) => LookKeeps(s, w);
      case Begin(w, prepared) => BeginKeeps(s, w, prepared);
      case ProcessEnds(w, code) => ProcessEndsKeeps(s, w, code);
      case Return(w, prepared) => ReturnKeeps(s, w, prepared);
      case Settle(w) =>
        if s.phases[w].status == 0 {
          PassedRunKeeps(s, w);
        } else if s.Abort() {
          LaterFailureKeeps(s, w);
        } else {
          FirstFailureKeeps(s, w);
        }
    }
  }

  lemma NextFrame(s: State, a: Action)
    ensures Next(s, a).groups == s.groups && |Next(s, a).phases| == |s.phases|
  {
  }

  // ---------- the story of a run ----------

  predicate About(e: Event, g: nat, r: nat) {
    !e.Claimed? && !e.Aborted? && e.group == g && e.run == r
  }

  /** The events of one run, in order. */
  function StoryOf(log: seq<Event>, g: nat, r: nat): seq<Event> {
    if log == [] then []
    else
      var front, last := log[..|log| - 1], log[|log| - 1];
      if About(last, g, r) then StoryOf(front, g, r) + [last] else StoryOf(front, g, r)
  }

  lemma AfterEventOf(log: seq<Event>, e: Event, g: nat, r: nat)
    ensures StoryOf(log + [e], g, r) == if About(e, g, r) then StoryOf(log, g, r) + [e] else StoryOf(log, g, r)
  {
    Appended(log, e);
  }

  lemma {:induction false} ToldInStory(log: seq<Event>, e: Event, g: nat, r: nat)
    requires About(e, g, r)
    ensures e in StoryOf(log, g, r) <==> e in log
  {
    if log != [] {
      ToldInStory(log[..|log| - 1], e, g, r);
      assert log == log[..|log| - 1] + [log[|log| - 1]];
    }
  }

  /** What has to have happened to a run that is about to settle with `status`: its command or its
      verifier was not prepared, the command failed or has no verifier behind it, an abort kept the
      verifier from starting, or the verifier ended with that status. */
  predicate Explains(story: seq<Event>, g: nat, r: nat, hasVerifier: bool, status: int) {
    var command, passed := Started(g, r, Command), Ended(g, r, Command, 0);
    || (story == [Unprepared(g, r, Command)] && status == 1)
    || (story == [command, Ended(g, r, Command, status)] && (status != 0 || !hasVerifier))
    || (hasVerifier && story == [command, passed, Unprepared(g, r, Verifier)] && status == 1)
    || (hasVerifier && story == [command, passed, Held(g, r)] && status == 130)
    || (hasVerifier && story == [command, passed, Started(g, r, Verifier), Ended(g, r, Verifier, status)])
  }

  /** A settled run: its status is the last event and is explained by the events before. */
  predicate Complete(story: seq<Event>, g: nat, r: nat, hasVerifier: bool) {
    && story != []
    && About(story[|story| - 1], g, r) && story[|story| - 1].Settled?
    && Explains(story[..|story| - 1], g, r, hasVerifier, story[|story| - 1].status)
  }

  /** What the worker's place says about the run it is in. */
  predicate PhaseTold(phase: Phase, story: seq<Event>, hasVerifier: bool)
    requires Busy(phase)
  {
    match phase
    case Ready(_, _) => story == []
    case Running(g, r, Command) => story == [Started(g, r, Command)]
    case Returned(g, r, code) => story == [Started(g, r, Command), Ended(g, r, Command, code)]
    case Running(g, r, Verifier) =>
      hasVerifier && story == [Started(g, r, Command), Ended(g, r, Command, 0), Started(g, r, Verifier)]
    case Settling(g, r, status) => Explains(story, g, r, hasVerifier, status)
  }

  /** Runs before the current one are complete with status 0, and runs behind it have no story yet. */
  predicate RunTold(s: State, g: nat, r: nat)
    requires g < |s.groups| == |s.passed| && r < |s.groups[g].runs|
  {
    var story, hasVerifier := StoryOf(s.log, g, r), s.groups[g].runs[r].hasVerifier;
    if r < s.passed[g] then Complete(story, g, r, hasVerifier) && story[|story| - 1].status == 0
    else if r > s.passed[g] then story == []
    else if Owned(s, g) then PhaseTold(s.phases[s.owner[g]], story, hasVerifier)
    else story == [] || (g < s.nextGroupIndex && Complete(story, g, r, hasVerifier) && story[|story| - 1].status != 0)
  }

  predicate Told(s: State)
    requires |s.groups| == |s.passed|
  {
    forall g, r :: 0 <= g < |s.groups| && 0 <= r < |s.groups[g].runs| ==> RunTold(s, g, r)
  }

  /** A step of worker `w` in run `r` of group `g` tells at most something about that run. */
  predicate LocalStory(s: State, t: State, w: nat, g: nat, r: nat) {
    && w < |s.phases| == |t.phases| && t.phases == s.phases[w := t.phases[w]]
    && t.groups == s.groups && t.owner == s.owner && t.nextGroupIndex == s.nextGroupIndex
    && Busy(s.phases[w]) && s.phases[w].group == g && s.phases[w].run == r
    && (Busy(t.phases[w]) ==> t.phases[w].group == g)
    && g < |s.groups| == |s.passed| == |t.passed| == |s.owner| && s.owner[g] == w && s.passed[g] == r
    && (t.passed == s.passed || t.passed == s.passed[g := r + 1])
    && |s.log| <= |t.log| <= |s.log| + 2 && t.log == s.log + t.log[|s.log|..]
    && (forall i :: |s.log| <= i < |t.log| ==> t.log[i].Aborted? || About(t.log[i], g, r))
  }

  lemma OtherStory(s: State, t: State, w: nat, g: nat, r: nat, h: nat, q: nat)
    requires LocalStory(s, t, w, g, r) && (h != g || q != r)
    ensures StoryOf(t.log, h, q) == StoryOf(s.log, h, q)
  {
    if |t.log| > |s.log| {
      AfterEventOf(s.log, t.log[|s.log|], h, q);
      if |t.log| == |s.log| + 1 {
        assert t.log == s.log + [t.log[|s.log|]];
      } else {
        AfterEventOf(s.log + [t.log[|s.log|]], t.log[|s.log| + 1], h, q);
        assert t.log == s.log + [t.log[|s.log|]] + [t.log[|s.log| + 1]];
      }
    } else {
      assert t.log == s.log;
    }
  }

  lemma LocalStoryIsTold(s: State, t: State, w: nat, g: nat, r: nat)
    requires LocalStory(s, t, w, g, r) && Told(s)
    requires r < |s.groups[g].runs| ==> RunTold(t, g, r)
    requires t.passed[g] == r + 1 ==> t.phases[w] == Ready(g, r + 1)
    ensures Told(t)
  {
    forall h, q | 0 <= h < |t.groups| && 0 <= q < |t.groups[h].runs|
      ensures RunTold(t, h, q)
    {
      if h != g || q != r {
        assert RunTold(s, h, q);
        OtherStory(s, t, w, g, r, h, q);
      }
    }
  }

  lemma LookIsTold(s: State, w: nat)
    requires Good(s) && Told(s) && Enabled(s, Look(w))
    ensures Told(LookNext(s, w))
  {
    var t, c := LookNext(s, w), s.nextGroupIndex;
    forall h, q | 0 <= h < |t.groups| && 0 <= q < |t.groups[h].runs|
      ensures RunTold(t, h, q)
    {
      assert RunTold(s, h, q) && GroupOk(s, h);
      AfterEventOf(s.log, Claimed(c), h, q);
      if h == c && s.owner[c] < |s.phases| {
        assert WorkerOk(s, s.owner[c]);
      }
    }
  }

  lemma BeginIsLocal(s: State, w: nat, prepared: bool)
    requires Good(s) && Enabled(s, Begin(w, prepared))
    ensures LocalStory(s, BeginNext(s, w, prepared), w, s.phases[w].group, s.phases[w].run)
  {
    assert WorkerOk(s, w);
  }

  /** A worker that goes on with its run. */
  lemma GoesOn(s: State, t: State, w: nat, e: Event, story: seq<Event>)
    requires w < |s.phases| == |t.phases| && Busy(s.phases[w]) && Busy(t.phases[w])
    requires s.phases[w].group == t.phases[w].group && s.phases[w].run == t.phases[w].run
    requires At(s, w, s.phases[w].group, s.phases[w].run) && s.phases[w].run < |s.groups[s.phases[w].group].runs|
    requires t == s.(phases := t.phases, log := s.log + [e], started := t.started)
    requires StoryOf(s.log, s.phases[w].group, s.phases[w].run) == story && About(e, s.phases[w].group, s.phases[w].run)
    requires PhaseTold(t.phases[w], story + [e], s.groups[s.phases[w].group].runs[s.phases[w].run].hasVerifier)
    ensures RunTold(t, s.phases[w].group, s.phases[w].run)
  {
    AfterEventOf(s.log, e, s.phases[w].group, s.phases[w].run);
  }

  lemma CurrentStory(s: State, w: nat)
    requires Good(s) && Told(s) && w < |s.phases| && Busy(s.phases[w])
    requires s.phases[w].group < |s.groups| && s.phases[w].run < |s.groups[s.phases[w].group].runs|
    ensures At(s, w, s.phases[w].group, s.phases[w].run)
    ensures PhaseTold(s.phases[w], StoryOf(s.log, s.phases[w].group, s.phases[w].run),
                      s.groups[s.phases[w].group].runs[s.phases[w].run].hasVerifier)
  {
    assert WorkerOk(s, w);
    assert RunTold(s, s.phases[w].group, s.phases[w].run);
  }

  lemma LeavesUntold(s: State, t: State, w: nat)
    requires Good(s) && Told(s) && w < |s.phases| && s.phases[w].Ready? && t == s.Move(w, Looking)
    requires s.phases[w].group < |s.groups| && s.phases[w].run < |s.groups[s.phases[w].group].runs|
    ensures RunTold(t, s.phases[w].group, s.phases[w].run)
  {
    CurrentStory(s, w);
  }

  lemma BegunRunIsTold(s: State, w: nat, prepared: bool)
    requires Good(s) && Told(s) && Enabled(s, Begin(w, prepared))
    requires s.phases[w].run < |s.groups[s.phases[w].group].runs|
    ensures RunTold(BeginNext(s, w, prepared), s.phases[w].group, s.phases[w].run)
  {
    var t, g, r := BeginNext(s, w, prepared), s.phases[w].group, s.phases[w].run;
    if s.Abort() {
      LeavesUntold(s, t, w);
    } else {
      CurrentStory(s, w);
      GoesOn(s, t, w, if prepared then Started(g, r, Command) else Unprepared(g, r, Command), []);
    }
  }

  lemma BeginIsTold(s: State, w: nat, prepared: bool)
    requires Good(s) && Told(s) && Enabled(s, Begin(w, prepared))
    ensures Told(BeginNext(s, w, prepared))
  {
    var g, r := s.phases[w].group, s.phases[w].run;
    if r < |s.groups[g].runs| {
      BegunRunIsTold(s, w, prepared);
    }
    BeginIsLocal(s, w, prepared);
    LocalStoryIsTold(s, BeginNext(s, w, prepared), w, g, r);
  }

  lemma EndIsLocal(s: State, w: nat, code: int)
    requires Good(s) && Enabled(s, ProcessEnds(w, code))
    ensures LocalStory(s, Next(s, ProcessEnds(w, code)), w, s.phases[w].group, s.phases[w].run)
  {
    assert WorkerOk(s, w);
  }

  lemma EndedRunIsTold(s: State, w: nat, code: int)
    requires Good(s) && Told(s) && Enabled(s, ProcessEnds(w, code))
    requires s.phases[w].group < |s.groups| && s.phases[w].run < |s.groups[s.phases[w].group].runs|
    ensures RunTold(Next(s, ProcessEnds(w, code)), s.phases[w].group, s.phases[w].run)
  {
    var t, p := Next(s, ProcessEnds(w, code)), s.phases[w];
    CurrentStory(s, w);
    GoesOn(s, t, w, Ended(p.group, p.run, p.process, code), StoryOf(s.log, p.group, p.run));
  }

  lemma EndIsTold(s: State, w: nat, code: int)
    requires Good(s) && Told(s) && Enabled(s, ProcessEnds(w, code))
    ensures Told(Next(s, ProcessEnds(w, code)))
  {
    assert WorkerOk(s, w);
    EndedRunIsTold(s, w, code);
    EndIsLocal(s, w, code);
    LocalStoryIsTold(s, Next(s, ProcessEnds(w, code)), w, s.phases[w].group, s.phases[w].run);
  }

  lemma ReturnIsLocal(s: State, w: nat, prepared: bool)
    requires Good(s) && Enabled(s, Return(w, prepared))
    ensures LocalStory(s, ReturnNext(s, w, prepared), w, s.phases[w].group, s.phases[w].run)
  {
    assert WorkerOk(s, w);
  }

  lemma ReturnedStory(g: nat, r: nat, hasVerifier: bool)
    ensures var story := [Started(g, r, Command), Ended(g, r, Command, 0)];
      hasVerifier ==>
        && PhaseTold(Settling(g, r, 1), story + [Unprepared(g, r, Verifier)], hasVerifier)
        && PhaseTold(Settling(g, r, 130), story + [Held(g, r)], hasVerifier)
        && PhaseTold(Running(g, r, Verifier), story + [Started(g, r, Verifier)], hasVerifier)
  {
  }

  lemma ReturnedRunIsTold(s: State, w: nat, prepared: bool)
    requires Good(s) && Told(s) && Enabled(s, Return(w, prepared))
    ensures RunTold(ReturnNext(s, w, prepared), s.phases[w].group, s.phases[w].run)
  {
    var t, g, r, code := ReturnNext(s, w, prepared), s.phases[w].group, s.phases[w].run, s.phases[w].status;
    CurrentStory(s, w);
    if code == 0 && s.groups[g].runs[r].hasVerifier {
      ReturnedStory(g, r, true);
      GoesOn(s, t, w, if !prepared then Unprepared(g, r, Verifier) else if s.Abort() then Held(g, r) else Started(g, r, Verifier),
             [Started(g, r, Command), Ended(g, r, Command, 0)]);
    }
  }

  lemma ReturnIsTold(s: State, w: nat, prepared: bool)
    requires Good(s) && Told(s) && Enabled(s, Return(w, prepared))
    ensures Told(ReturnNext(s, w, prepared))
  {
    ReturnedRunIsTold(s, w, prepared);
    ReturnIsLocal(s, w, prepared);
    LocalStoryIsTold(s, ReturnNext(s, w, prepared), w, s.phases[w].group, s.phases[w].run);
  }

  lemma SettledStory(log: seq<Event>, e: Event, g: nat, r: nat)
    requires About(e, g, r)
    ensures StoryOf(log + [e], g, r) == StoryOf(log, g, r) + [e] == StoryOf(log + [e, Aborted], g, r)
  {
    AfterEventOf(log, e, g, r);
    AfterEventOf(log + [e], Aborted, g, r);
    assert log + [e, Aborted] == (log + [e]) + [Aborted];
  }

  lemma SettleIsLocal(s: State, w: nat)
    requires Good(s) && Enabled(s, Settle(w))
    ensures LocalStory(s, SettleNext(s, w), w, s.phases[w].group, s.phases[w].run)
  {
    assert WorkerOk(s, w);
  }

  lemma SettledRunIsTold(s: State, w: nat)
    requires Good(s) && Told(s) && Enabled(s, Settle(w))
    requires s.phases[w].group < |s.groups| && s.phases[w].run < |s.groups[s.phases[w].group].runs|
    ensures RunTold(SettleNext(s, w), s.phases[w].group, s.phases[w].run)
  {
    var g, r, status := s.phases[w].group, s.phases[w].run, s.phases[w].status;
    assert WorkerOk(s, w);
    CurrentStory(s, w);
    SettledStory(s.log, Settled(g, r, status), g, r);
  }

  lemma SettleIsTold(s: State, w: nat)
    requires Good(s) && Told(s) && Enabled(s, Settle(w))
    ensures Told(SettleNext(s, w))
  {
    assert WorkerOk(s, w);
    SettledRunIsTold(s, w);
    SettleIsLocal(s, w);
    LocalStoryIsTold(s, SettleNext(s, w), w, s.phases[w].group, s.phases[w].run);
  }

  lemma AbortIsTold(s: State)
    requires Good(s) && Told(s)
    ensures Told(Next(s, ExternalAbort))
  {
    var t := Next(s, ExternalAbort);
    forall h, q | 0 <= h < |t.groups| && 0 <= q < |t.groups[h].runs|
      ensures RunTold(t, h, q)
    {
      assert RunTold(s, h, q);
      AfterEventOf(s.log, Aborted, h, q);
    }
  }

  lemma NextIsTold(s: State, a: Action)
    requires Good(s) && Told(s)
    ensures |Next(s, a).groups| == |Next(s, a).passed| && Told(Next(s, a))
  {
    NextKeeps(s, a);
    if Enabled(s, a) {
      match a
      case ExternalAbort => AbortIsTold(s);
      case Look(w) => LookIsTold(s, w);
      case Begin(w, prepared) => BeginIsTold(s, w, prepared);
      case ProcessEnds(w, code) => EndIsTold(s, w, code);
      case Return(w, prepared) => ReturnIsTold(s, w, prepared);
      case Settle(w) => SettleIsTold(s, w);
    }
  }

  // ---------- every interleaving ----------

  function After(s: State, schedule: seq<Action>): State {
    if schedule == [] then s else Next(After(s, schedule[..|schedule| - 1]), schedule[|schedule| - 1])
  }

  lemma {:induction false} AfterIsGood(s: State, schedule: seq<Action>)
    requires Good(s)
    ensures Good(After(s, schedule)) && After(s, schedule).groups == s.groups
    ensures |After(s, schedule).phases| == |s.phases|
  {
    if schedule != [] {
      AfterIsGood(s, schedule[..|schedule| - 1]);
      NextKeeps(After(s, schedule[..|schedule| - 1]), schedule[|schedule| - 1]);
      NextFrame(After(s, schedule[..|schedule| - 1]), schedule[|schedule| - 1]);
    }
  }

  lemma {:induction false} AfterIsTold(s: State, schedule: seq<Action>)
    requires Good(s) && Told(s)
    ensures |After(s, schedule).groups| == |After(s, schedule).passed| && Told(After(s, schedule))
  {
    if schedule != [] {
      AfterIsGood(s, schedule[..|schedule| - 1]);
      AfterIsTold(s, schedule[..|schedule| - 1]);
      NextIsTold(After(s, schedule[..|schedule| - 1]), schedule[|schedule| - 1]);
    }
  }

  lemma EveryRunIsTold(groups: seq<Group>, concurrency: nat, abortedBefore: bool, schedule: seq<Action>)
    ensures var s := After(Initial(groups, concurrency, abortedBefore), schedule);
      s.groups == groups && Good(s) && Told(s)
  {
    var start := Initial(groups, concurrency, abortedBefore);
    InitialIsGood(groups, concurrency, abortedBefore);
    assert Told(start) by {
      forall g, r | 0 <= g < |groups| && 0 <= r < |groups[g].runs|
        ensures RunTold(start, g, r)
      {
        assert start.log != [] ==> start.log[..|start.log| - 1] == [];
      }
    }
    AfterIsGood(start, schedule);
    AfterIsTold(start, schedule);
  }

  /** A run settles with what its processes ended with: with 0 only if its command ended with 0 and
      so did its verifier, if it has one; and otherwise with the exit code of its last process, with
      1 because something was not prepared, or with 130 because of an abort. */
  lemma SettledIsExplained(groups: seq<Group>, concurrency: nat, abortedBefore: bool, schedule: seq<Action>,
                           g: nat, r: nat, status: int)
    requires g < |groups| && r < |groups[g].runs|
    requires Settled(g, r, status) in After(Initial(groups, concurrency, abortedBefore), schedule).log
    ensures var log, v := After(Initial(groups, concurrency, abortedBefore), schedule).log, groups[g].runs[r].hasVerifier;
      var story := StoryOf(log, g, r);
      && story != [] && story[|story| - 1] == Settled(g, r, status)
      && Explains(story[..|story| - 1], g, r, v, status)
      && (status == 0 ==> Ended(g, r, Command, 0) in log && (v ==> Ended(g, r, Verifier, 0) in log))
      && (status != 0 ==>
            || Ended(g, r, Command, status) in log || (v && Ended(g, r, Verifier, status) in log)
            || (status == 1 && (Unprepared(g, r, Command) in log || (v && Unprepared(g, r, Verifier) in log)))
            || (status == 130 && v && Held(g, r) in log && NoEarlyHold(log)))
  {
    EveryRunIsTold(groups, concurrency, abortedBefore, schedule);
    var s := After(Initial(groups, concurrency, abortedBefore), schedule);
    assert RunTold(s, g, r);
    ToldInStory(s.log, Settled(g, r, status), g, r);
    var story := StoryOf(s.log, g, r);
    if Owned(s, g) && r == s.passed[g] {
      assert WorkerOk(s, s.owner[g]);
      UnsettledStory(s.phases[s.owner[g]], story, g, r, groups[g].runs[r].hasVerifier, status);
    }
    CompleteStory(story, g, r, groups[g].runs[r].hasVerifier, status);
    StoryIsLogged(s.log, g, r);
  }

  lemma UnsettledStory(phase: Phase, story: seq<Event>, g: nat, r: nat, hasVerifier: bool, status: int)
    requires Busy(phase) && phase.group == g && phase.run == r && PhaseTold(phase, story, hasVerifier)
    ensures Settled(g, r, status) !in story
  {
  }

  /** In a complete story the status stands once, at the end, and its reason before it. */
  lemma CompleteStory(story: seq<Event>, g: nat, r: nat, hasVerifier: bool, status: int)
    requires Complete(story, g, r, hasVerifier) && Settled(g, r, status) in story
    ensures story[|story| - 1] == Settled(g, r, status)
    ensures status == 0 ==> Ended(g, r, Command, 0) in story && (hasVerifier ==> Ended(g, r, Verifier, 0) in story)
    ensures status != 0 ==>
              || Ended(g, r, Command, status) in story || (hasVerifier && Ended(g, r, Verifier, status) in story)
              || (status == 1 && (Unprepared(g, r, Command) in story || (hasVerifier && Unprepared(g, r, Verifier) in story)))
              || (status == 130 && hasVerifier && Held(g, r) in story)
  {
    var front, last := story[..|story| - 1], story[|story| - 1];
    assert story == front + [last];
    assert Settled(g, r, status) !in front;
    assert forall e :: e in front ==> e in story;
  }

  lemma {:induction false} StoryIsLogged(log: seq<Event>, g: nat, r: nat)
    ensures forall e :: e in StoryOf(log, g, r) ==> e in log
  {
    if log != [] {
      StoryIsLogged(log[..|log| - 1], g, r);
      assert log == log[..|log| - 1] + [log[|log| - 1]];
    }
  }

  /** When the workers are done, every run that was begun has settled; so no process ended with a
      status that was not passed on. */
  lemma EveryFailureSettles(groups: seq<Group>, concurrency: nat, abortedBefore: bool, schedule: seq<Action>,
                            g: nat, r: nat, process: Process, code: int)
    requires Finished(After(Initial(groups, concurrency, abortedBefore), schedule))
    requires g < |groups| && r < |groups[g].runs| && code != 0
    requires Ended(g, r, process, code) in After(Initial(groups, concurrency, abortedBefore), schedule).log
    ensures Settled(g, r, code) in After(Initial(groups, concurrency, abortedBefore), schedule).log
  {
    EveryRunIsTold(groups, concurrency, abortedBefore, schedule);
    var s := After(Initial(groups, concurrency, abortedBefore), schedule);
    assert RunTold(s, g, r);
    ToldInStory(s.log, Ended(g, r, process, code), g, r);
    ToldInStory(s.log, Settled(g, r, code), g, r);
    FailureIsStatus(StoryOf(s.log, g, r), g, r, groups[g].runs[r].hasVerifier, process, code);
  }

  lemma FailureIsStatus(story: seq<Event>, g: nat, r: nat, hasVerifier: bool, process: Process, code: int)
    requires Complete(story, g, r, hasVerifier) && Ended(g, r, process, code) in story && code != 0
    ensures Settled(g, r, code) in story
  {
    var front, last := story[..|story| - 1], story[|story| - 1];
    assert story == front + [last];
    assert Ended(g, r, process, code) in front;
  }

  /** What a step is told about the outside is what the history records of it. */
  lemma ReportsAreRecorded(s: State, a: Action)
    requires Good(s) && Enabled(s, a)
    ensures a.ProcessEnds? ==>
              var p := s.phases[a.w];
              Next(s, a).log == s.log + [Ended(p.group, p.run, p.process, a.code)]
    ensures a.Begin? && !s.Abort() && s.phases[a.w].run < |s.groups[s.phases[a.w].group].runs| ==>
              var g, r := s.phases[a.w].group, s.phases[a.w].run;
              Next(s, a).log == s.log + [if a.prepared then Started(g, r, Command) else Unprepared(g, r, Command)]
    ensures a.Return? && s.phases[a.w].status == 0 && s.groups[s.phases[a.w].group].runs[s.phases[a.w].run].hasVerifier ==>
              var g, r := s.phases[a.w].group, s.phases[a.w].run;
              Next(s, a).log == s.log + [if !a.prepared then Unprepared(g, r, Verifier)
                                         else if s.Abort() then Held(g, r) else Started(g, r, Verifier)]
    ensures a.ExternalAbort? ==> Next(s, a).externalAborted
  {
  }

  /** An external abort, before or during the execution, decides the exit status. */
  lemma ExternalAbortDecides(groups: seq<Group>, concurrency: nat, abortedBefore: bool, schedule: seq<Action>)
    ensures var s := After(Initial(groups, concurrency, abortedBefore), schedule);
      && (s.externalAborted <==> abortedBefore || ExternalAbort in schedule)
      && (abortedBefore || ExternalAbort in schedule ==> Status(s) == 130)
  {
    AbortIsRemembered(Initial(groups, concurrency, abortedBefore), schedule);
  }

  lemma {:induction false} AbortIsRemembered(s: State, schedule: seq<Action>)
    ensures After(s, schedule).externalAborted <==> s.externalAborted || ExternalAbort in schedule
  {
    if schedule != [] {
      var front, last := schedule[..|schedule| - 1], schedule[|schedule| - 1];
      AbortIsRemembered(s, front);
      assert schedule == front + [last];
      OnlyAbortsAbort(After(s, front), last);
    }
  }

  lemma OnlyAbortsAbort(s: State, a: Action)
    ensures Next(s, a).externalAborted <==> s.externalAborted || a.ExternalAbort?
  {
    if Enabled(s, a) && a.Settle? {
      assert SettleNext(s, a.w).externalAborted == s.externalAborted;
    }
  }

  /** Whatever the interleaving: groups are claimed once each and in order, the runs of a group
      start in order and each only behind the success of the one before, no process starts behind
      an abort, and the recorded cleanup commands are those of the claimed groups. */
  lemma EveryInterleaving(groups: seq<Group>, concurrency: nat, abortedBefore: bool, schedule: seq<Action>, g: nat)
    requires g < |groups|
    ensures var s := After(Initial(groups, concurrency, abortedBefore), schedule);
      && |s.phases| == Min(concurrency, |groups|)
      && NoLateStart(s.log)
      && s.nextGroupIndex <= |groups| && Claims(s.log) == Upto(s.nextGroupIndex)
      && s.startedCleanupCommands == Cleanups(groups, s.nextGroupIndex)
      && (exists n: nat, m: nat :: m <= n <= m + 1 && n <= |groups[g].runs|
            && RunsStarted(s.log, g) == Upto(n) && RunsPassed(s.log, g) == Upto(m))
  {
    var start := Initial(groups, concurrency, abortedBefore);
    InitialIsGood(groups, concurrency, abortedBefore);
    AfterIsGood(start, schedule);
    var s := After(start, schedule);
    assert GroupOk(s, g);
  }

  predicate Finished(s: State) {
    forall w :: 0 <= w < |s.phases| ==> s.phases[w].Exited?
  }

  /** The exit status of the whole execution. */
  function Status(s: State): int {
    if s.externalAborted then 130
    else if s.firstFailure != 0 then s.firstFailure
    else if s.Abort() then 130
    else 0
  }

  /** Without an external abort the execution ends with the first failing status, and with 0 exactly
      when every run of every group passed. */
  lemma StatusIsFirstFailure(groups: seq<Group>, concurrency: nat, schedule: seq<Action>)
    requires concurrency >= 1
    requires var s := After(Initial(groups, concurrency, false), schedule); Finished(s) && !s.externalAborted
    ensures var s := After(Initial(groups, concurrency, false), schedule);
      && Status(s) == FirstNonZero(s.log)
      && (Status(s) == 0 <==> forall g :: 0 <= g < |groups| ==> RunsPassed(s.log, g) == Upto(|groups[g].runs|))
  {
    var start := Initial(groups, concurrency, false);
    InitialIsGood(groups, concurrency, false);
    AfterIsGood(start, schedule);
    FinishedStatus(After(start, schedule));
  }

  lemma FinishedStatus(s: State)
    requires Good(s) && Finished(s) && !s.externalAborted && (|s.phases| > 0 || s.groups == [])
    ensures Status(s) == FirstNonZero(s.log)
    ensures Status(s) == 0 <==> forall g :: 0 <= g < |s.groups| ==> RunsPassed(s.log, g) == Upto(|s.groups[g].runs|)
  {
    if s.firstFailure == 0 {
      if s.groups != [] {
        assert WorkerOk(s, 0);
      }
      forall g | 0 <= g < |s.groups|
        ensures RunsPassed(s.log, g) == Upto(|s.groups[g].runs|)
      {
        assert GroupOk(s, g);
      }
    } else {
      var g := s.failedGroup;
      assert GroupOk(s, g);
      UptoLength(s.passed[g]);
      UptoLength(|s.groups[g].runs|);
    }
  }

  lemma {:induction false} UptoLength(n: nat)
    ensures |Upto(n)| == n
  {
    if n > 0 {
      UptoLength(n - 1);
    }
  }

  // ---------- every execution ends ----------

  /** How much is left to do for a worker at `phase`. */
  function Left(groups: seq<Group>, phase: Phase): nat {
    match phase
    case Exited => 0
    case Looking => 1
    case Ready(g, r) => 2 + Later(groups, g, r)
    case Running(g, r, Command) => 7 + Later(groups, g, r + 1)
    case Returned(g, r, _) => 6 + Later(groups, g, r + 1)
    case Running(g, r, Verifier) => 5 + Later(groups, g, r + 1)
    case Settling(g, r, _) => 4 + Later(groups, g, r + 1)
  }

  /** The runs of group `g` from `r` on, at eight steps each. */
  function Later(groups: seq<Group>, g: nat, r: nat): nat {
    if g < |groups| && r < |groups[g].runs| then 8 * (|groups[g].runs| - r) else 0
  }

  function WorkersLeft(groups: seq<Group>, phases: seq<Phase>, n: nat): nat
    requires n <= |phases|
  {
    if n == 0 then 0 else WorkersLeft(groups, phases, n - 1) + Left(groups, phases[n - 1])
  }

  /** The groups that no worker has claimed, from the last one back to `g`. */
  function Unclaimed(groups: seq<Group>, g: nat): nat
    decreases |groups| - g
  {
    if g >= |groups| then 0 else 2 + Later(groups, g, 0) + Unclaimed(groups, g + 1)
  }

  function StepsLeft(s: State): nat {
    WorkersLeft(s.groups, s.phases, |s.phases|) + Unclaimed(s.groups, s.nextGroupIndex)
  }

  lemma {:induction false} WorkerMoves(groups: seq<Group>, phases: seq<Phase>, w: nat, phase: Phase, n: nat)
    requires w < |phases| && n <= |phases|
    ensures WorkersLeft(groups, phases[w := phase], n) + (if w < n then Left(groups, phases[w]) else 0)
         == WorkersLeft(groups, phases, n) + (if w < n then Left(groups, phase) else 0)
  {
    if n > 0 {
      WorkerMoves(groups, phases, w, phase, n - 1);
    }
  }

  /** Worker `w` moves so that it and the unclaimed groups together have less to do. */
  predicate Drops(s: State, t: State, w: nat) {
    && w < |s.phases| == |t.phases| && t.phases == s.phases[w := t.phases[w]] && t.groups == s.groups
    && Left(s.groups, t.phases[w]) + Unclaimed(s.groups, t.nextGroupIndex)
       < Left(s.groups, s.phases[w]) + Unclaimed(s.groups, s.nextGroupIndex)
  }

  lemma LookDrops(s: State, w: nat)
    requires Good(s) && Enabled(s, Look(w))
    ensures Drops(s, LookNext(s, w), w)
  {
  }

  lemma BeginDrops(s: State, w: nat, prepared: bool)
    requires Good(s) && Enabled(s, Begin(w, prepared))
    ensures Drops(s, BeginNext(s, w, prepared), w)
  {
    assert WorkerOk(s, w);
  }

  lemma ReturnDrops(s: State, w: nat, prepared: bool)
    requires Good(s) && Enabled(s, Return(w, prepared))
    ensures Drops(s, ReturnNext(s, w, prepared), w)
  {
  }

  lemma SettleDrops(s: State, w: nat)
    requires Good(s) && Enabled(s, Settle(w))
    ensures Drops(s, SettleNext(s, w), w)
  {
  }

  lemma WorkerDrops(s: State, a: Action)
    requires Good(s) && Enabled(s, a) && !a.ExternalAbort?
    ensures Drops(s, Next(s, a), a.w)
  {
    match a
    case Look(w) => LookDrops(s, w);
    case Begin(w, prepared) => BeginDrops(s, w, prepared);
    case ProcessEnds(w, code) => assert WorkerOk(s, w);
    case Return(w, prepared) => ReturnDrops(s, w, prepared);
    case Settle(w) => SettleDrops(s, w);
  }

  /** Every action but an external abort leaves less to do, so no execution goes on for ever. */
  lemma EveryStepCounts(s: State, a: Action)
    requires Good(s) && Enabled(s, a) && !a.ExternalAbort?
    ensures StepsLeft(Next(s, a)) < StepsLeft(s)
  {
    var t := Next(s, a);
    WorkerDrops(s, a);
    WorkerMoves(s.groups, s.phases, a.w, t.phases[a.w], |s.phases|);
  }

  /** Until all workers have left, one of them, or a process, can go on. */
  lemma SomethingCanMove(s: State) returns (a: Action)
    requires Good(s) && !Finished(s)
    ensures Enabled(s, a) && !a.ExternalAbort?
  {
    var w :| 0 <= w < |s.phases| && !s.phases[w].Exited?;
    assert WorkerOk(s, w);
    match s.phases[w]
    case Looking => a := Look(w);
    case Ready(_, _) => a := Begin(w, true);
    case Running(_, _, _) => a := ProcessEnds(w, 0);
    case Returned(_, _, _) => a := Return(w, true);
    case Settling(_, _, _) => a := Settle(w);
  }

  // ---------- the pool ----------

  class Pool {
    const groups: seq<Group>
    var phases: seq<Phase>
    var nextGroupIndex: nat
    var firstFailure: int
    var aborted: bool
    var externalAborted: bool
    var startedCleanupCommands: seq<string>
    ghost var log: seq<Event>
    ghost var started: seq<nat>
    ghost var passed: seq<nat>
    ghost var owner: seq<nat>
    ghost var failedGroup: nat

    ghost function Now(): State
      reads this
    {
      State(groups, phases, nextGroupIndex, firstFailure, externalAborted, startedCleanupCommands,
            log, started, passed, owner, failedGroup)
    }

    ghost predicate Valid()
      reads this
    {
      Good(Now()) && (aborted <==> Now().Abort())
    }

    constructor (groups: seq<Group>, concurrency: nat, abortedBefore: bool)
      ensures Valid() && Now() == Initial(groups, concurrency, abortedBefore)
    {
      this.groups := groups;
      phases := seq(Min(concurrency, |groups|), i => Looking);
      nextGroupIndex, firstFailure, startedCleanupCommands := 0, 0, [];
      aborted, externalAborted := abortedBefore, abortedBefore;
      ghost var start := Initial(groups, concurrency, abortedBefore);
      log, started, passed, owner, failedGroup := start.log, start.started, start.passed, start.owner, start.failedGroup;
      new;
      InitialIsGood(groups, concurrency, abortedBefore);
    }

    ghost method Remember(s: State)
      modifies this`log, this`started, this`passed, this`owner, this`failedGroup
      ensures Now() == old(Now()).(log := s.log, started := s.started, passed := s.passed, owner := s.owner, failedGroup := s.failedGroup)
    {
      log, started, passed, owner, failedGroup := s.log, s.started, s.passed, s.owner, s.failedGroup;
    }

    method Claim(w: nat)
      requires Valid() && Enabled(Now(), Look(w))
      modifies this
      ensures Now() == Next(old(Now()), Look(w)) && Valid()
    {
      ghost var next := Next(Now(), Look(w));
      NextKeeps(Now(), Look(w));
      if !aborted && nextGroupIndex < |groups| {
        var group := nextGroupIndex;
        nextGroupIndex := nextGroupIndex + 1;
        if groups[group].cleanupCommand.Some? {
          startedCleanupCommands := startedCleanupCommands + [groups[group].cleanupCommand.value];
        }
        phases := phases[w := Ready(group, 0)];
      } else {
        phases := phases[w := Exited];
      }
      Remember(next);
    }

    method StartRun(w: nat, prepared: bool)
      requires Valid() && Enabled(Now(), Begin(w, prepared))
      modifies this
      ensures Now() == Next(old(Now()), Begin(w, prepared)) && Valid()
    {
      ghost var next := Next(Now(), Begin(w, prepared));
      NextKeeps(Now(), Begin(w, prepared));
      var g, r := phases[w].group, phases[w].run;
      if aborted || r >= |groups[g].runs| {
        phases := phases[w := Looking];
      } else if !prepared {
        phases := phases[w := Settling(g, r, 1)];
      } else {
        phases := phases[w := Running(g, r, Command)];
      }
      Remember(next);
    }

    method ReturnFromCommand(w: nat, prepared: bool)
      requires Valid() && Enabled(Now(), Return(w, prepared))
      modifies this
      ensures Now() == Next(old(Now()), Return(w, prepared)) && Valid()
    {
      ghost var next := Next(Now(), Return(w, prepared));
      NextKeeps(Now(), Return(w, prepared));
      var g, r, code := phases[w].group, phases[w].run, phases[w].status;
      if code != 0 || !groups[g].runs[r].hasVerifier {
        phases := phases[w := Settling(g, r, code)];
      } else if !prepared {
        phases := phases[w := Settling(g, r, 1)];
      } else if aborted {
        phases := phases[w := Settling(g, r, 130)];
      } else {
        phases := phases[w := Running(g, r, Verifier)];
      }
      Remember(next);
    }

    method SettleRun(w: nat)
      requires Valid() && Enabled(Now(), Settle(w))
      modifies this
      ensures Now() == Next(old(Now()), Settle(w)) && Valid()
    {
      ghost var next := Next(Now(), Settle(w));
      NextKeeps(Now(), Settle(w));
      var g, r, status := phases[w].group, phases[w].run, phases[w].status;
      if status != 0 {
        if !externalAborted && firstFailure == 0 {
          firstFailure := status;
          aborted := true;
        }
        phases := phases[w := Looking];
      } else {
        phases := phases[w := Ready(g, r + 1)];
      }
      Remember(next);
    }

    /** One scheduled action, ignored when it is not possible. */
    method Perform(a: Action)
      requires Valid()
      modifies this
      ensures Now() == Next(old(Now()), a) && Valid()
    {
      ghost var next := Next(Now(), a);
      NextKeeps(Now(), a);
      match a
      case ExternalAbort =>
        externalAborted, aborted := true, true;
        Remember(next);
      case Look(w) =>
        if w < |phases| && phases[w].Looking? {
          Claim(w);
        }
      case Begin(w, prepared) =>
        if w < |phases| && phases[w].Ready? {
          assert WorkerOk(Now(), w);
          StartRun(w, prepared);
        }
      case ProcessEnds(w, code) =>
        if w < |phases| && phases[w].Running? {
          var p := phases[w];
          phases := phases[w := if p.process == Command then Returned(p.group, p.run, code) else Settling(p.group, p.run, code)];
          Remember(next);
        }
      case Return(w, prepared) =>
        if w < |phases| && phases[w].Returned? {
          assert WorkerOk(Now(), w);
          ReturnFromCommand(w, prepared);
        }
      case Settle(w) =>
        if w < |phases| && phases[w].Settling? {
          assert WorkerOk(Now(), w);
          SettleRun(w);
        }
    }

    /** Runs a schedule; the result is the exit status so far. */
    method Execute(schedule: seq<Action>) returns (status: int)
      requires Valid()
      modifies this
      ensures Valid() && Now() == After(old(Now()), schedule) && status == Status(Now())
    {
      ghost var start := Now();
      for i := 0 to |schedule|
        invariant Valid() && Now() == After(start, schedule[..i])
      {
        assert schedule[..i + 1][..i] == schedule[..i];
        Perform(schedule[i]);
      }
      assert schedule[..|schedule|] == schedule;
      status := if externalAborted then 130 else if firstFailure != 0 then firstFailure else if aborted then 130 else 0;
    }
  }
}

/** The crash-safe evidence ledgers of a benchmark run.

    A write-ahead manifest protects the sample ledger and the run ledger. Every file write is
    atomic, because it ends in a rename; the process may die between any two of them. */
module ResumeLedger {
  import opened Basics

  // ---------- ledgers ----------

  /** One line of a ledger: its key, its text, and whether it has the ledger's living shape. */
  datatype Row = Row(key: string, text: string, wellFormed: bool)

  type Ledger = Option<seq<Row>>

  function Keys(records: seq<Row>): set<string> {
    set i | 0 <= i < |records| :: records[i].key
  }

  function Retained(rows: seq<Row>, replaced: set<string>): (kept: seq<Row>)
    ensures |kept| <= |rows|
  {
    if rows == [] then []
    else
      var kept, last := Retained(rows[..|rows| - 1], replaced), rows[|rows| - 1];
      if last.key in replaced then kept else kept + [last]
  }

  function RowsOf(ledger: Ledger): seq<Row> {
    if ledger.Some? then ledger.value else []
  }

  /** The ledger with `records` in place of the rows that have their keys. */
  function Upsert(ledger: Ledger, records: seq<Row>): seq<Row> {
    Retained(RowsOf(ledger), Keys(records)) + records
  }

  predicate AllWellFormed(rows: seq<Row>) {
    forall i :: 0 <= i < |rows| ==> rows[i].wellFormed
  }

  /** The next contents, unless a row that would be retained is malformed. */
  method Preview(ledger: Ledger, records: seq<Row>) returns (contents: Option<seq<Row>>)
    ensures contents.Some? ==> contents.value == Upsert(ledger, records)
    ensures contents.Some? <==> AllWellFormed(Retained(RowsOf(ledger), Keys(records)))
  {
    var rows := RowsOf(ledger);
    var replaced := Keys(records);
    var retained := [];
    for i := 0 to |rows|
      invariant retained == Retained(rows[..i], replaced) && AllWellFormed(retained)
    {
      assert rows[..i + 1][..i] == rows[..i];
      if rows[i].key !in replaced {
        if !rows[i].wellFormed {
          LaterRowsKeep(rows, replaced, i + 1, |retained|);
          return None;
        }
        retained := retained + [rows[i]];
      }
    }
    assert rows[..|rows|] == rows;
    return Some(retained + records);
  }

  lemma {:induction false} LaterRowsKeep(rows: seq<Row>, replaced: set<string>, n: nat, at: nat)
    requires n <= |rows| && at < |Retained(rows[..n], replaced)| && !Retained(rows[..n], replaced)[at].wellFormed
    ensures !AllWellFormed(Retained(rows, replaced))
    decreases |rows| - n
  {
    if n < |rows| {
      assert rows[..n + 1][..n] == rows[..n];
      LaterRowsKeep(rows, replaced, n + 1, at);
    } else {
      assert rows[..n] == rows;
    }
  }

  lemma {:induction false} RetainedOfConcat(rows: seq<Row>, more: seq<Row>, replaced: set<string>)
    ensures Retained(rows + more, replaced) == Retained(rows, replaced) + Retained(more, replaced)
  {
    if more == [] {
      assert rows + more == rows;
    } else {
      assert (rows + more)[..|rows + more| - 1] == rows + more[..|more| - 1];
      RetainedOfConcat(rows, more[..|more| - 1], replaced);
    }
  }

  lemma {:induction false} NothingReplaced(rows: seq<Row>, replaced: set<string>)
    ensures (forall i :: 0 <= i < |rows| ==> rows[i].key in replaced) ==> Retained(rows, replaced) == []
    ensures (forall i :: 0 <= i < |rows| ==> rows[i].key !in replaced) ==> Retained(rows, replaced) == rows
    ensures forall i :: 0 <= i < |Retained(rows, replaced)| ==> Retained(rows, replaced)[i].key !in replaced
    ensures AllWellFormed(rows) ==> AllWellFormed(Retained(rows, replaced))
  {
    if rows != [] {
      NothingReplaced(rows[..|rows| - 1], replaced);
    }
  }

  predicate Replaces(records: seq<Row>, row: Row) {
    exists j :: 0 <= j < |records| && records[j].key == row.key
  }

  /** `kept` holds, in their order, exactly those of the first `n` rows that no record replaces. */
  ghost predicate Keeps(rows: seq<Row>, n: nat, records: seq<Row>, kept: seq<Row>, positions: seq<nat>) {
    && n <= |rows| && |positions| == |kept|
    && (forall i, j :: 0 <= i < j < |positions| ==> positions[i] < positions[j])
    && (forall i :: 0 <= i < |positions| ==> positions[i] < n && kept[i] == rows[positions[i]])
    && (forall p :: 0 <= p < n ==> (p in positions <==> !Replaces(records, rows[p])))
  }

  lemma {:induction false} RetainedKeeps(rows: seq<Row>, n: nat, records: seq<Row>) returns (positions: seq<nat>)
    requires n <= |rows|
    ensures Keeps(rows, n, records, Retained(rows[..n], Keys(records)), positions)
  {
    if n == 0 {
      positions := [];
    } else {
      positions := RetainedKeeps(rows, n - 1, records);
      assert rows[..n][..n - 1] == rows[..n - 1];
      if rows[n - 1].key !in Keys(records) {
        positions := positions + [n - 1];
        assert n - 1 == positions[|positions| - 1];
      }
    }
  }

  /** What a persist writes: behind the old rows that no record replaces, in their old order, stand
      the records, in theirs. */
  lemma UpsertIsExact(ledger: Ledger, records: seq<Row>) returns (kept: seq<Row>, positions: seq<nat>)
    ensures Upsert(ledger, records) == kept + records
    ensures var rows := if ledger.Some? then ledger.value else [];
      Keeps(rows, |rows|, records, kept, positions)
  {
    var rows := RowsOf(ledger);
    positions := RetainedKeeps(rows, |rows|, records);
    assert rows[..|rows|] == rows;
    kept := Retained(rows, Keys(records));
  }

  /** Persisting the same records again changes nothing. */
  lemma UpsertIsIdempotent(ledger: Ledger, records: seq<Row>)
    ensures Upsert(Some(Upsert(ledger, records)), records) == Upsert(ledger, records)
  {
    var replaced := Keys(records);
    var kept := Retained(RowsOf(ledger), replaced);
    RetainedOfConcat(kept, records, replaced);
    NothingReplaced(RowsOf(ledger), replaced);
    NothingReplaced(kept, replaced);
    NothingReplaced(records, replaced);
  }

  // ---------- the files ----------

  /** `pendingLedger` is absent or a digest; `pendingRuns` is absent, or a digest that may be null. */
  datatype Manifest = Manifest(
    identity: string,
    identitySha: string,
    evidenceFile: string,
    initiallyDirty: bool,
    ledgerSha: Option<string>,
    runsSha: Option<string>,
    pendingLedger: Option<string>,
    pendingRuns: Option<Option<string>>)

  class Disk {
    const digest: seq<Row> -> string
    const identityDigest: string -> string
    var manifest: Option<Manifest>
    var ledger: Ledger
    var runs: Ledger

    constructor (digest: seq<Row> -> string, identityDigest: string -> string, ledger: Ledger, runs: Ledger)
      ensures this.digest == digest && this.identityDigest == identityDigest
      ensures manifest == None && this.ledger == ledger && this.runs == runs
    {
      this.digest, this.identityDigest, manifest, this.ledger, this.runs := digest, identityDigest, None, ledger, runs;
    }

    function FileDigest(ledger: Ledger): Option<string> {
      if ledger.Some? then Some(digest(ledger.value)) else None
    }
  }

  /** A recorded digest that is absent matches nothing, not even a missing file. */
  predicate PendingLedgerIs(m: Manifest, digest: Option<string>) {
    m.pendingLedger.Some? && m.pendingLedger == digest
  }

  predicate PendingRunsIs(m: Manifest, digest: Option<string>) {
    m.pendingRuns == Some(digest)
  }

  /** The manifest records the files as they are. */
  predicate Recorded(disk: Disk, m: Manifest)
    reads disk
  {
    m.ledgerSha == disk.FileDigest(disk.ledger) && m.runsSha == disk.FileDigest(disk.runs)
  }

  /** The states that a crash can leave behind. */
  predicate Recoverable(disk: Disk, m: Manifest)
    reads disk
  {
    || Recorded(disk, m)
    || (PendingLedgerIs(m, disk.FileDigest(disk.ledger))
        && (m.runsSha == disk.FileDigest(disk.runs) || PendingRunsIs(m, disk.FileDigest(disk.runs))))
  }

  predicate Clean(disk: Disk, m: Manifest) {
    !m.initiallyDirty && m.identitySha == disk.identityDigest(m.identity)
  }

  /** The check before canonical publication. */
  predicate Publishable(disk: Disk)
    reads disk
  {
    && disk.manifest.Some?
    && disk.manifest.value.pendingLedger.None? && disk.manifest.value.pendingRuns.None?
    && Recorded(disk, disk.manifest.value)
    && Clean(disk, disk.manifest.value)
  }

  // ---------- sessions ----------

  datatype OpenError =
    | IdentityMismatch
    | DestinationChanged
    | LedgerChanged
    | RunsChanged
    | ManifestMissing

  datatype PersistResult = Completed | Crashed | RejectedPersist(reason: PersistError)

  datatype PersistError = Closed | LedgerChangedDuringRun | RunsChangedDuringRun | InvalidRow

  /** Where the process dies: before the write of the same number, 0 to 3, or not at all. The
      writes are the pending manifest, the sample ledger, the run ledger, the final manifest. */
  type CrashPoint = n: nat | n <= 4

  class Session {
    const disk: Disk
    var manifest: Manifest
    var active: bool

    constructor (disk: Disk, manifest: Manifest)
      ensures this.disk == disk && this.manifest == manifest && active
    {
      this.disk, this.manifest, active := disk, manifest, true;
    }

    /** What the disk holds when the process dies at `crash`: the sample ledger is the before-image
        or the after-image, and the run ledger is never ahead of it. */
    ghost predicate Persisted(crash: CrashPoint, records: seq<Row>, runRecords: seq<Row>,
                              ledgerBefore: Ledger, runsBefore: Ledger)
      reads disk
    {
      && disk.ledger == (if crash >= 2 then Some(Upsert(ledgerBefore, records)) else ledgerBefore)
      && disk.runs == (if crash >= 3 && runRecords != [] then Some(Upsert(runsBefore, runRecords)) else runsBefore)
    }

    method Persist(records: seq<Row>, runRecords: seq<Row>, crash: CrashPoint) returns (result: PersistResult)
      requires disk.manifest.Some?
      modifies this, disk
      ensures disk.manifest.Some?
      ensures result.RejectedPersist? ==> disk.ledger == old(disk.ledger) && disk.runs == old(disk.runs)
                                          && disk.manifest == old(disk.manifest)
      ensures result.RejectedPersist? <==>
                || !old(active)
                || (records != [] && (
                    || !old(Recorded(disk, manifest))
                    || !AllWellFormed(Retained(RowsOf(old(disk.ledger)), Keys(records)))
                    || (runRecords != [] && !AllWellFormed(Retained(RowsOf(old(disk.runs)), Keys(runRecords))))))
      ensures records == [] && old(active) ==>
                result == Completed && active && manifest == old(manifest) && disk.manifest == old(disk.manifest)
                && disk.ledger == old(disk.ledger) && disk.runs == old(disk.runs)
      ensures !result.RejectedPersist? && records != [] ==>
                && (result == Completed <==> crash == 4)
                && Persisted(crash, records, runRecords, old(disk.ledger), old(disk.runs))
      ensures !result.RejectedPersist? && records != [] && crash > 0 ==>
                && Recoverable(disk, disk.manifest.value)
                && SameRun(disk.manifest.value, old(manifest))
                && (Publishable(disk) <==> crash == 4 && Clean(disk, disk.manifest.value))
      ensures result.Crashed? && crash == 0 ==> disk.manifest == old(disk.manifest)
      ensures result.Crashed? && crash > 0 ==>
                disk.manifest == Some(old(manifest).(
                  pendingLedger := disk.FileDigest(Some(Upsert(old(disk.ledger), records))),
                  pendingRuns := Some(if runRecords == [] then old(manifest.runsSha)
                                      else disk.FileDigest(Some(Upsert(old(disk.runs), runRecords))))))
      ensures result.Completed? && records != [] ==>
                active && Recorded(disk, manifest) && disk.manifest == Some(manifest)
    {
      if !active {
        return RejectedPersist(Closed);
      }
      if records == [] {
        return Completed;
      }
      if disk.FileDigest(disk.ledger) != manifest.ledgerSha {
        return RejectedPersist(LedgerChangedDuringRun);
      }
      if disk.FileDigest(disk.runs) != manifest.runsSha {
        return RejectedPersist(RunsChangedDuringRun);
      }
      var sampleContents := Preview(disk.ledger, records);
      if sampleContents.None? {
        return RejectedPersist(InvalidRow);
      }
      var runsContents: Option<seq<Row>> := None;
      var nextRunsSha := manifest.runsSha;
      if runRecords != [] {
        runsContents := Preview(disk.runs, runRecords);
        if runsContents.None? {
          return RejectedPersist(InvalidRow);
        }
        nextRunsSha := Some(disk.digest(runsContents.value));
      }
      var nextDigest := disk.digest(sampleContents.value);
      if crash == 0 {
        return Crashed;
      }
      manifest := manifest.(pendingLedger := Some(nextDigest), pendingRuns := Some(nextRunsSha));
      disk.manifest := Some(manifest);
      if crash == 1 {
        return Crashed;
      }
      disk.ledger := sampleContents;
      if crash == 2 {
        return Crashed;
      }
      if runsContents.Some? {
        disk.runs := runsContents;
      }
      if crash == 3 {
        return Crashed;
      }
      manifest := manifest.(ledgerSha := Some(nextDigest), runsSha := nextRunsSha, pendingLedger := None, pendingRuns := None);
      disk.manifest := Some(manifest);
      return Completed;
    }
  }

  /** The parts of a manifest that never change during a run. */
  predicate SameRun(m: Manifest, n: Manifest) {
    m.identity == n.identity && m.identitySha == n.identitySha
    && m.evidenceFile == n.evidenceFile && m.initiallyDirty == n.initiallyDirty
  }

  predicate Ours(disk: Disk, m: Manifest, identity: string, evidenceFile: string) {
    m.identity == identity && m.identitySha == disk.identityDigest(identity) && m.evidenceFile == evidenceFile
  }

  /** Neither recorded digest matches. */
  predicate Foreign(disk: Disk, m: Manifest)
    reads disk
  {
    var ledger, runs := disk.FileDigest(disk.ledger), disk.FileDigest(disk.runs);
    || (ledger != m.ledgerSha && !PendingLedgerIs(m, ledger))
    || (runs != m.runsSha && !PendingRunsIs(m, runs))
  }

  /** The manifest that a reopening writes: a sample ledger that holds the pending image closes the
      interrupted write, together with the run ledger as it is. */
  function Promoted(disk: Disk, m: Manifest): Manifest
    reads disk
  {
    var ledger, runs := disk.FileDigest(disk.ledger), disk.FileDigest(disk.runs);
    if PendingLedgerIs(m, ledger)
    then m.(ledgerSha := ledger, runsSha := runs, pendingLedger := None, pendingRuns := None)
    else m
  }

  /** No write is recorded as pending, or the sample ledger already holds the pending image. */
  predicate Settled(disk: Disk, m: Manifest)
    reads disk
  {
    || (m.pendingLedger.None? && m.pendingRuns.None? && Recorded(disk, m))
    || PendingLedgerIs(m, disk.FileDigest(disk.ledger))
  }

  /** Opens or reopens a session. `containsRun` says whether a ledger already holds rows of the run. */
  method OpenSession(disk: Disk, identity: string, evidenceFile: string, dirty: bool, containsRun: bool)
    returns (result: Result<Session, OpenError>)
    modifies disk
    ensures disk.ledger == old(disk.ledger) && disk.runs == old(disk.runs)
    ensures old(disk.manifest).Some? ==>
              (result.Err? <==> !Ours(disk, old(disk.manifest.value), identity, evidenceFile)
                                || old(Foreign(disk, disk.manifest.value)))
    ensures old(disk.manifest).None? ==> (result.Err? <==> containsRun)
    ensures result.Err? ==> disk.manifest == old(disk.manifest)
    ensures result.Ok? ==>
              var session := result.value;
              && fresh(session) && session.disk == disk && session.active
              && disk.manifest == Some(session.manifest)
              && Ours(disk, session.manifest, identity, evidenceFile)
    ensures result.Ok? && old(disk.manifest).Some? ==>
              && SameRun(result.value.manifest, old(disk.manifest.value))
              && (Recorded(disk, result.value.manifest) <==> old(Recoverable(disk, disk.manifest.value)))
    ensures result.Ok? && old(disk.manifest).Some? ==>
              && result.value.manifest == old(Promoted(disk, disk.manifest.value))
              && (Publishable(disk) <==> old(Settled(disk, disk.manifest.value)) && !old(disk.manifest.value.initiallyDirty))
    ensures result.Ok? && old(disk.manifest).None? ==>
              && Recorded(disk, result.value.manifest) && result.value.manifest.initiallyDirty == dirty
              && (Publishable(disk) <==> !dirty)
  {
    var currentLedger := disk.FileDigest(disk.ledger);
    var currentRuns := disk.FileDigest(disk.runs);
    var manifest;
    if disk.manifest.Some? {
      manifest := disk.manifest.value;
      if manifest.identitySha != disk.identityDigest(identity) || manifest.identity != identity {
        return Err(IdentityMismatch);
      }
      if manifest.evidenceFile != evidenceFile {
        return Err(DestinationChanged);
      }
      if currentLedger != manifest.ledgerSha && !PendingLedgerIs(manifest, currentLedger) {
        return Err(LedgerChanged);
      }
      if currentRuns != manifest.runsSha && !PendingRunsIs(manifest, currentRuns) {
        return Err(RunsChanged);
      }
      if PendingLedgerIs(manifest, currentLedger) {
        manifest := manifest.(ledgerSha := currentLedger, runsSha := currentRuns, pendingLedger := None, pendingRuns := None);
        disk.manifest := Some(manifest);
      }
    } else {
      if containsRun {
        return Err(ManifestMissing);
      }
      manifest := Manifest(identity, disk.identityDigest(identity), evidenceFile, dirty, currentLedger, currentRuns, None, None);
      disk.manifest := Some(manifest);
    }
    var session := new Session(disk, manifest);
    return Ok(session);
  }

  /** A persist that dies at `crash`, and the reopening. The result can be published unless only
      the pending manifest was written; so it can be published with the new samples but without
      their run records when the process died between the two ledgers. */
  method CrashThenReopen(session: Session, identity: string, evidenceFile: string,
                         records: seq<Row>, runRecords: seq<Row>, crash: CrashPoint)
    returns (result: Result<Session, OpenError>)
    requires Ready(session, session.disk) && Publishable(session.disk)
    requires Ours(session.disk, session.manifest, identity, evidenceFile)
    requires AllWellFormed(Retained(RowsOf(session.disk.ledger), Keys(records)))
    requires AllWellFormed(Retained(RowsOf(session.disk.runs), Keys(runRecords)))
    requires records != [] && crash < 4
    modifies session, session.disk
    ensures result.Ok?
    ensures session.Persisted(crash, records, runRecords, old(session.disk.ledger), old(session.disk.runs))
    ensures Publishable(session.disk) <==>
              crash != 1 || old(session.disk.FileDigest(session.disk.ledger) ==
                                session.disk.FileDigest(Some(Upsert(session.disk.ledger, records))))
    ensures crash == 2 ==>
              Publishable(session.disk) && session.disk.runs == old(session.disk.runs)
              && session.disk.ledger == Some(Upsert(old(session.disk.ledger), records))
  {
    var outcome := session.Persist(records, runRecords, crash);
    assert outcome.Crashed?;
    result := OpenSession(session.disk, identity, evidenceFile, false, true);
  }

  /** On empty files: one sample with its run record, a crash between the two ledgers, and the
      reopening leave a publishable sample without a run record. */
  method PublishableWithoutRunRecord(digest: seq<Row> -> string, identityDigest: string -> string) returns (disk: Disk)
    ensures Publishable(disk) && disk.ledger == Some([Row("sample", "s", true)]) && disk.runs == None
  {
    disk := new Disk(digest, identityDigest, None, None);
    var first := OpenSession(disk, "run", "results.jsonl", false, false);
    var records := [Row("sample", "s", true)];
    assert Upsert(None, records) == records;
    var second := CrashThenReopen(first.value, "run", "results.jsonl", records, [Row("run", "r", true)], 2);
  }

  // ---------- histories ----------

  /** One persist, which the process may not survive. Before it the process may be restarted. */
  datatype Attempt = Attempt(restart: bool, records: seq<Row>, runRecords: seq<Row>, crash: CrashPoint)

  datatype Ledgers = Ledgers(samples: Ledger, runs: Ledger)

  function Apply(ledgers: Ledgers, attempt: Attempt): Ledgers {
    if attempt.records == [] then ledgers
    else
      Ledgers(if attempt.crash >= 2 then Some(Upsert(ledgers.samples, attempt.records)) else ledgers.samples,
              if attempt.crash >= 3 && attempt.runRecords != [] then Some(Upsert(ledgers.runs, attempt.runRecords))
              else ledgers.runs)
  }

  function ApplyAll(ledgers: Ledgers, history: seq<Attempt>): Ledgers {
    if history == [] then ledgers else Apply(ApplyAll(ledgers, history[..|history| - 1]), history[|history| - 1])
  }

  predicate WellFormedAttempt(attempt: Attempt) {
    AllWellFormed(attempt.records) && AllWellFormed(attempt.runRecords)
  }

  predicate WellFormedLedgers(ledgers: Ledgers) {
    AllWellFormed(RowsOf(ledgers.samples)) && AllWellFormed(RowsOf(ledgers.runs))
  }

  lemma ApplyKeepsShape(ledgers: Ledgers, attempt: Attempt)
    requires WellFormedLedgers(ledgers) && WellFormedAttempt(attempt)
    ensures WellFormedLedgers(Apply(ledgers, attempt))
    ensures AllWellFormed(Retained(RowsOf(ledgers.samples), Keys(attempt.records)))
    ensures AllWellFormed(Retained(RowsOf(ledgers.runs), Keys(attempt.runRecords)))
  {
    NothingReplaced(RowsOf(ledgers.samples), Keys(attempt.records));
    NothingReplaced(RowsOf(ledgers.runs), Keys(attempt.runRecords));
  }

  /** Any number of persists, each crashed anywhere, with a restart after every crash and wherever
      else: no reopening and no persist is ever rejected, and the ledgers hold exactly what the
      finished writes put there. */
  method Resume(disk: Disk, identity: string, evidenceFile: string, dirty: bool, history: seq<Attempt>)
    requires disk.manifest.Some? && Ours(disk, disk.manifest.value, identity, evidenceFile)
    requires Recoverable(disk, disk.manifest.value)
    requires WellFormedLedgers(Ledgers(disk.ledger, disk.runs))
    requires forall i :: 0 <= i < |history| ==> WellFormedAttempt(history[i])
    modifies disk
    ensures Ledgers(disk.ledger, disk.runs) == ApplyAll(old(Ledgers(disk.ledger, disk.runs)), history)
    ensures disk.manifest.Some? && Recoverable(disk, disk.manifest.value)
  {
    ghost var start := Ledgers(disk.ledger, disk.runs);
    var running: Option<Session> := None;
    for i := 0 to |history|
      invariant disk.manifest.Some? && Ours(disk, disk.manifest.value, identity, evidenceFile)
      invariant Recoverable(disk, disk.manifest.value)
      invariant Ledgers(disk.ledger, disk.runs) == ApplyAll(start, history[..i])
      invariant WellFormedLedgers(Ledgers(disk.ledger, disk.runs))
      invariant running.Some? ==> fresh(running.value) && Ready(running.value, disk)
    {
      var attempt := history[i];
      ApplyKeepsShape(Ledgers(disk.ledger, disk.runs), attempt);
      assert history[..i + 1][..i] == history[..i];
      if attempt.restart || running.None? {
        var reopening := OpenSession(disk, identity, evidenceFile, dirty, true);
        assert reopening.Ok?;
        running := Some(reopening.value);
      }
      var result := running.value.Persist(attempt.records, attempt.runRecords, attempt.crash);
      assert !result.RejectedPersist?;
      if result.Crashed? {
        running := None;
      }
    }
    assert history[..|history|] == history;
  }

  /** The session's next persist will pass its digest checks. */
  predicate Ready(session: Session, disk: Disk)
    reads session, disk
  {
    session.disk == disk && session.active && disk.manifest == Some(session.manifest) && Recorded(disk, session.manifest)
  }

  /** With a digest that tells contents apart, reopening accepts exactly the recorded image of the
      sample ledger and the pending one. */
  lemma OnlyRecordedImagesAreAccepted(disk: Disk, m: Manifest, before: Ledger, pending: Ledger)
    requires forall a, b :: disk.digest(a) == disk.digest(b) ==> a == b
    requires m.ledgerSha == disk.FileDigest(before) && m.runsSha == disk.FileDigest(disk.runs)
    requires m.pendingLedger == disk.FileDigest(pending)
    ensures Foreign(disk, m) <==> disk.ledger != before && (pending.None? || disk.ledger != pending)
  {
    SameDigest(disk, disk.ledger, before);
    SameDigest(disk, disk.ledger, pending);
  }

  lemma SameDigest(disk: Disk, a: Ledger, b: Ledger)
    requires forall a, b :: disk.digest(a) == disk.digest(b) ==> a == b
    ensures disk.FileDigest(a) == disk.FileDigest(b) <==> a == b
  {
  }

  /** Persisting again what a crash interrupted ends where an uninterrupted persist ends. */
  lemma RecoveryConverges(ledgers: Ledgers, attempt: Attempt)
    requires attempt.records != []
    ensures var whole := attempt.(crash := 4);
      Apply(Apply(ledgers, attempt), whole) == Apply(ledgers, whole)
  {
    UpsertIsIdempotent(ledgers.samples, attempt.records);
    UpsertIsIdempotent(ledgers.runs, attempt.runRecords);
  }
}

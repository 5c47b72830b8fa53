/** The streaming marker-replacement engine.

    `ReplaceStream` reads the input in arbitrary chunks, keeps only the undecided tail, and
    writes through a coalescing buffer under a hard output limit. It is proved to produce the
    whole-input `Reference`, whatever the chunking and whatever order the markers came in. */
module Replacement {
  import opened Basics
  import opened ReplacementSpec

  const INPUT_CHUNK_BYTES: nat := 64 * 1024
  const OUTPUT_COALESCE_BYTES: nat := 8 * 1024

  datatype SizeError =
    | SizeUnrepresentable
    | SizeOverflow
    | OverLimit(size: nat)

  /** How a step ends: either it is done or one of the I/O errors stops the stream. */
  datatype Status =
    | Done
    | TooLarge(reason: SizeError)
    | SinkFailed
    | ReadFailed
    | ObserverRejected

  // ---------- the environment ----------

  function Concat(chunks: seq<Bytes>): Bytes {
    if chunks == [] then [] else chunks[0] + Concat(chunks[1..])
  }

  datatype ReadOutcome = Chunk(bytes: Bytes) | EndOfInput | ReadError

  /** An asynchronous reader. How it splits the input into reads is arbitrary, and any read may fail. */
  class Reader {
    var chunks: seq<Bytes>
    var faulted: bool

    predicate Valid()
      reads this
    {
      forall i :: 0 <= i < |chunks| ==> 0 < |chunks[i]| <= INPUT_CHUNK_BYTES
    }

    method Read() returns (r: ReadOutcome)
      requires Valid()
      modifies this
      ensures Valid()
      ensures faulted == (old(faulted) || r.ReadError?)
      ensures r.ReadError? ==> chunks == old(chunks)
      ensures r.EndOfInput? ==> old(chunks) == chunks == []
      ensures r.Chunk? ==> old(chunks) == [r.bytes] + chunks
    {
      var healthy: bool := *;
      if !healthy {
        faulted := true;
        return ReadError;
      }
      if chunks == [] {
        return EndOfInput;
      }
      r := Chunk(chunks[0]);
      chunks := chunks[1..];
    }
  }

  /** Where the output goes: a pipe, of which a failed write may have delivered any prefix of its
      bytes, or the capped spool of a planning pass, which never fails. */
  class Sink {
    const limitBytes: Option<nat>
    /** Everything written so far. */
    var received: Bytes
    var faulted: bool
    /** The spool's memory: given up at the first write that does not fit. */
    var spool: Option<Bytes>

    /** However the output is split into writes, a spool holds all of it exactly while it fits. */
    ghost predicate Valid()
      reads this
    {
      limitBytes.Some? ==> !faulted && spool == if |received| <= limitBytes.value then Some(received) else None
    }

    constructor Pipe()
      ensures Valid() && limitBytes == None && received == [] && !faulted
    {
      limitBytes, received, faulted, spool := None, [], false, None;
    }

    constructor Spool(limit: nat)
      ensures Valid() && limitBytes == Some(limit) && received == [] && !faulted
    {
      limitBytes, received, faulted, spool := Some(limit), [], false, Some([]);
    }

    method Mirror(buffer: Bytes)
      requires Valid() && limitBytes.Some?
      modifies this`received, this`spool
      ensures Valid() && received == old(received) + buffer
    {
      received := received + buffer;
      if spool.Some? {
        if |spool.value| + |buffer| > limitBytes.value {
          spool := None;
        } else {
          spool := Some(spool.value + buffer);
        }
      }
    }

    method WriteAll(bytes: Bytes) returns (ok: bool)
      requires Valid()
      modifies this
      ensures Valid()
      ensures ok ==> received == old(received) + bytes && faulted == old(faulted)
      ensures !ok ==> faulted && old(received) <= received <= old(received) + bytes
    {
      if limitBytes.Some? {
        Mirror(bytes);
        return true;
      }
      var delivered: nat :| delivered <= |bytes|;
      var healthy: bool := *;
      ok := healthy;
      received := received + (if ok then bytes else bytes[..delivered]);
      faulted := faulted || !ok;
    }

    method Flush() returns (ok: bool)
      requires Valid()
      modifies this`faulted
      ensures Valid()
      ensures faulted == (old(faulted) || !ok)
    {
      var healthy: bool := *;
      ok := limitBytes.Some? || healthy;
      faulted := faulted || !ok;
    }
  }

  /** The caller's hook that sees every input chunk before it is processed. */
  class Observer {
    var seen: Bytes
    var rejected: bool

    method Observe(bytes: Bytes) returns (ok: bool)
      modifies this
      ensures seen == old(seen) + bytes
      ensures rejected == (old(rejected) || !ok)
    {
      var accepts: bool := *;
      ok := accepts;
      seen := seen + bytes;
      rejected := rejected || !ok;
    }
  }

  // ---------- output accounting ----------

  class OutputAccounting {
    const maxOutputBytes: nat
    var outputBytes: nat
    /** The bytes fed to the MD5 state, in order. */
    var digested: Bytes
    var staging: Bytes

    predicate Valid()
      reads this
    {
      && outputBytes == |digested| <= maxOutputBytes <= U64_MAX
      && |staging| < OUTPUT_COALESCE_BYTES
    }

    constructor (maxOutputBytes: nat)
      requires maxOutputBytes <= U64_MAX
      ensures Valid() && this.maxOutputBytes == maxOutputBytes && digested == [] && staging == []
    {
      this.maxOutputBytes := maxOutputBytes;
      outputBytes, digested, staging := 0, [], [];
    }

    /** Accepts `bytes` exactly when they fit under the limit. A rejected write changes nothing;
        an accepted one is digested, staged, and passed on once the staging buffer is full. */
    method Write(output: Sink, bytes: Bytes) returns (status: Status)
      requires Valid() && output.Valid()
      modifies this, output
      ensures output.Valid()
      ensures status.TooLarge? <==> |old(digested)| + |bytes| > maxOutputBytes
      ensures status.TooLarge? ==>
                && Valid() && digested == old(digested) && staging == old(staging)
                && output.received == old(output.received) && output.faulted == old(output.faulted)
      ensures status == Done ==>
                && Valid() && digested == old(digested) + bytes
                && output.received + staging == old(output.received + staging) + bytes
                && output.faulted == old(output.faulted)
      ensures status != Done && !status.TooLarge? ==> status == SinkFailed && output.faulted
      ensures old(output.received) <= output.received
      ensures status != Done ==> output.received <= old(output.received + staging) + bytes
    {
      var added := |bytes|;
      if added > U64_MAX {
        return TooLarge(SizeUnrepresentable);
      }
      var next := outputBytes + added;
      if next > U64_MAX {
        return TooLarge(SizeOverflow);
      }
      if next > maxOutputBytes {
        return TooLarge(OverLimit(next));
      }

      digested := digested + bytes;
      outputBytes := next;
      staging := staging + bytes;
      assert output.received + staging == old(output.received + staging) + bytes;
      assert output.received <= output.received + staging;
      if |staging| >= OUTPUT_COALESCE_BYTES {
        var ok := output.WriteAll(staging);
        if !ok {
          return SinkFailed;
        }
        staging := [];
      }
      return Done;
    }

    method FlushStaging(output: Sink) returns (status: Status)
      requires Valid() && output.Valid()
      modifies this`staging, output
      ensures Valid() && output.Valid()
      ensures status == Done ==>
                && staging == [] && output.received == old(output.received + staging)
                && output.faulted == old(output.faulted)
      ensures status != Done ==>
                && status == SinkFailed && output.faulted
                && old(output.received) <= output.received <= old(output.received + staging)
    {
      if staging != [] {
        var ok := output.WriteAll(staging);
        if !ok {
          return SinkFailed;
        }
        staging := [];
      }
      return Done;
    }
  }

  // ---------- the engine ----------

  datatype StreamResult =
    | Completed(outputBytes: nat, digested: Bytes)
    | Aborted(status: Status)

  /** What a run promises about its result and about what the sink received. */
  ghost predicate Outcome(result: StreamResult, reference: Bytes, maxOutputBytes: nat, before: Bytes, received: Bytes) {
    match result
    case Completed(outputBytes, digested) =>
      && received == before + reference
      && digested == reference
      && outputBytes == |reference| <= maxOutputBytes
    case Aborted(status) =>
      && before <= received <= before + reference
      && status != Done
      && (status.TooLarge? ==> |reference| > maxOutputBytes)
  }

  /** `pending` stands at `at` in the whole input, and `chunks` are what follows it. */
  ghost predicate Reading(whole: Bytes, at: nat, pending: Bytes, chunks: seq<Bytes>) {
    Window(whole, at, pending) && whole[at + |pending|..] == Concat(chunks)
  }

  /** The observer saw the input from the start on, and all of it if the run completed. */
  ghost predicate Watched(result: StreamResult, whole: Bytes, before: Bytes, seen: Bytes) {
    before <= seen <= before + whole && (result.Completed? ==> seen == before + whole)
  }

  /** The observer saw what was read and did not see what is still to be read. */
  ghost predicate SoFar(whole: Bytes, before: Bytes, seen: Bytes, chunks: seq<Bytes>) {
    before <= seen && seen + Concat(chunks) == before + whole
  }

  lemma SeeOn(whole: Bytes, before: Bytes, seen: Bytes, chunk: Bytes, rest: seq<Bytes>)
    requires SoFar(whole, before, seen, [chunk] + rest)
    ensures SoFar(whole, before, seen + chunk, rest)
  {
    assert ([chunk] + rest)[1..] == rest;
    assert seen + (chunk + Concat(rest)) == (seen + chunk) + Concat(rest);
  }

  lemma ReadOn(whole: Bytes, at: nat, pending: Bytes, chunk: Bytes, rest: seq<Bytes>)
    requires Reading(whole, at, pending, [chunk] + rest)
    ensures Reading(whole, at, pending + chunk, rest)
  {
    var behind := whole[at + |pending|..];
    assert ([chunk] + rest)[1..] == rest;
    assert behind == chunk + Concat(rest);
    forall i | 0 <= i < |chunk|
      ensures whole[at + |pending| + i] == chunk[i]
    {
      assert behind[i] == chunk[i];
    }
    assert whole[at + |pending + chunk|..] == behind[|chunk|..] == Concat(rest);
  }

  lemma Drain(whole: Bytes, at: nat, pending: Bytes, count: nat, chunks: seq<Bytes>)
    requires Reading(whole, at, pending, chunks) && count <= |pending|
    ensures Reading(whole, at + count, pending[count..], chunks)
  {
  }

  class MarkerReplacements {
    const patterns: seq<Bytes>
    const replacements: seq<Bytes>
    const maxPatternBytes: nat
    ghost const markers: map<Bytes, Bytes>

    ghost predicate Valid() {
      && Represents(patterns, replacements, markers)
      && NoneLongerThan(patterns, maxPatternBytes)
      && (maxPatternBytes == 0 <==> patterns == [])
      && (maxPatternBytes > 0 ==> exists i :: 0 <= i < |patterns| && |patterns[i]| == maxPatternBytes)
    }

    /** Collects the markers of a hash map, in whatever order it yields them, without the empty one. */
    constructor (markers: map<Bytes, Bytes>)
      ensures Valid() && this.markers == markers
    {
      var remaining := markers.Keys;
      var patterns: seq<Bytes>, replacements: seq<Bytes>, longest: nat := [], [], 0;
      while remaining != {}
        invariant remaining <= markers.Keys
        invariant |patterns| == |replacements|
        invariant forall i :: 0 <= i < |patterns| ==>
                    patterns[i] != [] && patterns[i] in markers && markers[patterns[i]] == replacements[i]
        invariant forall p :: p in markers && p !in remaining && p != [] ==> Listed(p, patterns)
        invariant NoneLongerThan(patterns, longest)
        invariant longest == 0 <==> patterns == []
        invariant longest > 0 ==> exists i :: 0 <= i < |patterns| && |patterns[i]| == longest
        decreases |remaining|
      {
        var pattern :| pattern in remaining;
        remaining := remaining - {pattern};
        if pattern != [] {
          ghost var before := patterns;
          patterns := patterns + [pattern];
          replacements := replacements + [markers[pattern]];
          assert pattern == patterns[|patterns| - 1];
          assert forall p :: p in before ==> p in patterns;
          assert forall i :: 0 <= i < |before| ==> patterns[i] == before[i];
          longest := if |pattern| > longest then |pattern| else longest;
        }
      }
      this.patterns, this.replacements, this.maxPatternBytes := patterns, replacements, longest;
      this.markers := markers;
    }

    /** The automaton's search, as a plain scan with the same result. */
    method Find(hay: Bytes, from: nat) returns (found: Option<Match>)
      ensures LeftmostLongest(patterns, hay, from, found)
    {
      found := None;
      var start := from;
      while start <= |hay| && found.None?
        invariant from <= start
        invariant found.None? ==> forall i, k :: 0 <= i < |patterns| && from <= k < start ==> !MatchesAt(patterns[i], hay, k)
        invariant found.Some? ==> LeftmostLongest(patterns, hay, from, found)
        decreases |hay| - start, found.None?
      {
        var best: Option<nat> := None;
        for n := 0 to |patterns|
          invariant best.None? ==> forall i :: 0 <= i < n ==> !MatchesAt(patterns[i], hay, start)
          invariant best.Some? ==>
                      && best.value < n && MatchesAt(patterns[best.value], hay, start)
                      && forall i :: 0 <= i < n && MatchesAt(patterns[i], hay, start) ==> |patterns[i]| <= |patterns[best.value]|
        {
          if MatchesAt(patterns[n], hay, start) && (best.None? || |patterns[best.value]| < |patterns[n]|) {
            best := Some(n);
          }
        }
        if best.Some? {
          found := Some(Match(start, start + |patterns[best.value]|, best.value));
        } else {
          start := start + 1;
        }
      }
    }

    /** Everything accepted so far is what the reference puts before `position`, and all of it is
        either in the sink, behind what it had received before the stream, or still staged. */
    ghost predicate Progress(output: Sink, accounting: OutputAccounting, scan: Scan, position: nat, before: Bytes)
      requires scan.Valid()
      reads output, accounting
    {
      && accounting.Valid() && output.Valid()
      && Spans(scan, 0, position, accounting.digested)
      && before <= output.received
      && output.received + accounting.staging == before + accounting.digested
    }

    /** Why the stream stopped early, and what the sink holds then. */
    ghost predicate Stopped(status: Status, output: Sink, maxOutputBytes: nat, scan: Scan, before: Bytes)
      requires scan.Valid()
      reads output
    {
      && (status.TooLarge? ==> |ReferenceFrom(scan, 0)| > maxOutputBytes)
      && (status == SinkFailed ==> output.faulted)
      && (status.TooLarge? || status == SinkFailed)
      && output.Valid()
      && before <= output.received <= before + ReferenceFrom(scan, 0)
    }

    /** Writes the piece that the reference puts between `from` and `next`. */
    method EmitPiece(piece: Bytes, output: Sink, accounting: OutputAccounting,
                     ghost scan: Scan, ghost from: nat, ghost next: nat, ghost before: Bytes)
      returns (status: Status)
      requires scan.Valid() && Progress(output, accounting, scan, from, before)
      requires Spans(scan, from, next, piece)
      modifies output, accounting
      ensures status == Done ==> Progress(output, accounting, scan, next, before)
      ensures status == Done ==> output.faulted == old(output.faulted)
      ensures status != Done ==> Stopped(status, output, accounting.maxOutputBytes, scan, before)
    {
      ghost var written := accounting.digested + piece;
      Compose(scan, 0, from, next, accounting.digested, piece);
      Completes(scan, 0, next, written, before);
      assert (before + accounting.digested) + piece == before + written;
      status := accounting.Write(output, piece);
    }

    /** Writes the bytes in front of a match, and its replacement. */
    method EmitMatch(copied: Bytes, replacement: Bytes, output: Sink, accounting: OutputAccounting,
                     ghost scan: Scan, ghost from: nat, ghost start: nat, ghost next: nat, ghost before: Bytes)
      returns (status: Status)
      requires scan.Valid() && Progress(output, accounting, scan, from, before)
      requires Spans(scan, from, start, copied) && Spans(scan, start, next, replacement)
      modifies output, accounting
      ensures status == Done ==> Progress(output, accounting, scan, next, before)
      ensures status == Done ==> output.faulted == old(output.faulted)
      ensures status != Done ==> Stopped(status, output, accounting.maxOutputBytes, scan, before)
    {
      status := EmitPiece(copied, output, accounting, scan, from, start, before);
      if status == Done {
        status := EmitPiece(replacement, output, accounting, scan, start, next, before);
      }
    }

    /** One round of the loop below: copies up to the next match, or to the end of what is
        decided, and replaces the match. */
    method EmitNext(pending: Bytes, cursor: nat, stableEnd: nat, output: Sink, accounting: OutputAccounting,
                    ghost scan: Scan, ghost at: nat, ghost before: Bytes)
      returns (status: Status, next: nat)
      requires Valid() && scan.Valid() && scan.markers == markers && Window(scan.input, at, pending)
      requires cursor < stableEnd <= |pending| && Decided(scan.input, at, pending, stableEnd - 1, maxPatternBytes)
      requires Progress(output, accounting, scan, at + cursor, before)
      modifies output, accounting
      ensures cursor < next <= |pending|
      ensures status == Done ==> Progress(output, accounting, scan, at + next, before)
      ensures status == Done ==> output.faulted == old(output.faulted)
      ensures status != Done ==> Stopped(status, output, accounting.maxOutputBytes, scan, before)
    {
      var found := Find(pending, cursor);
      if found.None? || found.value.start >= stableEnd {
        CopyStep(patterns, replacements, maxPatternBytes, scan, at, pending, cursor, stableEnd, found);
        next := stableEnd;
        status := EmitPiece(pending[cursor..stableEnd], output, accounting, scan, at + cursor, at + stableEnd, before);
      } else {
        var start := found.value.start;
        next := found.value.end;
        CopyStep(patterns, replacements, maxPatternBytes, scan, at, pending, cursor, start, found);
        ReplaceStep(patterns, replacements, maxPatternBytes, scan, at, pending, cursor, found.value);
        status := EmitMatch(pending[cursor..start], replacements[found.value.pattern], output, accounting,
                            scan, at + cursor, at + start, at + next, before);
      }
    }

    /** Emits everything in `pending` that is decided and drains it, leaving less than one pattern.
        `pending` stands at `at` in the whole input, of which the rest may not have been read yet. */
    method EmitStable(pending: Bytes, endOfInput: bool, output: Sink, accounting: OutputAccounting,
                      ghost scan: Scan, ghost at: nat, ghost before: Bytes)
      returns (status: Status, tail: Bytes)
      requires Valid() && scan.Valid() && scan.markers == markers && Window(scan.input, at, pending)
      requires endOfInput ==> at + |pending| == |scan.input|
      requires Progress(output, accounting, scan, at, before)
      modifies output, accounting
      ensures status == Done ==> |tail| <= |pending| && tail == pending[|pending| - |tail|..]
      ensures status == Done ==> |tail| <= (if endOfInput then 0 else Max(maxPatternBytes - 1, 0))
      ensures status == Done ==> Progress(output, accounting, scan, at + |pending| - |tail|, before)
      ensures status == Done ==> output.faulted == old(output.faulted)
      ensures status != Done ==> Stopped(status, output, accounting.maxOutputBytes, scan, before)
    {
      var stableEnd :=
        if endOfInput || maxPatternBytes == 0 then |pending| else Max(|pending| - (maxPatternBytes - 1), 0);
      var cursor := 0;
      while cursor < stableEnd
        invariant 0 <= cursor <= |pending|
        invariant Progress(output, accounting, scan, at + cursor, before)
        invariant output.faulted == old(output.faulted)
        decreases |pending| - cursor
      {
        status, cursor := EmitNext(pending, cursor, stableEnd, output, accounting, scan, at, before);
        if status != Done {
          return status, [];
        }
      }
      return Done, pending[cursor..];
    }

    /** The end of the stream: what is still pending is decided, and the staging buffer goes out. */
    method Finish(pending: Bytes, output: Sink, accounting: OutputAccounting,
                  ghost scan: Scan, ghost at: nat, ghost before: Bytes)
      returns (result: StreamResult)
      requires Valid() && scan.Valid() && scan.markers == markers && Window(scan.input, at, pending)
      requires at + |pending| == |scan.input|
      requires Progress(output, accounting, scan, at, before)
      modifies output, accounting
      ensures Outcome(result, ReferenceFrom(scan, 0), accounting.maxOutputBytes, before, output.received)
      ensures output.Valid()
      ensures result.Completed? ==> output.faulted == old(output.faulted)
      ensures result.Completed? || result.status.TooLarge? || output.faulted
    {
      var status, _ := EmitStable(pending, true, output, accounting, scan, at, before);
      if status != Done {
        return Aborted(status);
      }
      assert accounting.digested == ReferenceFrom(scan, 0);
      status := accounting.FlushStaging(output);
      if status != Done {
        return Aborted(status);
      }
      var ok := output.Flush();
      return if ok then Completed(accounting.outputBytes, accounting.digested) else Aborted(SinkFailed);
    }

    /** One chunk of the stream: appends it, emits what is decided now and keeps the rest. */
    method Accept(pending: Bytes, chunk: Bytes, output: Sink, accounting: OutputAccounting,
                  ghost scan: Scan, ghost at: nat, ghost before: Bytes, ghost rest: seq<Bytes>)
      returns (status: Status, tail: Bytes, ghost next: nat)
      requires Valid() && scan.Valid() && scan.markers == markers
      requires Reading(scan.input, at, pending + chunk, rest)
      requires Progress(output, accounting, scan, at, before)
      modifies output, accounting
      ensures status == Done ==> Reading(scan.input, next, tail, rest) && |tail| <= Max(maxPatternBytes - 1, 0)
      ensures status == Done ==> next + |tail| == at + |pending| + |chunk|
      ensures status == Done ==> Progress(output, accounting, scan, next, before)
      ensures status == Done ==> output.faulted == old(output.faulted)
      ensures status != Done ==> Stopped(status, output, accounting.maxOutputBytes, scan, before)
    {
      status, tail := EmitStable(pending + chunk, false, output, accounting, scan, at, before);
      next := at;
      if status == Done {
        ghost var count := |pending + chunk| - |tail|;
        Drain(scan.input, at, pending + chunk, count, rest);
        next := at + count;
      }
    }

    /** Between two reads: what was read and is not pending has been emitted, and what is pending
        is shorter than one pattern. */
    ghost predicate Running(input: Reader, output: Sink, accounting: OutputAccounting, observer: Observer,
                            scan: Scan, at: nat, pending: Bytes, before: Bytes, watched: Bytes)
      requires scan.Valid()
      reads input, output, accounting, observer
    {
      && input.Valid()
      && Reading(scan.input, at, pending, input.chunks)
      && SoFar(scan.input, watched, observer.seen, input.chunks)
      && |pending| <= Max(maxPatternBytes - 1, 0)
      && Progress(output, accounting, scan, at, before)
    }

    /** What a finished run promises: without faults it completes exactly when the reference fits. */
    ghost predicate Ended(result: StreamResult, input: Reader, output: Sink, observer: Observer,
                          whole: Bytes, reference: Bytes, maxOutputBytes: nat, before: Bytes, watched: Bytes)
      reads input, output, observer
    {
      && Outcome(result, reference, maxOutputBytes, before, output.received)
      && output.Valid()
      && Watched(result, whole, watched, observer.seen)
      && (!input.faulted && !output.faulted && !observer.rejected ==>
            (result.Completed? <==> |reference| <= maxOutputBytes))
    }

    lemma EndsEarly(status: Status, input: Reader, output: Sink, observer: Observer, whole: Bytes, reference: Bytes,
                    maxOutputBytes: nat, before: Bytes, watched: Bytes)
      requires status != Done && output.Valid() && before <= output.received <= before + reference
      requires status.TooLarge? ==> |reference| > maxOutputBytes
      requires status.TooLarge? || input.faulted || output.faulted || observer.rejected
      requires SoFar(whole, watched, observer.seen, input.chunks)
      ensures Ended(Aborted(status), input, output, observer, whole, reference, maxOutputBytes, before, watched)
    {
      assert observer.seen <= observer.seen + Concat(input.chunks);
    }

    /** One round of the loop below: one read and what follows from it. */
    method Round(input: Reader, output: Sink, accounting: OutputAccounting, observer: Observer,
                 pending: Bytes, ghost scan: Scan, ghost at: nat, ghost before: Bytes, ghost watched: Bytes)
      returns (result: Option<StreamResult>, tail: Bytes, ghost next: nat, ghost held: nat)
      requires Valid() && scan.Valid() && scan.markers == markers
      requires Running(input, output, accounting, observer, scan, at, pending, before, watched)
      modifies input, output, accounting, observer
      ensures result.None? ==> |input.chunks| < |old(input.chunks)|
      ensures result.None? ==>
                Running(input, output, accounting, observer, scan, next, tail, before, watched)
      ensures result.Some? ==>
                Ended(result.value, input, output, observer, scan.input, ReferenceFrom(scan, 0), accounting.maxOutputBytes, before, watched)
      ensures held <= INPUT_CHUNK_BYTES + |pending|
    {
      ghost var whole, reference := scan.input, ReferenceFrom(scan, 0);
      Completes(scan, 0, at, accounting.digested, before);
      tail, next, held := pending, at, |pending|;
      var outcome := input.Read();
      match outcome
      case ReadError =>
        EndsEarly(ReadFailed, input, output, observer, whole, reference, accounting.maxOutputBytes, before, watched);
        result := Some(Aborted(ReadFailed));
      case EndOfInput =>
        var ended := Finish(pending, output, accounting, scan, at, before);
        assert observer.seen + [] == observer.seen;
        result := Some(ended);
      case Chunk(bytes) =>
        ReadOn(whole, at, pending, bytes, input.chunks);
        SeeOn(whole, watched, observer.seen, bytes, input.chunks);
        held := |pending| + |bytes|;
        var accepted := observer.Observe(bytes);
        var status := ObserverRejected;
        if accepted {
          status, tail, next := Accept(pending, bytes, output, accounting, scan, at, before, input.chunks);
        }
        if status == Done {
          result := None;
        } else {
          EndsEarly(status, input, output, observer, whole, reference, accounting.maxOutputBytes, before, watched);
          result := Some(Aborted(status));
        }
    }

    /** Streams `input` to `output`. `peak` is the largest pending buffer of the run. */
    method ReplaceStream(input: Reader, output: Sink, maxOutputBytes: nat, observer: Observer)
      returns (result: StreamResult, ghost peak: nat)
      requires Valid() && input.Valid() && output.Valid() && maxOutputBytes <= U64_MAX
      modifies input, output, observer
      ensures Ended(result, input, output, observer, old(Concat(input.chunks)),
                    Reference(old(Concat(input.chunks)), markers), maxOutputBytes,
                    old(output.received), old(observer.seen))
      ensures peak <= INPUT_CHUNK_BYTES + Max(maxPatternBytes - 1, 0)
    {
      ghost var scan, before, watched := ScanOf(Concat(input.chunks), markers), output.received, observer.seen;
      ghost var at: nat, held: nat := 0, 0;
      var accounting := new OutputAccounting(maxOutputBytes);
      var pending: Bytes := [];
      var ended: Option<StreamResult> := None;
      peak := 0;
      assert output.received + accounting.staging == before + accounting.digested;
      while ended.None?
        invariant fresh(accounting) && accounting.maxOutputBytes == maxOutputBytes
        invariant ended.None? ==>
                    Running(input, output, accounting, observer, scan, at, pending, before, watched)
        invariant ended.Some? ==> Ended(ended.value, input, output, observer, scan.input, ReferenceFrom(scan, 0),
                                          maxOutputBytes, before, watched)
        invariant peak <= INPUT_CHUNK_BYTES + Max(maxPatternBytes - 1, 0)
        decreases ended.None?, |input.chunks|
      {
        ended, pending, at, held := Round(input, output, accounting, observer, pending, scan, at, before, watched);
        peak := Max(peak, held);
      }
      return ended.value, peak;
    }
  }

  // ---------- planning and uploading ----------

  const S3_SINGLE_PUT_LIMIT: nat := 5 * 1024 * 1024 * 1024

  /** An entry is replaced once into a capped spool, to plan its length and digest, and once more to
      upload it. However differently the two passes read and write, they agree; the spool holds
      exactly the upload's bytes when they fit; and only the input can make the planning fail. */
  method PlanThenUpload(engine: MarkerReplacements, first: Reader, second: Reader, pipe: Sink,
                        planValidator: Observer, validator: Observer, spoolLimit: nat)
    returns (plan: StreamResult, spool: Option<Bytes>, upload: StreamResult)
    requires engine.Valid() && first.Valid() && second.Valid() && pipe.Valid()
    requires first != second && planValidator != validator
    requires Concat(first.chunks) == Concat(second.chunks)
    modifies first, second, pipe, planValidator, validator
    ensures plan.Completed? ==>
              && plan.digested == Reference(old(Concat(first.chunks)), engine.markers)
              && |plan.digested| == plan.outputBytes
              && spool == if plan.outputBytes <= spoolLimit then Some(plan.digested) else None
    ensures plan.Completed? && upload.Completed? ==>
              plan == upload && pipe.received == old(pipe.received) + plan.digested
    ensures !first.faulted && !planValidator.rejected ==>
              (plan.Completed? <==> |Reference(old(Concat(first.chunks)), engine.markers)| <= S3_SINGLE_PUT_LIMIT)
  {
    var output := new Sink.Spool(spoolLimit);
    ghost var peak;
    plan, peak := engine.ReplaceStream(first, output, S3_SINGLE_PUT_LIMIT, planValidator);
    spool := output.spool;
    assert plan.Completed? ==> output.received == plan.digested;
    upload, peak := engine.ReplaceStream(second, pipe, S3_SINGLE_PUT_LIMIT, validator);
  }
}

/** Two ways to lose an alert for good, each on a sink as it runs: a failed statement after the
    capture's commit, and a line that does not get out. */
module LostAlerts {
  import opened Event
  import opened Faults
  import opened Text
  import opened Novelty
  import opened NoveltyAlert
  import opened NoveltyHistory
  import opened NoveltyResults
  import opened NoveltySink

  const DEFAULT_POLICY := Policy(true, false, true, 5, 32, 25, 25, false, 0, 0, false)

  const FEED_POLICY := DEFAULT_POLICY.(emitCandidates := true)

  /** A clean event that names two brands. */
  ghost predicate NamesPair(ev: MatchEvent) {
    |UniqueKeywords(ev)| == 2 && CleanEvent(ev) && ev.sanCount == 2
  }

  const PAIR_EVENT := MatchEvent(["a.com", "b.com"], ["a.com", "b.com"], 1, None, None, 2)

  lemma PairEventNamesPair()
    ensures NamesPair(PAIR_EVENT)
  {
    var ks := PAIR_EVENT.keywords;
    var full := UniqueKeywords(PAIR_EVENT);
    assert Lower("a.com") == "a.com" && Lower("b.com") == "b.com";
    assert LowerAll(ks) == ks;
    assert Elems(full) == Elems(ks) == {"a.com", "b.com"};
    assert "a.com"[0] == 'a' && "b.com"[0] == 'b';
    TwoElements(full, "a.com", "b.com");
  }

  lemma TwoElements(full: seq<string>, a: string, b: string)
    requires StrictlySorted(full) && Elems(full) == {a, b} && a != b
    ensures |full| == 2 && forall k :: k in full ==> k == a || k == b
  {
    hide StrictlySorted;
    assert a in full && b in full;
    forall k | k in full ensures k == a || k == b { assert k in Elems(full); }
    var i :| 0 <= i < |full| && full[i] == a;
    var j :| 0 <= j < |full| && full[j] == b;
    if |full| > 2 {
      assert full[0] in full && full[1] in full && full[2] in full;
      if full[0] == full[1] {
        SortedHasNoDuplicates(full, 0, 1);
      } else if full[0] == full[2] {
        SortedHasNoDuplicates(full, 0, 2);
      } else {
        SortedHasNoDuplicates(full, 1, 2);
      }
    }
  }

  // ---------- runs of tries ----------

  /** With both burn-in gates off nothing is muted. */
  lemma TriesOpenWithPair(c: Setup, j: Journal, t: Tables, lines: seq<Alert>, ev: MatchEvent)
    requires Explains(c, j, t, lines) && Tries(j.attempts, ev) && c.ignore == {} && DefaultGates(c.policy)
    requires c.policy.calibrateSecs == 0 && c.policy.calibrateEvents == 0
    ensures OpensWithPair(c, j.attempts) && CleanBrands(j.attempts)
  {
    hide Run, Lines, Scripted, UniqueKeywords, CleanEvent, CleanStart;
    CalibratedAt(c, j.attempts, j.nows, 0);
  }

  /** One event, tried at least once. */
  ghost predicate Tries(h: seq<Attempt>, ev: MatchEvent) {
    NamesPair(ev) && h != [] && forall k :: 0 <= k < |h| ==> h[k].ev == ev
  }

  lemma {:induction false} NothingOnFile(c: Setup, h: seq<Attempt>)
    requires forall i :: 0 <= i < |h| ==> Silent(c, h, i)
    ensures Lines(c, h) == []
  {
    hide EmittedAt, GetsOut;
    if h != [] {
      var n := |h| - 1;
      forall i | 0 <= i < n ensures Silent(c, h[..n], i) {
        assert Silent(c, h, i);
        EmittedInPast(c, h, n, i);
      }
      NothingOnFile(c, h[..n]);
      assert Silent(c, h, n);
    }
  }

  predicate Silent(c: Setup, h: seq<Attempt>, i: nat)
    requires i < |h|
  {
    EmittedAt(c, h, i) == [] || !GetsOut(h[i].writes)
  }

  lemma NoFaultsDelivers(c: Setup, h: seq<Attempt>, i: nat)
    requires CleanStart(c) && CleanBrands(h) && Scripted(c, h) && i < |h| && h[i].script == [] && h[i].writes == []
    ensures Delivered(c, h, i)
  {
    CleanPrefix(h, i);
    NeverStuck(c, h[..i], h[i].ev, PolicyAt(c, h[i]));
    assert FaresAt(c, h, i);
    hide Run, PlanConflict, StepStatements, StatementsToKey, Stripped, DueWrites;
  }

  // ---------- a line that does not get out ----------

  lemma LostInTheWrite(c: Setup, j: Journal, t: Tables, lines: seq<Alert>, ev: MatchEvent)
    requires Explains(c, j, t, lines) && Tries(j.attempts, ev) && c.ignore == {} && c.policy == DEFAULT_POLICY
    requires j.attempts[0].script == [] && j.attempts[0].writes == [NotWritten]
    ensures !Delivered(c, j.attempts, 0)
    ensures Join(UniqueKeywords(ev), CSV_SEP) in t.certs && lines == []
  {
    var h := j.attempts;
    hide Run, Lines, LowDf, UniqueKeywords, CleanBrands, CleanStart, EmitsTierA, Captures, StatsOf, CleanEvent;
    TriesOpenWithPair(c, j, t, lines, ev);
    FirstPairCaptures(c, h);
    CaptureLeavesFact(c, h, 0);
    DefaultKeepsAlerts(c, h, 0);
    assert h[0].writes[0] == NotWritten;
    forall i | 0 <= i < |h| ensures Silent(c, h, i) {
      if i > 0 {
        RetriesFindItRecorded(c, h, i);
        QuietWithoutTierB(c, h, i);
      }
    }
    NothingOnFile(c, h);
  }

  /** By default, one write that does not get out: the batch is sent again and acknowledged, the fact
      is stored, and the file stays empty. */
  method LoseLine(ev: MatchEvent) returns (sink: Sink)
    requires NamesPair(ev)
    ensures fresh(sink) && sink.Valid() && sink.policy == DEFAULT_POLICY && sink.accepted == [[ev]]
    ensures Join(UniqueKeywords(ev), CSV_SEP) in sink.store.certs && sink.lines == []
  {
    hide Explains, NamesPair, CleanEvent, Delivered, Good, SeedStatements, UniqueKeywords;
    Unseeded(25);
    NoScript([], 0);
    var r := Open([], DEFAULT_POLICY, [], [NotWritten], i => 0);
    sink := r.value;
    var ok; ghost var made;
    OneClean(ev);
    NothingTried(sink.journal.attempts);
    ok, made := sink.SendBatch([ev]);
    LostInTheWrite(sink.SetupOf(), sink.journal, sink.store.View(), sink.lines, ev);
    if ok { RunMeansDelivered(sink.SetupOf(), sink.journal.attempts, 0, [ev]); }
    ok, made := sink.SendBatch([ev]);
    LostInTheWrite(sink.SetupOf(), sink.journal, sink.store.View(), sink.lines, ev);
    RunsAgain(sink.SetupOf(), sink.journal, sink.store.View(), sink.lines, ev);
  }

  lemma RunMeansDelivered(c: Setup, h: seq<Attempt>, at: nat, batch: seq<MatchEvent>)
    requires RanBatch(c, h, at, batch) && batch != []
    ensures Delivered(c, h, at)
  {
    hide Delivered;
    assert RanEvent(c, h, at, batch, 0);
  }

  /** A try with no faults ahead is delivered. */
  lemma RunsAgain(c: Setup, j: Journal, t: Tables, lines: seq<Alert>, ev: MatchEvent)
    requires Explains(c, j, t, lines) && Tries(j.attempts, ev)
    requires var last := j.attempts[|j.attempts| - 1]; last.script == [] && last.writes == []
    ensures RanBatch(c, j.attempts, |j.attempts| - 1, [ev])
  {
    hide Delivered, Run, Lines, CleanStart, CleanEvent, Scripted;
    var n := |j.attempts| - 1;
    TriesAreClean(j.attempts, ev);
    NoFaultsDelivers(c, j.attempts, n);
    assert RanEvent(c, j.attempts, n, [ev], 0);
  }

  lemma TriesAreClean(h: seq<Attempt>, ev: MatchEvent)
    requires Tries(h, ev)
    ensures CleanBrands(h)
  {
  }

  lemma Unseeded(floor: nat)
    ensures SeedStatements(LowerAll([]), floor) == 0
  {
  }

  // ---------- a statement that fails after the capture ----------

  lemma LostInTheStep(c: Setup, j: Journal, t: Tables, lines: seq<Alert>, ev: MatchEvent)
    requires Explains(c, j, t, lines) && Tries(j.attempts, ev) && c.ignore == {} && c.policy == FEED_POLICY
    requires j.attempts[0].script == FaultAfterCapture()
    ensures Join(UniqueKeywords(ev), CSV_SEP) in t.certs && lines == []
  {
    var h := j.attempts;
    hide Run, Lines, UniqueKeywords, CleanBrands, CleanStart, EmitsTierA, Captures, CleanEvent, FaultAfterCapture;
    TriesOpenWithPair(c, j, t, lines, ev);
    forall i | 0 <= i < |h| ensures Silent(c, h, i) {
      AlertCanBeLost(c, h, i);
      QuietWithoutTierB(c, h, i);
    }
    AlertCanBeLost(c, h, 0);
    NothingOnFile(c, h);
  }

  /** With the learning feed on, one counter read that fails after the capture: the batch is sent until
      it is acknowledged, the fact is stored, and the file stays empty. */
  method LoseAlert(ev: MatchEvent) returns (sink: Sink)
    requires NamesPair(ev)
    ensures fresh(sink) && sink.Valid() && sink.policy == FEED_POLICY && sink.accepted == [[ev]]
    ensures Join(UniqueKeywords(ev), CSV_SEP) in sink.store.certs && sink.lines == []
  {
    hide Explains, NamesPair, CleanEvent, CleanBrands, Delivered, Good, SeedStatements, UniqueKeywords, FaultAfterCapture,
      RanBatch;
    Unseeded(25);
    NoStatements(FaultAfterCapture());
    var r := Open([], FEED_POLICY, FaultAfterCapture(), [], i => 0);
    sink := r.value;
    var ok := false;
    NothingTried(sink.journal.attempts);
    while !ok
      invariant sink.Valid() && fresh(sink) && fresh(sink.store)
      invariant sink.ignore == {} && sink.policy == FEED_POLICY && CleanBrands(sink.journal.attempts)
      invariant forall k :: 0 <= k < |sink.journal.attempts| ==> sink.journal.attempts[k].ev == ev
      invariant sink.accepted == if ok then [[ev]] else []
      invariant if sink.journal.attempts == [] then sink.store.script == FaultAfterCapture() && !ok
        else sink.journal.attempts[0].script == FaultAfterCapture()
      decreases sink.FaultsLeft(), !ok
    {
      ghost var h, made := sink.journal.attempts, [];
      NoStatements(sink.store.script);
      OneClean(ev);
      ok, made := sink.SendBatch([ev]);
      CleanAppend(h, made, [ev]);
    }
    LostInTheStep(sink.SetupOf(), sink.journal, sink.store.View(), sink.lines, ev);
  }

  lemma NoStatements(script: seq<bool>)
    ensures Good(script, 0) && Rest(script, 0) == script
  {
  }

  lemma NothingTried(h: seq<Attempt>)
    requires h == []
    ensures CleanBrands(h)
  {
  }

  lemma OneClean(ev: MatchEvent)
    requires NamesPair(ev)
    ensures CleanEvents([ev])
  {
  }

  /** Both losses, on one concrete event. */
  method LosePair() returns (byWrite: Sink, byStep: Sink)
    ensures byWrite.policy == DEFAULT_POLICY && byWrite.accepted == [[PAIR_EVENT]] && byWrite.lines == []
    ensures byStep.policy == FEED_POLICY && byStep.accepted == [[PAIR_EVENT]] && byStep.lines == []
    ensures Join(UniqueKeywords(PAIR_EVENT), CSV_SEP) in byWrite.store.certs
    ensures Join(UniqueKeywords(PAIR_EVENT), CSV_SEP) in byStep.store.certs
  {
    hide NamesPair, UniqueKeywords, Sink.Valid, Join;
    PairEventNamesPair();
    byWrite := LoseLine(PAIR_EVENT);
    byStep := LoseAlert(PAIR_EVENT);
  }
}

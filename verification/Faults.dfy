/** Scripted faults: which of the coming statements fail, and what that means for an operation of
    several statements. */
module Faults {

  /** Scripted faults are used up: never regained, and one fewer after each failure. */
  predicate Spent(before: nat, after: nat, ok: bool) { after <= before && (ok || after < before) }

  /** The next `n` statements succeed; none fails once the script has run out. */
  predicate Good(script: seq<bool>, n: nat) { forall i :: 0 <= i < n && i < |script| ==> script[i] }

  /** The script after `n` statements. */
  function Rest(script: seq<bool>, n: nat): seq<bool> { if n <= |script| then script[n..] else [] }

  /** An operation of `n` statements: it succeeds exactly when they all do, unless it is blocked, and
      each failure uses up a fault. */
  predicate Ran(before: seq<bool>, after: seq<bool>, n: nat, ok: bool, blocked: bool := false) {
    && (ok <==> Good(before, n) && !blocked)
    && (ok ==> after == Rest(before, n))
    && Spent(|before|, |after|, ok || blocked)
  }

  /** The first `n` statements of a longer operation have succeeded. */
  predicate Underway(before: seq<bool>, now: seq<bool>, n: nat) { Good(before, n) && now == Rest(before, n) }

  lemma GoodSplit(script: seq<bool>, n: nat, m: nat)
    ensures Good(script, n + m) <==> Good(script, n) && Good(Rest(script, n), m)
    ensures Rest(script, n + m) == Rest(Rest(script, n), m)
  {
    if n <= |script| {
      forall i | n <= i < n + m && i < |script| ensures script[i] == Rest(script, n)[i - n] {}
      if Good(script, n) && Good(Rest(script, n), m) {
        forall i | 0 <= i < n + m && i < |script| ensures script[i] {
          if i >= n { assert Rest(script, n)[i - n]; }
        }
      }
    }
  }

  lemma Starting(script: seq<bool>)
    ensures Underway(script, script, 0)
  {
  }

  /** The next part of an operation of `n` statements, `m` of them. */
  lemma GoingOn(before: seq<bool>, now: seq<bool>, after: seq<bool>, done: nat, m: nat, n: nat, ok: bool,
                blocked: bool := false)
    requires Underway(before, now, done) && Ran(now, after, m, ok, blocked) && done + m <= n
    ensures if ok then Underway(before, after, done + m) else Ran(before, after, n, false, blocked)
  {
    GoodSplit(before, done, m);
    GoodSplit(before, done + m, n - (done + m));
  }

  /** The operation is complete. */
  lemma Finishing(before: seq<bool>, now: seq<bool>, n: nat, blocked: bool := false)
    requires Underway(before, now, n)
    ensures Ran(before, now, n, !blocked, blocked)
  {
  }

  /** An earlier part failed, whatever blocks the rest. */
  lemma FailedEarly(before: seq<bool>, after: seq<bool>, n: nat, blocked: bool)
    requires Ran(before, after, n, false)
    ensures Ran(before, after, n, false, blocked)
  {
  }

  // ---------- scripted writes ----------

  /** What happens to a line handed to a log: it gets out, it does not, or it gets out and the write
      still reports a failure. A line that does not get out is gone: a failed write is taken to leave
      nothing in the writer's buffer for a later flush to emit. */
  datatype WriteFate = Written | NotWritten | WrittenThenFailed

  /** Does the next line get out? All do once the script has run out. */
  predicate GetsOut(writes: seq<WriteFate>) { writes == [] || !writes[0].NotWritten? }

  /** The next `n` writes all succeed. */
  predicate AllWritten(writes: seq<WriteFate>, n: nat) { forall i :: 0 <= i < n && i < |writes| ==> writes[i].Written? }
}

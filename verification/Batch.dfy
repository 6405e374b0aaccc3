/** The batcher: greedy batches within a message and a byte cap, sent with retry to the
    novelty sink, flushed by size, bytes, timer or the end of the channel. */
module Batch {
  import opened Event
  import opened Faults
  import opened Novelty
  import opened NoveltyAlert
  import opened NoveltyHistory
  import opened NoveltySink

  /** `size` is the serialized length of an event; times are in milliseconds. */
  datatype Config = Config(maxMessages: nat, maxBytes: nat, flushInterval: nat, size: MatchEvent -> nat)

  // ---------- batches ----------

  function Bytes(c: Config, s: seq<MatchEvent>): nat {
    if s == [] then 0 else Bytes(c, s[..|s| - 1]) + c.size(s[|s| - 1])
  }

  predicate Fits(c: Config, s: seq<MatchEvent>) {
    |s| <= c.maxMessages && Bytes(c, s) <= c.maxBytes
  }

  predicate AllSmall(c: Config, s: seq<MatchEvent>) {
    forall i :: 0 <= i < |s| ==> c.size(s[i]) <= c.maxBytes
  }

  /** A buffer that waits for more events or the timer. */
  predicate Settled(c: Config, s: seq<MatchEvent>) {
    s == [] || (|s| < c.maxMessages && Bytes(c, s) <= c.maxBytes)
  }

  /** The longest prefix within both caps, found from the long end. */
  function Cut(c: Config, s: seq<MatchEvent>): (n: nat)
    ensures n <= |s| && Fits(c, s[..n])
    ensures forall k :: n < k <= |s| ==> !Fits(c, s[..k])
  {
    if Fits(c, s) then
      assert s[..|s|] == s;
      |s|
    else
      var front := s[..|s| - 1];
      var n := Cut(c, front);
      assert front[..n] == s[..n];
      assert forall k :: n < k <= |front| ==> front[..k] == s[..k];
      assert s[..|s|] == s;
      n
  }

  /** A longer prefix fits only if the shorter one does. */
  lemma {:induction false} FitsShorter(c: Config, s: seq<MatchEvent>, k: nat)
    requires k <= |s| && Fits(c, s)
    ensures Fits(c, s[..k])
  {
    if k < |s| {
      FitsShorter(c, s[..|s| - 1], k);
      assert s[..|s| - 1][..k] == s[..k];
    } else {
      assert s[..k] == s;
    }
  }

  lemma CutIs(c: Config, s: seq<MatchEvent>, n: nat)
    requires n <= |s| && Fits(c, s[..n]) && (n < |s| ==> !Fits(c, s[..n + 1]))
    ensures Cut(c, s) == n
  {
    var m := Cut(c, s);
    if n < m {
      assert s[..m][..n + 1] == s[..n + 1];
      FitsShorter(c, s[..m], n + 1);
    }
  }

  lemma CutOfSmall(c: Config, s: seq<MatchEvent>)
    requires s != [] && AllSmall(c, s) && c.maxMessages >= 1
    ensures Cut(c, s) >= 1
  {
    assert s[..1] == [s[0]] && [s[0]][..0] == [];
    assert Bytes(c, [s[0]]) == c.size(s[0]);
  }

  /** The batches of a full flush. */
  function Greedy(c: Config, s: seq<MatchEvent>): seq<seq<MatchEvent>> {
    var n := Cut(c, s);
    if n == 0 then [] else [s[..n]] + Greedy(c, s[n..])
  }

  /** The batches sent until the buffer is settled, and what stays. */
  function Drain(c: Config, s: seq<MatchEvent>): (seq<seq<MatchEvent>>, seq<MatchEvent>) {
    var n := Cut(c, s);
    if Settled(c, s) || n == 0 then ([], s)
    else
      var (batches, rest) := Drain(c, s[n..]);
      ([s[..n]] + batches, rest)
  }

  /** What one more event does to a settled buffer: nothing is sent, or the buffer alone because
      the event would overflow the bytes, or both because the event makes up the message count. */
  function Pushed(c: Config, s: seq<MatchEvent>, e: MatchEvent): (seq<seq<MatchEvent>>, seq<MatchEvent>) {
    if !Fits(c, s + [e]) then ([s], [e])
    else if |s| + 1 == c.maxMessages then ([s + [e]], [])
    else ([], s + [e])
  }

  lemma OneByte(c: Config, s: seq<MatchEvent>, e: MatchEvent)
    ensures Bytes(c, [e]) == c.size(e) && Bytes(c, s + [e]) == Bytes(c, s) + c.size(e)
    ensures (s + [e])[..|s|] == s && (s + [e])[|s|..] == [e]
  {
    assert [e][..0] == [];
  }

  /** The pushed event is last, and every batch is non-empty and within both caps. */
  lemma PushedSplits(c: Config, s: seq<MatchEvent>, e: MatchEvent)
    requires Settled(c, s) && c.size(e) <= c.maxBytes && c.maxMessages >= 1
    ensures Settled(c, Pushed(c, s, e).1) && |Pushed(c, s, e).0| <= 1
    ensures forall b :: b in Pushed(c, s, e).0 ==> b != [] && Fits(c, b)
    ensures Flatten(Pushed(c, s, e).0) + Pushed(c, s, e).1 == s + [e]
  {
    OneByte(c, s, e);
    FlattenOne(s);
    FlattenOne(s + [e]);
  }

  lemma DrainStep(c: Config, s: seq<MatchEvent>, n: nat)
    requires !Settled(c, s) && n == Cut(c, s) >= 1
    ensures Settled(c, s[n..]) ==> Drain(c, s) == ([s[..n]], s[n..])
  {
    if Settled(c, s[n..]) {
      assert Drain(c, s[n..]) == ([], s[n..]);
      assert [s[..n]] + Drain(c, s[n..]).0 == [s[..n]];
    }
  }

  /** Sending until settled after one accepted event triggers at most one batch. */
  lemma DrainAfterPush(c: Config, s: seq<MatchEvent>, e: MatchEvent)
    requires Settled(c, s) && c.size(e) <= c.maxBytes && c.maxMessages >= 1
    ensures Drain(c, s + [e]) == Pushed(c, s, e)
  {
    hide Drain, Bytes, Cut;
    var all := s + [e];
    OneByte(c, s, e);
    assert all[..|all|] == all && all[|all|..] == [];
    if Settled(c, all) {
      SettledStays(c, all);
    } else {
      var n := if Fits(c, all) then |all| else |s|;
      CutIs(c, all, n);
      DrainStep(c, all, n);
    }
  }

  lemma SettledStays(c: Config, s: seq<MatchEvent>)
    requires Settled(c, s)
    ensures Drain(c, s) == ([], s)
  {
  }

  lemma NothingFits(c: Config, s: seq<MatchEvent>)
    requires c.maxMessages == 0
    ensures Drain(c, s) == ([], s) && Greedy(c, s) == [] && Cut(c, s) == 0
  {
  }

  lemma GreedyStep(c: Config, s: seq<MatchEvent>)
    requires s != [] && AllSmall(c, s) && c.maxMessages >= 1
    ensures Cut(c, s) >= 1
    ensures var n := Cut(c, s);
      AllSmall(c, s[n..]) && Greedy(c, s) == [s[..n]] + Greedy(c, s[n..])
  {
    CutOfSmall(c, s);
  }

  lemma GreedyOfNothing(c: Config)
    ensures Greedy(c, []) == [] && Flatten(Greedy(c, [])) == []
  {
  }

  /** A full flush delivers exactly the buffer, in order. */
  lemma {:induction false} GreedyDelivers(c: Config, s: seq<MatchEvent>)
    requires AllSmall(c, s) && c.maxMessages >= 1
    ensures Flatten(Greedy(c, s)) == s
  {
    hide Fits, AllSmall, Bytes, Greedy, Flatten, Cut;
    if s == [] {
      GreedyOfNothing(c);
    } else {
      GreedyStep(c, s);
      var n := Cut(c, s);
      GreedyDelivers(c, s[n..]);
      FlattenAppend([s[..n]], Greedy(c, s[n..]));
      FlattenOne(s[..n]);
      assert s[..n] + s[n..] == s;
    }
  }

  /** Every batch is a non-empty longest prefix, within both caps, of what is still buffered. */
  lemma {:induction false} GreedyFits(c: Config, s: seq<MatchEvent>, k: nat)
    requires k < |Greedy(c, s)|
    ensures Greedy(c, s)[k] != [] && Fits(c, Greedy(c, s)[k])
  {
    if k > 0 { GreedyFits(c, s[Cut(c, s)..], k - 1); }
  }

  /** A settled buffer leaves in one batch. */
  lemma SettledLeavesAsOne(c: Config, s: seq<MatchEvent>)
    requires Settled(c, s) && s != []
    ensures Greedy(c, s) == [s]
  {
    assert s[..|s|] == s && s[|s|..] == [];
    CutIs(c, s, |s|);
    assert Greedy(c, s[|s|..]) == [];
  }

  // ---------- the batcher ----------

  /** An event and the time at which the channel can hand it over. */
  datatype Arrival = Arrival(event: MatchEvent, at: nat)

  function Events(pending: seq<Arrival>): (r: seq<MatchEvent>)
    ensures |r| == |pending| && forall i :: 0 <= i < |r| ==> r[i] == pending[i].event
  {
    seq(|pending|, i requires 0 <= i < |pending| => pending[i].event)
  }

  /** How one turn of the consuming loop ends. */
  datatype Turn = Took | Fired | Closed | Failed

  /** When the next receive can complete: with an event, or with the end of the channel. */
  function AvailableAt(next: Option<Arrival>, closeAt: nat): nat {
    if next.Some? then next.value.at else closeAt
  }

  ghost predicate WithinCaps(c: Config, batches: seq<seq<MatchEvent>>) {
    forall k :: 0 <= k < |batches| ==> batches[k] != [] && Fits(c, batches[k])
  }

  /** Sending `batches` moves the front of the buffer to the delivered side. */
  lemma Moved(c: Config, base: nat, before: seq<seq<MatchEvent>>, kept: seq<MatchEvent>, more: seq<MatchEvent>,
              batches: seq<seq<MatchEvent>>, rest: seq<MatchEvent>)
    requires base <= |before| && WithinCaps(c, before[base..]) && WithinCaps(c, batches)
    requires Flatten(batches) + rest == kept + more
    ensures Flatten(before + batches) + rest == Flatten(before) + kept + more
    ensures WithinCaps(c, (before + batches)[base..])
  {
    hide Fits, Flatten;
    FlattenAppend(before, batches);
    assert Flatten(before) + (Flatten(batches) + rest) == Flatten(before + batches) + rest;
    assert (before + batches)[base..] == before[base..] + batches;
  }

  lemma MovedByPush(c: Config, base: nat, before: seq<seq<MatchEvent>>, kept: seq<MatchEvent>, e: MatchEvent)
    requires base <= |before| && WithinCaps(c, before[base..])
    requires Settled(c, kept) && c.size(e) <= c.maxBytes && c.maxMessages >= 1
    ensures var (batches, rest) := Pushed(c, kept, e);
      Flatten(before + batches) + rest == Flatten(before) + kept + [e] && WithinCaps(c, (before + batches)[base..])
  {
    PushedSplits(c, kept, e);
    Moved(c, base, before, kept, [e], Pushed(c, kept, e).0, Pushed(c, kept, e).1);
  }

  lemma MovedByFlush(c: Config, base: nat, before: seq<seq<MatchEvent>>, kept: seq<MatchEvent>)
    requires base <= |before| && Settled(c, kept) && (base < |before| ==> WithinCaps(c, before[base..]))
    ensures var batches := if kept == [] then [] else [kept];
      Flatten(before + batches) == Flatten(before) + kept && WithinCaps(c, (before + batches)[base..])
  {
    if kept == [] {
      assert before + [] == before;
    } else {
      FlattenOne(kept);
      Moved(c, base, before, kept, [], [kept], []);
      assert Flatten(before + [kept]) + [] == Flatten(before + [kept]);
    }
  }

  /** The wait after the `k`-th refusal in a row: from 10 ms, doubling, to at most 5 s. */
  function RetryDelay(k: nat): nat {
    if k == 0 then 10 else Min(RetryDelay(k - 1) * 2, 5000)
  }

  function Power2(k: nat): nat { if k == 0 then 1 else 2 * Power2(k - 1) }

  lemma {:induction false} RetryDelayIs(k: nat)
    ensures RetryDelay(k) == Min(10 * Power2(k), 5000)
  {
    if k > 0 { RetryDelayIs(k - 1); }
  }

  /** Time taken by `n` sends, all but the last refused. */
  function Elapsed(latency: nat -> nat, first: nat, n: nat): nat {
    if n == 0 then 0
    else Elapsed(latency, first, n - 1) + (if n >= 2 then RetryDelay(n - 2) else 0) + latency(first + n - 1)
  }

  /** The wait before try `n + 1` is 10 ms doubled after each earlier refusal, at most 5 s. */
  lemma WaitsDouble(latency: nat -> nat, first: nat, n: nat)
    requires n >= 1
    ensures Elapsed(latency, first, n + 1)
      == Elapsed(latency, first, n) + Min(10 * Power2(n - 1), 5000) + latency(first + n)
  {
    RetryDelayIs(n - 1);
  }

  lemma OneMoreTry(latency: nat -> nat, first: nat, refused: nat)
    ensures Elapsed(latency, first, 0) == 0 && RetryDelay(0) == 10
    ensures RetryDelay(refused + 1) == Min(RetryDelay(refused) * 2, 5000)
    ensures Elapsed(latency, first, refused + 1) == Elapsed(latency, first, refused)
      + (if refused > 0 then RetryDelay(refused - 1) else 0) + latency(first + refused)
  {
  }

  // ---------- time in the buffer ----------

  /** When an event was received, and how long the batcher had been sending by then. */
  datatype Receipt = Receipt(event: MatchEvent, at: nat, sending: nat)

  /** When a batch was first sent, and the receipt of its oldest event. */
  datatype Dispatch = Dispatch(oldest: Receipt, at: nat, sending: nat)

  /** Receipts in order, none longer ago than the flush interval and the time spent sending since. */
  ghost predicate OnTime(c: Config, received: seq<Receipt>, now: nat, sending: nat) {
    && (forall r :: r in received ==>
      r.at <= now && r.sending <= sending && now + r.sending <= r.at + c.flushInterval + sending)
    && forall i, j :: 0 <= i < j < |received| ==> received[i].at <= received[j].at
  }

  /** Every batch was first sent no later than the receipt of its oldest event, plus the flush
      interval, plus the time spent sending since. */
  ghost predicate Timely(c: Config, log: seq<Dispatch>) {
    forall k :: 0 <= k < |log| ==>
      log[k].oldest.sending <= log[k].sending
      && log[k].at <= log[k].oldest.at + c.flushInterval + (log[k].sending - log[k].oldest.sending)
  }

  /** Why a batch was sent: it had as many events as allowed, the next event did not fit, the timer fired,
      or the channel closed. */
  datatype Cause = Count | Overflow | Timer | Last

  /** The batch whose first event found the buffer empty, going back over the batches that were split off
      since. */
  function Opening(causes: seq<Cause>, k: nat): (m: nat)
    requires k < |causes|
    ensures m <= k
  {
    if k > 0 && causes[k - 1].Overflow? then Opening(causes, k - 1) else k
  }

  /** Every batch was sent for its cause: full, too full for the event that comes next, no sooner than the
      flush interval after the event that found the buffer empty, or at the end. */
  ghost predicate Paced(c: Config, log: seq<Dispatch>, batches: seq<seq<MatchEvent>>, causes: seq<Cause>,
                        buffer: seq<MatchEvent>)
  {
    |log| == |batches| == |causes| && forall k :: 0 <= k < |causes| ==> PacedAt(c, log, batches, causes, buffer, k)
  }

  ghost predicate PacedAt(c: Config, log: seq<Dispatch>, batches: seq<seq<MatchEvent>>, causes: seq<Cause>,
                          buffer: seq<MatchEvent>, k: nat)
    requires k < |log| == |batches| == |causes|
  {
    var next := if k + 1 < |batches| then batches[k + 1] else buffer;
    match causes[k]
    case Count => |batches[k]| == c.maxMessages
    case Overflow => next != [] && Bytes(c, batches[k]) + c.size(next[0]) > c.maxBytes
    case Timer => log[k].at >= log[Opening(causes, k)].oldest.at + c.flushInterval
    case Last => k + 1 == |causes| && buffer == []
  }

  /** When the event came that found the buffer empty. */
  ghost predicate OpensWith(openedAt: nat, log: seq<Dispatch>, causes: seq<Cause>, received: seq<Receipt>)
    requires |log| == |causes|
  {
    received != [] ==>
      openedAt == if causes != [] && causes[|causes| - 1].Overflow? then log[Opening(causes, |causes| - 1)].oldest.at
                else received[0].at
  }

  lemma {:induction false} OpeningGrows(causes: seq<Cause>, cause: Cause, k: nat)
    requires k < |causes|
    ensures Opening(causes + [cause], k) == Opening(causes, k)
  {
    if k > 0 { OpeningGrows(causes, cause, k - 1); }
  }

  /** More events behind what is buffered change no cause. */
  lemma PacedBuffering(c: Config, log: seq<Dispatch>, batches: seq<seq<MatchEvent>>, causes: seq<Cause>,
                       buffer: seq<MatchEvent>, e: MatchEvent)
    requires Paced(c, log, batches, causes, buffer) && Last !in causes
    ensures Paced(c, log, batches, causes, buffer + [e])
  {
    hide Bytes, Opening;
    forall k | 0 <= k < |causes| ensures PacedAt(c, log, batches, causes, buffer + [e], k) {
      assert PacedAt(c, log, batches, causes, buffer, k);
      assert causes[k] in causes;
    }
  }

  /** One more batch from the front of the buffer, sent for a cause of its own. */
  lemma PacedSending(c: Config, log: seq<Dispatch>, batches: seq<seq<MatchEvent>>, causes: seq<Cause>,
                     buffer: seq<MatchEvent>, d: Dispatch, batch: seq<MatchEvent>, cause: Cause, rest: seq<MatchEvent>,
                     openedAt: nat)
    requires Paced(c, log, batches, causes, buffer) && Last !in causes
    requires batch != [] && (buffer != [] ==> batch[0] == buffer[0])
    requires openedAt
      == if causes != [] && causes[|causes| - 1].Overflow? then log[Opening(causes, |causes| - 1)].oldest.at else d.oldest.at
    requires cause.Count? ==> |batch| == c.maxMessages
    requires cause.Overflow? ==> rest != [] && Bytes(c, batch) + c.size(rest[0]) > c.maxBytes
    requires cause.Timer? ==> d.at >= openedAt + c.flushInterval
    requires cause.Last? ==> rest == []
    ensures Paced(c, log + [d], batches + [batch], causes + [cause], rest)
    ensures (log + [d])[Opening(causes + [cause], |causes|)].oldest.at == openedAt
  {
    hide Bytes, Opening, PacedAt;
    OpeningStep(causes, cause);
    PacedNow(c, log, batches, causes, d, batch, cause, rest, openedAt);
    forall k | 0 <= k < |causes| ensures PacedAt(c, log + [d], batches + [batch], causes + [cause], rest, k) {
      assert causes[k] in causes;
      PacedStill(c, log, batches, causes, buffer, d, batch, cause, rest, k);
    }
  }

  /** The batches before keep their causes. */
  lemma PacedStill(c: Config, log: seq<Dispatch>, batches: seq<seq<MatchEvent>>, causes: seq<Cause>,
                   buffer: seq<MatchEvent>, d: Dispatch, batch: seq<MatchEvent>, cause: Cause, rest: seq<MatchEvent>, k: nat)
    requires |log| == |batches| == |causes| && k < |causes| && !causes[k].Last?
    requires PacedAt(c, log, batches, causes, buffer, k) && batch != [] && (buffer != [] ==> batch[0] == buffer[0])
    ensures PacedAt(c, log + [d], batches + [batch], causes + [cause], rest, k)
  {
    hide Bytes, Opening;
    OpeningGrows(causes, cause, k);
  }

  /** The new batch has its own. */
  lemma PacedNow(c: Config, log: seq<Dispatch>, batches: seq<seq<MatchEvent>>, causes: seq<Cause>, d: Dispatch,
                 batch: seq<MatchEvent>, cause: Cause, rest: seq<MatchEvent>, openedAt: nat)
    requires |log| == |batches| == |causes|
    requires openedAt == (log + [d])[Opening(causes + [cause], |causes|)].oldest.at
    requires cause.Count? ==> |batch| == c.maxMessages
    requires cause.Overflow? ==> rest != [] && Bytes(c, batch) + c.size(rest[0]) > c.maxBytes
    requires cause.Timer? ==> d.at >= openedAt + c.flushInterval
    requires cause.Last? ==> rest == []
    ensures PacedAt(c, log + [d], batches + [batch], causes + [cause], rest, |causes|)
  {
    hide Bytes, Opening;
  }

  lemma OpeningStep(causes: seq<Cause>, cause: Cause)
    ensures Opening(causes + [cause], |causes|)
      == if causes != [] && causes[|causes| - 1].Overflow? then Opening(causes, |causes| - 1) else |causes|
  {
    if causes != [] { OpeningGrows(causes, cause, |causes| - 1); }
  }

  ghost predicate Receives(received: seq<Receipt>, buffer: seq<MatchEvent>) {
    |received| == |buffer| && forall i :: 0 <= i < |buffer| ==> received[i].event == buffer[i]
  }

  /** One entry for each acknowledged batch, about its first event. */
  ghost predicate Logged(log: seq<Dispatch>, batches: seq<seq<MatchEvent>>) {
    |log| == |batches| && forall k :: 0 <= k < |log| ==> batches[k] != [] && log[k].oldest.event == batches[k][0]
  }

  /** The first batch that goes on record starts with the oldest event and is first sent at this time;
      without one, nothing has left. */
  ghost predicate FirstOut(before: seq<Dispatch>, after: seq<Dispatch>, held: seq<Receipt>, left: seq<Receipt>, at: nat) {
    && before <= after
    && if |after| > |before| then held != [] && (after[|before|].oldest, after[|before|].at) == (held[0], at)
       else left == held
  }

  lemma NoneOut(log: seq<Dispatch>, held: seq<Receipt>, at: nat)
    ensures FirstOut(log, log, held, held, at)
  {
  }

  /** One more batch; only the first says anything about the time. */
  lemma OneMoreOut(before: seq<Dispatch>, log: seq<Dispatch>, held: seq<Receipt>, kept: seq<Receipt>, d: Dispatch,
                   left: seq<Receipt>, at: nat)
    requires FirstOut(before, log, held, kept, at) && kept != [] && d.oldest == kept[0]
    requires log == before ==> d.at == at
    ensures FirstOut(before, log + [d], held, left, at)
  {
  }

  lemma NothingOut(before: seq<Dispatch>, after: seq<Dispatch>, held: seq<Receipt>, left: seq<Receipt>, at: nat)
    requires FirstOut(before, after, held, left, at) && |before| == |after|
    ensures after == before
  {
  }

  /** What a run keeps about its batches so far: each has its cause, and the buffer was opened when the
      recorded start says. */
  ghost predicate OnPace(c: Config, log: seq<Dispatch>, batches: seq<seq<MatchEvent>>, causes: seq<Cause>,
                         buffer: seq<MatchEvent>, received: seq<Receipt>, openedAt: nat)
  {
    && Paced(c, log, batches, causes, buffer) && Last !in causes
    && |received| == |buffer| && OpensWith(openedAt, log, causes, received)
  }

  /** One more batch goes on record, for its cause. */
  lemma OnPaceSending(c: Config, log: seq<Dispatch>, log': seq<Dispatch>, batches: seq<seq<MatchEvent>>,
                      causes: seq<Cause>, buffer: seq<MatchEvent>, held: seq<Receipt>, received: seq<Receipt>,
                      batch: seq<MatchEvent>, cause: Cause, rest: seq<MatchEvent>, openedAt: nat, at: nat)
    requires Paced(c, log, batches, causes, buffer) && Last !in causes
    requires held != [] && batch != [] && (buffer != [] ==> batch[0] == buffer[0])
    requires |log'| == |log| + 1 && FirstOut(log, log', held, received, at) && |received| == |rest|
    requires openedAt
      == if causes != [] && causes[|causes| - 1].Overflow? then log[Opening(causes, |causes| - 1)].oldest.at else held[0].at
    requires cause.Count? ==> |batch| == c.maxMessages && rest == []
    requires cause.Overflow? ==> rest != [] && Bytes(c, batch) + c.size(rest[0]) > c.maxBytes
    requires cause.Timer? ==> at >= openedAt + c.flushInterval
    requires cause.Timer? || cause.Last? ==> rest == []
    ensures Paced(c, log', batches + [batch], causes + [cause], rest)
    ensures !cause.Last? ==> OnPace(c, log', batches + [batch], causes + [cause], rest, received, openedAt)
  {
    hide Bytes, Opening, PacedAt;
    var d := log'[|log|];
    assert log' == log + [d];
    PacedSending(c, log, batches, causes, buffer, d, batch, cause, rest, openedAt);
    assert (causes + [cause])[|causes + [cause]| - 1] == cause;
  }

  /** A turn that takes an event. */
  lemma OnPaceTaking(c: Config, log: seq<Dispatch>, log': seq<Dispatch>, batches: seq<seq<MatchEvent>>,
                     causes: seq<Cause>, kept: seq<MatchEvent>, held: seq<Receipt>, received: seq<Receipt>,
                     r: Receipt, openedAt: nat) returns (causes': seq<Cause>)
    requires OnPace(c, log, batches, causes, kept, held, openedAt)
    requires Settled(c, kept) && c.size(r.event) <= c.maxBytes && c.maxMessages >= 1
    requires FirstOut(log, log', held + [r], received, r.at)
    requires var (more, rest) := Pushed(c, kept, r.event);
      |log'| == |log| + |more| && |received| == |rest|
    ensures var (more, rest) := Pushed(c, kept, r.event);
      OnPace(c, log', batches + more, causes', rest, received, if kept == [] then r.at else openedAt)
  {
    hide Opening, Bytes, PacedAt;
    var (more, rest) := Pushed(c, kept, r.event);
    var at := if kept == [] then r.at else openedAt;
    OneByte(c, kept, r.event);
    if kept == [] { NotSplit(c, log, batches, causes); EmptyBytes(c); }
    if more == [] {
      causes' := causes;
      PacedBuffering(c, log, batches, causes, kept, r.event);
      NothingOut(log, log', held + [r], received, r.at);
      assert batches + more == batches;
    } else {
      var cause := if !Fits(c, kept + [r.event]) then Overflow else Count;
      causes' := causes + [cause];
      assert more == [more[0]];
      OnPaceSending(c, log, log', batches, causes, kept, held + [r], received, more[0], cause, rest, at, r.at);
    }
  }

  lemma EmptyBytes(c: Config)
    ensures Bytes(c, []) == 0
  {
  }

  /** Nothing is buffered, so the last batch was not split off. */
  lemma NotSplit(c: Config, log: seq<Dispatch>, batches: seq<seq<MatchEvent>>, causes: seq<Cause>)
    requires Paced(c, log, batches, causes, [])
    ensures causes != [] ==> !causes[|causes| - 1].Overflow?
  {
    if causes != [] { assert PacedAt(c, log, batches, causes, [], |causes| - 1); }
  }

  /** A turn that sends all that is buffered: the timer, or the end. */
  lemma OnPaceFlushing(c: Config, log: seq<Dispatch>, log': seq<Dispatch>, batches: seq<seq<MatchEvent>>,
                       causes: seq<Cause>, kept: seq<MatchEvent>, held: seq<Receipt>, received: seq<Receipt>,
                       cause: Cause, openedAt: nat, at: nat) returns (causes': seq<Cause>)
    requires OnPace(c, log, batches, causes, kept, held, openedAt) && (cause.Timer? || cause.Last?)
    requires cause.Timer? ==> kept != [] && at >= openedAt + c.flushInterval
    requires FirstOut(log, log', held, received, at) && received == []
    requires |log'| == |log| + if kept == [] then 0 else 1
    ensures Paced(c, log', batches + if kept == [] then [] else [kept], causes', [])
    ensures cause.Timer? ==> OnPace(c, log', batches + [kept], causes', [], received, openedAt)
  {
    hide Opening, Bytes, PacedAt;
    causes' := causes;
    if kept == [] {
      NothingOut(log, log', held, received, at);
      assert batches + [] == batches;
    } else {
      causes' := causes + [cause];
      OnPaceSending(c, log, log', batches, causes, kept, held, received, kept, cause, [], openedAt, at);
    }
  }

  /** The records of one run: those after the records before it. */
  lemma FirstOutFrom(before: seq<Dispatch>, after: seq<Dispatch>, held: seq<Receipt>, left: seq<Receipt>, at: nat, base: nat)
    requires FirstOut(before, after, held, left, at) && base <= |before|
    ensures base <= |after| && FirstOut(before[base..], after[base..], held, left, at)
  {
  }

  lemma BatchesFrom(batches: seq<seq<MatchEvent>>, more: seq<seq<MatchEvent>>, base: nat)
    requires base <= |batches|
    ensures (batches + more)[base..] == batches[base..] + more
  {
  }

  /** The event that finds the buffer empty sets the time. */
  lemma ReceivingOpens(c: Config, received: seq<Receipt>, now: nat, sending: nat, openedAt: nat, e: MatchEvent)
    requires OnTime(c, received, now, sending) && NotBefore(openedAt, received)
    ensures NotBefore(if received == [] then now else openedAt, received + [Receipt(e, now, sending)])
  {
    if received != [] { OpenedBefore(c, received, now, sending, openedAt); }
  }

  lemma LogLength(log: seq<Dispatch>, batches: seq<seq<MatchEvent>>)
    requires Logged(log, batches)
    ensures |log| == |batches|
  {
  }

  /** Nothing that is buffered came before. */
  ghost predicate NotBefore(openedAt: nat, received: seq<Receipt>) {
    forall r :: r in received ==> openedAt <= r.at
  }

  lemma NothingWaits(c: Config, received: seq<Receipt>, now: nat, sending: nat)
    requires received == []
    ensures OnTime(c, received, now, sending)
  {
  }

  lemma OnTimeFrom(c: Config, received: seq<Receipt>, now: nat, sending: nat, n: nat)
    requires OnTime(c, received, now, sending) && n <= |received|
    ensures OnTime(c, received[n..], now, sending)
  {
  }

  lemma NotBeforeFrom(openedAt: nat, received: seq<Receipt>, n: nat)
    requires NotBefore(openedAt, received) && n <= |received|
    ensures NotBefore(openedAt, received[n..])
  {
  }

  lemma OnTimeReceiving(c: Config, received: seq<Receipt>, now: nat, sending: nat, e: MatchEvent)
    requires OnTime(c, received, now, sending)
    ensures OnTime(c, received + [Receipt(e, now, sending)], now, sending)
  {
    assert forall i :: 0 <= i < |received| ==> received[i] in received;
  }

  lemma OnTimeSending(c: Config, received: seq<Receipt>, now: nat, sending: nat, d: nat)
    requires OnTime(c, received, now, sending)
    ensures OnTime(c, received, now + d, sending + d)
  {
  }

  /** Waiting no longer than the armed deadline. */
  lemma OnTimeWaiting(c: Config, received: seq<Receipt>, now: nat, sending: nat, started: nat, later: nat)
    requires OnTime(c, received, now, sending) && now <= later <= Max(now, started + c.flushInterval)
    requires NotBefore(started, received)
    ensures OnTime(c, received, later, sending)
  {
  }

  lemma OpenedBefore(c: Config, received: seq<Receipt>, now: nat, sending: nat, openedAt: nat)
    requires OnTime(c, received, now, sending) && received != [] && NotBefore(openedAt, received)
    ensures openedAt <= received[0].at <= now
  {
    assert received[0] in received;
  }

  lemma SameLength(received: seq<Receipt>, buffer: seq<MatchEvent>)
    requires Receives(received, buffer)
    ensures |received| == |buffer|
  {
  }

  /** The front of the buffer, and what stays behind it. */
  lemma SplitBuffer(c: Config, received: seq<Receipt>, buffer: seq<MatchEvent>, n: nat)
    requires Receives(received, buffer) && CleanEvents(buffer) && AllSmall(c, buffer) && 0 < n <= |buffer|
    ensures CleanEvents(buffer[..n]) && CleanEvents(buffer[n..]) && AllSmall(c, buffer[n..])
    ensures |received| == |buffer| && Receives(received[n..], buffer[n..]) && received[0].event == buffer[..n][0]
  {
    hide CleanEvent;
  }

  lemma JoinBuffer(c: Config, received: seq<Receipt>, buffer: seq<MatchEvent>, r: Receipt)
    requires Receives(received, buffer) && CleanEvents(buffer) && AllSmall(c, buffer)
    requires CleanEvent(r.event) && c.size(r.event) <= c.maxBytes
    ensures CleanEvents(buffer + [r.event]) && AllSmall(c, buffer + [r.event]) && |received| == |buffer|
    ensures Receives(received + [r], buffer + [r.event])
  {
    hide CleanEvent;
  }

  lemma LoggedNext(log: seq<Dispatch>, batches: seq<seq<MatchEvent>>, first: Dispatch, batch: seq<MatchEvent>)
    requires Logged(log, batches) && batch != [] && first.oldest.event == batch[0]
    ensures Logged(log + [first], batches + [batch])
  {
  }

  lemma EventsAppend(c: Setup, h: seq<Attempt>, made: seq<Attempt>, batches: seq<seq<MatchEvent>>, batch: seq<MatchEvent>)
    requires EventsOf(h) == Flatten(batches) && |made| <= |batch|
    requires forall i :: 0 <= i < |made| ==> made[i].ev == batch[i]
    ensures RanBatch(c, h + made, |h|, batch) ==> EventsOf(h + made) == Flatten(batches + [batch])
  {
    hide Delivered;
    FlattenAppend(batches, [batch]);
    FlattenOne(batch);
    if |made| == |batch| { assert EventsOf(h + made) == EventsOf(h) + batch; }
  }

  lemma TimelyNext(c: Config, log: seq<Dispatch>, received: seq<Receipt>, now: nat, sending: nat)
    requires Timely(c, log) && OnTime(c, received, now, sending) && received != []
    ensures Timely(c, log + [Dispatch(received[0], now, sending)])
  {
    assert received[0] in received;
  }

  lemma AttemptsAreClean(h: seq<Attempt>)
    requires CleanBrands(h)
    ensures CleanEvents(EventsOf(h))
  {
    hide CleanEvent;
  }

  class Batcher {
    const sink: Sink
    const config: Config
    var buffer: seq<MatchEvent>

    var now: nat
    /** Time taken by each send. */
    const latency: nat -> nat
    var sends: nat

    /** No statement and no write will ever fail. */
    ghost const faultless: bool

    /** Receipts of the buffered events, the time spent sending, and when each acknowledged batch was
        first sent. */
    ghost var received: seq<Receipt>
    ghost var sending: nat
    ghost var log: seq<Dispatch>

    /** When the event was received that last found the buffer empty. */
    ghost var openedAt: nat

    /** What was acknowledged was run and delivered, each event just once if nothing ever fails. */
    ghost predicate Backing()
      reads sink, sink.store
    {
      && sink.Valid() && CleanBrands(sink.journal.attempts)
      && Backed(sink.SetupOf(), sink.journal.attempts, sink.accepted)
      && (faultless ==> sink.Ideal() && EventsOf(sink.journal.attempts) == Flatten(sink.accepted))
    }

    ghost predicate Valid()
      reads this, sink, sink.store
    {
      && Backing()
      && CleanEvents(buffer) && AllSmall(config, buffer)
      && Receives(received, buffer) && OnTime(config, received, now, sending)
      && Logged(log, sink.accepted) && Timely(config, log)
      && NotBefore(openedAt, received)
    }

    /** The recorded start is when the event came that found the buffer empty. */
    ghost predicate Armed(started: Option<nat>)
      reads this
    {
      buffer != [] ==> started == Some(openedAt)
    }

    constructor (sink: Sink, config: Config, latency: nat -> nat)
      requires sink.Valid() && sink.journal.attempts == [] && sink.accepted == [] && sink.ticks == 1
      ensures Valid() && buffer == [] && this.sink == sink && this.config == config
      ensures faultless <==> sink.FaultsLeft() == 0
    {
      faultless := sink.FaultsLeft() == 0;
      this.sink, this.config, this.latency := sink, config, latency;
      buffer, now, sends, received, sending, log, openedAt := [], 0, 0, [], 0, [], 0;
    }

    /** Without faults the run is the ideal one, and the file holds exactly the alerts it calls for. */
    lemma FileWithoutFaults()
      requires Valid() && faultless
      ensures var h := IdealAttempts(sink.SetupOf(), Flatten(sink.accepted), sink.clock);
        && sink.journal.attempts == h && TierAOf(sink.lines) == AlertsDue(sink.SetupOf(), h)
        && (!sink.policy.wantB ==> sink.lines == AlertsDue(sink.SetupOf(), h))
    {
      hide NoveltyHistory.Run, Lines, Backed, AlertsDue, TierAOf, Scripted, CleanStart, CleanEvent;
      var c, h := sink.SetupOf(), sink.journal.attempts;
      AttemptsAreClean(h);
      IdealIsClean(c, EventsOf(h), sink.clock);
      FileIsAlertsDue(c, h);
    }

    /** The armed deadline is no later than the oldest receipt plus the flush interval, or now. */
    lemma DeadlineInTime(started: Option<nat>)
      requires Valid() && Armed(started) && buffer != []
      ensures |received| == |buffer| && started.Some?
      ensures Max(now, started.value + config.flushInterval) <= Max(now, received[0].at + config.flushInterval)
    {
      assert received[0] in received;
    }

    lemma InTime()
      requires Valid()
      ensures Logged(log, sink.accepted) && Timely(config, log)
    {
    }

    lemma Lengths()
      requires Valid()
      ensures |log| == |sink.accepted| && |received| == |buffer|
    {
    }

    method Enqueue(e: MatchEvent) returns (ok: bool)
      modifies this`buffer, this`received, this`openedAt
      ensures ok <==> config.size(e) <= config.maxBytes
      ensures buffer == if ok then old(buffer) + [e] else old(buffer)
      ensures received == if ok then old(received) + [Receipt(e, now, sending)] else old(received)
      ensures openedAt == if ok && old(buffer) == [] then now else old(openedAt)
    {
      ok := config.size(e) <= config.maxBytes;
      if ok {
        if buffer == [] { openedAt := now; }
        buffer, received := buffer + [e], received + [Receipt(e, now, sending)];
      }
    }

    /** What is enqueued counts as received now. */
    method Accept(e: MatchEvent) returns (ok: bool)
      requires Valid() && CleanEvent(e)
      modifies this`buffer, this`received, this`openedAt
      ensures Valid() && (ok <==> config.size(e) <= config.maxBytes)
      ensures buffer == if ok then old(buffer) + [e] else old(buffer)
      ensures received == if ok then old(received) + [Receipt(e, now, sending)] else old(received)
      ensures openedAt == if ok && old(buffer) == [] then now else old(openedAt)
    {
      hide Backing, OnTime, Timely, Logged, CleanEvent, CleanEvents, AllSmall, Receives, NotBefore;
      SameLength(received, buffer);
      ok := Enqueue(e);
      if !ok { return; }
      OnTimeReceiving(config, old(received), now, sending, e);
      ReceivingOpens(config, old(received), now, sending, old(openedAt), e);
      JoinBuffer(config, old(received), old(buffer), Receipt(e, now, sending));
    }

    method BufferedBytes() returns (total: nat)
      ensures total == Bytes(config, buffer)
    {
      total := 0;
      for i := 0 to |buffer|
        invariant total == Bytes(config, buffer[..i])
      {
        assert buffer[..i + 1][..i] == buffer[..i];
        total := total + config.size(buffer[i]);
      }
      assert buffer[..|buffer|] == buffer;
    }

    method PrefixLen() returns (n: nat)
      ensures n == Cut(config, buffer)
    {
      var bytes := 0;
      n := 0;
      for i := 0 to |buffer|
        invariant n == i && Fits(config, buffer[..n]) && bytes == Bytes(config, buffer[..n])
      {
        var size := config.size(buffer[i]);
        assert buffer[..i + 1][..i] == buffer[..i];
        if n >= config.maxMessages || size > config.maxBytes || (n > 0 && bytes + size > config.maxBytes) { break; }
        bytes, n := bytes + size, n + 1;
      }
      CutIs(config, buffer, n);
    }

    method ShouldFlushNow() returns (flush: bool)
      requires AllSmall(config, buffer)
      ensures flush <==> !Settled(config, buffer)
    {
      if buffer == [] { return false; }
      if |buffer| >= config.maxMessages { return true; }
      var total := BufferedBytes();
      var n := PrefixLen();
      CutOfSmall(config, buffer);
      return total > config.maxBytes && n >= 1;
    }

    /** Hand the first `n` events to the sink. */
    method Submit(n: nat) returns (ok: bool)
      requires Backing() && 0 < n <= |buffer| && CleanEvents(buffer[..n])
      modifies sink, sink.store
      ensures Backing()
      ensures sink.accepted == old(sink.accepted) + if ok then [buffer[..n]] else []
      ensures Spent(old(sink.FaultsLeft()), sink.FaultsLeft(), ok)
    {
      hide Sink.Valid, Sink.Ideal, RanBatch, CleanEvents, CleanBrands, Backed, EventsOf, Flatten;
      ghost var h, made := sink.journal.attempts, [];
      ok, made := sink.SendBatch(buffer[..n]);
      assert old(sink.accepted) + [] == old(sink.accepted);
      CleanAppend(h, made, buffer[..n]);
      BackedAppend(sink.SetupOf(), h, made, old(sink.accepted), buffer[..n], ok);
      if faultless { EventsAppend(sink.SetupOf(), h, made, old(sink.accepted), buffer[..n]); }
    }

    /** One try at the first `n` events, first sent at `first`; they leave the buffer only if the sink
        takes them. */
    method TrySend(n: nat, ghost first: Dispatch) returns (ok: bool)
      requires Valid() && 0 < n <= |buffer|
      requires first.oldest == received[0] && Timely(config, log + [first])
      modifies this, sink, sink.store
      ensures Valid() && sends == old(sends) + 1
      ensures now == old(now) + latency(old(sends)) && sending == old(sending) + latency(old(sends))
      ensures buffer == if ok then old(buffer)[n..] else old(buffer)
      ensures received == if ok then old(received)[n..] else old(received)
      ensures log == (old(log) + if ok then [first] else []) && openedAt == old(openedAt)
      ensures sink.accepted == old(sink.accepted) + if ok then [old(buffer)[..n]] else []
      ensures Spent(old(sink.FaultsLeft()), sink.FaultsLeft(), ok)
    {
      hide Backing, Sink.FaultsLeft, Bytes, Timely, OnTime, CleanEvents, AllSmall, Receives, Logged, NotBefore;
      SplitBuffer(config, received, buffer, n);
      ok := Submit(n);
      assert old(sink.accepted) + [] == old(sink.accepted);
      OnTimeSending(config, received, now, sending, latency(sends));
      now, sending, sends := now + latency(sends), sending + latency(sends), sends + 1;
      if ok {
        OnTimeFrom(config, received, now, sending, n);
        NotBeforeFrom(openedAt, received, n);
        LoggedNext(log, old(sink.accepted), first, buffer[..n]);
        buffer, received, log := buffer[n..], received[n..], log + [first];
      }
    }

    /** Send the longest prefix until the sink takes it. It is resent as it is, and nothing else
        is sent in between. */
    method SendPrefixWithRetry() returns (ok: bool)
      requires Valid()
      modifies this, sink, sink.store
      ensures Valid() && now >= old(now) && sends >= old(sends)
      ensures now == old(now) + Elapsed(latency, old(sends), sends - old(sends))
      ensures sending == old(sending) + (now - old(now))
      ensures ok <==> Cut(config, old(buffer)) > 0
      ensures var n := Cut(config, old(buffer));
        && buffer == old(buffer)[n..] && received == old(received)[n..]
        && sink.accepted == old(sink.accepted) + if ok then [old(buffer)[..n]] else []
      ensures |received| <= |old(received)| && openedAt == old(openedAt)
      ensures log == old(log) + if ok then [Dispatch(old(received)[0], old(now), old(sending))] else []
    {
      hide Backing, Sink.FaultsLeft, Bytes, CleanEvents, AllSmall, Cut, Fits,
        Elapsed, RetryDelay, OnTime, Timely, Logged, Receives, NotBefore;
      OneMoreTry(latency, sends, 0);
      var n := PrefixLen();
      SameLength(received, buffer);
      if n == 0 { return false; }
      ghost var first := Dispatch(received[0], now, sending);
      TimelyNext(config, log, received, now, sending);
      var delay: nat := 10;
      ghost var refused := 0;
      while true
        invariant Valid() && now >= old(now) && sending == old(sending) + (now - old(now))
        invariant sends == old(sends) + refused && delay == RetryDelay(refused)
        invariant now
          == old(now) + Elapsed(latency, old(sends), refused) + if refused > 0 then RetryDelay(refused - 1) else 0
        invariant buffer == old(buffer) && received == old(received) && log == old(log) && openedAt == old(openedAt)
        invariant sink.accepted == old(sink.accepted)
        decreases sink.FaultsLeft()
      {
        OneMoreTry(latency, old(sends), refused);
        ok := TrySend(n, first);
        if ok { return; }
        OnTimeSending(config, received, now, sending, delay);
        now, sending := now + delay, sending + delay;
        delay, refused := Min(delay * 2, 5000), refused + 1;
      }
    }

    method Flush() returns (ok: bool)
      requires Valid()
      modifies this, sink, sink.store
      ensures Valid() && now >= old(now)
      ensures ok <==> old(buffer) == [] || config.maxMessages >= 1
      ensures buffer == if ok then [] else old(buffer)
      ensures sink.accepted == old(sink.accepted) + Greedy(config, old(buffer))
      ensures openedAt == old(openedAt) && FirstOut(old(log), log, old(received), received, old(now))
    {
      hide Backing, Bytes, OnTime, Timely, Logged, CleanEvents, Greedy, Cut, FirstOut,
        NotBefore;
      ok := true;
      NoneOut(log, received, now);
      while buffer != []
        invariant Valid() && now >= old(now) && ok
        invariant config.maxMessages >= 1 || buffer == old(buffer)
        invariant sink.accepted + Greedy(config, buffer) == old(sink.accepted) + Greedy(config, old(buffer))
        invariant openedAt == old(openedAt) && FirstOut(old(log), log, old(received), received, old(now))
        invariant log == old(log) ==> now == old(now)
        decreases |buffer|
      {
        if config.maxMessages >= 1 { GreedyStep(config, buffer); } else { NothingFits(config, buffer); }
        ghost var sofar, kept, start, spent := log, received, now, sending;
        SameLength(received, buffer);
        ok := SendPrefixWithRetry();
        assert sofar + [] == sofar;
        if !ok { return; }
        OneMoreOut(old(log), sofar, old(received), kept, Dispatch(kept[0], start, spent), received, old(now));
      }
      GreedyOfNothing(config);
    }

    method FlushReady() returns (ok: bool)
      requires Valid()
      modifies this, sink, sink.store
      ensures Valid() && now >= old(now)
      ensures ok <==> Settled(config, buffer)
      ensures (sink.accepted, buffer) == (old(sink.accepted) + Drain(config, old(buffer)).0, Drain(config, old(buffer)).1)
      ensures |buffer| <= |old(buffer)| && received == old(received)[|old(buffer)| - |buffer|..]
      ensures openedAt == old(openedAt) && FirstOut(old(log), log, old(received), received, old(now))
    {
      hide Backing, Bytes, OnTime, Timely, Logged, CleanEvents, FirstOut, NotBefore,
        AllSmall, Receives, Cut, Flatten, EventsOf, Fits;
      ok := true;
      SameLength(received, buffer);
      NoneOut(log, received, now);
      while true
        invariant Valid() && now >= old(now) && ok
        invariant sink.accepted + Drain(config, buffer).0 == old(sink.accepted) + Drain(config, old(buffer)).0
        invariant Drain(config, buffer).1 == Drain(config, old(buffer)).1
        invariant |buffer| <= |old(buffer)| == |old(received)| && received == old(received)[|old(buffer)| - |buffer|..]
        invariant openedAt == old(openedAt) && FirstOut(old(log), log, old(received), received, old(now))
        invariant log == old(log) ==> now == old(now)
        decreases |buffer|
      {
        var flush := ShouldFlushNow();
        assert sink.accepted + [] == sink.accepted;
        if !flush { return; }
        ghost var sofar, kept, start, spent := log, received, now, sending;
        SameLength(received, buffer);
        ok := SendPrefixWithRetry();
        assert sofar + [] == sofar;
        if !ok { return; }
        OneMoreOut(old(log), sofar, old(received), kept, Dispatch(kept[0], start, spent), received, old(now));
      }
    }

    /** Buffer one event and send whatever is due; the buffered events stay in receipt order. */
    method Push(e: MatchEvent) returns (ok: bool)
      requires Valid() && Settled(config, buffer) && CleanEvent(e)
      modifies this, sink, sink.store
      ensures Valid() && now >= old(now)
      ensures ok <==> config.size(e) <= config.maxBytes && config.maxMessages >= 1
      ensures ok ==> Settled(config, buffer)
      ensures ok ==> sink.accepted == old(sink.accepted) + Pushed(config, old(buffer), e).0
      ensures ok ==> buffer == Pushed(config, old(buffer), e).1
      ensures !ok ==> sink.accepted == old(sink.accepted)
      ensures !ok ==> buffer == old(buffer) + if config.size(e) <= config.maxBytes then [e] else []
      ensures ok ==> openedAt == if old(buffer) == [] then old(now) else old(openedAt)
      ensures !ok ==> log == old(log)
      ensures ok ==> FirstOut(old(log), log, old(received) + [Receipt(e, old(now), old(sending))], received, old(now))
      ensures ok ==>
        var k := |old(buffer)| + 1 - |buffer|;
        0 <= k <= |old(received)| + 1 && received == (old(received) + [Receipt(e, old(now), old(sending))])[k..]
    {
      hide Valid, Bytes, CleanEvent, Drain, Pushed, Greedy, Cut, Fits, FirstOut;
      Lengths();
      ok := Accept(e);
      if !ok { return; }
      if config.maxMessages >= 1 {
        DrainAfterPush(config, old(buffer), e);
        PushedSplits(config, old(buffer), e);
      } else {
        NothingFits(config, buffer);
      }
      Lengths();
      ghost var held := received;
      ok := FlushReady();
      Lengths();
      assert old(sink.accepted) + [] == old(sink.accepted);
      if !ok { NothingOut(old(log), log, held, received, old(now)); }
    }

    /** Take one event; the recorded start stays while anything is buffered. */
    method Take(e: MatchEvent, since: nat) returns (ok: bool, started: Option<nat>)
      requires Valid() && Settled(config, buffer) && CleanEvent(e)
      requires since == if buffer == [] then now else openedAt
      modifies this, sink, sink.store
      ensures Valid() && now >= old(now)
      ensures ok <==> config.size(e) <= config.maxBytes && config.maxMessages >= 1
      ensures ok ==> Settled(config, buffer) && Armed(started)
      ensures ok ==> started == if buffer == [] then None else Some(since)
      ensures ok ==> sink.accepted == old(sink.accepted) + Pushed(config, old(buffer), e).0
      ensures ok ==> buffer == Pushed(config, old(buffer), e).1
      ensures !ok ==> sink.accepted == old(sink.accepted)
      ensures !ok ==> buffer == old(buffer) + if config.size(e) <= config.maxBytes then [e] else []
      ensures ok ==>
        var r := Receipt(e, old(now), old(sending));
        openedAt == since && FirstOut(old(log), log, old(received) + [r], received, old(now))
      ensures !ok ==> log == old(log)
    {
      hide Valid, Bytes, CleanEvent, Pushed, FirstOut;
      started := Some(since);
      ok := Push(e);
      if !ok { return; }
      if buffer == [] { started := None; }
    }

    /** Time goes by: any time while nothing is buffered, otherwise not past the deadline. */
    method WaitUntil(later: nat)
      requires Valid() && now <= later
      requires buffer == [] || later <= Max(now, openedAt + config.flushInterval)
      modifies this`now
      ensures Valid() && now == later
    {
      hide Backing, OnTime, Timely, Logged, CleanEvents, AllSmall, NotBefore;
      SameLength(received, buffer);
      if buffer == [] {
        NothingWaits(config, received, later, sending);
      } else {
        OnTimeWaiting(config, received, now, sending, openedAt, later);
      }
      now := later;
    }

    /** What is buffered came after the buffer was opened, and before now. */
    lemma OpenedInTime()
      requires Valid()
      ensures |received| == |buffer|
      ensures buffer != [] ==> openedAt <= received[0].at <= now
    {
      if buffer != [] { OpenedBefore(config, received, now, sending, openedAt); }
    }

    /** One turn of the consuming loop: an event, the timer, or the end of the channel, whichever
        comes first. The timer fires exactly when the next event or the close is past the deadline. */
    method TakeTurn(next: Option<Arrival>, closeAt: nat, started: Option<nat>) returns (turn: Turn, started': Option<nat>)
      requires Valid() && Settled(config, buffer) && Armed(started)
      requires next.Some? ==> CleanEvent(next.value.event)
      modifies this, sink, sink.store
      ensures Valid() && now >= old(now)
      ensures !turn.Failed? ==> Settled(config, buffer) && Armed(started')
      ensures turn.Took? || turn.Failed? ==> next.Some?
      ensures turn.Closed? ==> next.None?
      ensures var available := if next.Some? then next.value.at else closeAt;
        turn.Fired? <==> old(buffer) != [] && Max(old(now), available) > Max(old(now), old(openedAt) + config.flushInterval)
      ensures now >= Max(old(now), if turn.Fired? then old(openedAt) + config.flushInterval
                                   else if next.Some? then next.value.at else closeAt)
      ensures turn.Fired? ==>
        FirstOut(old(log), log, old(received), received, Max(old(now), old(openedAt) + config.flushInterval))
      ensures turn.Closed? ==> FirstOut(old(log), log, old(received), received, Max(old(now), closeAt))
      ensures turn.Fired? || turn.Closed? ==> openedAt == old(openedAt)
      ensures turn.Took? ==>
        var at := Max(old(now), next.value.at);
        && openedAt == (if old(buffer) == [] then at else old(openedAt))
        && FirstOut(old(log), log, old(received) + [Receipt(next.value.event, at, old(sending))], received, at)
      ensures turn.Failed? ==> log == old(log)
      ensures turn.Took? || turn.Fired? ==> started' == if buffer == [] then None else Some(openedAt)
      ensures !turn.Failed? && buffer != [] ==>
        started'.Some? && Max(now, started'.value + config.flushInterval) <= Max(now, received[0].at + config.flushInterval)
      ensures turn.Took? || turn.Failed? ==>
        (turn.Took? <==> config.size(next.value.event) <= config.maxBytes && config.maxMessages >= 1)
      ensures match turn
        case Took =>
          var (batches, rest) := Pushed(config, old(buffer), next.value.event);
          sink.accepted == old(sink.accepted) + batches && buffer == rest
        case Failed =>
          && sink.accepted == old(sink.accepted)
          && buffer == old(buffer) + if config.size(next.value.event) <= config.maxBytes then [next.value.event] else []
        case _ => buffer == [] && sink.accepted == old(sink.accepted) + if old(buffer) == [] then [] else [old(buffer)]
    {
      hide Valid, CleanEvent, Bytes, Cut, Greedy, Fits, Pushed, FirstOut;
      OpenedInTime();
      NoneOut(log, received, Max(now, closeAt));
      started' := started;
      if buffer == [] {
        WaitUntil(Max(now, AvailableAt(next, closeAt)));
        if next.None? { return Closed, started'; }
        var ok;
        ok, started' := Take(next.value.event, now);
        if !ok { return Turn.Failed, started'; }
        if buffer != [] { DeadlineInTime(started'); }
        return Took, started';
      }
      SettledLeavesAsOne(config, buffer);
      var since := if started.Some? then started.value else now;
      var deadline := now + Max(0, config.flushInterval - Max(0, now - since));
      var available := Max(now, AvailableAt(next, closeAt));
      if available > deadline {
        WaitUntil(deadline);
        var ok := Flush();
        return Fired, None;
      }
      WaitUntil(available);
      if next.None? {
        var ok := Flush();
        return Closed, started';
      }
      var ok;
      ok, started' := Take(next.value.event, since);
      if !ok { return Turn.Failed, started'; }
      if buffer != [] { DeadlineInTime(started'); }
      turn := Took;
    }

    /** A turn that keeps the causes of the batches on record, from record `base` on. */
    method TakeTurnOnPace(next: Option<Arrival>, closeAt: nat, started: Option<nat>, ghost base: nat,
                          ghost causes: seq<Cause>)
      returns (turn: Turn, started': Option<nat>, ghost causes': seq<Cause>)
      requires Valid() && Settled(config, buffer) && Armed(started) && base <= |log| == |sink.accepted|
      requires next.Some? ==> CleanEvent(next.value.event)
      requires OnPace(config, log[base..], sink.accepted[base..], causes, buffer, received, openedAt)
      modifies this, sink, sink.store
      ensures Valid() && base <= |log| == |sink.accepted|
      ensures !turn.Failed? ==> Settled(config, buffer) && Armed(started')
      ensures turn.Took? || turn.Failed? ==> next.Some?
      ensures turn.Closed? ==> next.None?
      ensures turn.Fired? ==> old(buffer) != []
      ensures turn.Took? || turn.Failed? ==>
        (turn.Took? <==> config.size(next.value.event) <= config.maxBytes && config.maxMessages >= 1)
      ensures match turn
        case Took =>
          var (batches, rest) := Pushed(config, old(buffer), next.value.event);
          sink.accepted == old(sink.accepted) + batches && buffer == rest
        case Failed =>
          && sink.accepted == old(sink.accepted)
          && buffer == old(buffer) + if config.size(next.value.event) <= config.maxBytes then [next.value.event] else []
        case _ => buffer == [] && sink.accepted == old(sink.accepted) + if old(buffer) == [] then [] else [old(buffer)]
      ensures turn.Took? || turn.Fired? ==>
        OnPace(config, log[base..], sink.accepted[base..], causes', buffer, received, openedAt)
      ensures Paced(config, log[base..], sink.accepted[base..], causes', buffer)
    {
      hide Valid, Pushed, CleanEvent, AvailableAt, Logged, Paced, OnPace, FirstOut, Armed;
      ghost var before, kept, records, held, start := sink.accepted, buffer, log, received, openedAt;
      ghost var now0, sending0 := now, sending;
      Lengths();
      turn, started' := TakeTurn(next, closeAt, started);
      Lengths();
      ghost var c, past, sent := config, records[base..], before[base..];
      match turn
      case Took =>
        ghost var r := Receipt(next.value.event, Max(now0, next.value.at), sending0);
        FirstOutFrom(records, log, held + [r], received, r.at, base);
        BatchesFrom(before, Pushed(c, kept, r.event).0, base);
        causes' := OnPaceTaking(c, past, log[base..], sent, causes, kept, held, received, r, start);
        PacedSoFar(c, log[base..], sink.accepted[base..], causes', buffer, received, openedAt, r.event);
      case Failed =>
        causes' := causes;
        PacedSoFar(c, past, sent, causes, kept, held, start, next.value.event);
      case _ =>
        ghost var at := Max(now0, if turn.Fired? then start + c.flushInterval else closeAt);
        FirstOutFrom(records, log, held, received, at, base);
        BatchesFrom(before, if kept == [] then [] else [kept], base);
        causes' := OnPaceFlushing(c, past, log[base..], sent, causes, kept, held, received,
                                  if turn.Fired? then Timer else Last, start, at);
    }

    /** Consume the channel until it closes. Exit is clean exactly when every event is within the
        byte cap; then everything was delivered, in order. After an early error exit the delivered
        batches and the abandoned buffer still are a prefix of what the channel held. Every batch was
        sent for a cause: it was full, the next event did not fit, it had waited for the flush interval,
        or the channel had closed. */
    method Run(pending: seq<Arrival>, closeAt: nat) returns (ok: bool, ghost taken: nat, ghost causes: seq<Cause>)
      requires Valid() && buffer == [] && CleanEvents(Events(pending))
      modifies this, sink, sink.store
      ensures Valid()
      ensures ok <==> AllSmall(config, Events(pending)) && (config.maxMessages >= 1 || pending == [])
      ensures taken <= |pending| && old(sink.accepted) <= sink.accepted && |log| >= |old(log)|
      ensures WithinCaps(config, sink.accepted[|old(sink.accepted)|..])
      ensures Flatten(sink.accepted) + buffer == old(Flatten(sink.accepted)) + Events(pending)[..taken]
      ensures ok ==> buffer == [] && taken == |pending|
      ensures Logged(log, sink.accepted) && Timely(config, log)
      ensures Paced(config, log[|old(log)|..], sink.accepted[|old(sink.accepted)|..], causes, buffer)
      ensures faultless ==> var h := IdealAttempts(sink.SetupOf(), Flatten(sink.accepted), sink.clock);
        && sink.journal.attempts == h && TierAOf(sink.lines) == AlertsDue(sink.SetupOf(), h)
        && (!sink.policy.wantB ==> sink.lines == AlertsDue(sink.SetupOf(), h))
      ensures !ok ==> config.maxMessages == 0 || (taken < |pending| && config.size(pending[taken].event) > config.maxBytes)
    {
      hide Valid, WithinCaps, Pushed, Flatten, CleanEvent, AvailableAt, IdealAttempts, TierAOf, AlertsDue, Logged, Timely,
        Paced, OnPace, FirstOut, Armed;
      MovedByFlush(config, |sink.accepted|, sink.accepted, []);
      assert sink.accepted + [] == sink.accepted;
      taken, causes := 0, [];
      Lengths();
      ghost var base := |log|;
      StartsOnPace(config, log[base..], sink.accepted[base..], received, openedAt);
      var i := 0;
      var started: Option<nat> := None;
      StartsArmed(started);
      while true
        invariant Valid() && Settled(config, buffer) && Armed(started)
        invariant taken == i <= |pending|
        invariant forall j :: 0 <= j < i ==> config.size(pending[j].event) <= config.maxBytes
        invariant old(sink.accepted) <= sink.accepted && WithinCaps(config, sink.accepted[|old(sink.accepted)|..])
        invariant Flatten(sink.accepted) + buffer == old(Flatten(sink.accepted)) + Events(pending)[..i]
        invariant base <= |log| == |sink.accepted|
        invariant OnPace(config, log[base..], sink.accepted[base..], causes, buffer, received, openedAt)
        invariant i > 0 ==> config.maxMessages >= 1
        decreases |pending| - i, |buffer|
      {
        ghost var before, kept := sink.accepted, buffer;
        var next := if i < |pending| then Some(pending[i]) else None;
        var turn;
        turn, started, causes := TakeTurnOnPace(next, closeAt, started, base, causes);
        assert i < |pending| ==> Events(pending)[..i + 1] == Events(pending)[..i] + [pending[i].event];
        match turn
        case Took =>
          MovedByPush(config, |old(sink.accepted)|, before, kept, pending[i].event);
          i, taken := i + 1, taken + 1;
        case Fired =>
          MovedByFlush(config, |old(sink.accepted)|, before, kept);
        case Closed =>
          MovedByFlush(config, |old(sink.accepted)|, before, kept);
          InTime();
          if faultless { FileWithoutFaults(); }
          return true, taken, causes;
        case Failed =>
          if config.size(pending[i].event) <= config.maxBytes {
            assert Flatten(before) + (kept + [pending[i].event]) == (Flatten(before) + kept) + [pending[i].event];
            taken := taken + 1;
          }
          InTime();
          if faultless { FileWithoutFaults(); }
          return false, taken, causes;
      }
    }

    lemma StartsArmed(started: Option<nat>)
      requires buffer == []
      ensures Armed(started)
    {
    }
  }

  lemma StartsOnPace(c: Config, log: seq<Dispatch>, batches: seq<seq<MatchEvent>>, received: seq<Receipt>, openedAt: nat)
    requires log == [] && batches == [] && received == []
    ensures OnPace(c, log, batches, [], [], received, openedAt)
  {
  }

  lemma PacedSoFar(c: Config, log: seq<Dispatch>, batches: seq<seq<MatchEvent>>, causes: seq<Cause>, buffer: seq<MatchEvent>,
                   received: seq<Receipt>, openedAt: nat, e: MatchEvent)
    requires OnPace(c, log, batches, causes, buffer, received, openedAt)
    ensures Paced(c, log, batches, causes, buffer) && Paced(c, log, batches, causes, buffer + [e])
    ensures Paced(c, log, batches, causes, buffer + [])
  {
    assert buffer + [] == buffer;
    PacedBuffering(c, log, batches, causes, buffer, e);
  }

  /** Sink and batcher together, from an empty database to the end of the channel. The exit is clean
      exactly when every event is within the byte cap, and then every event was delivered, in order;
      if moreover nothing fails, the tier A lines on file are exactly the alerts that the history of
      those events calls for. */
  method Consume(names: seq<string>, policy: Policy, script: seq<bool>, writes: seq<WriteFate>, clock: nat -> i64,
                 config: Config, latency: nat -> nat, pending: seq<Arrival>, closeAt: nat)
    returns (sink: Result<Sink>, clean: bool)
    requires Trimmed(names) && CleanEvents(Events(pending))
    ensures sink.Ok? <==>
      Good(script, SeedStatements(LowerAll(names), Max(policy.maxPartnerDegree, policy.maxBrandDf)))
    ensures sink.Ok? ==>
      fresh(sink.value) && sink.value.Valid() && sink.value.ignore == LowerSet(names) && sink.value.policy == policy
    ensures sink.Ok? ==> (clean <==> AllSmall(config, Events(pending)) && (config.maxMessages >= 1 || pending == []))
    ensures sink.Ok? && clean ==> Flatten(sink.value.accepted) == Events(pending)
    ensures sink.Ok? && clean && script == [] && writes == [] ==>
      var due := AlertsDue(sink.value.SetupOf(), IdealAttempts(sink.value.SetupOf(), Events(pending), clock));
      TierAOf(sink.value.lines) == due && (!policy.wantB ==> sink.value.lines == due)
  {
    hide Sink.Valid, Good, SeedStatements, AllSmall, IdealAttempts, AlertsDue, TierAOf, Flatten;
    clean := false;
    sink := Open(names, policy, script, writes, clock);
    if sink.Err? { return; }
    var batcher := new Batcher(sink.value, config, latency);
    ghost var taken, causes;
    NothingSent(sink.value.accepted);
    clean, taken, causes := batcher.Run(pending, closeAt);
    assert Events(pending)[..|pending|] == Events(pending);
    WhenDelivered(sink.value.accepted, batcher.buffer, Events(pending)[..taken]);
  }

  lemma NothingSent(batches: seq<seq<MatchEvent>>)
    requires batches == []
    ensures Flatten(batches) == []
  {
  }

  lemma WhenDelivered(batches: seq<seq<MatchEvent>>, buffer: seq<MatchEvent>, events: seq<MatchEvent>)
    requires Flatten(batches) + buffer == [] + events
    ensures buffer == [] ==> Flatten(batches) == events
  {
    hide Flatten;
    if buffer == [] { assert Flatten(batches) == Flatten(batches) + buffer == [] + events == events; }
  }
}

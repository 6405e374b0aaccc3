/** The frame loop: inspect, archive, enqueue with backpressure, and the counters it keeps. */
module Pipeline {
  import opened Event

  /** One frame after parsing, and after inspection when it is a leaf certificate. */
  datatype Parsed = NotLeaf | Malformed | Leaf(outcome: InspectOutcome<MatchEvent>)

  /** How the bounded channel, or a shutdown, answers one enqueue. */
  datatype Reply = Sent | FullThenSent | FullThenShutdown | FullThenClosed | ClosedNow

  /** What the loop's `select` yields next. */
  datatype Input = Shutdown | FramesEnd | Frame(parsed: Parsed, reply: Reply)

  /** Counters, archive attempts and enqueued matches. */
  datatype Ledger = Ledger(
    seen: nat,
    ignored: nat,
    malformed: nat,
    suppressed: nat,
    enqueued: nat,
    full: nat,
    archived: seq<MatchEvent>,
    sent: seq<MatchEvent>)

  const EMPTY_LEDGER := Ledger(0, 0, 0, 0, 0, 0, [], [])

  /** The match a frame carries to the channel, if any. */
  function MatchOf(p: Parsed): Option<MatchEvent> {
    if p.Leaf? then p.outcome.event else None
  }

  /** Counting and archiving one frame, up to the channel. */
  function Inspected(l: Ledger, p: Parsed): Ledger {
    var seen := l.(seen := l.seen + 1);
    match p
    case NotLeaf => seen.(ignored := l.ignored + 1)
    case Malformed => seen.(malformed := l.malformed + 1)
    case Leaf(outcome) =>
      var counted := if outcome.fullySuppressed then seen.(suppressed := l.suppressed + 1) else seen;
      if outcome.event.Some? then counted.(archived := l.archived + [outcome.event.value])
      else if outcome.fullySuppressed then counted
      else counted.(ignored := l.ignored + 1)
  }

  function Enqueued(l: Ledger, e: MatchEvent): Ledger { l.(enqueued := l.enqueued + 1, sent := l.sent + [e]) }

  function Delayed(l: Ledger): Ledger { l.(full := l.full + 1) }

  predicate Delivers(reply: Reply) { reply.Sent? || reply.FullThenSent? }

  /** One whole frame. */
  function AfterFrame(l: Ledger, p: Parsed, reply: Reply): Ledger {
    var c := Inspected(l, p);
    match MatchOf(p)
    case None => c
    case Some(e) =>
      var waited := if reply.Sent? || reply.ClosedNow? then c else Delayed(c);
      if Delivers(reply) then Enqueued(waited, e) else waited
  }

  /** Does the loop go on after this frame? */
  predicate GoesOn(p: Parsed, reply: Reply) { MatchOf(p).Some? ==> Delivers(reply) }

  predicate WellFormed(p: Parsed) { p.Leaf? ==> p.outcome.WellFormed() }

  // ---------- accounting ----------

  /** Every seen frame is in exactly one bucket, apart from the matches still on their way; every
      match was offered to the archive before it was enqueued, in the same order. */
  ghost predicate Accounted(l: Ledger, onTheWay: seq<MatchEvent>) {
    && l.seen == l.ignored + l.malformed + l.suppressed + l.enqueued + |onTheWay|
    && l.archived == l.sent + onTheWay
    && l.enqueued == |l.sent|
  }

  lemma AccountedInspected(l: Ledger, p: Parsed)
    requires Accounted(l, []) && WellFormed(p)
    ensures Accounted(Inspected(l, p), match MatchOf(p) case None => [] case Some(e) => [e])
  {
  }

  /** One frame keeps the books exactly when its outcome is not both a match and suppressed. */
  lemma AccountedFrame(l: Ledger, p: Parsed, reply: Reply)
    requires Accounted(l, [])
    ensures GoesOn(p, reply) ==> (Accounted(AfterFrame(l, p, reply), []) <==> WellFormed(p))
    ensures !GoesOn(p, reply) ==>
      (Accounted(AfterFrame(l, p, reply), [MatchOf(p).value]) <==> WellFormed(p))
  {
  }

  /** Where a frame belongs. */
  datatype Bucket = IgnoredFrame | MalformedFrame | SuppressedFrame | MatchedFrame

  /** Not a leaf or no match: ignored. Not readable: malformed. All its hits suppressed: suppressed. */
  predicate BelongsTo(p: Parsed, b: Bucket) {
    match b
    case MalformedFrame => p.Malformed?
    case MatchedFrame => p.Leaf? && p.outcome.event.Some?
    case SuppressedFrame => p.Leaf? && p.outcome.event.None? && p.outcome.fullySuppressed
    case IgnoredFrame => p.NotLeaf? || (p.Leaf? && p.outcome.event.None? && !p.outcome.fullySuppressed)
  }

  predicate FrameIn(input: Input, b: Bucket) { input.Frame? && BelongsTo(input.parsed, b) }

  function CountIn(inputs: seq<Input>, b: Bucket): nat {
    if inputs == [] then 0
    else CountIn(inputs[..|inputs| - 1], b) + if FrameIn(inputs[|inputs| - 1], b) then 1 else 0
  }

  /** Frames whose match met a full channel. */
  function CountFull(inputs: seq<Input>): nat {
    if inputs == [] then 0
    else
      var last := inputs[|inputs| - 1];
      var full := last.Frame? && last.reply in {FullThenSent, FullThenShutdown, FullThenClosed};
      CountFull(inputs[..|inputs| - 1]) + if FrameIn(last, MatchedFrame) && full then 1 else 0
  }

  function CountDelivered(inputs: seq<Input>): nat {
    if inputs == [] then 0
    else
      var last := inputs[|inputs| - 1];
      CountDelivered(inputs[..|inputs| - 1])
      + if FrameIn(last, MatchedFrame) && (last.reply.Sent? || last.reply.FullThenSent?) then 1 else 0
  }

  /** Every counter is the number of frames of its own kind. */
  lemma {:induction false} BooksCount(inputs: seq<Input>)
    requires forall i :: 0 <= i < |inputs| && inputs[i].Frame? ==> WellFormed(inputs[i].parsed)
    ensures var l := Books(inputs);
      && l.malformed == CountIn(inputs, MalformedFrame) && l.ignored == CountIn(inputs, IgnoredFrame)
      && l.suppressed == CountIn(inputs, SuppressedFrame) && |l.archived| == CountIn(inputs, MatchedFrame)
      && l.seen == l.malformed + l.ignored + l.suppressed + |l.archived|
      && l.full == CountFull(inputs) && l.enqueued == |l.sent| == CountDelivered(inputs)
  {
    if inputs != [] { BooksCount(inputs[..|inputs| - 1]); }
  }

  /** The books after a run of inputs. */
  function Books(inputs: seq<Input>): Ledger {
    if inputs == [] then EMPTY_LEDGER
    else
      var before, input := Books(inputs[..|inputs| - 1]), inputs[|inputs| - 1];
      if input.Frame? then AfterFrame(before, input.parsed, input.reply) else before
  }

  class FrameLoop {
    var seen: nat
    var ignored: nat
    var malformed: nat
    var suppressed: nat
    var enqueued: nat
    var full: nat
    /** Matches offered to the research archive; a failed write is only logged. */
    var archived: seq<MatchEvent>
    /** Matches handed to the channel. */
    var sent: seq<MatchEvent>

    function View(): Ledger
      reads this
    {
      Ledger(seen, ignored, malformed, suppressed, enqueued, full, archived, sent)
    }

    constructor ()
      ensures View() == EMPTY_LEDGER
    {
      seen, ignored, malformed, suppressed, enqueued, full, archived, sent := 0, 0, 0, 0, 0, 0, [], [];
    }

    method HandleFrame(p: Parsed, reply: Reply) returns (goOn: bool)
      modifies this
      ensures View() == AfterFrame(old(View()), p, reply)
      ensures goOn <==> GoesOn(p, reply)
    {
      goOn := true;
      seen := seen + 1;
      match p
      case NotLeaf => ignored := ignored + 1;
      case Malformed => malformed := malformed + 1;
      case Leaf(outcome) =>
        if outcome.fullySuppressed { suppressed := suppressed + 1; }
        if outcome.event.Some? {
          archived := archived + [outcome.event.value];
          goOn := Offer(outcome.event.value, reply);
        } else if !outcome.fullySuppressed {
          ignored := ignored + 1;
        }
    }

    method Offer(e: MatchEvent, reply: Reply) returns (goOn: bool)
      modifies this`enqueued, this`full, this`sent
      ensures full == old(full) + if reply.Sent? || reply.ClosedNow? then 0 else 1
      ensures enqueued == old(enqueued) + if goOn then 1 else 0
      ensures sent == old(sent) + if goOn then [e] else []
      ensures goOn <==> Delivers(reply)
    {
      match reply {
        case ClosedNow => return false;
        case Sent =>
        case _ =>
          full := full + 1;
          if !reply.FullThenSent? { return false; }
      }
      enqueued, sent := enqueued + 1, sent + [e];
      goOn := true;
    }

    /** The loop ends at a shutdown, the end of the frames, or a match it could not enqueue: the
        books then are exact, up to that one match. */
    method Run(script: seq<Input>) returns (ghost used: nat, ghost abandoned: seq<MatchEvent>)
      requires View() == EMPTY_LEDGER
      requires forall i :: 0 <= i < |script| && script[i].Frame? ==> WellFormed(script[i].parsed)
      modifies this
      ensures used <= |script| && View() == Books(script[..used])
      ensures Accounted(View(), abandoned) && |abandoned| <= 1
      ensures malformed == CountIn(script[..used], MalformedFrame) && ignored == CountIn(script[..used], IgnoredFrame)
      ensures suppressed == CountIn(script[..used], SuppressedFrame) && full == CountFull(script[..used])
      ensures abandoned == [] ==> used == |script| || !script[used].Frame?
      ensures abandoned != [] ==>
        used > 0 && script[used - 1].Frame? && !GoesOn(script[used - 1].parsed, script[used - 1].reply)
    {
      abandoned, used := [], 0;
      for i := 0 to |script|
        invariant Accounted(View(), []) && abandoned == []
        invariant used == i && View() == Books(script[..i])
      {
        if !script[i].Frame? {
          BooksCount(script[..i]);
          return;
        }
        ghost var before := View();
        var goOn := HandleFrame(script[i].parsed, script[i].reply);
        AccountedFrame(before, script[i].parsed, script[i].reply);
        assert script[..i + 1][..i] == script[..i];
        used := i + 1;
        if !goOn {
          abandoned := [MatchOf(script[i].parsed).value];
          BooksCount(script[..i + 1]);
          return;
        }
      }
      BooksCount(script[..|script|]);
    }
  }
}

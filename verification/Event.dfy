/** Shared values: results, options and the match event that crosses the channel. */
module Event {

  datatype Option<+T> = None | Some(value: T)

  datatype Result<+T> = Ok(value: T) | Err

  const U32_MAX: nat := 0xFFFF_FFFF

  type u32 = x: nat | x <= U32_MAX

  /** A watchlist hit. `seen` is the event time already resolved to whole seconds. */
  datatype MatchEvent = MatchEvent(
    domains: seq<string>,
    keywords: seq<string>,
    seen: int,
    source: Option<string>,
    fingerprint: Option<string>,
    sanCount: u32)

  /** Result of inspecting one leaf certificate against the watchlist. */
  datatype InspectOutcome<+E> = InspectOutcome(event: Option<E>, fullySuppressed: bool)
  {
    /** A leaf is never both a match and fully suppressed. */
    predicate WellFormed() { event.Some? ==> !fullySuppressed }
  }

  function Max(a: int, b: int): int { if a < b then b else a }

  function Min(a: int, b: int): int { if a < b then a else b }

  /** Concatenation of a list of lists. */
  function Flatten<T>(ss: seq<seq<T>>): seq<T> {
    if ss == [] then [] else Flatten(ss[..|ss| - 1]) + ss[|ss| - 1]
  }

  lemma {:induction false} FlattenAppend<T>(a: seq<seq<T>>, b: seq<seq<T>>)
    ensures Flatten(a + b) == Flatten(a) + Flatten(b)
  {
    if b == [] {
      assert a + b == a;
    } else {
      var front := b[..|b| - 1];
      assert (a + b)[..|a + b| - 1] == a + front;
      FlattenAppend(a, front);
    }
  }

  lemma FlattenOne<T>(s: seq<T>)
    ensures Flatten([s]) == s
  {
    assert [s][..0] == [];
    assert Flatten<T>([]) == [];
  }
}

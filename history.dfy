/**
 * The command history of the terminal: the submitted lines, oldest first,
 * and a marker that the arrow keys move. A marker equal to the number of
 * items means "not browsing: the fresh line after the newest entry".
 */
module History {
  import opened Wrappers

  /** Entries kept when the history is clipped, before the new one is pushed. */
  const Kept: nat := 20

  /** Reading `items[i]` in JavaScript: out of range gives `undefined`. */
  datatype Lookup = Undefined | Defined(value: string)

  function At(items: seq<string>, i: int): (v: Lookup)
    ensures v.Defined? <==> 0 <= i < |items|
    ensures v.Defined? ==> v.value == items[i]
  {
    if 0 <= i < |items| then Defined(items[i]) else Undefined
  }

  /** The value of the history object: its `items` and its `marker`. */
  datatype HistoryState = HistoryState(items: seq<string>, marker: int)

  /** The marker lies on an entry or just past the newest one. */
  predicate Inv(h: HistoryState)
  {
    0 <= h.marker <= |h.items|
  }

  /** The last `n` elements of `s`, or all of `s` when it is shorter. */
  function Recent(s: seq<string>, n: nat): (r: seq<string>)
    ensures |r| == if |s| < n then |s| else n
  {
    if |s| <= n then s else s[|s| - n..]
  }

  /**
   * `newItem`: when there are 20 or more items keep the last 20, then push
   * the new one. The list can therefore hold 21 entries.
   */
  function Appended(items: seq<string>, x: string): (r: seq<string>)
    ensures |r| == Min(|items|, Kept) + 1
    ensures r[|r| - 1] == x
    ensures r[..|r| - 1] == items[|items| - Min(|items|, Kept)..]
  {
    if |items| >= Kept then
      var kept := items[|items| - Kept..];
      assert (kept + [x])[..Kept] == kept;
      kept + [x]
    else
      assert (items + [x])[..|items|] == items[0..];
      items + [x]
  }

  /** `init`: the marker is parked after the newest entry. */
  function InitState(items: seq<string>): (h: HistoryState)
    ensures Inv(h) && h.items == items && h.marker == |h.items|
  {
    HistoryState(items, |items|)
  }

  /** `reset`: the items are kept and the marker parked after the newest. */
  function ResetState(h: HistoryState): (r: HistoryState)
    ensures Inv(r) && r.items == h.items && r.marker == |h.items|
  {
    h.(marker := |h.items|)
  }

  /**
   * `previous`: step back one entry when there is one, and report the value
   * handed to `updateCommandLine`; `None` when nothing is shown.
   */
  function PreviousStep(h: HistoryState): (r: (HistoryState, Option<Lookup>))
    ensures r.0.items == h.items
    ensures Inv(h) ==> Inv(r.0)
    ensures r.1.Some? <==> h.marker > 0
    ensures h.marker > 0 ==> r.0.marker == h.marker - 1
    ensures Inv(h) && h.marker > 0 ==> r.1 == Some(Defined(h.items[r.0.marker]))
    ensures h.marker <= 0 ==> r.0 == h
  {
    if h.marker > 0 then
      var m := h.marker - 1;
      (h.(marker := m), Some(At(h.items, m)))
    else
      (h, None)
  }

  /**
   * `next`: step forward one entry when the marker is before the end. The
   * value shown is the entry under the new marker, which is `undefined`
   * when the marker has just reached the end.
   */
  function NextStep(h: HistoryState): (r: (HistoryState, Option<Lookup>))
    ensures r.0.items == h.items
    ensures Inv(h) ==> Inv(r.0)
    ensures r.1.Some? <==> h.marker < |h.items|
    ensures h.marker < |h.items| ==> r.0.marker == h.marker + 1
    ensures Inv(h) && r.0.marker < |h.items| && r.1.Some? ==> r.1 == Some(Defined(h.items[r.0.marker]))
    ensures r.0.marker == |h.items| && r.1.Some? ==> r.1 == Some(Undefined)
    ensures h.marker >= |h.items| ==> r.0 == h
  {
    if h.marker < |h.items| then
      var m := h.marker + 1;
      (h.(marker := m), Some(At(h.items, m)))
    else
      (h, None)
  }

  /** The values shown by `k` presses of the up arrow. */
  function Ups(h: HistoryState, k: nat): seq<Lookup>
    decreases k
  {
    if k == 0 then []
    else
      var (h', shown) := PreviousStep(h);
      (if shown.Some? then [shown.value] else []) + Ups(h', k - 1)
  }

  /** The values shown by `k` presses of the down arrow. */
  function Downs(h: HistoryState, k: nat): seq<Lookup>
    decreases k
  {
    if k == 0 then []
    else
      var (h', shown) := NextStep(h);
      (if shown.Some? then [shown.value] else []) + Downs(h', k - 1)
  }

  function Min(a: int, b: int): int { if a < b then a else b }

  /**
   * Pressing up `k` times from marker `m` shows the entries below `m`
   * newest first, one per press, and nothing once the oldest is reached.
   */
  lemma {:induction false} UpsNewestFirst(h: HistoryState, k: nat)
    requires Inv(h)
    ensures |Ups(h, k)| == Min(k, h.marker)
    ensures forall i :: 0 <= i < |Ups(h, k)| ==> Ups(h, k)[i] == Defined(h.items[h.marker - 1 - i])
    decreases k
  {
    if k > 0 && h.marker > 0 {
      var h' := PreviousStep(h).0;
      UpsNewestFirst(h', k - 1);
      assert Ups(h, k) == [Defined(h.items[h.marker - 1])] + Ups(h', k - 1);
    } else if k > 0 {
      UpsNewestFirst(h, k - 1);
    }
  }

  /**
   * Pressing down `k` times from marker `m` shows the entries above `m`
   * oldest first, then `undefined` once for the step onto the fresh line,
   * then nothing.
   */
  lemma {:induction false} DownsOldestFirst(h: HistoryState, k: nat)
    requires Inv(h)
    ensures |Downs(h, k)| == Min(k, |h.items| - h.marker)
    ensures forall i :: 0 <= i < |Downs(h, k)| ==> Downs(h, k)[i] == At(h.items, h.marker + 1 + i)
    decreases k
  {
    if k > 0 && h.marker < |h.items| {
      var h' := NextStep(h).0;
      DownsOldestFirst(h', k - 1);
      assert Downs(h, k) == [At(h.items, h.marker + 1)] + Downs(h', k - 1);
    } else if k > 0 {
      DownsOldestFirst(h, k - 1);
    }
  }

  /** Clipping then pushing keeps exactly the 21 most recent entries. */
  lemma AppendedIsRecent(items: seq<string>, x: string)
    ensures Appended(items, x) == Recent(items + [x], Kept + 1)
  {
  }

  /** Taking the recent part twice is taking it once. */
  lemma RecentOfRecent(a: seq<string>, b: seq<string>, n: nat)
    ensures Recent(Recent(a, n) + b, n) == Recent(a + b, n)
  {
  }

  /** Appending the head of `xs` and then its tail is appending `xs`. */
  lemma CommitSplit(items: seq<string>, xs: seq<string>)
    requires xs != []
    ensures items + [xs[0]] + xs[1..] == items + xs
  {
  }

  /** The items after committing `xs` one after another. */
  function CommitAll(items: seq<string>, xs: seq<string>): seq<string>
    decreases xs
  {
    if xs == [] then items else CommitAll(Appended(items, xs[0]), xs[1..])
  }

  /**
   * After at least one commit the history holds exactly the 21 most recent
   * lines, oldest first: the bound is 21 and nothing is reordered.
   */
  lemma {:induction false} CommitAllIsRecent(items: seq<string>, xs: seq<string>)
    requires xs != []
    ensures CommitAll(items, xs) == Recent(items + xs, Kept + 1)
    ensures |CommitAll(items, xs)| <= Kept + 1
    decreases xs
  {
    var x, rest := xs[0], xs[1..];
    var a := Appended(items, x);
    assert CommitAll(items, xs) == CommitAll(a, rest);
    AppendedIsRecent(items, x);
    if rest != [] {
      CommitAllIsRecent(a, rest);
      RecentOfRecent(items + [x], rest, Kept + 1);
      CommitSplit(items, xs);
    }
  }

  /** The `commandHistory` object. */
  class CommandHistory {
    var items: seq<string>
    var marker: int

    function Model(): HistoryState
      reads this
    {
      HistoryState(items, marker)
    }

    ghost predicate Valid()
      reads this
    {
      Inv(Model())
    }

    /** The object literal: no items, marker 0. */
    constructor ()
      ensures Valid() && items == [] && marker == 0
    {
      items := [];
      marker := 0;
    }

    /**
     * `init`: when the history is empty it takes the saved entries (the
     * decoded cookie; empty when there is none), then parks the marker.
     */
    method Init(saved: seq<string>)
      modifies this
      ensures Model() == InitState(if old(items) == [] then saved else old(items))
    {
      if |items| == 0 {
        items := saved;
      }
      marker := |items|;
    }

    /** `newItem`: clip, push. The marker is not touched. */
    method NewItem(item: string)
      modifies this
      ensures items == Appended(old(items), item)
      ensures marker == old(marker)
    {
      if |items| >= Kept {
        items := items[|items| - Kept..|items|];
      }
      items := items + [item];
    }

    /** `previous`; returns the argument given to `updateCommandLine`, if any. */
    method Previous() returns (shown: Option<Lookup>)
      modifies this
      ensures (Model(), shown) == PreviousStep(old(Model()))
    {
      shown := None;
      if marker > 0 {
        marker := marker - 1;
        shown := Some(At(items, marker));
      }
    }

    /** `next`; returns the argument given to `updateCommandLine`, if any. */
    method Next() returns (shown: Option<Lookup>)
      modifies this
      ensures (Model(), shown) == NextStep(old(Model()))
    {
      shown := None;
      if marker < |items| {
        marker := marker + 1;
        shown := Some(At(items, marker));
      }
    }

    /** `reset`. */
    method Reset()
      modifies this
      ensures Model() == ResetState(old(Model()))
    {
      marker := |items|;
    }
  }
}

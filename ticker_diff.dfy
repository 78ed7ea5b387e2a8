/** The ticker diff: which ticker lines appeared and which disappeared since the last run. */
module TickerDiff {
  import opened Wrappers

  /** `diff(first, second)`: the items of `first` that do not occur in `second`, in `first`'s
      order and with repetitions kept. Membership in `second` is all that matters, so turning
      `second` into a set first, as the script does, changes nothing. */
  function Diff(first: seq<string>, second: seq<string>): (r: seq<string>)
    ensures forall x :: x in r <==> x in first && x !in second
    ensures forall x :: multiset(r)[x] == if x in second then 0 else multiset(first)[x]
    decreases |first|
  {
    if first == [] then []
    else
      assert first == [first[0]] + first[1..];
      if first[0] in second then Diff(first[1..], second)
      else [first[0]] + Diff(first[1..], second)
  }

  /** What the stored `last_seen` holds: no `all_msgs` entry at all (a lookup that raises),
      a null entry, or a list of ticker lines. */
  datatype LastSeen = Missing | Null | Seen(msgs: seq<string>)

  /** `config["last_seen"]["all_msgs"] or []`: a null or empty list both read as no lines. */
  function Previous(ls: LastSeen): (r: Option<seq<string>>)
    ensures r.None? <==> ls.Missing?
    ensures ls.Seen? ==> r == Some(ls.msgs)
    ensures ls.Null? ==> r == Some([])
  {
    match ls
    case Missing => None
    case Null => Some([])
    case Seen(msgs) => Some(msgs)
  }

  /** Diff works item by item: it distributes over concatenation, so the kept items stay in
      their original order. */
  lemma {:induction false} DiffAppend(a: seq<string>, b: seq<string>, s: seq<string>)
    ensures Diff(a + b, s) == Diff(a, s) + Diff(b, s)
    decreases |a|
  {
    if a == [] {
      assert a + b == b;
    } else {
      assert (a + b)[0] == a[0] && (a + b)[1..] == a[1..] + b;
      DiffAppend(a[1..], b, s);
    }
  }

  /** A ticker compared with itself has neither added nor removed lines. */
  lemma DiffSelf(t: seq<string>)
    ensures Diff(t, t) == []
  {
  }

  /** No line is both added and removed. */
  lemma AddedRemovedDisjoint(current: seq<string>, previous: seq<string>)
    ensures forall x :: x in Diff(current, previous) ==> x !in Diff(previous, current)
  {
  }

  /** Taking the removed lines away from the previous ticker and adding the added lines gives
      the current ticker, as a set of lines. */
  lemma DiffReconstructs(current: seq<string>, previous: seq<string>)
    ensures var added, removed := Diff(current, previous), Diff(previous, current);
      (set x | x in previous && x !in removed) + (set x | x in added) == set x | x in current
  {
  }

  /** Once `last_seen` has been overwritten with a ticker, a run that sees the same ticker
      reports no added and no removed lines. */
  lemma SecondRunSeesNoChange(ticker: seq<string>)
    ensures Previous(Seen(ticker)) == Some(ticker)
    ensures Diff(ticker, Previous(Seen(ticker)).value) == []
    ensures Diff(Previous(Seen(ticker)).value, ticker) == []
  {
    DiffSelf(ticker);
  }
}

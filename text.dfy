/** Line-oriented text: the newline-terminated concatenation the script builds with `+=`,
    Python's `"\n".join`, and the reader `Lines` that cuts a text at every newline. `Lines`
    is the yardstick for what a rendered message reads back as. */
module Text {

  predicate SingleLine(s: string) {
    '\n' !in s
  }

  predicate AllSingleLine(ls: seq<string>) {
    forall i :: 0 <= i < |ls| ==> SingleLine(ls[i])
  }

  /** Every line followed by a newline. */
  function Unlines(ls: seq<string>): string
  {
    if ls == [] then "" else ls[0] + "\n" + Unlines(ls[1..])
  }

  /** Python's `"\n".join(ls)`: newlines between the lines, none after the last. */
  function Join(ls: seq<string>): string
  {
    if ls == [] then "" else if |ls| == 1 then ls[0] else ls[0] + "\n" + Join(ls[1..])
  }

  /** The pieces of `s` between newlines; a text with k newlines has k + 1 pieces. */
  function Lines(s: string): (r: seq<string>)
    ensures |r| > 0
    decreases |s|
  {
    if s == [] then [""]
    else if s[0] == '\n' then [""] + Lines(s[1..])
    else
      var rest := Lines(s[1..]);
      [[s[0]] + rest[0]] + rest[1..]
  }

  /** Regrouping a concatenation; stated once so that longer proofs can name the step. */
  lemma AppendAssoc<T>(a: seq<T>, b: seq<T>, c: seq<T>)
    ensures a + b + c == a + (b + c)
  {
  }

  lemma UnlinesCons(x: string, rest: seq<string>)
    ensures Unlines([x] + rest) == x + "\n" + Unlines(rest)
  {
    assert ([x] + rest)[0] == x && ([x] + rest)[1..] == rest;
  }

  lemma {:induction false} UnlinesAppend(a: seq<string>, b: seq<string>)
    ensures Unlines(a + b) == Unlines(a) + Unlines(b)
    decreases |a|
  {
    if a == [] {
      assert a + b == b;
    } else {
      assert (a + b)[0] == a[0] && (a + b)[1..] == a[1..] + b;
      UnlinesAppend(a[1..], b);
    }
  }

  lemma {:induction false} JoinThenNewline(ls: seq<string>)
    requires ls != []
    ensures Join(ls) + "\n" == Unlines(ls)
    decreases |ls|
  {
    if |ls| > 1 {
      JoinThenNewline(ls[1..]);
    } else {
      assert ls[1..] == [];
    }
  }

  lemma {:induction false} LinesOfSingleLine(s: string)
    requires SingleLine(s)
    ensures Lines(s) == [s]
    decreases |s|
  {
    if s != [] {
      LinesOfSingleLine(s[1..]);
      assert [s[0]] + s[1..] == s;
    }
  }

  lemma {:induction false} LinesAfterLine(a: string, t: string)
    requires SingleLine(a)
    ensures Lines(a + "\n" + t) == [a] + Lines(t)
    decreases |a|
  {
    var s := a + "\n" + t;
    if a == [] {
      assert s[0] == '\n' && s[1..] == t;
    } else {
      assert s[0] == a[0] && s[1..] == a[1..] + "\n" + t;
      LinesAfterLine(a[1..], t);
      assert [a[0]] + a[1..] == a;
    }
  }

  /** Newline-terminated lines followed by more text read back as those lines, then the rest. */
  lemma {:induction false} LinesOfUnlines(ls: seq<string>, t: string)
    requires AllSingleLine(ls)
    ensures Lines(Unlines(ls) + t) == ls + Lines(t)
    decreases |ls|
  {
    if ls != [] {
      var rest := Unlines(ls[1..]);
      AppendAssoc(ls[0] + "\n", rest, t);
      assert SingleLine(ls[0]);
      LinesAfterLine(ls[0], rest + t);
      assert AllSingleLine(ls[1..]) by {
        forall i | 0 <= i < |ls| - 1 ensures SingleLine(ls[1..][i]) { assert ls[1..][i] == ls[i + 1]; }
      }
      LinesOfUnlines(ls[1..], t);
      AppendAssoc([ls[0]], ls[1..], Lines(t));
      assert [ls[0]] + ls[1..] == ls;
    } else {
      assert Unlines(ls) + t == t;
    }
  }

  /** Splitting a join at its newlines gives back the joined lines (an empty join reads as one
      empty line). */
  lemma LinesOfJoin(ls: seq<string>)
    requires AllSingleLine(ls)
    ensures Lines(Join(ls)) == if ls == [] then [""] else ls
  {
    if ls != [] {
      var n := |ls|;
      var init, last := ls[..n - 1], ls[n - 1];
      assert ls == init + [last];
      if n == 1 {
        LinesOfSingleLine(last);
      } else {
        JoinThenNewline(init);
        assert Join(ls) == Join(init) + "\n" + last by { JoinSnoc(init, last); }
        UnlinesAppend(init, []);
        LinesOfUnlines(init, last);
        LinesOfSingleLine(last);
      }
    }
  }

  lemma {:induction false} JoinSnoc(ls: seq<string>, x: string)
    requires ls != []
    ensures Join(ls + [x]) == Join(ls) + "\n" + x
    decreases |ls|
  {
    assert (ls + [x])[0] == ls[0];
    if |ls| > 1 {
      assert (ls + [x])[1..] == ls[1..] + [x];
      JoinSnoc(ls[1..], x);
    } else {
      assert (ls + [x])[1..] == [x];
    }
  }
}

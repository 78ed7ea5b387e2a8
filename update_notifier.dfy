/** The threaded reply that lists the ticker lines removed and added since the last run. */
module UpdateNotifier {
  import opened Text

  const Fence := "```"

  /** `plural(msgs)`: the singular label exactly for a one-item list. */
  function Plural(msgs: seq<string>): (r: string)
    ensures r == "Message" <==> |msgs| == 1
    ensures r == "Message" || r == "Messages"
  {
    if |msgs| == 1 then "Message" else "Messages"
  }

  function Header(updateTime: string): string
  {
    "*Updates at " + updateTime + "*"
  }

  /** One message in a fenced block of its own: a fence line, the message, a fence line. */
  function Block(m: string): seq<string>
  {
    [Fence, m, Fence]
  }

  /** The blocks of all messages, in list order. */
  function BlockLines(msgs: seq<string>): seq<string>
  {
    if msgs == [] then [] else Block(msgs[0]) + BlockLines(msgs[1..])
  }

  lemma {:induction false} BlockLinesAppend(a: seq<string>, b: seq<string>)
    ensures BlockLines(a + b) == BlockLines(a) + BlockLines(b)
    decreases |a|
  {
    if a == [] {
      assert a + b == b;
    } else {
      assert (a + b)[0] == a[0] && (a + b)[1..] == a[1..] + b;
      BlockLinesAppend(a[1..], b);
    }
  }

  lemma {:induction false} BlockLinesLength(msgs: seq<string>)
    ensures |BlockLines(msgs)| == 3 * |msgs|
    decreases |msgs|
  {
    if msgs != [] {
      BlockLinesLength(msgs[1..]);
    }
  }

  lemma {:induction false} BlockLinesSplit(msgs: seq<string>, k: nat)
    requires k <= |msgs|
    ensures BlockLines(msgs) == BlockLines(msgs[..k]) + BlockLines(msgs[k..])
  {
    assert msgs[..k] + msgs[k..] == msgs;
    BlockLinesAppend(msgs[..k], msgs[k..]);
  }

  lemma BlockLinesAt(msgs: seq<string>, k: nat)
    requires k < |msgs|
    ensures BlockLines(msgs[k..]) == Block(msgs[k]) + BlockLines(msgs[k + 1..])
  {
    var post := msgs[k..];
    assert post[0] == msgs[k] && post[1..] == msgs[k + 1..];
  }

  /** Every message gets a block of its own, and the blocks follow the order of the list. */
  lemma {:induction false} BlockOfEach(msgs: seq<string>, k: nat)
    requires k < |msgs|
    ensures BlockLines(msgs) == BlockLines(msgs[..k]) + Block(msgs[k]) + BlockLines(msgs[k + 1..])
  {
    BlockLinesSplit(msgs, k);
    BlockLinesAt(msgs, k);
    AppendAssoc(BlockLines(msgs[..k]), Block(msgs[k]), BlockLines(msgs[k + 1..]));
  }

  /** A labelled section ("Message removed:", "Messages added:", ...) followed by the blocks;
      nothing at all for an empty list. */
  function SectionLines(msgs: seq<string>, verb: string): (r: seq<string>)
    ensures msgs == [] ==> r == []
    ensures msgs != [] ==> |r| > 0 && r[0] == Plural(msgs) + " " + verb + ":"
  {
    if msgs == [] then [] else [Plural(msgs) + " " + verb + ":"] + BlockLines(msgs)
  }

  /** The summary's lines: the header, then the removals, then the additions. */
  function SummaryLines(updateTime: string, added: seq<string>, removed: seq<string>): seq<string>
  {
    [Header(updateTime)] + SectionLines(removed, "removed") + SectionLines(added, "added")
  }

  /** The summary text: every line ended by a newline. */
  function Summary(updateTime: string, added: seq<string>, removed: seq<string>): string
  {
    Unlines(SummaryLines(updateTime, added, removed))
  }

  /** Whether the run posts a summary: only when a day message was stored at the start of the
      run and some line was added or removed. */
  predicate ShouldPostSummary(printDiffs: bool, added: seq<string>, removed: seq<string>) {
    printDiffs && (|added| > 0 || |removed| > 0)
  }

  lemma AllSingleLineAppend(a: seq<string>, b: seq<string>)
    requires AllSingleLine(a) && AllSingleLine(b)
    ensures AllSingleLine(a + b)
  {
    forall i | 0 <= i < |a + b| ensures SingleLine((a + b)[i]) {
      if i >= |a| { assert (a + b)[i] == b[i - |a|]; }
    }
  }

  lemma {:induction false} BlockLinesSingleLine(msgs: seq<string>)
    requires AllSingleLine(msgs)
    ensures AllSingleLine(BlockLines(msgs))
    decreases |msgs|
  {
    if msgs != [] {
      assert SingleLine(msgs[0]);
      assert AllSingleLine(msgs[1..]) by {
        forall i | 0 <= i < |msgs| - 1 ensures SingleLine(msgs[1..][i]) { assert msgs[1..][i] == msgs[i + 1]; }
      }
      BlockLinesSingleLine(msgs[1..]);
      AllSingleLineAppend([Fence, msgs[0], Fence], BlockLines(msgs[1..]));
    }
  }

  lemma SectionSingleLine(msgs: seq<string>, verb: string)
    requires AllSingleLine(msgs) && SingleLine(verb)
    ensures AllSingleLine(SectionLines(msgs, verb))
  {
    if msgs != [] {
      var lbl := Plural(msgs) + " " + verb + ":";
      assert SingleLine(lbl) by {
        var n := |Plural(msgs)| + 1;
        assert forall k :: n <= k < n + |verb| ==> lbl[k] == verb[k - n];
      }
      BlockLinesSingleLine(msgs);
      AllSingleLineAppend([lbl], BlockLines(msgs));
    }
  }

  /** Read line by line, the summary gives back exactly its lines (and the empty remainder
      after the final newline), so every removed and added message can be recovered. */
  lemma SummaryReadsBack(updateTime: string, added: seq<string>, removed: seq<string>)
    requires SingleLine(updateTime) && AllSingleLine(added) && AllSingleLine(removed)
    ensures Lines(Summary(updateTime, added, removed)) == SummaryLines(updateTime, added, removed) + [""]
  {
    var ls := SummaryLines(updateTime, added, removed);
    assert SingleLine(Header(updateTime)) by {
      var h := Header(updateTime);
      assert forall k :: 12 <= k < 12 + |updateTime| ==> h[k] == updateTime[k - 12];
    }
    SectionSingleLine(removed, "removed");
    SectionSingleLine(added, "added");
    AllSingleLineAppend([Header(updateTime)], SectionLines(removed, "removed"));
    AllSingleLineAppend([Header(updateTime)] + SectionLines(removed, "removed"), SectionLines(added, "added"));
    LinesOfUnlines(ls, "");
    assert Unlines(ls) + "" == Unlines(ls);
  }

  /** One added line and nothing removed: a single "Message added" section with one block. */
  lemma SingleAdditionExample()
    ensures Summary("T", ["X"], []) == "*Updates at T*\n" + "Message added:\n" + "```\nX\n```\n"
  {
    var lbl := Plural(["X"]) + " " + "added" + ":";
    calc {
      Summary("T", ["X"], []);
      { assert ["X"][1..] == [];
        assert BlockLines(["X"]) == Block("X") + [];
        assert SummaryLines("T", ["X"], []) == [Header("T")] + ([lbl] + Block("X")); }
      Unlines([Header("T")] + ([lbl] + Block("X")));
      { UnlinesCons(Header("T"), [lbl] + Block("X")); }
      Header("T") + "\n" + Unlines([lbl] + Block("X"));
      { UnlinesCons(lbl, Block("X")); }
      Header("T") + "\n" + (lbl + "\n" + Unlines(Block("X")));
      { BlockText("X"); }
      Header("T") + "\n" + (lbl + "\n" + (Fence + "\n" + "X" + "\n" + Fence + "\n"));
      { assert Header("T") + "\n" == "*Updates at T*\n";
        assert lbl + "\n" == "Message added:\n";
        assert Fence + "\n" + "X" + "\n" + Fence + "\n" == "```\nX\n```\n"; }
      "*Updates at T*\n" + ("Message added:\n" + "```\nX\n```\n");
      { AppendAssoc("*Updates at T*\n", "Message added:\n", "```\nX\n```\n"); }
      "*Updates at T*\n" + "Message added:\n" + "```\nX\n```\n";
    }
  }

  /** A block as text: the message between two fence lines. */
  lemma BlockText(m: string)
    ensures Unlines(Block(m)) == Fence + "\n" + m + "\n" + Fence + "\n"
  {
    assert Block(m) == [Fence] + ([m] + ([Fence] + []));
    UnlinesCons(Fence, []);
    UnlinesCons(m, [Fence]);
    UnlinesCons(Fence, [m, Fence]);
    assert Unlines([]) == "";
    assert [Fence] + [] == [Fence];
    assert [m] + [Fence] == [m, Fence];
  }

  lemma BlockLinesSnoc(msgs: seq<string>, i: nat)
    requires i < |msgs|
    ensures BlockLines(msgs[..i + 1]) == BlockLines(msgs[..i]) + Block(msgs[i])
  {
    assert msgs[..i + 1] == msgs[..i] + [msgs[i]];
    BlockLinesAppend(msgs[..i], [msgs[i]]);
    assert [msgs[i]][1..] == [];
    assert BlockLines([msgs[i]]) == Block(msgs[i]) + [];
  }

  lemma SectionStep(lbl: string, msgs: seq<string>, i: nat)
    requires i < |msgs|
    ensures Unlines([lbl] + BlockLines(msgs[..i + 1]))
         == Unlines([lbl] + BlockLines(msgs[..i])) + Unlines(Block(msgs[i]))
  {
    BlockLinesSnoc(msgs, i);
    AppendAssoc([lbl], BlockLines(msgs[..i]), Block(msgs[i]));
    UnlinesAppend([lbl] + BlockLines(msgs[..i]), Block(msgs[i]));
  }

  /** One section as the script appends it: the label line, then a fenced block per message
      in list order; nothing for an empty list. */
  method AppendSection(text: string, msgs: seq<string>, verb: string) returns (r: string)
    ensures r == text + Unlines(SectionLines(msgs, verb))
  {
    r := text;
    if |msgs| > 0 {
      ghost var lbl := Plural(msgs) + " " + verb + ":";
      r := r + (Plural(msgs) + " " + verb + ":\n");
      assert r == text + Unlines([lbl] + BlockLines(msgs[..0])) by {
        assert [lbl] + BlockLines(msgs[..0]) == [lbl] + [];
        UnlinesCons(lbl, []);
        AppendAssoc(Plural(msgs) + " " + verb, ":", "\n");
      }
      for i := 0 to |msgs|
        invariant r == text + Unlines([lbl] + BlockLines(msgs[..i]))
      {
        ghost var before := r;
        r := r + (Fence + "\n" + msgs[i] + "\n" + Fence + "\n");
        SectionStep(lbl, msgs, i);
        BlockText(msgs[i]);
        AppendAssoc(text, Unlines([lbl] + BlockLines(msgs[..i])), Unlines(Block(msgs[i])));
      }
      assert msgs[..|msgs|] == msgs;
    } else {
      assert r == text + Unlines([]);
    }
  }

  /** The summary as the script accumulates it: the header, then the removals, then the
      additions. */
  method BuildSummary(updateTime: string, added: seq<string>, removed: seq<string>) returns (text: string)
    ensures text == Summary(updateTime, added, removed)
  {
    text := "*Updates at " + updateTime + "*\n";
    assert text == Unlines([Header(updateTime)]);
    text := AppendSection(text, removed, "removed");
    UnlinesAppend([Header(updateTime)], SectionLines(removed, "removed"));
    text := AppendSection(text, added, "added");
    UnlinesAppend([Header(updateTime)] + SectionLines(removed, "removed"), SectionLines(added, "added"));
  }
}

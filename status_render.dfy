/** The status text: the front-matter lines (Grand Siesta banner, era banner, time descriptor)
    and the day message that carries them above the ticker block. */
module StatusRender {
  import opened Wrappers
  import opened Decimal
  import opened Text

  /** The fields of the simulation record the renderer reads; each may be absent. */
  datatype SimData = SimData(
    eraTitle: Option<string>,
    subEraTitle: Option<string>,
    season: Option<int>,
    phase: Option<int>,
    day: Option<int>,
    playOffRound: Option<int>)

  /** Why a run stops on an uncaught lookup error: the record has a season but no phase (the
      postseason check reads the phase unguarded), or the configuration has no `last_seen`. */
  datatype Failure = MissingPhase | MissingLastSeen

  const GrandSiesta := "*Grand Siesta*"

  /** The day whose display ("Day 69") gets the decorative suffix. */
  const NiceDay := 68
  const NiceSuffix := " \U{207F}\U{1DA6}\U{1D9C}\U{1D49}"

  /** The eleven phases of a season, by their display label. */
  datatype Phase =
    | GodsDay | Preseason | Earlseason | Earlsiesta | Midseason | Latesiesta
    | Lateseason | Endseason | Earlpostseason | Latepostseason | Election

  function Label(p: Phase): string
  {
    match p
    case GodsDay => "Gods' Day"
    case Preseason => "Preseason"
    case Earlseason => "Earlseason"
    case Earlsiesta => "Earlsiesta"
    case Midseason => "Midseason"
    case Latesiesta => "Latesiesta"
    case Lateseason => "Lateseason"
    case Endseason => "Endseason"
    case Earlpostseason => "Earlpostseason"
    case Latepostseason => "Latepostseason"
    case Election => "Election"
  }

  function Code(p: Phase): (c: int)
    ensures 0 <= c <= 10
  {
    match p
    case GodsDay => 0
    case Preseason => 1
    case Earlseason => 2
    case Earlsiesta => 3
    case Midseason => 4
    case Latesiesta => 5
    case Lateseason => 6
    case Endseason => 7
    case Earlpostseason => 8
    case Latepostseason => 9
    case Election => 10
  }

  /** The phase a code stands for: codes 0 to 10 have one, every other code has none. */
  function PhaseOf(code: int): (r: Option<Phase>)
    ensures r.Some? <==> 0 <= code <= 10
    ensures r.Some? ==> Code(r.value) == code
  {
    if code == 0 then Some(GodsDay)
    else if code == 1 then Some(Preseason)
    else if code == 2 then Some(Earlseason)
    else if code == 3 then Some(Earlsiesta)
    else if code == 4 then Some(Midseason)
    else if code == 5 then Some(Latesiesta)
    else if code == 6 then Some(Lateseason)
    else if code == 7 then Some(Endseason)
    else if code == 8 then Some(Earlpostseason)
    else if code == 9 then Some(Latepostseason)
    else if code == 10 then Some(Election)
    else None
  }

  /** Codes and phases correspond one to one, and so do phases and their labels. */
  lemma PhaseMappingOneToOne(p: Phase, q: Phase)
    ensures PhaseOf(Code(p)) == Some(p)
    ensures Label(p) == Label(q) ==> p == q
  {
  }

  /** "Season " and the 1-based season number. */
  function SeasonPart(season: int): (r: string)
    ensures |r| > 0 && IsDigit(r[|r| - 1])
    ensures |r| >= 7 && r[..7] == "Season " && IsIntLiteral(r[7..]) && ParseInt(r[7..]) == season + 1
    ensures |r| >= 7 && r[7..] == IntToString(season + 1)
  {
    var digits := IntToString(season + 1);
    ParseIntToString(season + 1);
    var r := "Season " + digits;
    assert r[7..] == digits;
    r
  }

  /** Behind the separator, distinct phases still show distinct labels. */
  lemma SeparatedLabelsDistinct()
    ensures forall p, q :: " - " + Label(p) == " - " + Label(q) ==> p == q
  {
    forall p, q | " - " + Label(p) == " - " + Label(q)
      ensures p == q
    {
      assert Label(p) == (" - " + Label(p))[3..];
      assert Label(q) == (" - " + Label(q))[3..];
    }
  }

  /** The separator and the label of the phase with that code; nothing for other codes. */
  function PhasePart(code: int): (r: string)
    ensures r == "" <==> PhaseOf(code).None?
    ensures r != "" ==> 'a' <= r[|r| - 1] <= 'z'
    ensures forall p :: r == " - " + Label(p) <==> code == Code(p)
  {
    SeparatedLabelsDistinct();
    match PhaseOf(code)
    case Some(p) => " - " + Label(p)
    case None => ""
  }

  /** The 1-based postseason round, during the two postseason phases only. */
  function RoundPart(code: int, round: Option<int>): (r: string)
    ensures r == "" <==> !((code == 8 || code == 9) && round.Some?)
    ensures r != "" ==> IsDigit(r[|r| - 1])
    ensures (code == 8 || code == 9) && round.Some? ==>
      && |r| >= 20 && r[..20] == " - Postseason Round "
      && IsIntLiteral(r[20..]) && ParseInt(r[20..]) == round.value + 1
      && r[20..] == IntToString(round.value + 1)
  {
    if (code == 8 || code == 9) && round.Some? then
      var digits := IntToString(round.value + 1);
      ParseIntToString(round.value + 1);
      var r := " - Postseason Round " + digits;
      assert r[20..] == digits;
      r
    else ""
  }

  predicate EndsWith(s: string, suffix: string) {
    |suffix| <= |s| && s[|s| - |suffix|..] == suffix
  }

  /** " - Day " and the 1-based day, followed by the suffix on day 68. */
  function DayPart(day: Option<int>): (r: string)
    ensures r == "" <==> day.None?
    ensures r != "" ==> |r| >= |NiceSuffix| && (EndsWith(r, NiceSuffix) <==> day == Some(NiceDay))
    ensures day.Some? ==>
      var n := if day.value == NiceDay then |r| - |NiceSuffix| else |r|;
      && 7 <= n <= |r| && r[..7] == " - Day "
      && IsIntLiteral(r[7..n]) && ParseInt(r[7..n]) == day.value + 1
      && r[7..n] == IntToString(day.value + 1)
      && r[n..] == (if day.value == NiceDay then NiceSuffix else "")
  {
    match day
    case None => ""
    case Some(d) =>
      var digits := IntToString(d + 1);
      ParseIntToString(d + 1);
      if d == NiceDay then
        var r := " - Day " + digits + NiceSuffix;
        assert r[7..|r| - |NiceSuffix|] == digits && r[|r| - |NiceSuffix|..] == NiceSuffix;
        r
      else
        var r := " - Day " + digits;
        assert r[|r| - 1] == digits[|digits| - 1];
        assert r[7..|r|] == digits;
        r
  }

  lemma DayPartShape(d: int)
    ensures d == NiceDay ==> DayPart(Some(d)) == " - Day " + IntToString(d + 1) + NiceSuffix
    ensures d != NiceDay ==> DayPart(Some(d)) == " - Day " + IntToString(d + 1)
  {
  }

  /** The time descriptor, assembled from its parts: the 1-based season, the phase label,
      the 1-based postseason round during the two postseason phases, the 1-based day.
      A record without a season gives the empty descriptor; one with a season and no phase
      cannot be rendered. */
  function Descriptor(sim: SimData): (r: Result<string, Failure>)
    ensures r.Err? <==> sim.season.Some? && sim.phase.None?
    ensures r.Err? ==> r.error == MissingPhase
    ensures sim.season.None? ==> r == Ok("")
    ensures r.Ok? && sim.season.Some? ==> |r.value| > 0
  {
    match sim.season
    case None => Ok("")
    case Some(s) =>
      match sim.phase
      case None => Err(MissingPhase)
      case Some(ph) => Ok(SeasonPart(s) + PhasePart(ph) + RoundPart(ph, sim.playOffRound) + DayPart(sim.day))
  }

  /** Whether a text ends with a suffix depends only on a tail at least as long as the suffix. */
  lemma EndsWithTail(a: string, b: string, suffix: string)
    requires |b| >= |suffix|
    ensures EndsWith(a + b, suffix) <==> EndsWith(b, suffix)
  {
    assert (a + b)[|a + b| - |suffix|..] == b[|b| - |suffix|..];
  }

  lemma NotNiceByLastChar(s: string)
    requires |s| >= |NiceSuffix| && (IsDigit(s[|s| - 1]) || 'a' <= s[|s| - 1] <= 'z')
    ensures !EndsWith(s, NiceSuffix)
  {
  }

  lemma PhasePartLength(code: int)
    requires PhaseOf(code).Some?
    ensures |PhasePart(code)| >= |NiceSuffix|
  {
    assert PhasePart(code) == " - " + Label(PhaseOf(code).value);
  }

  /** The decorative suffix closes the descriptor exactly when the stored day is 68. */
  lemma NiceSuffixIffDay68(sim: SimData)
    requires sim.season.Some? && sim.phase.Some?
    ensures EndsWith(Descriptor(sim).value, NiceSuffix) <==> sim.day == Some(NiceDay)
  {
    var ph := sim.phase.value;
    var season, phase, round, day :=
      SeasonPart(sim.season.value), PhasePart(ph), RoundPart(ph, sim.playOffRound), DayPart(sim.day);
    assert Descriptor(sim).value == season + phase + round + day;
    if day != "" {
      EndsWithTail(season + phase + round, day, NiceSuffix);
    } else {
      assert season + phase + round + day == season + phase + round;
      if round != "" {
        EndsWithTail(season + phase, round, NiceSuffix);
        assert |round| >= 20;
        NotNiceByLastChar(round);
      } else {
        assert season + phase + round == season + phase;
        if phase != "" {
          PhasePartLength(ph);
          EndsWithTail(season, phase, NiceSuffix);
          NotNiceByLastChar(phase);
        } else {
          assert season + phase == season;
          assert |season| >= 8;
          NotNiceByLastChar(season);
        }
      }
    }
  }

  lemma SmallNumerals()
    ensures IntToString(1) == "1" && IntToString(2) == "2" && IntToString(69) == "69"
  {
    assert NatToString(69) == NatToString(6) + [DigitChar(9)];
  }

  lemma MidseasonParts()
    ensures SeasonPart(0) == "Season 1" && PhasePart(4) == " - Midseason"
    ensures RoundPart(4, None) == "" && DayPart(Some(0)) == " - Day 1"
  {
    SmallNumerals();
    DayPartShape(0);
  }

  /** Phase 4, season 0, day 0. */
  lemma MidseasonExample()
    ensures Descriptor(SimData(None, None, Some(0), Some(4), Some(0), None)) == Ok("Season 1 - Midseason - Day 1")
  {
    calc {
      Descriptor(SimData(None, None, Some(0), Some(4), Some(0), None));
      Ok(SeasonPart(0) + PhasePart(4) + RoundPart(4, None) + DayPart(Some(0)));
      { MidseasonParts(); }
      Ok("Season 1" + " - Midseason" + "" + " - Day 1");
      { assert "Season 1" + " - Midseason" + "" + " - Day 1" == "Season 1 - Midseason - Day 1"; }
      Ok("Season 1 - Midseason - Day 1");
    }
  }

  lemma PostseasonParts()
    ensures SeasonPart(0) == "Season 1" && PhasePart(9) == " - Latepostseason"
    ensures RoundPart(9, Some(1)) == " - Postseason Round 2" && DayPart(None) == ""
  {
    SmallNumerals();
    assert PhaseOf(9) == Some(Latepostseason);
  }

  /** Phase 9 with postseason round 1 shows round 2. */
  lemma PostseasonRoundExample()
    ensures Descriptor(SimData(None, None, Some(0), Some(9), None, Some(1)))
      == Ok("Season 1 - Latepostseason - Postseason Round 2")
  {
    calc {
      Descriptor(SimData(None, None, Some(0), Some(9), None, Some(1)));
      Ok(SeasonPart(0) + PhasePart(9) + RoundPart(9, Some(1)) + DayPart(None));
      { PostseasonParts(); }
      Ok("Season 1" + " - Latepostseason" + " - Postseason Round 2" + "");
      { assert "Season 1" + " - Latepostseason" == "Season 1 - Latepostseason"; }
      Ok("Season 1 - Latepostseason" + " - Postseason Round 2" + "");
      { assert "Season 1 - Latepostseason" + " - Postseason Round 2" + ""
          == "Season 1 - Latepostseason - Postseason Round 2"; }
      Ok("Season 1 - Latepostseason - Postseason Round 2");
    }
  }

  lemma NiceDayParts()
    ensures SeasonPart(0) == "Season 1" && PhasePart(2) == " - Earlseason"
    ensures RoundPart(2, None) == "" && DayPart(Some(68)) == " - Day 69" + NiceSuffix
  {
    SmallNumerals();
    DayPartShape(68);
  }

  /** Day 68 is shown as day 69 followed by the suffix. */
  lemma NiceDayExample()
    ensures Descriptor(SimData(None, None, Some(0), Some(2), Some(68), None))
      == Ok("Season 1 - Earlseason - Day 69" + NiceSuffix)
  {
    calc {
      Descriptor(SimData(None, None, Some(0), Some(2), Some(68), None));
      Ok(SeasonPart(0) + PhasePart(2) + RoundPart(2, None) + DayPart(Some(68)));
      { NiceDayParts(); }
      Ok("Season 1" + " - Earlseason" + "" + (" - Day 69" + NiceSuffix));
      { assert "Season 1" + " - Earlseason" + "" + (" - Day 69" + NiceSuffix)
          == "Season 1 - Earlseason - Day 69" + NiceSuffix; }
      Ok("Season 1 - Earlseason - Day 69" + NiceSuffix);
    }
  }

  /** The phase label step: one `if` per code, none of them exclusive of the others, each
      appending the separator and its phase's label; a code outside 0 to 10 appends nothing. */
  method AppendPhaseLabel(desc: string, code: int) returns (r: string)
    ensures r == desc + PhasePart(code)
  {
    r := desc;
    if code == 0 { r := r + (" - " + Label(GodsDay)); }
    if code == 1 { r := r + (" - " + Label(Preseason)); }
    if code == 2 { r := r + (" - " + Label(Earlseason)); }
    if code == 3 { r := r + (" - " + Label(Earlsiesta)); }
    if code == 4 { r := r + (" - " + Label(Midseason)); }
    if code == 5 { r := r + (" - " + Label(Latesiesta)); }
    if code == 6 { r := r + (" - " + Label(Lateseason)); }
    if code == 7 { r := r + (" - " + Label(Endseason)); }
    if code == 8 { r := r + (" - " + Label(Earlpostseason)); }
    if code == 9 { r := r + (" - " + Label(Latepostseason)); }
    if code == 10 { r := r + (" - " + Label(Election)); }
    assert r == desc + PhasePart(code);
  }

  /** The postseason step: the 1-based round, only during the two postseason phases. */
  method AppendRound(desc: string, code: int, round: Option<int>) returns (r: string)
    ensures r == desc + RoundPart(code, round)
  {
    r := desc;
    if (code == 8 || code == 9) && round.Some? {
      r := r + (" - Postseason Round " + IntToString(round.value + 1));
    } else {
      assert r == desc + "";
    }
  }

  /** The day step: the 1-based day, and the suffix on day 68. */
  method AppendDay(desc: string, day: Option<int>) returns (r: string)
    ensures r == desc + DayPart(day)
  {
    r := desc;
    if day.Some? {
      r := r + (" - Day " + IntToString(day.value + 1));
      if day.value == NiceDay {
        r := r + NiceSuffix;
        AppendAssoc(desc, " - Day " + IntToString(day.value + 1), NiceSuffix);
      }
      DayPartShape(day.value);
    } else {
      assert r == desc + "";
    }
  }

  /** The time descriptor as the script grows it: season, phase label, postseason round, day. */
  method TimeDescriptor(sim: SimData) returns (r: Result<string, Failure>)
    ensures r == Descriptor(sim)
  {
    var desc := "";
    if sim.season.Some? {
      desc := desc + ("Season " + IntToString(sim.season.value + 1));
      assert desc == SeasonPart(sim.season.value);
      if sim.phase.Some? {
        desc := AppendPhaseLabel(desc, sim.phase.value);
      }
      if sim.phase.None? {
        return Err(MissingPhase);
      }
      desc := AppendRound(desc, sim.phase.value, sim.playOffRound);
      desc := AppendDay(desc, sim.day);
    }
    return Ok(desc);
  }

  /** The era banner: the era title in bold, with the sub-era in italics after a colon when
      both are non-empty; no banner when the era title is absent or empty. */
  function EraBanner(sim: SimData): (r: Option<string>)
    ensures r.Some? <==> sim.eraTitle.Some? && |sim.eraTitle.value| > 0
    ensures r.Some? ==>
      && |r.value| >= |sim.eraTitle.value| + 2
      && r.value[0] == '*' && r.value[|r.value| - 1] == '*'
      && r.value[1..|sim.eraTitle.value| + 1] == sim.eraTitle.value
    ensures r.Some? ==>
      |r.value| == |sim.eraTitle.value| + 2
                   + (if sim.subEraTitle.Some? && |sim.subEraTitle.value| > 0 then |sim.subEraTitle.value| + 4 else 0)
    ensures r.Some? && sim.subEraTitle.Some? && |sim.subEraTitle.value| > 0 ==>
      r.value[|sim.eraTitle.value| + 1..|r.value| - 1] == ": _" + sim.subEraTitle.value + "_"
    ensures r.Some? && !(sim.subEraTitle.Some? && |sim.subEraTitle.value| > 0) ==>
      r.value == "*" + sim.eraTitle.value + "*"
  {
    if sim.eraTitle.Some? && |sim.eraTitle.value| > 0 then
      var era := sim.eraTitle.value;
      var sub := if sim.subEraTitle.Some? && |sim.subEraTitle.value| > 0 then ": _" + sim.subEraTitle.value + "_" else "";
      var b := "*" + era + sub + "*";
      assert b[1..|era| + 1] == era;
      assert b[|era| + 1..|b| - 1] == sub;
      Some(b)
    else None
  }

  /** The front-matter lines in order: the siesta banner if the flag is set, the era banner if
      there is one, and always the time descriptor, even an empty one. */
  function FrontMatter(extendedSiesta: bool, sim: SimData, desc: string): (r: seq<string>)
    ensures |r| == (if extendedSiesta then 1 else 0) + (if EraBanner(sim).Some? then 1 else 0) + 1
    ensures r[|r| - 1] == desc
    ensures extendedSiesta ==> r[0] == GrandSiesta
    ensures EraBanner(sim).Some? ==> r[|r| - 2] == EraBanner(sim).value
  {
    (if extendedSiesta then [GrandSiesta] else [])
      + (match EraBanner(sim) case Some(b) => [b] case None => [])
      + [desc]
  }

  /** The front matter as the script appends it; it fails exactly when the descriptor does. */
  method RenderFrontMatter(extendedSiesta: bool, sim: SimData) returns (r: Result<seq<string>, Failure>)
    ensures r.Ok? <==> Descriptor(sim).Ok?
    ensures r.Err? ==> r.error == MissingPhase
    ensures r.Ok? ==> r.value == FrontMatter(extendedSiesta, sim, Descriptor(sim).value)
  {
    var front: seq<string> := [];
    if extendedSiesta {
      front := front + [GrandSiesta];
    }
    var banner := EraBanner(sim);
    if banner.Some? {
      front := front + [banner.value];
    }
    assert front == (if extendedSiesta then [GrandSiesta] else []) + (match banner case Some(b) => [b] case None => []);
    var desc := TimeDescriptor(sim);
    if desc.Err? {
      return Err(desc.error);
    }
    front := front + [desc.value];
    return Ok(front);
  }

  function Bullet(item: string): string
  {
    "\U{26BE} " + item
  }

  function BulletLines(items: seq<string>): (r: seq<string>)
    ensures |r| == |items|
    ensures forall i :: 0 <= i < |items| ==> r[i] == Bullet(items[i])
  {
    seq(|items|, i requires 0 <= i < |items| => Bullet(items[i]))
  }

  function TickerHeader(updateTime: string): string
  {
    "Ticker messages as of " + updateTime + ":```"
  }

  /** The lines above the ticker lines: a bullet per front-matter item, a blank line when
      there are any items, then the ticker header, which opens the code fence. */
  function HeadLines(front: seq<string>, updateTime: string): (r: seq<string>)
    ensures |r| == |front| + (if |front| > 0 then 1 else 0) + 1
    ensures r[..|front|] == BulletLines(front)
    ensures |front| > 0 ==> r[|front|] == ""
    ensures r[|r| - 1] == TickerHeader(updateTime)
  {
    BulletLines(front) + (if |front| > 0 then [""] else []) + [TickerHeader(updateTime)]
  }

  /** The ticker lines joined by newlines, then the closing fence on its own line. */
  function TickerBody(ticker: seq<string>): string
  {
    Join(ticker) + "\n```"
  }

  /** The day message: the head lines, each ended by a newline, then the ticker body. */
  function Message(front: seq<string>, updateTime: string, ticker: seq<string>): string
  {
    Unlines(HeadLines(front, updateTime)) + TickerBody(ticker)
  }

  lemma BulletSingleLine(item: string)
    requires SingleLine(item)
    ensures SingleLine(Bullet(item))
  {
    var b := Bullet(item);
    assert forall k :: 2 <= k < |b| ==> b[k] == item[k - 2];
  }

  lemma HeadLinesSingleLine(front: seq<string>, updateTime: string)
    requires AllSingleLine(front) && SingleLine(updateTime)
    ensures AllSingleLine(HeadLines(front, updateTime))
  {
    var head := HeadLines(front, updateTime);
    forall i | 0 <= i < |head| ensures SingleLine(head[i]) {
      if i < |front| {
        BulletSingleLine(front[i]);
      } else if i == |head| - 1 {
        var h := TickerHeader(updateTime);
        assert h == "Ticker messages as of " + updateTime + ":```";
        assert forall k :: 22 <= k < 22 + |updateTime| ==> h[k] == updateTime[k - 22];
      }
    }
  }

  /** The ticker body reads back as the ticker lines (a single empty line when there are
      none) and the closing fence. */
  lemma TickerBodyReadsBack(ticker: seq<string>)
    requires AllSingleLine(ticker)
    ensures Lines(TickerBody(ticker)) == (if ticker == [] then [""] else ticker) + ["```"]
  {
    LinesOfSingleLine("```");
    if ticker == [] {
      assert TickerBody(ticker) == "" + "\n" + "```";
      LinesAfterLine("", "```");
    } else {
      JoinThenNewline(ticker);
      assert TickerBody(ticker) == Unlines(ticker) + "```";
      LinesOfUnlines(ticker, "```");
    }
  }

  /** Read line by line, the message gives back each front-matter item behind its bullet, the
      blank separator, the ticker header, every ticker line in order and the closing fence. */
  lemma MessageReadsBack(front: seq<string>, updateTime: string, ticker: seq<string>)
    requires AllSingleLine(front) && SingleLine(updateTime) && AllSingleLine(ticker)
    ensures Lines(Message(front, updateTime, ticker))
      == BulletLines(front) + (if |front| > 0 then [""] else []) + [TickerHeader(updateTime)]
         + (if ticker == [] then [""] else ticker) + ["```"]
  {
    HeadLinesSingleLine(front, updateTime);
    LinesOfUnlines(HeadLines(front, updateTime), TickerBody(ticker));
    TickerBodyReadsBack(ticker);
  }

  lemma HeaderLine(updateTime: string)
    ensures Unlines([TickerHeader(updateTime)]) == "Ticker messages as of " + updateTime + ":```\n"
  {
    assert Unlines([TickerHeader(updateTime)]) == TickerHeader(updateTime) + "\n" + "";
  }

  lemma BulletLinesSnoc(front: seq<string>, i: nat)
    requires i < |front|
    ensures Unlines(BulletLines(front[..i + 1])) == Unlines(BulletLines(front[..i])) + ("\U{26BE} " + front[i] + "\n")
  {
    assert BulletLines(front[..i + 1]) == BulletLines(front[..i]) + [Bullet(front[i])];
    UnlinesAppend(BulletLines(front[..i]), [Bullet(front[i])]);
    UnlinesCons(Bullet(front[i]), []);
  }

  /** The message is the bullet lines, the blank separator when there are any, and the ticker
      block. */
  lemma MessageAfterBullets(front: seq<string>, updateTime: string, ticker: seq<string>)
    ensures Message(front, updateTime, ticker)
      == (if |front| > 0 then Unlines(BulletLines(front)) + "\n" else Unlines(BulletLines(front)))
         + ("Ticker messages as of " + updateTime + ":```\n" + Join(ticker) + "\n```")
  {
    var bullets := BulletLines(front);
    var blank: seq<string> := if |front| > 0 then [""] else [];
    var head := "Ticker messages as of " + updateTime + ":```\n";
    calc {
      Message(front, updateTime, ticker);
      Unlines((bullets + blank) + [TickerHeader(updateTime)]) + TickerBody(ticker);
      { UnlinesAppend(bullets + blank, [TickerHeader(updateTime)]); HeaderLine(updateTime); }
      Unlines(bullets + blank) + head + TickerBody(ticker);
      { BulletsThenBlank(front); }
      (if |front| > 0 then Unlines(bullets) + "\n" else Unlines(bullets)) + head + TickerBody(ticker);
      { AppendAssoc(if |front| > 0 then Unlines(bullets) + "\n" else Unlines(bullets), head, TickerBody(ticker));
        AppendAssoc(head, Join(ticker), "\n```"); }
      (if |front| > 0 then Unlines(bullets) + "\n" else Unlines(bullets)) + (head + Join(ticker) + "\n```");
    }
  }

  lemma BulletsThenBlank(front: seq<string>)
    ensures Unlines(BulletLines(front) + (if |front| > 0 then [""] else []))
      == (if |front| > 0 then Unlines(BulletLines(front)) + "\n" else Unlines(BulletLines(front)))
  {
    var bullets := BulletLines(front);
    if |front| > 0 {
      UnlinesAppend(bullets, [""]);
      UnlinesCons("", []);
    } else {
      assert bullets + [] == bullets;
    }
  }

  /** The message as the script accumulates it, one bullet line at a time. */
  method ComposeMessage(front: seq<string>, updateTime: string, ticker: seq<string>) returns (m: string)
    ensures m == Message(front, updateTime, ticker)
  {
    m := "";
    for i := 0 to |front|
      invariant m == Unlines(BulletLines(front[..i]))
    {
      BulletLinesSnoc(front, i);
      m := m + ("\U{26BE} " + front[i] + "\n");
    }
    assert front[..|front|] == front;
    if |front| > 0 {
      m := m + "\n";
    }
    m := m + ("Ticker messages as of " + updateTime + ":```\n" + Join(ticker) + "\n```");
    MessageAfterBullets(front, updateTime, ticker);
  }
}

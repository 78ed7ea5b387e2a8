/** One run of the script: render the status, diff the ticker against the last run, find the
    channel, then keep one pinned message per (human) day — edited during the day, replaced on
    rollover — with a thread that logs the changes, and finally remember the ticker.

    The Slack calls are recorded as an action log; the persisted configuration is a record;
    the world the run reads (simulation record, ticker, clock, channel list, the answers the
    Slack calls give) is a parameter. */
module DayLifecycle {
  import opened Wrappers
  import opened TickerDiff
  import opened StatusRender
  import opened Channels
  import opened UpdateNotifier
  import opened Text

  /** A state-changing call into Slack, in the order the run makes them; the read-only
      conversation listing is not logged, its result is an input. `Unpin` records whether the
      call raised; the run catches the error and goes on. */
  datatype Action =
    | JoinChannel(channel: string)
    | UpdateMessage(channel: string, ts: string, text: string)
    | Unpin(channel: string, ts: string, succeeded: bool)
    | PostMessage(channel: string, text: string, thread: Option<string>)
    | Pin(channel: string, ts: string)

  /** The keys of `config.json` the run reads and writes. */
  datatype Config = Config(
    channel: string,
    ownerId: Option<string>,
    paused: bool,
    extendedSiesta: bool,
    lastSeen: LastSeen,
    messageTs: Option<string>)

  /** Everything the run learns from outside: the simulation record and ticker it fetches, the
      formatted current time, the conversation list, whether the stored message was posted on
      today's date, whether unpinning succeeds, and the id Slack gives a new post. */
  datatype World = World(
    sim: SimData,
    ticker: seq<string>,
    updateTime: string,
    convs: seq<Conversation>,
    sameDate: bool,
    unpinOk: bool,
    newTs: string)

  /** How the run ends: an exit status, or an uncaught lookup error. */
  datatype Outcome = Exited(status: int) | Crashed(reason: Failure)

  /** What a run does, end to end: its outcome, the two diffs, the Slack calls in order, and
      the configuration it writes back (None when the file is left as it was). */
  datatype RunResult = RunResult(
    outcome: Outcome,
    added: seq<string>,
    removed: seq<string>,
    actions: seq<Action>,
    saved: Option<Config>)

  const Explainer := "This post will be edited with the latest ticker messages throughout the (human) day. This thread will contain a log of the changes. Follow it if you want to keep up with the latest incinerations, peanut swallowings, etc."

  function OwnerNote(owner: string): string {
    "If this bot goes completely heywire, please ping <@" + owner + ">!"
  }

  /** A new day message is started unless the siesta banner is on, and only when no message is
      stored or the stored one is from another date. */
  predicate StartsNewDay(extendedSiesta: bool, stored: bool, sameDate: bool) {
    !extendedSiesta && (!stored || !sameDate)
  }

  /** A new day: the message itself, the explanatory reply, the owner reply when an owner is
      configured, and the pin. */
  function NewDayActions(chan: string, text: string, owner: Option<string>, ts: string): (r: seq<Action>)
    ensures |r| == (if owner.Some? then 4 else 3)
    ensures r[0] == PostMessage(chan, text, None)
    ensures r[1] == PostMessage(chan, Explainer, Some(ts))
    ensures r[|r| - 1] == Pin(chan, ts)
    ensures owner.Some? ==> r[2] == PostMessage(chan, OwnerNote(owner.value), Some(ts))
    ensures forall i :: 0 < i < |r| - 1 ==> r[i].PostMessage? && r[i].thread == Some(ts)
  {
    [PostMessage(chan, text, None), PostMessage(chan, Explainer, Some(ts))]
      + (match owner case Some(o) => [PostMessage(chan, OwnerNote(o), Some(ts))] case None => [])
      + [Pin(chan, ts)]
  }

  /** The stored message id once the day step is over. */
  function TsAfterDay(stored: Option<string>, newDay: bool, newTs: string): (r: Option<string>)
    ensures newDay ==> r == Some(newTs)
    ensures !newDay ==> r == stored
  {
    if newDay then Some(newTs) else stored
  }

  /** The day step: with a stored message, edit it or (on a new day) unpin it and start again;
      without one, start a new day or do nothing at all. */
  function DayActions(chan: string, cfg: Config, sameDate: bool, unpinOk: bool, newTs: string, text: string): (r: seq<Action>)
    ensures StartsNewDay(cfg.extendedSiesta, cfg.messageTs.Some?, sameDate) ==>
      && |r| > 0 && r[|r| - 1] == Pin(chan, newTs)
      && PostMessage(chan, text, None) in r
    ensures !StartsNewDay(cfg.extendedSiesta, cfg.messageTs.Some?, sameDate) ==>
      forall a :: a in r ==> a.UpdateMessage?
    ensures StartsNewDay(cfg.extendedSiesta, cfg.messageTs.Some?, sameDate) ==>
      forall a :: a in r ==> !a.UpdateMessage?
    ensures cfg.messageTs.Some? && !StartsNewDay(cfg.extendedSiesta, true, sameDate) ==>
      r == [UpdateMessage(chan, cfg.messageTs.value, text)]
    ensures cfg.messageTs.Some? && StartsNewDay(cfg.extendedSiesta, true, sameDate) ==>
      r[0] == Unpin(chan, cfg.messageTs.value, unpinOk)
    ensures cfg.messageTs.None? && cfg.extendedSiesta ==> r == []
    ensures StartsNewDay(cfg.extendedSiesta, cfg.messageTs.Some?, sameDate) ==>
      r == (if cfg.messageTs.Some? then [Unpin(chan, cfg.messageTs.value, unpinOk)] else [])
           + NewDayActions(chan, text, cfg.ownerId, newTs)
  {
    var newDay := StartsNewDay(cfg.extendedSiesta, cfg.messageTs.Some?, sameDate);
    var started := NewDayActions(chan, text, cfg.ownerId, newTs);
    match cfg.messageTs
    case Some(ts) =>
      if !newDay then [UpdateMessage(chan, ts, text)] else [Unpin(chan, ts, unpinOk)] + started
    case None =>
      if newDay then started else []
  }

  /** The summary reply, posted into the thread of the message stored after the day step. */
  function SummaryActions(chan: string, printDiffs: bool, thread: Option<string>, updateTime: string,
                          added: seq<string>, removed: seq<string>): (r: seq<Action>)
    ensures |r| <= 1
    ensures |r| == 1 <==> ShouldPostSummary(printDiffs, added, removed)
    ensures |r| == 1 ==> r[0] == PostMessage(chan, Summary(updateTime, added, removed), thread)
  {
    if ShouldPostSummary(printDiffs, added, removed)
    then [PostMessage(chan, Summary(updateTime, added, removed), thread)]
    else []
  }

  /** The whole run as one function of the stored configuration and the world. */
  function RunSpec(cfg: Config, w: World): RunResult
  {
    if cfg.paused then RunResult(Exited(0), [], [], [], None)
    else match Descriptor(w.sim)
      case Err(e) => RunResult(Crashed(e), [], [], [], None)
      case Ok(desc) =>
        match Previous(cfg.lastSeen)
        case None => RunResult(Crashed(MissingLastSeen), [], [], [], None)
        case Some(prev) =>
          var added := Diff(w.ticker, prev);
          var removed := Diff(prev, w.ticker);
          match FirstMatch(w.convs, cfg.channel)
          case None => RunResult(Exited(1), added, removed, [], None)
          case Some(k) =>
            DayStep(cfg, w, SelectionOf(w.convs[k]),
                    Message(FrontMatter(cfg.extendedSiesta, w.sim, desc), w.updateTime, w.ticker),
                    added, removed)
  }

  /** The rest of a run once the channel is found and the message text is rendered: join the
      channel if needed, the day step, the summary, and the configuration written back with
      the id stored after the day step and the current ticker as `last_seen`. */
  function DayStep(cfg: Config, w: World, sel: Selection, text: string, added: seq<string>, removed: seq<string>): RunResult
  {
    var ts := TsAfterDay(cfg.messageTs, StartsNewDay(cfg.extendedSiesta, cfg.messageTs.Some?, w.sameDate), w.newTs);
    RunResult(Exited(0), added, removed,
              JoinActions(sel)
                + DayActions(sel.chanId, cfg, w.sameDate, w.unpinOk, w.newTs, text)
                + SummaryActions(sel.chanId, cfg.messageTs.Some?, ts, w.updateTime, added, removed),
              Some(cfg.(messageTs := ts, lastSeen := Seen(w.ticker))))
  }

  /** Joining the channel first when the bot is not a member of it. */
  function JoinActions(sel: Selection): (r: seq<Action>)
    ensures forall a :: a in r ==> a == JoinChannel(sel.chanId)
    ensures r == [] <==> sel.isMember
  {
    if sel.isMember then [] else [JoinChannel(sel.chanId)]
  }

  /** The run gets past the checks (not paused, descriptor renders, `last_seen` present,
      channel found) and reaches the day step. */
  predicate ReachesDayStep(cfg: Config, w: World) {
    && !cfg.paused
    && Descriptor(w.sim).Ok?
    && Previous(cfg.lastSeen).Some?
    && FirstMatch(w.convs, cfg.channel).Some?
  }

  /** The channel the run works in, once it has been found. */
  function Sel(cfg: Config, w: World): Selection
    requires FirstMatch(w.convs, cfg.channel).Some?
  {
    SelectionOf(w.convs[FirstMatch(w.convs, cfg.channel).value])
  }

  /** The day message's text, once the descriptor has rendered. */
  function DayText(cfg: Config, w: World): string
    requires Descriptor(w.sim).Ok?
  {
    Message(FrontMatter(cfg.extendedSiesta, w.sim, Descriptor(w.sim).value), w.updateTime, w.ticker)
  }

  /** A run that gets past the checks finishes with status 0 and does the day step with the
      first qualifying channel, the rendered message and the two diffs against `last_seen`. */
  lemma RunAtDayStep(cfg: Config, w: World)
    requires ReachesDayStep(cfg, w)
    ensures var prev := Previous(cfg.lastSeen).value;
      RunSpec(cfg, w) == DayStep(cfg, w, Sel(cfg, w), DayText(cfg, w), Diff(w.ticker, prev), Diff(prev, w.ticker))
  {
  }

  /** The configuration file is written exactly when the run reaches the day step; a run that
      stops earlier (pause, lookup error, no channel) makes no logged (state-changing) Slack
      call. */
  lemma WritesOnlyAfterDayStep(cfg: Config, w: World)
    ensures RunSpec(cfg, w).saved.Some? <==> ReachesDayStep(cfg, w)
    ensures !ReachesDayStep(cfg, w) ==> RunSpec(cfg, w).actions == []
    ensures ReachesDayStep(cfg, w) ==> RunSpec(cfg, w).outcome == Exited(0)
    ensures cfg.paused ==> RunSpec(cfg, w).outcome == Exited(0)
  {
  }

  /** No qualifying channel: exit status 1, and nothing is posted or written. */
  lemma ChannelMissingExitsOne(cfg: Config, w: World)
    ensures RunSpec(cfg, w).outcome == Exited(1) <==>
      && !cfg.paused && Descriptor(w.sim).Ok? && Previous(cfg.lastSeen).Some?
      && forall i :: 0 <= i < |w.convs| ==> !Matches(w.convs[i], cfg.channel)
    ensures RunSpec(cfg, w).outcome == Exited(1) ==> RunSpec(cfg, w).actions == [] && RunSpec(cfg, w).saved == None
  {
  }

  /** A season without a phase or a configuration without `last_seen` stops the run with
      the corresponding error, before any Slack call. */
  lemma CrashesAreLookupErrors(cfg: Config, w: World)
    ensures RunSpec(cfg, w).outcome == Crashed(MissingPhase) <==>
      !cfg.paused && w.sim.season.Some? && w.sim.phase.None?
    ensures RunSpec(cfg, w).outcome == Crashed(MissingLastSeen) <==>
      !cfg.paused && Descriptor(w.sim).Ok? && cfg.lastSeen.Missing?
  {
  }

  /** The written `last_seen` is the current ticker, so a second run that sees the same
      ticker reports nothing added and nothing removed, and writes the same `last_seen`. */
  lemma RerunWithSameTicker(cfg: Config, w: World, w2: World)
    requires ReachesDayStep(cfg, w)
    requires w2.ticker == w.ticker
    ensures RunSpec(cfg, w).saved.Some?
    ensures RunSpec(cfg, w).saved.value.lastSeen == Seen(w.ticker)
    ensures RunSpec(RunSpec(cfg, w).saved.value, w2).added == []
    ensures RunSpec(RunSpec(cfg, w).saved.value, w2).removed == []
    ensures RunSpec(RunSpec(cfg, w).saved.value, w2).saved.Some? ==>
      RunSpec(RunSpec(cfg, w).saved.value, w2).saved.value.lastSeen == Seen(w.ticker)
  {
    WritesOnlyAfterDayStep(cfg, w);
    RunAtDayStep(cfg, w);
    var saved := RunSpec(cfg, w).saved.value;
    assert saved.lastSeen == Seen(w.ticker);
    assert Previous(saved.lastSeen) == Some(w2.ticker);
    DiffSelf(w.ticker);
    if ReachesDayStep(saved, w2) {
      RunAtDayStep(saved, w2);
    }
  }

  /** Same date (or the siesta banner on) with a stored message: that message is edited in
      place with the new text; nothing is posted outside its thread and nothing is pinned,
      and the stored id is kept. */
  lemma StoredMessageEditedInPlace(cfg: Config, w: World, sel: Selection, text: string, added: seq<string>, removed: seq<string>)
    requires cfg.messageTs.Some? && !StartsNewDay(cfg.extendedSiesta, true, w.sameDate)
    ensures var r := DayStep(cfg, w, sel, text, added, removed);
      && r.saved.value.messageTs == cfg.messageTs
      && UpdateMessage(sel.chanId, cfg.messageTs.value, text) in r.actions
      && forall a :: a in r.actions ==> !a.Pin? && !a.Unpin? && (a.PostMessage? ==> a.thread == cfg.messageTs)
  {
    var day := DayActions(sel.chanId, cfg, w.sameDate, w.unpinOk, w.newTs, text);
    assert day == [UpdateMessage(sel.chanId, cfg.messageTs.value, text)];
  }

  /** A rollover: the old message is unpinned (whether or not that succeeds) and its id
      replaced by the new message's, which is posted and pinned; the summary of the changes,
      if any, then goes into the NEW message's thread. */
  lemma RolloverReplacesMessage(cfg: Config, w: World, sel: Selection, text: string, added: seq<string>, removed: seq<string>)
    requires cfg.messageTs.Some? && StartsNewDay(cfg.extendedSiesta, true, w.sameDate)
    ensures var r := DayStep(cfg, w, sel, text, added, removed);
      && r.saved.value.messageTs == Some(w.newTs)
      && Unpin(sel.chanId, cfg.messageTs.value, w.unpinOk) in r.actions
      && PostMessage(sel.chanId, text, None) in r.actions
      && Pin(sel.chanId, w.newTs) in r.actions
      && PostMessage(sel.chanId, Explainer, Some(w.newTs)) in r.actions
      && (cfg.ownerId.Some? ==> PostMessage(sel.chanId, OwnerNote(cfg.ownerId.value), Some(w.newTs)) in r.actions)
      && (ShouldPostSummary(true, added, removed) ==>
            r.actions[|r.actions| - 1] == PostMessage(sel.chanId, Summary(w.updateTime, added, removed), Some(w.newTs)))
  {
    var join := JoinActions(sel);
    var day := DayActions(sel.chanId, cfg, w.sameDate, w.unpinOk, w.newTs, text);
    var summary := SummaryActions(sel.chanId, true, Some(w.newTs), w.updateTime, added, removed);
    var actions := join + day + summary;
    assert day[0] in actions && day[|day| - 1] in actions;
    assert PostMessage(sel.chanId, text, None) in actions;
    assert day[2] in actions;
    if cfg.ownerId.Some? {
      assert day[3] in actions;
    }
  }

  /** No stored message: nothing is edited or unpinned and no summary is posted. Outside an
      extended siesta the run starts a new day and ends with the pin; during one it posts
      nothing at all and stores no id. */
  lemma NoStoredMessage(cfg: Config, w: World, sel: Selection, text: string, added: seq<string>, removed: seq<string>)
    requires cfg.messageTs.None?
    ensures var r := DayStep(cfg, w, sel, text, added, removed);
      && (forall a :: a in r.actions ==> !a.UpdateMessage? && !a.Unpin?)
      && (!cfg.extendedSiesta ==>
            r.actions[|r.actions| - 1] == Pin(sel.chanId, w.newTs) && r.saved.value.messageTs == Some(w.newTs))
      && (cfg.extendedSiesta ==>
            (forall a :: a in r.actions ==> a.JoinChannel?) && r.saved.value.messageTs == None)
  {
    var day := DayActions(sel.chanId, cfg, w.sameDate, w.unpinOk, w.newTs, text);
    if !cfg.extendedSiesta {
      assert day == NewDayActions(sel.chanId, text, cfg.ownerId, w.newTs);
    }
  }

  /** Two action logs that agree everywhere except, possibly, in the recorded result of an
      unpin call. */
  predicate SameButUnpinResult(a: seq<Action>, b: seq<Action>) {
    && |a| == |b|
    && forall i :: 0 <= i < |a| ==> a[i] == b[i] || (a[i].Unpin? && b[i] == a[i].(succeeded := false))
  }

  lemma SameButUnpinResultAppend(a: seq<Action>, b: seq<Action>, c: seq<Action>, d: seq<Action>)
    requires SameButUnpinResult(a, b) && SameButUnpinResult(c, d)
    ensures SameButUnpinResult(a + c, b + d)
  {
    forall i | 0 <= i < |a + c|
      ensures (a + c)[i] == (b + d)[i] || ((a + c)[i].Unpin? && (b + d)[i] == (a + c)[i].(succeeded := false))
    {
      if i >= |a| {
        assert (a + c)[i] == c[i - |a|] && (b + d)[i] == d[i - |a|];
      }
    }
  }

  lemma DayActionsUnpinOnly(chan: string, cfg: Config, sameDate: bool, newTs: string, text: string)
    ensures SameButUnpinResult(DayActions(chan, cfg, sameDate, true, newTs, text),
                               DayActions(chan, cfg, sameDate, false, newTs, text))
  {
    var dayOk := DayActions(chan, cfg, sameDate, true, newTs, text);
    var dayFailed := DayActions(chan, cfg, sameDate, false, newTs, text);
    if cfg.messageTs.Some? && StartsNewDay(cfg.extendedSiesta, true, sameDate) {
      forall i | 0 < i < |dayOk| ensures dayOk[i] == dayFailed[i] {
        assert dayOk[1..] == dayFailed[1..];
        assert dayOk[i] == dayOk[1..][i - 1];
      }
    }
  }

  /** Once the channel is found and the text rendered, whether unpinning raises changes
      nothing but the recorded result of that call. */
  lemma DayStepUnpinOnly(cfg: Config, w: World, sel: Selection, text: string, added: seq<string>, removed: seq<string>)
    ensures var ok := DayStep(cfg, w.(unpinOk := true), sel, text, added, removed);
      var failed := DayStep(cfg, w.(unpinOk := false), sel, text, added, removed);
      && ok.outcome == failed.outcome && ok.saved == failed.saved
      && ok.added == failed.added && ok.removed == failed.removed
      && SameButUnpinResult(ok.actions, failed.actions)
  {
    var ts := TsAfterDay(cfg.messageTs, StartsNewDay(cfg.extendedSiesta, cfg.messageTs.Some?, w.sameDate), w.newTs);
    var join := JoinActions(sel);
    var dayOk := DayActions(sel.chanId, cfg, w.sameDate, true, w.newTs, text);
    var dayFailed := DayActions(sel.chanId, cfg, w.sameDate, false, w.newTs, text);
    var summary := SummaryActions(sel.chanId, cfg.messageTs.Some?, ts, w.updateTime, added, removed);
    DayActionsUnpinOnly(sel.chanId, cfg, w.sameDate, w.newTs, text);
    assert SameButUnpinResult(join, join);
    assert SameButUnpinResult(summary, summary);
    SameButUnpinResultAppend(join, join, dayOk, dayFailed);
    SameButUnpinResultAppend(join + dayOk, join + dayFailed, summary, summary);
  }

  /** Whether unpinning raises changes nothing but the recorded result of that call. */
  lemma UnpinFailureIsHarmless(cfg: Config, w: World)
    ensures var ok := RunSpec(cfg, w.(unpinOk := true));
      var failed := RunSpec(cfg, w.(unpinOk := false));
      && ok.outcome == failed.outcome && ok.saved == failed.saved
      && ok.added == failed.added && ok.removed == failed.removed
      && SameButUnpinResult(ok.actions, failed.actions)
  {
    if ReachesDayStep(cfg, w) {
      RunAtDayStep(cfg, w.(unpinOk := true));
      RunAtDayStep(cfg, w.(unpinOk := false));
      var prev := Previous(cfg.lastSeen).value;
      DayStepUnpinOnly(cfg, w, Sel(cfg, w), DayText(cfg, w), Diff(w.ticker, prev), Diff(prev, w.ticker));
    }
  }

  /** The running script: the configuration dictionary it mutates, the Slack calls made so
      far, and what has been written back to the configuration file. */
  class Bot {
    var config: Config
    var log: seq<Action>
    var written: Option<Config>

    constructor (cfg: Config)
      ensures config == cfg && log == [] && written == None
    {
      config := cfg;
      log := [];
      written := None;
    }

    /** Start a new day: post the message, record its id, reply with the explanation and (when
        an owner is configured) the owner note, and pin it. */
    method PostNewDayMessage(chan: string, text: string, newTs: string)
      modifies this
      ensures log == old(log) + NewDayActions(chan, text, old(config).ownerId, newTs)
      ensures config == old(config).(messageTs := Some(newTs))
      ensures written == old(written)
    {
      ghost var start := log;
      log := log + [PostMessage(chan, text, None)];
      config := config.(messageTs := Some(newTs));
      log := log + [PostMessage(chan, Explainer, config.messageTs)];
      ghost var notes := [PostMessage(chan, text, None), PostMessage(chan, Explainer, Some(newTs))];
      assert log == start + notes;
      if config.ownerId.Some? {
        log := log + [PostMessage(chan, OwnerNote(config.ownerId.value), config.messageTs)];
        notes := notes + [PostMessage(chan, OwnerNote(config.ownerId.value), Some(newTs))];
      }
      assert log == start + notes;
      log := log + [Pin(chan, config.messageTs.value)];
      assert notes + [Pin(chan, newTs)] == NewDayActions(chan, text, config.ownerId, newTs);
    }

    /** Edit today's message, or roll over to a new one: unpin the old message (a failure is
        caught), drop its id, and start a new day. Reports whether a message id was stored at
        the start, which decides the summary. */
    method StartOrEditDayMessage(chan: string, text: string, sameDate: bool, unpinOk: bool, newTs: string)
      returns (printDiffs: bool)
      modifies this
      ensures printDiffs == old(config).messageTs.Some?
      ensures log == old(log) + DayActions(chan, old(config), sameDate, unpinOk, newTs, text)
      ensures config == old(config).(messageTs := TsAfterDay(old(config).messageTs,
        StartsNewDay(old(config).extendedSiesta, old(config).messageTs.Some?, sameDate), newTs))
      ensures written == old(written)
    {
      var startNewDay := !config.extendedSiesta;
      printDiffs := false;
      if config.messageTs.Some? {
        printDiffs := true;
        startNewDay := startNewDay && !sameDate;
        if !startNewDay {
          log := log + [UpdateMessage(chan, config.messageTs.value, text)];
        } else {
          log := log + [Unpin(chan, config.messageTs.value, unpinOk)];
          config := config.(messageTs := None);
        }
      }
      ghost var mid := log;
      if startNewDay {
        PostNewDayMessage(chan, text, newTs);
        AppendAssoc(old(log), mid[|old(log)|..], NewDayActions(chan, text, config.ownerId, newTs));
      }
    }

    /** Post the summary of the changes into the stored message's thread, when a message was
        stored at the start of the run and something changed. */
    method PostUpdateSummary(chan: string, printDiffs: bool, updateTime: string, added: seq<string>, removed: seq<string>)
      modifies this
      ensures log == old(log) + SummaryActions(chan, printDiffs, config.messageTs, updateTime, added, removed)
      ensures config == old(config) && written == old(written)
    {
      if printDiffs && (|added| > 0 || |removed| > 0) {
        var text := BuildSummary(updateTime, added, removed);
        log := log + [PostMessage(chan, text, config.messageTs)];
      }
    }

    /** Overwrite `last_seen` with the current ticker and write the configuration back. */
    method SaveLastSeen(ticker: seq<string>)
      modifies this
      ensures config == old(config).(lastSeen := Seen(ticker))
      ensures written == Some(config) && log == old(log)
    {
      config := config.(lastSeen := Seen(ticker));
      written := Some(config);
    }

    /** Everything after the channel is found: join it if needed, the day step, the summary,
        and the write-back of the configuration. */
    method FinishRun(sel: Selection, text: string, w: World, added: seq<string>, removed: seq<string>)
      modifies this
      ensures var r := DayStep(old(config), w, sel, text, added, removed);
        log == old(log) + r.actions && written == r.saved && config == r.saved.value
    {
      var chan := sel.chanId;
      if !sel.isMember {
        log := log + [JoinChannel(chan)];
      }
      ghost var joined := log;
      var printDiffs := StartOrEditDayMessage(chan, text, w.sameDate, w.unpinOk, w.newTs);
      ghost var dayDone := log;
      PostUpdateSummary(chan, printDiffs, w.updateTime, added, removed);
      SaveLastSeen(w.ticker);
      ghost var day := DayActions(chan, old(config), w.sameDate, w.unpinOk, w.newTs, text);
      ghost var summary := log[|dayDone|..];
      assert joined == old(log) + JoinActions(sel);
      assert log == old(log) + JoinActions(sel) + day + summary;
      AppendAssoc(old(log), JoinActions(sel) + day, summary);
      AppendAssoc(old(log), JoinActions(sel), day);
    }

    /** One whole run, step by step as the script makes it; it does what `RunSpec` says. */
    method Run(w: World) returns (outcome: Outcome, added: seq<string>, removed: seq<string>)
      modifies this
      ensures var spec := RunSpec(old(config), w);
        && outcome == spec.outcome && added == spec.added && removed == spec.removed
        && log == old(log) + spec.actions
        && written == (if spec.saved.Some? then spec.saved else old(written))
        && config == (if spec.saved.Some? then spec.saved.value else old(config))
    {
      added, removed := [], [];
      if config.paused {
        return Exited(0), added, removed;
      }
      var front := RenderFrontMatter(config.extendedSiesta, w.sim);
      if front.Err? {
        return Crashed(front.error), added, removed;
      }
      var previous := Previous(config.lastSeen);
      if previous.None? {
        return Crashed(MissingLastSeen), added, removed;
      }
      added := Diff(w.ticker, previous.value);
      removed := Diff(previous.value, w.ticker);
      var text := ComposeMessage(front.value, w.updateTime, w.ticker);
      var sel := FindChannel(w.convs, config.channel);
      if sel.None? {
        return Exited(1), added, removed;
      }
      ghost var cfg := config;
      assert ReachesDayStep(cfg, w);
      assert sel.value == Sel(cfg, w) && text == DayText(cfg, w);
      RunAtDayStep(cfg, w);
      FinishRun(sel.value, text, w, added, removed);
      outcome := Exited(0);
    }
  }
}

# blaseball_slack in Dafny

`blaseball_slack.py` is a batch job that keeps a Slack channel informed about a Blaseball
season. Each run does the following:

- reads its configuration;
- fetches the simulation record and the global event ticker;
- renders a status message: an optional *Grand Siesta* banner, the era banner, a time
  descriptor such as "Season 12 - Midseason - Day 44", and the ticker in a code block;
- finds the configured channel, and joins it if the bot is not yet a member;
- keeps one pinned message per (human) day. During the day that message is edited in place.
  At rollover the old message is unpinned and a new one is posted, annotated in its thread
  and pinned;
- posts a summary of the ticker lines added and removed since the last run into the
  message's thread;
- writes the current ticker back as `last_seen`.

This project models that logic and proves what it promises. Each module follows the script's
own form:

- `TickerDiff` (`ticker_diff.dfy`) is pure. It holds `diff` and the reading of `last_seen`.
- `StatusRender` (`status_render.dfy`) holds the renderers. Each is a specification function
  (`Descriptor`, `FrontMatter`, `Message`) plus a method that builds the text the way the
  script does, with `+=` and `append`. Each method is proved equal to its function.
- `Decimal` (`decimal.dfy`) models how an f-string writes an `int`, together with the parser
  that reads it back.
- `Text` (`text.dfy`) holds the newline-terminated join, Python's `"\n".join`, and a reader,
  `Lines`, that cuts a text at its newlines. It is used to state what a rendered message
  reads back as.
- `Channels` (`channels.dfy`) holds the first-match search loop with `break`.
- `UpdateNotifier` (`update_notifier.dfy`) holds `plural` and the update summary, built in
  loops as the script does.
- `DayLifecycle` (`day_lifecycle.dfy`) models the run as a whole:
  - the Slack calls that act on the workspace (join, edit, post, pin, unpin) become an `Action` log;
  - `config.json` becomes a `Config` record;
  - whatever the run learns from outside becomes a `World` value: the fetched data, the
    formatted time, the conversation list, whether the stored message is from today,
    whether unpinning succeeds, and the id of a new post.

  `RunSpec` is the whole run as one function. The class `Bot` mutates the configuration and
  the log step by step as the script does, and `Bot.Run` is proved to do exactly what
  `RunSpec` says.

Points of the script's behaviour that are easy to miss, each modelled as the code does it:

- The update summary is posted whenever a `message_ts` was stored at the start of the run
  (lines 133-134), including on a rollover day. There it goes into the new message's thread
  (`RolloverReplacesMessage`). Only a run with no stored message posts no summary
  (`NoStoredMessage`).
- With the extended-siesta flag on and no stored message, nothing is posted or pinned
  (lines 130 and 146).
- `diff` keeps repeated lines of the filtered list (line 93). Only membership in the other
  list is decided as a set.
- A simulation record with a season but no phase stops the run with a lookup error, because
  line 77 reads the phase outside the guard of line 54 (`Crashed(MissingPhase)`). Every other
  absent field is left out of the descriptor.
- A configuration without `last_seen` stops the run at line 96 (`Crashed(MissingLastSeen)`).
  A null `all_msgs` reads as no lines.

## Model

| member | source | states |
|---|---|---|
| TickerDiff.Diff | blaseball_slack.py:91-93 | a line is in the result iff it is in `first` and not in `second`; each kept line occurs as often as in `first`, and a line in `second` not at all |
| TickerDiff.Previous | blaseball_slack.py:96-98 | `last_seen.all_msgs` reads as its lines, a null entry as no lines, and an absent entry as a failed lookup |
| TickerDiff.DiffAppend | blaseball_slack.py:91-93 | diff distributes over concatenation, so kept lines stay in their original order |
| TickerDiff.DiffSelf | blaseball_slack.py:91-93 | a ticker diffed against itself is empty |
| TickerDiff.AddedRemovedDisjoint | blaseball_slack.py:96-98 | no line is both added and removed |
| TickerDiff.DiffReconstructs | blaseball_slack.py:96-98 | the previous lines minus the removed ones, plus the added ones, equal the current lines as a set |
| TickerDiff.SecondRunSeesNoChange | blaseball_slack.py:175-177 | once `last_seen` holds a ticker, diffing that ticker against it gives nothing added and nothing removed |
| Decimal.NatToString | blaseball_slack.py:53 | the decimal spelling of a number is non-empty and all digits, and starts with '0' only when it is "0" |
| Decimal.IntToString | blaseball_slack.py:53 | `str(int)` ends in a digit and starts with '-' exactly for negative numbers; no zero follows the sign, and a non-negative number starts with '0' only when it is "0" |
| Decimal.ParseIntToString | blaseball_slack.py:53 | what `str(int)` writes parses back to the same number |
| Decimal.IntToStringInjective | blaseball_slack.py:53-80 | different season, round or day numbers are displayed differently |
| Text.Join | blaseball_slack.py:110 | definition: Python's `"\n".join`, with newlines between the lines and none after the last; its read-back is `Text.LinesOfJoin` |
| Text.LinesOfUnlines | blaseball_slack.py:105-106 | newline-terminated single-line items read back as those items, then whatever follows |
| Text.LinesOfJoin | blaseball_slack.py:110 | `"\n".join` of single-line items reads back as those items, and the join of none as one empty line |
| StatusRender.Label | blaseball_slack.py:55-76 | definition: the display label of each of the eleven phases, as the chain of `if`s writes it; distinctness is `PhaseMappingOneToOne` and `SeparatedLabelsDistinct` |
| StatusRender.Code | blaseball_slack.py:54-76 | every phase has a code between 0 and 10 |
| StatusRender.PhaseOf | blaseball_slack.py:54-76 | exactly the codes 0 to 10 have a phase, and that phase's code is the code |
| StatusRender.PhaseMappingOneToOne | blaseball_slack.py:54-76 | code to phase undoes phase to code, and distinct phases have distinct labels |
| StatusRender.SeasonPart | blaseball_slack.py:52-53 | "Season " followed by the canonical spelling of the season plus one, which parses back to that number |
| StatusRender.PhasePart | blaseball_slack.py:54-76 | the part is " - " and a phase's label exactly when the code is that phase's code; nothing for codes outside 0 to 10 |
| StatusRender.RoundPart | blaseball_slack.py:77-78 | present iff the phase is 8 or 9 and a round is present; then " - Postseason Round " followed by the canonical spelling of the round plus one, which parses back to that number |
| StatusRender.DayPart | blaseball_slack.py:79-82 | present iff a day is present; then " - Day " followed by the canonical spelling of the day plus one, which parses back to that number, and the suffix exactly when the day is 68 |
| StatusRender.Descriptor | blaseball_slack.py:51-83 | a lookup error iff a season is present without a phase; the empty text without a season; non-empty otherwise |
| StatusRender.NiceSuffixIffDay68 | blaseball_slack.py:81-82 | a rendered descriptor ends with the suffix iff the day is 68 |
| StatusRender.MidseasonExample | blaseball_slack.py:51-80 | season 0, phase 4, day 0 render as "Season 1 - Midseason - Day 1" |
| StatusRender.PostseasonRoundExample | blaseball_slack.py:77-78 | season 0, phase 9, round 1 render as "Season 1 - Latepostseason - Postseason Round 2" |
| StatusRender.NiceDayExample | blaseball_slack.py:79-82 | day 68 renders as "Day 69" followed by the suffix |
| StatusRender.AppendPhaseLabel | blaseball_slack.py:54-76 | the chain of eleven independent `if`s appends exactly the phase part |
| StatusRender.AppendRound | blaseball_slack.py:77-78 | the postseason step appends exactly the round part |
| StatusRender.AppendDay | blaseball_slack.py:79-82 | the day step appends exactly the day part, suffix included |
| StatusRender.TimeDescriptor | blaseball_slack.py:51-82 | the descriptor grown with `+=` is the specified descriptor, error included |
| StatusRender.EraBanner | blaseball_slack.py:45-49 | a banner iff the era title is non-empty; it is the era title between stars, with ": _" sub-era "_" before the closing star exactly when the sub-era is non-empty |
| StatusRender.FrontMatter | blaseball_slack.py:39-84 | the siesta banner first when flagged, the era banner next to last when present, and the descriptor always last |
| StatusRender.RenderFrontMatter | blaseball_slack.py:39-84 | the appended front matter is the specified one, and fails exactly when the descriptor does |
| StatusRender.BulletLines | blaseball_slack.py:105-106 | one bullet line per front-matter item, in order |
| StatusRender.HeadLines | blaseball_slack.py:104-110 | the bullet lines first, then a blank line only when there are items, and the ticker header last |
| StatusRender.BulletSingleLine | blaseball_slack.py:106 | a bullet of a single-line item is a single line |
| StatusRender.HeadLinesSingleLine | blaseball_slack.py:104-110 | the head lines are single lines when the items and the time are |
| StatusRender.TickerBodyReadsBack | blaseball_slack.py:110 | the ticker body reads back as the ticker lines, then the closing fence |
| StatusRender.MessageReadsBack | blaseball_slack.py:104-110 | the day message reads back as the bullets, the blank line, the header, every ticker line in order, and the closing fence |
| StatusRender.Message | blaseball_slack.py:104-110 | definition: the head lines each ended by a newline, then the ticker joined by newlines and the closing fence; its read-back is `MessageReadsBack` |
| StatusRender.ComposeMessage | blaseball_slack.py:104-110 | the message accumulated in the loop is the specified message |
| Channels.Matches | blaseball_slack.py:116 | definition: the conversation has the configured name and is a channel |
| Channels.FirstMatch | blaseball_slack.py:115-120 | no index iff no conversation qualifies; otherwise the index of the first one that qualifies |
| Channels.FirstMatchFrom | blaseball_slack.py:115-120 | no result iff no qualifying conversation from that point on; otherwise the first one that qualifies |
| Channels.FindChannel | blaseball_slack.py:115-120 | the loop finds nothing iff no conversation qualifies; otherwise it selects the first qualifying one, with its id, topic and membership |
| UpdateNotifier.ShouldPostSummary | blaseball_slack.py:162 | definition: a message id was stored at the start and something was added or removed; `SummaryActions` posts exactly then |
| UpdateNotifier.SummaryLines | blaseball_slack.py:162-171 | definition: the header line, the removed section, then the added section; the sections' shape is `SectionLines` and `BlockOfEach` |
| UpdateNotifier.Summary | blaseball_slack.py:162-171 | definition: the summary lines, each ended by a newline; its read-back is `SummaryReadsBack` and `BuildSummary` is proved equal to it |
| UpdateNotifier.Plural | blaseball_slack.py:155-159 | "Message" iff there is exactly one item, else "Messages" |
| UpdateNotifier.BlockLinesAppend | blaseball_slack.py:166-167 | the blocks of two lists are the blocks of the first followed by those of the second |
| UpdateNotifier.BlockLinesLength | blaseball_slack.py:166-167 | three lines per message |
| UpdateNotifier.BlockOfEach | blaseball_slack.py:166-167 | every message has its own fenced block, at its position in list order |
| UpdateNotifier.SectionLines | blaseball_slack.py:164-171 | nothing for an empty list; otherwise the section starts with the pluralised label |
| UpdateNotifier.BlockText | blaseball_slack.py:167 | a block is the message between two fence lines |
| UpdateNotifier.SummaryReadsBack | blaseball_slack.py:162-171 | the summary reads back as the header, the removed section, then the added section |
| UpdateNotifier.SingleAdditionExample | blaseball_slack.py:162-171 | one added line "X" gives the header, "Message added:" and one block with X |
| UpdateNotifier.AppendSection | blaseball_slack.py:164-171 | the loop appends the label and one block per message, in order |
| UpdateNotifier.BuildSummary | blaseball_slack.py:162-171 | the accumulated summary is the specified summary |
| DayLifecycle.StartsNewDay | blaseball_slack.py:130-136 | definition: no extended siesta, and either no stored message or one from another date; its consequences are `DayActions`, `StoredMessageEditedInPlace` and `RolloverReplacesMessage` |
| DayLifecycle.NewDayActions | blaseball_slack.py:146-152 | post the message, then the explanatory reply in its thread, then the owner reply only when an owner is set, and pin it last |
| DayLifecycle.TsAfterDay | blaseball_slack.py:144-148 | a new day stores the new post's id; otherwise the stored id stays |
| DayLifecycle.DayActions | blaseball_slack.py:130-152 | a new day is the unpin of a stored message, if any, followed by exactly the new-day calls; otherwise there is at most an edit; an edit happens iff a message is stored and no new day starts; a rollover first unpins the stored message; siesta with no stored message does nothing |
| DayLifecycle.SummaryActions | blaseball_slack.py:162-173 | one summary post iff a message was stored at the start and something changed, in the thread of the id stored after the day step |
| DayLifecycle.JoinActions | blaseball_slack.py:126-128 | join the found channel iff the bot is not a member |
| DayLifecycle.RunSpec | blaseball_slack.py:14-180 | definition: the whole run as one function (paused exit, the two lookup errors, exit 1 without the channel, else the day step); its properties are the lemmas below and `Bot.Run` is proved equal to it |
| DayLifecycle.DayStep | blaseball_slack.py:126-180 | definition: the join, the day step and the summary, with the id after the day step and the ticker written back; its properties are `StoredMessageEditedInPlace`, `RolloverReplacesMessage`, `NoStoredMessage` and `DayStepUnpinOnly` |
| DayLifecycle.RunAtDayStep | blaseball_slack.py:126-180 | a run past the checks does the day step with the first qualifying channel, the rendered message and the two diffs |
| DayLifecycle.WritesOnlyAfterDayStep | blaseball_slack.py:175-180 | the configuration is written iff the run reaches the day step; earlier stops make no logged (state-changing) Slack call; a paused run exits 0 |
| DayLifecycle.ChannelMissingExitsOne | blaseball_slack.py:122-124 | exit status 1 iff no conversation qualifies (after the checks before it), with no logged (state-changing) Slack call and nothing written |
| DayLifecycle.CrashesAreLookupErrors | blaseball_slack.py:77-96 | the run stops on a missing phase iff a season comes without one, and on a missing `last_seen` iff the descriptor rendered and the key is absent |
| DayLifecycle.RerunWithSameTicker | blaseball_slack.py:175-177 | a run after a successful one that sees the same ticker reports nothing added or removed and writes the same `last_seen` |
| DayLifecycle.StoredMessageEditedInPlace | blaseball_slack.py:133-138 | same day, or siesta, with a stored message: the message is edited; there is no pin or unpin; every post goes to its thread; the id is kept |
| DayLifecycle.RolloverReplacesMessage | blaseball_slack.py:139-173 | a rollover unpins the old message, posts the new one with the explanatory reply and (when an owner is set) the owner reply in its thread, pins it, and stores its id; a summary, if any, is the last call and goes into the new thread |
| DayLifecycle.NoStoredMessage | blaseball_slack.py:130-152 | without a stored message there is never an edit, unpin or summary; outside siesta the pin is the last call; in siesta only a join may happen |
| DayLifecycle.DayActionsUnpinOnly | blaseball_slack.py:140-143 | the day step differs only in the recorded result of the unpin call, whether or not the unpin succeeds |
| DayLifecycle.DayStepUnpinOnly | blaseball_slack.py:140-144 | once the channel is found, a failing unpin changes neither the outcome, the diffs nor the written configuration, only the unpin call's recorded result |
| DayLifecycle.UnpinFailureIsHarmless | blaseball_slack.py:140-144 | a failing unpin changes neither the outcome, the diffs nor the written configuration, only the unpin call's recorded result |
| DayLifecycle.Bot.constructor | blaseball_slack.py:11-12 | the run starts from the loaded configuration with no calls made and nothing written |
| DayLifecycle.Bot.PostNewDayMessage | blaseball_slack.py:146-152 | appends the new-day calls and records the new id |
| DayLifecycle.Bot.StartOrEditDayMessage | blaseball_slack.py:130-152 | appends the day step's calls and stores the id after the day step; reports whether an id was stored at the start |
| DayLifecycle.Bot.PostUpdateSummary | blaseball_slack.py:162-173 | appends the summary call exactly as specified and changes nothing else |
| DayLifecycle.Bot.SaveLastSeen | blaseball_slack.py:175-180 | sets `last_seen` to the ticker and writes the configuration |
| DayLifecycle.Bot.FinishRun | blaseball_slack.py:126-180 | the join, the day step, the summary and the write-back are the specified ones |
| DayLifecycle.Bot.Run | blaseball_slack.py:14-180 | the step-by-step run has the outcome, diffs, calls and written configuration that `RunSpec` gives |

## Left out

- Loading and dumping `config.json` as JSON (lines 11-12, 179-180) is not modelled. The loaded file is the `Config` given to the constructor, and the written file is the `written` field.
- The `token`, `base_url` and `timezone` keys are not modelled. Neither are the HTTP session and its retry policy (lines 27-37) or the two GET requests (lines 43, 87-88). The simulation record and the ticker are inputs. A failing request, which would abort the run, is not modelled.
- The Slack client (line 25) is an action log of the calls that change the workspace. The conversation list is an input, and its page limit of 1000 is not modelled. A Slack call raising an error aborts the run in the script; only the caught unpin failure is modelled.
- `arrow` time handling (lines 101-102, 135-136) is not modelled. The formatted update time is an opaque string. Comparing the stored message's date with today in the configured timezone is a boolean input. A `message_ts` that `float` cannot parse is not modelled.
- The read-only `conversations_list` call (line 115) is not recorded in the action log; its result is the `convs` input. So a run that exits with status 1 for want of a channel has made that one read, though its log is empty.
- The `parse="none"` argument of the edit and post calls (lines 138, 147) is not recorded in the action log. It only tells Slack not to rewrite the text, and the model does not follow the text past the call.
- The id of a new post is a string input. The script's `chat_msg.get("ts")` could also store a null id, and that case is not modelled.
- The `print` diagnostics (lines 16, 97, 99, 123, 127, 143) are not modelled.
- The record fields are typed: season, phase, day and round are integers, and era titles are strings. The flags `paused` and `extended_siesta` are booleans rather than Python truthiness. Values of other JSON types are not modelled.

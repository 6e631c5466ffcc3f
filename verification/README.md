# ChaosBall match and ledger, in Dafny

A model of the logic of the ChaosBall broadcast demo: a generative model plays one fictional
match a play at a time, and the viewer bets virtual coins on it. The model covers:

- the play merge of `nextPlay`: the "m:ss" clock countdown (split, subtract, clamp at zero,
  re-render with zero-padded seconds), additive scoring, possession toggle and the wholesale
  replacement of narrative and odds (`clock.dfy`, `playmerge.dfy`);
- the handlers `initializeMatch`, `nextPlay` and `triggerInstantReplay` with their busy flags
  (`isProcessing`, `veoLoading`) and the order of commit, media join and bet resolution, which
  decides what each failure leaves behind (`orchestrator.dfy`);
- the wager ledger: `handlePlaceBet` and the placeholder `resolveBets` (`wagers.dfy`);
- the betting panel's wager stepper, odds buttons and slip figures (`bettingpanel.dfy`);
- whole sessions of user clicks through the page, with the buttons enabled as the page
  renders them, and the invariants such a session keeps (`session.dfy`).

Every call into the generative service is an input `Outcome` (`Ok(value)` or `Failed`), and
each handler returns the calls it made, in order, as a list of `Effect`s. The two
`Math.random()` draws `resolveBets` makes for a pending slip are an oracle `draws: nat -> Draw`
indexed by the slip's position. Slip ids (`Date.now()`) are parameters. Odds and the wallet
are `real`; stakes and the wager are integers.

Behaviour of the program worth noting, which the model keeps:

- The countdown clamps at zero: "2:30" less 200 seconds is "0:00" (`Clock.TickClampsAtZero`),
  and "2:30" less 140 seconds is "0:10" (`Clock.TickLeavesTen`).
- A failed opening keyframe does not leave the match IDLE: the teams and PLAYING are committed
  before the keyframe is requested (`Orchestrator.InitializeMatch`).
- Negative score deltas are not clamped; the merge adds whatever the model returned, and score
  monotonicity is proved for runs of non-negative deltas.
- The replay guard is `!visual?.prompt`, so a visual with an empty prompt also blocks a replay.
- `initializeMatch` and `triggerInstantReplay` carry no `isProcessing` check of their own; the
  page only disables their buttons (`Session.Dispatch`).

## Model

| member | source | states |
|---|---|---|
| Clock.Decimal | App.tsx:122-124 | `toString` of a natural: its decimal digits, most significant first |
| Clock.PadStart2 | App.tsx:124 | `padStart(2, '0')`: zeros are put in front until the text is two characters wide |
| Clock.DecimalRoundTrip | App.tsx:119-124 | `toString` of a natural is a non-empty digit string with no leading zero, and `Number` reads it back as the same number |
| Clock.PadStart2Value | App.tsx:124 | `padStart(2, '0')` keeps a numeral a numeral of the same value and makes it exactly two wide when it was shorter |
| Clock.Parse | App.tsx:119-120 | the clock is cut at its first ':'; when both sides are non-empty digit runs it reads as minutes * 60 + seconds, otherwise it is unreadable |
| Clock.FindColon | App.tsx:119 | a found position holds a ':' with no ':' before it, the first colon, where `split(':')` cuts; no position means the text has no ':' |
| Clock.ColonAfterDigits | App.tsx:119 | in digits ':' rest, the first colon is the one right after the digits |
| Clock.JoinFields | App.tsx:119-124 | a numeral, ':' and a numeral split back into exactly those two fields and read as minutes * 60 + seconds |
| Clock.Render | App.tsx:122-124 | the rendered clock is readable and reads back as the total it was rendered from |
| Clock.RenderShape | App.tsx:122-124 | a rendered clock has a two-character seconds field below 60 and a minutes field that is the plain decimal of the whole minutes |
| Clock.Tick | App.tsx:119-124 | the counted-down clock is readable and reads back as the old total less the elapsed seconds, clamped at 0; it never rises for non-negative elapsed time |
| Clock.TickClampsAtZero | App.tsx:119-124 | "2:30" less 200 seconds renders "0:00" |
| Clock.TickClampsOneMinute | App.tsx:119-124 | "1:00" less 200 seconds renders "0:00" |
| Clock.TickLeavesTen | App.tsx:119-124 | "2:30" less 140 seconds renders "0:10" |
| PlayMerge.InitialClockReadable | App.tsx:19-32 | the initial clock "15:00" is readable and is 900 seconds |
| PlayMerge.Toggle | App.tsx:134 | the possession toggle always hands the ball to the other side |
| PlayMerge.Merge | App.tsx:117-136 | id, teams, quarter and status unchanged; scores move by exactly the deltas; clock counts down with clamp; description, commentary and odds are the play's; possession flips |
| PlayMerge.TwoPlaysRestorePossession | App.tsx:134 | two plays in a row give possession back to the side that had it |
| PlayMerge.PlayAllKeepsFrame | App.tsx:126-135 | no run of plays changes id, teams, quarter or status |
| PlayMerge.PlayAllScoresMonotone | App.tsx:128-129 | over a run of plays with non-negative deltas neither score ever decreases |
| PlayMerge.PlayAllClockMonotone | App.tsx:119-124 | over a run of plays with non-negative elapsed times the clock never rises |
| PlayMerge.MergeHandsOver | App.tsx:134 | one play hands possession to the other side |
| PlayMerge.PlayAllHandsOver | App.tsx:134 | after n plays possession has been handed over exactly n times |
| PlayMerge.HandedOverParity | App.tsx:134 | n hand-overs leave the ball with the starting side iff n is even |
| PlayMerge.PlayAllAlternates | App.tsx:134 | possession alternates home, away, home, ... across any run of plays |
| Wagers.PlaceBet | App.tsx:176-186 | the wallet falls by exactly the stake; one PENDING slip with the given id, type, stake and odds goes in front; older slips untouched |
| Wagers.PlaceBetKeepsBalance | App.tsx:184-185 | placing keeps wallet = 1000 - stakes + wins |
| Wagers.Settle | App.tsx:164-170 | settled slips are returned as they are; a pending slip becomes WON or LOST exactly as its two draws say; only the status can change |
| Wagers.SettleFrom | App.tsx:163-172 | every slip is settled with its own draws, list length and order kept |
| Wagers.SettleFromAccounts | App.tsx:163-172 | settling changes no stake, and the credits paid equal the growth of the WON total |
| Wagers.WinningsNonNegative | App.tsx:168 | with non-negative stakes and odds, the credits of a settlement are non-negative |
| Wagers.ResolveBets | App.tsx:158-174 | no-op unless a side scored; after a score every slip is settled by its own draws, so a PENDING slip whose draw resolves becomes WON or LOST; non-PENDING slips untouched; a changed slip was PENDING and became WON/LOST by its draws; the wallet moves by exactly the paybacks of new WON slips at their own odds |
| Wagers.ResolveBetsKeepsBalance | App.tsx:162-172 | resolution keeps wallet = 1000 - stakes + wins |
| Wagers.ResolveBetsKeepsSolvent | App.tsx:162-172 | resolution never makes the wallet negative |
| Wagers.ResolveBetsIgnoresOdds | App.tsx:158-174 | the `odds` argument has no effect on the outcome |
| Wagers.WinExample | App.tsx:168 | a WON slip of 100 at 1.9 credits exactly 190 |
| Wagers.PlaceExample | App.tsx:176-186 | HOME_WIN for 100 at 1.9 on a wallet of 1000 leaves 900 and one PENDING slip at 1.9 |
| BettingPanel.WagerDown | components/BettingPanel.tsx:67 | the '-' step never goes below 10 and takes a full 50 off whenever that stays at or above 10 |
| BettingPanel.WagerUp | components/BettingPanel.tsx:71 | the '+' step adds exactly 50 and keeps the wager at or above 10 |
| BettingPanel.PressAllKeepsFloor | components/BettingPanel.tsx:13-71 | from a wager of at least 10 (100 initially), no run of steps takes it below 10 |
| BettingPanel.CanPlace | components/BettingPanel.tsx:18 | an odds button is enabled exactly when the wallet covers the wager and the match is not FINISHED |
| BettingPanel.OddsFor | components/BettingPanel.tsx:54-59 | HOME_WIN takes the home price, AWAY_WIN the away price, OVER and UNDER the totals price |
| BettingPanel.PressOdds | components/BettingPanel.tsx:15-19 | a disabled button changes nothing; an enabled one places the wager at the board's odds and leaves the wallet non-negative |
| BettingPanel.PressOddsKeepsLedger | components/BettingPanel.tsx:17-18 | a press with a wager of at least 10 and non-negative odds keeps the ledger solvent and balanced |
| BettingPanel.SlipFigure | components/BettingPanel.tsx:94 | PENDING shows the stake, WON shows +stake*odds (the payback), LOST shows -stake |
| BettingPanel.ShownWinningsArePaid | components/BettingPanel.tsx:94 | the '+' figures on the slips add up to exactly what the ledger has credited |
| Orchestrator.InitializeMatch | App.tsx:84-106 | setup failure leaves game and visual as they were; success commits teams, introduction and PLAYING before the keyframe request; keyframe failure keeps PLAYING with the old visual; busy flag down on exit |
| Orchestrator.NextPlay | App.tsx:108-156 | no-op with no calls while busy; otherwise the play request carries the current snapshot; a failed play changes only the busy flag; busy flag down on exit; clock stays readable |
| Orchestrator.NextPlayCommitsBeforeMedia | App.tsx:114-140 | an arrived play is committed, and keyframe and audio are both requested after the play request |
| Orchestrator.NextPlayMediaFailureKeepsPlay | App.tsx:139-154 | if keyframe or audio fails, the committed play stands, the visual and ledger are unchanged and nothing is played |
| Orchestrator.NextPlayMediaSuccess | App.tsx:114-149 | if both media succeed, the calls are exactly: the play, the keyframe for the play's prompt, the audio for its commentary, then playback of that audio |
| Orchestrator.NextPlayResolvesBets | App.tsx:126-149 | if both media succeed, the game is the merged play, the visual is the keyframe under the play's prompt and the ledger is the resolution of the play's deltas |
| Orchestrator.JoinMedia | App.tsx:143-149 | the `Promise.all` join: both results are used or neither, and bets resolve only after both succeed |
| Orchestrator.NoReplaySource | App.tsx:189 | `!visual?.prompt`: there is no visual, or its prompt is empty |
| Orchestrator.TriggerInstantReplay | App.tsx:188-202 | no-op with no calls without a visual prompt or while replaying; otherwise one replay request of the current prompt; success shows the video under the same prompt, failure keeps the visual; replay flag down |
| Orchestrator.HandlePlaceBet | App.tsx:176-186 | placing a bet changes only the ledger, which becomes the old ledger with the bet placed; the session applies it on every enabled odds button |
| Session.InitializeEnabled | App.tsx:244-247 | "Initialize Match" is shown only while IDLE and disabled while processing |
| Session.NextPlayEnabled | App.tsx:244-257 | "Run Next Play" is shown once the match has left IDLE and disabled while processing or replaying |
| Session.ReplayEnabled | App.tsx:244-266 | "Generate Replay" is shown once the match has left IDLE and disabled while processing, replaying or without a visual |
| Session.Dispatch | App.tsx:244-271 | an enabled Initialize, Next Play or Replay button runs its handler; '-' and '+' step the wager; an odds click changes only the ledger, as the panel's press does; a click on a hidden or disabled button (including an odds button the wallet or a FINISHED match disables) leaves the session unchanged; no click changes quarter or id or makes the clock unreadable |
| Session.InitialSessionGood | App.tsx:19-41 | the initial session satisfies the session invariant |
| Session.DispatchKeepsGood | App.tsx:84-202 | any click whose play (if any) quotes non-negative odds keeps the session invariant (readable clock, quarter 1, never FINISHED, no busy flag left up, wager at least 10, wallet solvent and balanced) |
| Session.RunKeepsGood | App.tsx:84-202 | any run of clicks whose plays quote non-negative odds keeps the session invariant |
| Session.WalletNeverNegative | components/BettingPanel.tsx:18 | whatever the user clicks, the wallet stays non-negative and balanced and the wager stays at least 10 |

## Left out

- services/geminiService.ts is not part of this model: the prompts it builds, the JSON parsing of model output, the video poll loop and the base64 decoding sit behind the `Outcome` inputs. The request effects carry the argument each handler passes (for a replay, the raw prompt; the service adds the cinematic wording).
- Generated output that parses as JSON but does not match the expected shape (a play without `homeScoreDelta`, say): the service returns it as a success, and App.tsx:128 would then compute NaN. The model assumes every `Ok` payload is well-typed, and only text that is not JSON counts as a failure.
- `playAudio` (App.tsx:70-82): Web Audio decoding and playback; the model records only an `AudioPlayed` effect.
- API-key gating (App.tsx:47-68, 205-221): host-environment I/O.
- components/Scoreboard.tsx and components/BroadcastScreen.tsx: rendering only.
- React batching, stale closures and real promise interleaving: each handler runs to completion as one step; a busy flag set on entry stands for another handler still in flight.
- `console.error` and `alert` on failure paths: reporting only, no state change.
- Floating-point arithmetic: odds and the wallet are exact `real`s, and the `toFixed` rounding of displayed figures is not modelled.
- `isBigPlay` is carried in `PlayUpdate` but, as in the program, never used.
- Clock.Tick: requires a clock of the form digits ':' digits and an integer elapsed time. In the program, text with no colon or with a field `Number` cannot read gives "NaN:NaN", and a fractional elapsed time gives a fractional clock. Some other text the program does read is unreadable in the model: an empty field counts as 0 (":30" is 30 seconds), fields after the second are dropped ("2:30:15" is 150 seconds), and `Number` trims whitespace and accepts forms such as "1e1" or "0x10". Every clock the program itself renders is well-formed (`Clock.Render`).
- Session.DispatchKeepsGood: assumes the play the click brings quotes non-negative odds; the program never checks them.
- Session.RunKeepsGood: assumes every play in the run quotes non-negative odds, for the same reason.
- Session.WalletNeverNegative: assumes every play the model returns quotes non-negative odds; the program never checks them, and a negative odds value on a WON slip would debit the wallet.
- Session.Dispatch: models the page's enable conditions but not the `hasApiKey` screen in front of them.

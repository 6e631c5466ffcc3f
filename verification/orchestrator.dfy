/** The handlers of App.tsx run one at a time to completion: `initializeMatch` (App.tsx:84-106),
    `nextPlay` (App.tsx:108-156) and `triggerInstantReplay` (App.tsx:188-202). Every call into
    the generative service is an input `Outcome`, and each handler reports the calls it made,
    in order, as `Effect`s. */
module Orchestrator {
  import opened Outcomes
  import opened Types
  import PlayMerge
  import Wagers

  type AudioBuffer = seq<bv8>

  /** The React state of the App component. */
  datatype App = App(
    game: GameState,
    visual: Option<GeneratedVisual>,
    processing: bool,
    veoLoading: bool,
    ledger: Wagers.Ledger)

  const InitialApp: App := App(PlayMerge.InitialState, None, false, false, Wagers.InitialLedger)

  /** What `generateMatchSetup` returns. */
  datatype MatchSetup = MatchSetup(home: Team, away: Team, venue: string)

  /** An outward call a handler makes: a request to the generative service or audio playback. */
  datatype Effect =
    | SetupRequested(theme: string)
    | PlayRequested(snapshot: GameState)
    | KeyframeRequested(prompt: string)
    | AudioRequested(text: string)
    | ReplayRequested(prompt: string)
    | AudioPlayed(buffer: AudioBuffer)

  datatype Step = Step(app: App, effects: seq<Effect>)

  const Theme: string := "Cyberpunk Robot Basketball"

  /** The prompt recorded with the opening keyframe. */
  const ArenaView: string := "Arena View"

  function ArenaPrompt(venue: string): string
  {
    "Wide shot of futuristic sports arena, " + venue + ", crowds cheering, neon lights."
  }

  function Introduction(s: MatchSetup): string
  {
    "We are live from " + s.venue + "! " + s.home.name + " taking on " + s.away.name + "."
  }

  /** `initializeMatch`. There is no busy check inside the handler. A failed setup leaves the
      snapshot and the visual as they were (status stays as it was, IDLE from the UI). A
      successful setup commits the teams, the introduction and PLAYING before the keyframe is
      asked for, so a failed keyframe leaves a live match with the old visual. The busy flag is
      down on every exit; the ledger and the replay flag are untouched. */
  function InitializeMatch(app: App, setup: Outcome<MatchSetup>, keyframe: Outcome<string>): (r: Step)
    ensures !r.app.processing
    ensures r.app.ledger == app.ledger && r.app.veoLoading == app.veoLoading
    ensures |r.effects| >= 1 && r.effects[0] == SetupRequested(Theme)
    ensures setup.Failed? ==> r.app == app.(processing := false) && |r.effects| == 1
    ensures setup.Ok? ==>
      && r.app.game == app.game.(homeTeam := setup.value.home, awayTeam := setup.value.away,
                                 status := Playing, commentary := Introduction(setup.value))
      && r.effects == [SetupRequested(Theme), KeyframeRequested(ArenaPrompt(setup.value.venue))]
    ensures setup.Ok? && keyframe.Ok? ==> r.app.visual == Some(GeneratedVisual(Image, keyframe.value, ArenaView))
    ensures setup.Ok? && keyframe.Failed? ==> r.app.visual == app.visual && r.app.game.status == Playing
  {
    match setup
    case Failed => Step(app.(processing := false), [SetupRequested(Theme)])
    case Ok(s) =>
      var live := app.game.(homeTeam := s.home, awayTeam := s.away, status := Playing, commentary := Introduction(s));
      var visual := match keyframe
        case Ok(url) => Some(GeneratedVisual(Image, url, ArenaView))
        case Failed => app.visual;
      Step(app.(game := live, visual := visual, processing := false),
           [SetupRequested(Theme), KeyframeRequested(ArenaPrompt(s.venue))])
  }

  /** `nextPlay`, with `draws(i)` the random draws `resolveBets` would make for slip i.
      While busy it does nothing and calls nothing. Otherwise it first asks for a play with the
      current snapshot, and the busy flag is down again on exit; the replay flag is untouched
      and the clock stays readable. A failed play changes nothing but the busy flag and
      requests nothing more. */
  function NextPlay(app: App, play: Outcome<PlayUpdate>, image: Outcome<string>,
                    audio: Outcome<AudioBuffer>, draws: nat -> Wagers.Draw): (r: Step)
    requires PlayMerge.ClockReadable(app.game)
    ensures app.processing ==> r == Step(app, [])
    ensures !app.processing ==> !r.app.processing && |r.effects| >= 1 && r.effects[0] == PlayRequested(app.game)
    ensures r.app.veoLoading == app.veoLoading
    ensures PlayMerge.ClockReadable(r.app.game)
    ensures !app.processing && play.Failed? ==> r == Step(app.(processing := false), [PlayRequested(app.game)])
  {
    if app.processing then Step(app, [])
    else
      match play
      case Failed => Step(app.(processing := false), [PlayRequested(app.game)])
      case Ok(u) =>
        var committed := app.(game := PlayMerge.Merge(app.game, u));
        var joined := JoinMedia(committed, u, image, audio, draws);
        Step(joined.app.(processing := false),
             [PlayRequested(app.game), KeyframeRequested(u.visualPrompt), AudioRequested(u.commentary)] + joined.effects)
  }

  /** A play that arrives is merged and committed before the keyframe and the audio are
      requested, and both are always requested, whatever becomes of them. */
  lemma NextPlayCommitsBeforeMedia(app: App, u: PlayUpdate, image: Outcome<string>,
                                   audio: Outcome<AudioBuffer>, draws: nat -> Wagers.Draw)
    requires PlayMerge.ClockReadable(app.game) && !app.processing
    ensures NextPlay(app, Ok(u), image, audio, draws).app.game == PlayMerge.Merge(app.game, u)
    ensures NextPlay(app, Ok(u), image, audio, draws).effects[..3] ==
      [PlayRequested(app.game), KeyframeRequested(u.visualPrompt), AudioRequested(u.commentary)]
  {
  }

  /** If the keyframe or the audio fails, the committed play stands but the visual is kept,
      nothing is played and the bets are not resolved. */
  lemma NextPlayMediaFailureKeepsPlay(app: App, u: PlayUpdate, image: Outcome<string>,
                                      audio: Outcome<AudioBuffer>, draws: nat -> Wagers.Draw)
    requires PlayMerge.ClockReadable(app.game) && !app.processing
    requires image.Failed? || audio.Failed?
    ensures NextPlay(app, Ok(u), image, audio, draws) ==
      Step(app.(game := PlayMerge.Merge(app.game, u), processing := false),
           [PlayRequested(app.game), KeyframeRequested(u.visualPrompt), AudioRequested(u.commentary)])
  {
  }

  /** If both media succeed, the audio is played after both media were requested. */
  lemma NextPlayMediaSuccess(app: App, u: PlayUpdate, url: string, buffer: AudioBuffer,
                             draws: nat -> Wagers.Draw)
    requires PlayMerge.ClockReadable(app.game) && !app.processing
    ensures NextPlay(app, Ok(u), Ok(url), Ok(buffer), draws).effects ==
      [PlayRequested(app.game), KeyframeRequested(u.visualPrompt), AudioRequested(u.commentary),
       AudioPlayed(buffer)]
  {
    var committed := app.(game := PlayMerge.Merge(app.game, u));
    var joined := JoinMedia(committed, u, Ok(url), Ok(buffer), draws);
    var requested := [PlayRequested(app.game), KeyframeRequested(u.visualPrompt), AudioRequested(u.commentary)];
    assert joined.effects == [AudioPlayed(buffer)];
    assert NextPlay(app, Ok(u), Ok(url), Ok(buffer), draws).effects == requested + joined.effects;
  }

  /** If both media succeed, the keyframe becomes the visual under the play's prompt and the
      bets are resolved with the play's deltas, on top of the committed play. */
  lemma NextPlayResolvesBets(app: App, u: PlayUpdate, url: string, buffer: AudioBuffer,
                             draws: nat -> Wagers.Draw)
    requires PlayMerge.ClockReadable(app.game) && !app.processing
    ensures NextPlay(app, Ok(u), Ok(url), Ok(buffer), draws).app.game == PlayMerge.Merge(app.game, u)
    ensures NextPlay(app, Ok(u), Ok(url), Ok(buffer), draws).app.visual ==
      Some(GeneratedVisual(Image, url, u.visualPrompt))
    ensures NextPlay(app, Ok(u), Ok(url), Ok(buffer), draws).app.ledger ==
      Wagers.ResolveBets(app.ledger, u.homeScoreDelta, u.awayScoreDelta, u.newOdds, draws)
  {
    var committed := app.(game := PlayMerge.Merge(app.game, u));
    var joined := JoinMedia(committed, u, Ok(url), Ok(buffer), draws);
    assert NextPlay(app, Ok(u), Ok(url), Ok(buffer), draws).app == joined.app.(processing := false);
  }

  /** The `Promise.all` join after a committed play and what follows it: both media succeed,
      or neither result is used and the bets are not resolved. */
  function JoinMedia(committed: App, u: PlayUpdate, image: Outcome<string>,
                     audio: Outcome<AudioBuffer>, draws: nat -> Wagers.Draw): (r: Step)
    ensures r.app.game == committed.game && r.app.veoLoading == committed.veoLoading
    ensures image.Failed? || audio.Failed? ==> r == Step(committed, [])
    ensures image.Ok? && audio.Ok? ==>
      && r.app.visual == Some(GeneratedVisual(Image, image.value, u.visualPrompt))
      && r.effects == [AudioPlayed(audio.value)]
      && r.app.ledger == Wagers.ResolveBets(committed.ledger, u.homeScoreDelta, u.awayScoreDelta, u.newOdds, draws)
  {
    if image.Ok? && audio.Ok? then
      Step(committed.(visual := Some(GeneratedVisual(Image, image.value, u.visualPrompt)),
                      ledger := Wagers.ResolveBets(committed.ledger, u.homeScoreDelta, u.awayScoreDelta, u.newOdds, draws)),
           [AudioPlayed(audio.value)])
    else
      Step(committed, [])
  }

  /** The guard `!visual?.prompt`: no visual, or one whose prompt is empty. */
  predicate NoReplaySource(app: App)
  {
    app.visual.None? || app.visual.value.prompt == ""
  }

  /** `triggerInstantReplay`. Without a visual prompt, or while a replay is out, it does nothing
      and calls nothing. Otherwise it asks for a replay of the current prompt; success swaps in
      the video under the same prompt, failure keeps the visual; the replay flag is down on
      exit and nothing else changes. */
  function TriggerInstantReplay(app: App, video: Outcome<string>): (r: Step)
    ensures NoReplaySource(app) || app.veoLoading ==> r == Step(app, [])
    ensures !(NoReplaySource(app) || app.veoLoading) ==>
      && r.effects == [ReplayRequested(app.visual.value.prompt)]
      && !r.app.veoLoading
      && r.app.game == app.game && r.app.ledger == app.ledger && r.app.processing == app.processing
      && (video.Ok? ==> r.app.visual == Some(GeneratedVisual(Video, video.value, app.visual.value.prompt)))
      && (video.Failed? ==> r.app.visual == app.visual)
  {
    if NoReplaySource(app) || app.veoLoading then Step(app, [])
    else
      var prompt := app.visual.value.prompt;
      var visual := match video
        case Ok(url) => Some(GeneratedVisual(Video, url, prompt))
        case Failed => app.visual;
      Step(app.(visual := visual, veoLoading := false), [ReplayRequested(prompt)])
  }

  /** `handlePlaceBet` as the App applies it. */
  function HandlePlaceBet(app: App, kind: BetType, amount: int, odds: real, id: string): (r: App)
    ensures r.game == app.game && r.visual == app.visual
    ensures r.processing == app.processing && r.veoLoading == app.veoLoading
    ensures r.ledger == Wagers.PlaceBet(app.ledger, id, kind, amount, odds)
  {
    app.(ledger := Wagers.PlaceBet(app.ledger, id, kind, amount, odds))
  }
}

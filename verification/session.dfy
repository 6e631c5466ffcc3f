/** A whole session as the user drives it through the page: the buttons of App.tsx
    (App.tsx:244-271) and of the betting panel, each enabled or disabled as the page renders
    it, applied one after another from the initial state. */
module Session {
  import opened Outcomes
  import opened Types
  import PlayMerge
  import Wagers
  import BettingPanel
  import opened Orchestrator

  /** The App state together with the betting panel's local wager. */
  datatype Session = Session(app: App, wager: int)

  const InitialSession: Session := Session(InitialApp, BettingPanel.InitialWager)

  /** One click, carrying the outcomes of the external calls and random draws it leads to. */
  datatype Click =
    | ClickInitialize(setup: Outcome<MatchSetup>, keyframe: Outcome<string>)
    | ClickNextPlay(play: Outcome<PlayUpdate>, image: Outcome<string>, audio: Outcome<AudioBuffer>,
                    draws: nat -> Wagers.Draw)
    | ClickReplay(video: Outcome<string>)
    | ClickWagerDown
    | ClickWagerUp
    | ClickOdds(kind: BetType, id: string)

  /** "Initialize Match" is shown only while IDLE and is disabled while processing. */
  predicate InitializeEnabled(app: App)
  {
    app.game.status == Idle && !app.processing
  }

  /** "Run Next Play" is shown once the match left IDLE, disabled while processing or replaying. */
  predicate NextPlayEnabled(app: App)
  {
    app.game.status != Idle && !(app.processing || app.veoLoading)
  }

  /** "Generate Replay" is shown once the match left IDLE, disabled while processing, replaying
      or without a visual. */
  predicate ReplayEnabled(app: App)
  {
    app.game.status != Idle && !(app.processing || app.veoLoading || app.visual.None?)
  }

  /** A click on a disabled or hidden button does nothing. */
  function Dispatch(s: Session, c: Click): (r: Session)
    requires PlayMerge.ClockReadable(s.app.game)
    ensures PlayMerge.ClockReadable(r.app.game)
    ensures r.app.game.quarter == s.app.game.quarter && r.app.game.id == s.app.game.id
    ensures !c.ClickWagerDown? && !c.ClickWagerUp? ==> r.wager == s.wager
    ensures c.ClickInitialize? && !InitializeEnabled(s.app) ==> r == s
    ensures c.ClickInitialize? && InitializeEnabled(s.app) ==>
      r == s.(app := InitializeMatch(s.app, c.setup, c.keyframe).app)
    ensures c.ClickNextPlay? && NextPlayEnabled(s.app) ==>
      r == s.(app := NextPlay(s.app, c.play, c.image, c.audio, c.draws).app)
    ensures c.ClickReplay? && ReplayEnabled(s.app) ==> r == s.(app := TriggerInstantReplay(s.app, c.video).app)
    ensures c.ClickWagerDown? ==> r == s.(wager := BettingPanel.WagerDown(s.wager))
    ensures c.ClickWagerUp? ==> r == s.(wager := BettingPanel.WagerUp(s.wager))
    ensures c.ClickNextPlay? && !NextPlayEnabled(s.app) ==> r == s
    ensures c.ClickReplay? && !ReplayEnabled(s.app) ==> r == s
    ensures c.ClickOdds? && !BettingPanel.CanPlace(s.app.ledger.wallet, s.wager, s.app.game.status) ==> r == s
    ensures c.ClickOdds? ==> r.app == s.app.(ledger := BettingPanel.PressOdds(s.app.ledger, s.app.game, s.wager, c.kind, c.id))
  {
    match c
    case ClickInitialize(setup, keyframe) =>
      if InitializeEnabled(s.app) then s.(app := InitializeMatch(s.app, setup, keyframe).app) else s
    case ClickNextPlay(play, image, audio, draws) =>
      if NextPlayEnabled(s.app) then s.(app := NextPlay(s.app, play, image, audio, draws).app) else s
    case ClickReplay(video) =>
      if ReplayEnabled(s.app) then s.(app := TriggerInstantReplay(s.app, video).app) else s
    case ClickWagerDown => s.(wager := BettingPanel.WagerDown(s.wager))
    case ClickWagerUp => s.(wager := BettingPanel.WagerUp(s.wager))
    case ClickOdds(kind, id) =>
      if BettingPanel.CanPlace(s.app.ledger.wallet, s.wager, s.app.game.status)
      then s.(app := HandlePlaceBet(s.app, kind, s.wager, BettingPanel.OddsFor(kind, s.app.game.odds), id))
      else s
  }

  /** The session after a run of clicks. */
  function Run(s: Session, cs: seq<Click>): (r: Session)
    requires PlayMerge.ClockReadable(s.app.game)
    ensures PlayMerge.ClockReadable(r.app.game)
    decreases |cs|
  {
    if |cs| == 0 then s else Run(Dispatch(s, cs[0]), cs[1..])
  }

  /** Every play the model returns in the run quotes non-negative odds. */
  predicate QuotesNonNegativeOdds(cs: seq<Click>)
  {
    forall i :: 0 <= i < |cs| && cs[i].ClickNextPlay? && cs[i].play.Ok? ==>
      BettingPanel.OddsNonNegative(cs[i].play.value.newOdds)
  }

  /** What holds between clicks: the clock is readable, the match is still "match-1" in its first
      quarter and never FINISHED, no handler is busy, the wager is at least 10, the board's odds
      are non-negative, and the ledger is solvent and balanced. */
  predicate Good(s: Session)
  {
    && PlayMerge.ClockReadable(s.app.game)
    && s.app.game.id == PlayMerge.InitialState.id
    && s.app.game.quarter == PlayMerge.InitialState.quarter
    && s.app.game.status != Finished
    && !s.app.processing
    && !s.app.veoLoading
    && s.wager >= BettingPanel.MinWager
    && BettingPanel.OddsNonNegative(s.app.game.odds)
    && Wagers.Solvent(s.app.ledger)
    && Wagers.Balanced(s.app.ledger)
  }

  lemma InitialSessionGood()
    ensures Good(InitialSession)
  {
    PlayMerge.InitialClockReadable();
  }

  /** One click keeps a good session good, given the play it brings quotes non-negative odds. */
  lemma DispatchKeepsGood(s: Session, c: Click)
    requires Good(s)
    requires c.ClickNextPlay? && c.play.Ok? ==> BettingPanel.OddsNonNegative(c.play.value.newOdds)
    ensures Good(Dispatch(s, c))
  {
    match c
    case ClickInitialize(setup, keyframe) =>
    case ClickNextPlay(play, image, audio, draws) =>
      if NextPlayEnabled(s.app) && play.Ok? {
        var u := play.value;
        if image.Ok? && audio.Ok? {
          NextPlayResolvesBets(s.app, u, image.value, audio.value, draws);
          Wagers.ResolveBetsKeepsSolvent(s.app.ledger, u.homeScoreDelta, u.awayScoreDelta, u.newOdds, draws);
          Wagers.ResolveBetsKeepsBalance(s.app.ledger, u.homeScoreDelta, u.awayScoreDelta, u.newOdds, draws);
        } else {
          NextPlayMediaFailureKeepsPlay(s.app, u, image, audio, draws);
        }
      }
    case ClickReplay(video) =>
    case ClickWagerDown =>
    case ClickWagerUp =>
    case ClickOdds(kind, id) =>
      BettingPanel.PressOddsKeepsLedger(s.app.ledger, s.app.game, s.wager, kind, id);
  }

  /** Any run of clicks from a good session ends in a good session. */
  lemma {:induction false} RunKeepsGood(s: Session, cs: seq<Click>)
    requires Good(s)
    requires QuotesNonNegativeOdds(cs)
    ensures Good(Run(s, cs))
    decreases |cs|
  {
    if |cs| > 0 {
      DispatchKeepsGood(s, cs[0]);
      assert QuotesNonNegativeOdds(cs[1..]) by {
        forall i | 0 <= i < |cs| - 1 && cs[1..][i].ClickNextPlay? && cs[1..][i].play.Ok?
          ensures BettingPanel.OddsNonNegative(cs[1..][i].play.value.newOdds)
        {
          assert cs[1..][i] == cs[i + 1];
        }
      }
      RunKeepsGood(Dispatch(s, cs[0]), cs[1..]);
    }
  }

  /** Whatever the user clicks, the wallet never goes negative, the wallet equals 1000 less all
      stakes plus all wins, and the wager never drops below 10. */
  lemma WalletNeverNegative(cs: seq<Click>)
    requires QuotesNonNegativeOdds(cs)
    ensures Run(InitialSession, cs).app.ledger.wallet >= 0.0
    ensures Wagers.Balanced(Run(InitialSession, cs).app.ledger)
    ensures Run(InitialSession, cs).wager >= BettingPanel.MinWager
  {
    InitialSessionGood();
    RunKeepsGood(InitialSession, cs);
  }
}

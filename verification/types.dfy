/** The records and string unions of types.ts. */
module Types {

  datatype Team = Team(name: string, color: string, mascot: string)

  /** `'home' | 'away'` */
  datatype Possession = Home | Away

  /** `'IDLE' | 'PLAYING' | 'FINISHED'` */
  datatype MatchStatus = Idle | Playing | Finished

  /** Payout multipliers; `overUnder` serves both totals bets. */
  datatype Odds = Odds(homeWin: real, awayWin: real, overUnder: real)

  /** The authoritative snapshot of the single match of a session. */
  datatype GameState = GameState(
    id: string,
    homeTeam: Team,
    awayTeam: Team,
    homeScore: int,
    awayScore: int,
    quarter: int,
    timeRemaining: string,
    possession: Possession,
    lastPlayDescription: string,
    commentary: string,
    odds: Odds,
    status: MatchStatus)

  /** One play as produced by the play-logic model. The deltas are whatever the model
      returned: nothing in the program checks their sign. */
  datatype PlayUpdate = PlayUpdate(
    homeScoreDelta: int,
    awayScoreDelta: int,
    timeElapsedSeconds: int,
    playDescription: string,
    commentary: string,
    visualPrompt: string,
    isBigPlay: bool,
    newOdds: Odds)

  /** `'image' | 'video'` */
  datatype VisualKind = Image | Video

  datatype GeneratedVisual = GeneratedVisual(kind: VisualKind, url: string, prompt: string)

  /** `'HOME_WIN' | 'AWAY_WIN' | 'OVER' | 'UNDER'` */
  datatype BetType = HomeWin | AwayWin | Over | Under

  /** `'PENDING' | 'WON' | 'LOST'` */
  datatype BetStatus = Pending | Won | Lost

  /** A wager slip; `odds` is captured when the slip is placed. */
  datatype Bet = Bet(id: string, kind: BetType, amount: int, odds: real, status: BetStatus)

  /** What a winning slip pays back: `bet.amount * bet.odds`. */
  function Payback(b: Bet): real
  {
    b.amount as real * b.odds
  }
}

/** The wager controls of components/BettingPanel.tsx: the stepper around the local `wager`,
    the odds buttons and the figure shown on each slip. */
module BettingPanel {
  import opened Types
  import Wagers

  const InitialWager: int := 100
  const MinWager: int := 10
  const WagerStep: int := 50

  /** The '-' button: `Math.max(10, wager - 50)`. Never below the floor, and a full step down
      whenever that stays above the floor. */
  function WagerDown(wager: int): (r: int)
    ensures r >= MinWager
    ensures wager - WagerStep >= MinWager ==> r == wager - WagerStep
    ensures wager - WagerStep < MinWager ==> r == MinWager
  {
    if MinWager > wager - WagerStep then MinWager else wager - WagerStep
  }

  /** The '+' button: `wager + 50`, with no ceiling. */
  function WagerUp(wager: int): (r: int)
    ensures r - wager == WagerStep
    ensures wager >= MinWager ==> r >= MinWager
  {
    wager + WagerStep
  }

  /** The wager the panel shows after a run of '-' (false) and '+' (true) presses. */
  function PressAll(wager: int, presses: seq<bool>): int
    decreases |presses|
  {
    if |presses| == 0 then wager
    else PressAll(if presses[0] then WagerUp(wager) else WagerDown(wager), presses[1..])
  }

  /** From the initial 100, no run of presses takes the wager below 10. */
  lemma {:induction false} PressAllKeepsFloor(wager: int, presses: seq<bool>)
    requires wager >= MinWager
    ensures PressAll(wager, presses) >= MinWager
    decreases |presses|
  {
    if |presses| > 0 {
      PressAllKeepsFloor(if presses[0] then WagerUp(wager) else WagerDown(wager), presses[1..]);
    }
  }

  /** An odds button is enabled unless `wallet < wager || gameState.status === 'FINISHED'`. */
  predicate CanPlace(wallet: real, wager: int, status: MatchStatus)
  {
    !(wallet < wager as real || status == Finished)
  }

  /** The odds each button offers: HOME_WIN the home price, AWAY_WIN the away price, and both
      OVER and UNDER the one totals price. */
  function OddsFor(kind: BetType, odds: Odds): (x: real)
    ensures kind == HomeWin ==> x == odds.homeWin
    ensures kind == AwayWin ==> x == odds.awayWin
    ensures kind in {Over, Under} ==> x == odds.overUnder
  {
    match kind
    case HomeWin => odds.homeWin
    case AwayWin => odds.awayWin
    case Over => odds.overUnder
    case Under => odds.overUnder
  }

  /** Pressing an odds button: a disabled button does nothing; an enabled one places the current
      wager at the odds on the board, and since the wallet covered the wager it does not go
      negative. */
  function PressOdds(l: Wagers.Ledger, g: GameState, wager: int, kind: BetType, id: string): (r: Wagers.Ledger)
    ensures !CanPlace(l.wallet, wager, g.status) ==> r == l
    ensures CanPlace(l.wallet, wager, g.status) ==> r == Wagers.PlaceBet(l, id, kind, wager, OddsFor(kind, g.odds))
    ensures r != l ==> r.wallet >= 0.0 && g.status != Finished
  {
    if CanPlace(l.wallet, wager, g.status) then Wagers.PlaceBet(l, id, kind, wager, OddsFor(kind, g.odds)) else l
  }

  predicate OddsNonNegative(o: Odds)
  {
    o.homeWin >= 0.0 && o.awayWin >= 0.0 && o.overUnder >= 0.0
  }

  /** A press with a wager at or above the floor and non-negative odds keeps the ledger solvent
      and balanced. */
  lemma PressOddsKeepsLedger(l: Wagers.Ledger, g: GameState, wager: int, kind: BetType, id: string)
    requires Wagers.Solvent(l) && Wagers.Balanced(l)
    requires wager >= MinWager && OddsNonNegative(g.odds)
    ensures Wagers.Solvent(PressOdds(l, g, wager, kind, id))
    ensures Wagers.Balanced(PressOdds(l, g, wager, kind, id))
  {
    if CanPlace(l.wallet, wager, g.status) {
      var r := PressOdds(l, g, wager, kind, id);
      Wagers.PlaceBetKeepsBalance(l, id, kind, wager, OddsFor(kind, g.odds));
      forall i | 0 <= i < |r.bets|
        ensures r.bets[i].amount >= 0 && r.bets[i].odds >= 0.0
      {
        if i > 0 {
          assert r.bets[i] == l.bets[i - 1];
        }
      }
    }
  }

  datatype Sign = NoSign | Plus | Minus

  /** The figure on a slip: `$amount` while PENDING, `+$amount*odds` once WON, `-$amount` once LOST
      (the `toFixed(0)` rounding of the display is not modelled). */
  datatype Figure = Figure(sign: Sign, value: real)

  function SlipFigure(b: Bet): (f: Figure)
    ensures b.status == Pending ==> f == Figure(NoSign, b.amount as real)
    ensures b.status == Won ==> f == Figure(Plus, Payback(b))
    ensures b.status == Lost ==> f == Figure(Minus, b.amount as real)
  {
    match b.status
    case Pending => Figure(NoSign, b.amount as real)
    case Won => Figure(Plus, Payback(b))
    case Lost => Figure(Minus, b.amount as real)
  }

  /** The sum of the '+' figures on the slip list. */
  function ShownWinnings(bets: seq<Bet>): real
  {
    if |bets| == 0 then 0.0
    else (if SlipFigure(bets[0]).sign == Plus then SlipFigure(bets[0]).value else 0.0) + ShownWinnings(bets[1..])
  }

  /** The winnings the panel shows are exactly what the ledger has credited. */
  lemma {:induction false} ShownWinningsArePaid(bets: seq<Bet>)
    ensures ShownWinnings(bets) == Wagers.Paid(bets)
    decreases |bets|
  {
    if |bets| > 0 {
      ShownWinningsArePaid(bets[1..]);
    }
  }
}

/** The wager ledger of App.tsx: the wallet, the slips, placing a bet (`handlePlaceBet`,
    App.tsx:176-186) and the placeholder settlement run after a scoring play (`resolveBets`,
    App.tsx:158-174). */
module Wagers {
  import opened Types

  datatype Ledger = Ledger(wallet: real, bets: seq<Bet>)

  const StartingWallet: real := 1000.0

  const InitialLedger: Ledger := Ledger(StartingWallet, [])

  /** The two `Math.random()` draws `resolveBets` makes for one pending slip:
      `resolves` is `Math.random() > 0.9`, `wins` is `Math.random() > 0.5`. */
  datatype Draw = Draw(resolves: bool, wins: bool)

  /** Total of every stake ever placed (each is debited once, never refunded). */
  function Staked(bets: seq<Bet>): real
  {
    if |bets| == 0 then 0.0 else bets[0].amount as real + Staked(bets[1..])
  }

  /** Total credited for slips that are WON. */
  function Paid(bets: seq<Bet>): real
  {
    if |bets| == 0 then 0.0
    else (if bets[0].status == Won then Payback(bets[0]) else 0.0) + Paid(bets[1..])
  }

  /** The wallet holds exactly the starting balance less every stake plus every win. */
  predicate Balanced(l: Ledger)
  {
    l.wallet == StartingWallet - Staked(l.bets) + Paid(l.bets)
  }

  /** Wallet, stakes and odds are all non-negative. */
  predicate Solvent(l: Ledger)
  {
    && l.wallet >= 0.0
    && forall i :: 0 <= i < |l.bets| ==> l.bets[i].amount >= 0 && l.bets[i].odds >= 0.0
  }

  /** `handlePlaceBet`: debit the stake and put a new PENDING slip, carrying the odds offered
      at that moment, in front of the unchanged older slips. */
  function PlaceBet(l: Ledger, id: string, kind: BetType, amount: int, odds: real): (r: Ledger)
    ensures r.wallet == l.wallet - amount as real
    ensures |r.bets| == |l.bets| + 1 && r.bets[1..] == l.bets
    ensures r.bets[0].status == Pending
    ensures r.bets[0].id == id && r.bets[0].kind == kind
    ensures r.bets[0].amount == amount && r.bets[0].odds == odds
  {
    Ledger(l.wallet - amount as real, [Bet(id, kind, amount, odds, Pending)] + l.bets)
  }

  /** Placing a bet keeps the wallet balanced: the debit is matched by the new stake. */
  lemma PlaceBetKeepsBalance(l: Ledger, id: string, kind: BetType, amount: int, odds: real)
    requires Balanced(l)
    ensures Balanced(PlaceBet(l, id, kind, amount, odds))
  {
    var r := PlaceBet(l, id, kind, amount, odds);
    assert r.bets[1..] == l.bets;
  }

  /** The per-slip rule inside `prev.map`: settled slips are returned as they are; a pending
      slip whose first draw comes up becomes WON or LOST by the second draw. */
  function Settle(b: Bet, d: Draw): (r: Bet)
    ensures b.status != Pending ==> r == b
    ensures r == b.(status := r.status)
    ensures r.status == Won <==> (b.status == Won || (b.status == Pending && d.resolves && d.wins))
    ensures r.status == Lost <==> (b.status == Lost || (b.status == Pending && d.resolves && !d.wins))
  {
    if b.status != Pending then b
    else if d.resolves then b.(status := if d.wins then Won else Lost)
    else b
  }

  /** What the wallet gains from one slip in this settlement. */
  function Credit(b: Bet, d: Draw): real
  {
    if b.status == Pending && d.resolves && d.wins then Payback(b) else 0.0
  }

  /** Every slip settled with its own draws; `k` is the position of `bets[0]` in the full list. */
  function SettleFrom(bets: seq<Bet>, draws: nat -> Draw, k: nat): (r: seq<Bet>)
    ensures |r| == |bets|
    ensures forall i :: 0 <= i < |bets| ==> r[i] == Settle(bets[i], draws(k + i))
    decreases |bets|
  {
    if |bets| == 0 then [] else [Settle(bets[0], draws(k))] + SettleFrom(bets[1..], draws, k + 1)
  }

  /** The sum of the `setWallet(w => w + bet.amount * bet.odds)` credits of one settlement. */
  function WinningsFrom(bets: seq<Bet>, draws: nat -> Draw, k: nat): real
    decreases |bets|
  {
    if |bets| == 0 then 0.0 else Credit(bets[0], draws(k)) + WinningsFrom(bets[1..], draws, k + 1)
  }

  /** Settlement changes no stake, and the credits it pays are exactly the growth of `Paid`. */
  lemma {:induction false} SettleFromAccounts(bets: seq<Bet>, draws: nat -> Draw, k: nat)
    ensures Staked(SettleFrom(bets, draws, k)) == Staked(bets)
    ensures Paid(SettleFrom(bets, draws, k)) == Paid(bets) + WinningsFrom(bets, draws, k)
    decreases |bets|
  {
    if |bets| > 0 {
      var r := SettleFrom(bets, draws, k);
      SettleFromAccounts(bets[1..], draws, k + 1);
      assert r[1..] == SettleFrom(bets[1..], draws, k + 1);
      assert r[0] == Settle(bets[0], draws(k));
    }
  }

  /** With non-negative stakes and odds, a settlement never takes money away. */
  lemma {:induction false} WinningsNonNegative(bets: seq<Bet>, draws: nat -> Draw, k: nat)
    requires forall i :: 0 <= i < |bets| ==> bets[i].amount >= 0 && bets[i].odds >= 0.0
    ensures WinningsFrom(bets, draws, k) >= 0.0
    decreases |bets|
  {
    if |bets| > 0 {
      assert bets[0].amount >= 0 && bets[0].odds >= 0.0;
      assert Payback(bets[0]) >= 0.0;
      WinningsNonNegative(bets[1..], draws, k + 1);
    }
  }

  /** `resolveBets(hDelta, aDelta, odds)` with `draws(i)` the random draws for the i-th slip.
      Nothing happens unless a side scored. Otherwise only PENDING slips may change, and only
      their status, each to the verdict of its own draws; the wallet moves by exactly the
      paybacks of the newly WON slips, figured with each slip's own odds. The `odds` argument
      is never consulted. */
  function ResolveBets(l: Ledger, hDelta: int, aDelta: int, odds: Odds, draws: nat -> Draw): (r: Ledger)
    ensures !(hDelta > 0 || aDelta > 0) ==> r == l
    ensures |r.bets| == |l.bets|
    ensures forall i :: 0 <= i < |l.bets| ==> r.bets[i] == l.bets[i].(status := r.bets[i].status)
    ensures forall i :: 0 <= i < |l.bets| && l.bets[i].status != Pending ==> r.bets[i] == l.bets[i]
    ensures forall i :: 0 <= i < |l.bets| && r.bets[i].status != l.bets[i].status ==>
      && (hDelta > 0 || aDelta > 0)
      && draws(i).resolves
      && r.bets[i].status == (if draws(i).wins then Won else Lost)
    ensures hDelta > 0 || aDelta > 0 ==>
      forall i :: 0 <= i < |l.bets| ==> r.bets[i] == Settle(l.bets[i], draws(i))
    ensures Staked(r.bets) == Staked(l.bets)
    ensures r.wallet == l.wallet + Paid(r.bets) - Paid(l.bets)
  {
    if hDelta > 0 || aDelta > 0 then
      SettleFromAccounts(l.bets, draws, 0);
      var settled := SettleFrom(l.bets, draws, 0);
      assert forall i :: 0 <= i < |l.bets| ==> settled[i] == Settle(l.bets[i], draws(i));
      Ledger(l.wallet + WinningsFrom(l.bets, draws, 0), settled)
    else
      l
  }

  /** A settlement keeps the wallet balanced. */
  lemma ResolveBetsKeepsBalance(l: Ledger, hDelta: int, aDelta: int, odds: Odds, draws: nat -> Draw)
    requires Balanced(l)
    ensures Balanced(ResolveBets(l, hDelta, aDelta, odds, draws))
  {
  }

  /** A settlement keeps the ledger solvent: it only ever credits the wallet. */
  lemma ResolveBetsKeepsSolvent(l: Ledger, hDelta: int, aDelta: int, odds: Odds, draws: nat -> Draw)
    requires Solvent(l)
    ensures Solvent(ResolveBets(l, hDelta, aDelta, odds, draws))
  {
    var r := ResolveBets(l, hDelta, aDelta, odds, draws);
    if hDelta > 0 || aDelta > 0 {
      SettleFromAccounts(l.bets, draws, 0);
      WinningsNonNegative(l.bets, draws, 0);
      forall i | 0 <= i < |r.bets|
        ensures r.bets[i].amount >= 0 && r.bets[i].odds >= 0.0
      {
        assert r.bets[i] == l.bets[i].(status := r.bets[i].status);
      }
    }
  }

  /** The odds passed to `resolveBets` play no part in the outcome. */
  lemma ResolveBetsIgnoresOdds(l: Ledger, hDelta: int, aDelta: int, o1: Odds, o2: Odds, draws: nat -> Draw)
    ensures ResolveBets(l, hDelta, aDelta, o1, draws) == ResolveBets(l, hDelta, aDelta, o2, draws)
  {
  }

  /** A slip worth 100 at odds 1.9 that settles WON credits exactly 190. */
  lemma WinExample(l: Ledger)
    requires l.bets == [Bet("b", HomeWin, 100, 1.9, Pending)]
    ensures ResolveBets(l, 1, 0, Odds(1.0, 1.0, 1.0), _ => Draw(true, true)).wallet == l.wallet + 190.0
  {
    var r := ResolveBets(l, 1, 0, Odds(1.0, 1.0, 1.0), _ => Draw(true, true));
    assert r.bets[0].status == Won;
    assert r.bets[1..] == [];
  }

  /** Placing HOME_WIN for 100 at 1.9 from a wallet of 1000 leaves 900 and one PENDING slip at 1.9. */
  lemma PlaceExample()
    ensures PlaceBet(InitialLedger, "b", HomeWin, 100, 1.9) == Ledger(900.0, [Bet("b", HomeWin, 100, 1.9, Pending)])
  {
  }
}

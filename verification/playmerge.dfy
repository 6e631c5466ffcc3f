/** The state merge `nextPlay` applies when a play arrives (App.tsx:117-136), the initial
    snapshot (App.tsx:19-32), and what repeated plays do to a match. */
module PlayMerge {
  import opened Types
  import Clock

  const InitialState: GameState := GameState(
    "match-1",
    Team("Cyber", "blue", "Droids"),
    Team("Terra", "red", "Titans"),
    0, 0,
    1,
    "15:00",
    Home,
    "Match starting...",
    "Welcome to ChaosBall!",
    Odds(1.9, 1.9, 1.9),
    Idle)

  /** A snapshot whose clock the countdown can read. */
  predicate ClockReadable(g: GameState)
  {
    Clock.WellFormed(g.timeRemaining)
  }

  lemma InitialClockReadable()
    ensures ClockReadable(InitialState)
    ensures Clock.TotalSeconds(InitialState.timeRemaining) == 900
  {
    assert "15" + ":" + "00" == "15:00";
    assert "15"[1..] == "5" && "00"[1..] == "0";
    assert "5"[1..] == "" && "0"[1..] == "";
    Clock.JoinFields("15", "00");
  }

  /** `prev.possession === 'home' ? 'away' : 'home'`: the other side, and an involution. */
  function Toggle(p: Possession): (q: Possession)
    ensures q != p
  {
    if p == Home then Away else Home
  }

  /** Fields a play must leave alone: identity, teams, quarter and status. */
  predicate SameFrame(prev: GameState, next: GameState)
  {
    && next.id == prev.id
    && next.homeTeam == prev.homeTeam
    && next.awayTeam == prev.awayTeam
    && next.quarter == prev.quarter
    && next.status == prev.status
  }

  /** One play merged into the snapshot. Scores grow by exactly the deltas; the clock reads
      back as the old clock less the elapsed seconds, floored at zero; narrative and odds are
      those of the play; possession changes hands; nothing else moves. */
  function Merge(prev: GameState, u: PlayUpdate): (next: GameState)
    requires ClockReadable(prev)
    ensures SameFrame(prev, next)
    ensures next.homeScore - prev.homeScore == u.homeScoreDelta
    ensures next.awayScore - prev.awayScore == u.awayScoreDelta
    ensures ClockReadable(next)
    ensures Clock.TotalSeconds(next.timeRemaining) ==
      if Clock.TotalSeconds(prev.timeRemaining) < u.timeElapsedSeconds then 0
      else Clock.TotalSeconds(prev.timeRemaining) - u.timeElapsedSeconds
    ensures next.lastPlayDescription == u.playDescription
    ensures next.commentary == u.commentary
    ensures next.odds == u.newOdds
    ensures next.possession != prev.possession
  {
    prev.(
      homeScore := prev.homeScore + u.homeScoreDelta,
      awayScore := prev.awayScore + u.awayScoreDelta,
      timeRemaining := Clock.Tick(prev.timeRemaining, u.timeElapsedSeconds),
      lastPlayDescription := u.playDescription,
      commentary := u.commentary,
      odds := u.newOdds,
      possession := Toggle(prev.possession))
  }

  /** Two plays in a row hand possession back to the side that had it. */
  lemma TwoPlaysRestorePossession(g: GameState, u1: PlayUpdate, u2: PlayUpdate)
    requires ClockReadable(g)
    ensures Merge(Merge(g, u1), u2).possession == g.possession
  {
    var g1 := Merge(g, u1);
    assert g1.possession == Toggle(g.possession);
  }

  /** The snapshot after a sequence of plays, merged in order. */
  function PlayAll(g: GameState, us: seq<PlayUpdate>): (r: GameState)
    requires ClockReadable(g)
    ensures ClockReadable(r)
    decreases |us|
  {
    if |us| == 0 then g else PlayAll(Merge(g, us[0]), us[1..])
  }

  predicate NonNegativeDeltas(us: seq<PlayUpdate>)
  {
    forall i :: 0 <= i < |us| ==> us[i].homeScoreDelta >= 0 && us[i].awayScoreDelta >= 0
  }

  predicate NonNegativeElapsed(us: seq<PlayUpdate>)
  {
    forall i :: 0 <= i < |us| ==> us[i].timeElapsedSeconds >= 0
  }

  lemma TailNonNegativeDeltas(us: seq<PlayUpdate>)
    requires |us| > 0 && NonNegativeDeltas(us)
    ensures NonNegativeDeltas(us[1..])
  {
    forall i | 0 <= i < |us| - 1
      ensures us[1..][i].homeScoreDelta >= 0 && us[1..][i].awayScoreDelta >= 0
    {
      assert us[1..][i] == us[i + 1];
    }
  }

  lemma TailNonNegativeElapsed(us: seq<PlayUpdate>)
    requires |us| > 0 && NonNegativeElapsed(us)
    ensures NonNegativeElapsed(us[1..])
  {
    forall i | 0 <= i < |us| - 1
      ensures us[1..][i].timeElapsedSeconds >= 0
    {
      assert us[1..][i] == us[i + 1];
    }
  }

  /** Across any run of plays the identity, the teams, the quarter and the status stay put:
      nothing in the play path ever writes the quarter. */
  lemma {:induction false} PlayAllKeepsFrame(g: GameState, us: seq<PlayUpdate>)
    requires ClockReadable(g)
    ensures SameFrame(g, PlayAll(g, us))
    decreases |us|
  {
    if |us| > 0 {
      PlayAllKeepsFrame(Merge(g, us[0]), us[1..]);
    }
  }

  /** Scores never fall across a run of plays whose deltas are non-negative. */
  lemma {:induction false} PlayAllScoresMonotone(g: GameState, us: seq<PlayUpdate>)
    requires ClockReadable(g)
    requires NonNegativeDeltas(us)
    ensures PlayAll(g, us).homeScore >= g.homeScore
    ensures PlayAll(g, us).awayScore >= g.awayScore
    decreases |us|
  {
    if |us| > 0 {
      TailNonNegativeDeltas(us);
      PlayAllScoresMonotone(Merge(g, us[0]), us[1..]);
    }
  }

  /** The clock never rises across a run of plays whose elapsed times are non-negative. */
  lemma {:induction false} PlayAllClockMonotone(g: GameState, us: seq<PlayUpdate>)
    requires ClockReadable(g)
    requires NonNegativeElapsed(us)
    ensures Clock.TotalSeconds(PlayAll(g, us).timeRemaining) <= Clock.TotalSeconds(g.timeRemaining)
    decreases |us|
  {
    if |us| > 0 {
      TailNonNegativeElapsed(us);
      PlayAllClockMonotone(Merge(g, us[0]), us[1..]);
    }
  }

  /** The side holding the ball after it has changed hands `n` times. */
  function HandedOver(p: Possession, n: nat): Possession
  {
    if n == 0 then p else Toggle(HandedOver(p, n - 1))
  }

  lemma MergeHandsOver(g: GameState, u: PlayUpdate)
    requires ClockReadable(g)
    ensures Merge(g, u).possession == Toggle(g.possession)
  {
  }

  /** Possession changes hands once per play. */
  lemma {:induction false} PlayAllHandsOver(g: GameState, us: seq<PlayUpdate>)
    requires ClockReadable(g)
    ensures PlayAll(g, us).possession == HandedOver(g.possession, |us|)
    decreases |us|
  {
    if |us| > 0 {
      var rest := us[1..];
      var g1 := Merge(g, us[0]);
      assert PlayAll(g, us) == PlayAll(g1, rest);
      MergeHandsOver(g, us[0]);
      PlayAllHandsOver(g1, rest);
      HandedOverShift(g.possession, |rest|);
      assert |rest| + 1 == |us|;
    }
  }

  lemma {:induction false} HandedOverShift(p: Possession, n: nat)
    ensures HandedOver(Toggle(p), n) == HandedOver(p, n + 1)
    decreases n
  {
    if n > 0 {
      HandedOverShift(p, n - 1);
    }
  }

  /** After an even number of hand-overs the ball is back with the side that started,
      after an odd number it is with the other side. */
  lemma {:induction false} HandedOverParity(p: Possession, n: nat)
    ensures HandedOver(p, n) == if n % 2 == 0 then p else Toggle(p)
    decreases n
  {
    if n > 0 {
      HandedOverParity(p, n - 1);
    }
  }

  /** Possession alternates home, away, home, ... across any run of plays. */
  lemma PlayAllAlternates(g: GameState, us: seq<PlayUpdate>)
    requires ClockReadable(g)
    ensures PlayAll(g, us).possession == if |us| % 2 == 0 then g.possession else Toggle(g.possession)
  {
    PlayAllHandsOver(g, us);
    HandedOverParity(g.possession, |us|);
  }
}

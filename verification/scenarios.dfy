/**
 * Whole rounds driven through the component, as a player and the browser
 * would drive them: a cash-out, a crash, a frame that jumps past both
 * thresholds, refused bets, resets and a run of six rounds, each derived
 * from the contracts of `PlaceBet`, `Tick` and `Reset` alone.
 */
module Scenarios {
  import opened Rounding
  import opened Crash
  import opened History
  import opened Round

  /** The draw 0.714 gives the crash point 5.00. */
  lemma DrawForFive()
    ensures GenerateCrash(0.714) == 5.0
  {
    var raw := 1.0 + Cube(0.714) * Spread;
    assert raw == 5.003937784;
    assert (raw * 100.0 + 0.5).Floor == 500;
  }

  /** The draw 0.45 gives the crash point 2.00. */
  lemma DrawForTwo()
    ensures GenerateCrash(0.45) == 2.0
  {
    var raw := 1.0 + Cube(0.45) * Spread;
    assert raw == 2.002375;
    assert (raw * 100.0 + 0.5).Floor == 200;
  }

  /**
   * Bet 10 with target 2.00 against a crash point of 5.00: the frame that
   * passes 2.00 cashes out and pays 20.00; the history gains 5.00.
   */
  method WinScenario() returns (outcome: Option<Outcome>, shown: real, newest: real)
    ensures outcome == Some(Outcome(true, 20.0))
    ensures shown == 2.0 && newest == 5.0
  {
    var g := new LimboGame([]);
    DrawForFive();
    var err := g.PlaceBet(Some(10.0), Some(2.0), 0.714);
    g.Tick(1.5);
    g.Tick(2.1);
    Round2Fixes(20.0);
    outcome, shown, newest := g.result, g.currentMult, g.history[0];
  }

  /**
   * Bet 10 with target 5.00 against a crash point of 2.00: the round crashes
   * at 2.00 and is lost; the history gains 2.00.
   */
  method LossScenario() returns (outcome: Option<Outcome>, shown: real, newest: real)
    ensures outcome == Some(Outcome(false, 0.0))
    ensures shown == 2.0 && newest == 2.0
  {
    var g := new LimboGame([]);
    DrawForTwo();
    var err := g.PlaceBet(Some(10.0), Some(5.0), 0.45);
    g.Tick(1.5);
    g.Tick(2.3);
    outcome, shown, newest := g.result, g.currentMult, g.history[0];
  }

  /**
   * A target below the crash point does not by itself win: target 2.00,
   * crash point 5.00, and a frame whose sample jumps straight to 6.00 past
   * both is a crash.
   */
  method JumpPastBothScenario() returns (outcome: Option<Outcome>)
    ensures outcome == Some(Outcome(false, 0.0))
  {
    var g := new LimboGame([]);
    DrawForFive();
    var err := g.PlaceBet(Some(10.0), Some(2.0), 0.714);
    assert g.targetMult < g.crash;
    g.Tick(6.0);
    outcome := g.result;
  }

  /** A zero bet, then a target of exactly 1.0, are refused; nothing starts. */
  method RejectedBetScenario(r: real) returns (e1: Option<BetError>, e2: Option<BetError>, p: Phase)
    requires 0.0 <= r < 1.0
    ensures e1 == Some(InvalidBet) && e2 == Some(InvalidTarget) && p == Idle
  {
    var g := new LimboGame([]);
    e1 := g.PlaceBet(Some(0.0), Some(2.0), r);
    e2 := g.PlaceBet(Some(10.0), Some(1.0), r);
    p := g.Phase();
  }

  /** A reset in the middle of a round leaves no frame pending. */
  method ResetMidRoundScenario(r: real) returns (pending: bool, p: Phase, mult: real)
    requires 0.0 <= r < 1.0
    ensures !pending && p == Idle && mult == 1.0
  {
    var g := new LimboGame([]);
    var err := g.PlaceBet(Some(10.0), Some(2.0), r);
    g.Tick(1.005);
    g.Reset();
    pending, p, mult := g.scheduled, g.Phase(), g.currentMult;
  }

  /** Resetting a second time changes nothing. */
  method ResetTwice(g: LimboGame) returns (once: (bool, real, Option<real>, Option<Outcome>, bool, bool, seq<real>),
                                            twice: (bool, real, Option<real>, Option<Outcome>, bool, bool, seq<real>))
    requires g.Valid()
    modifies g
    ensures once == twice
  {
    g.Reset();
    once := (g.running, g.currentMult, g.crashMult, g.result, g.cashed, g.scheduled, g.history);
    g.Reset();
    twice := (g.running, g.currentMult, g.crashMult, g.result, g.cashed, g.scheduled, g.history);
  }

  /**
   * Six rounds in a row, each with its own draw and each crashing: the
   * history ends up with exactly five entries, the five latest crash
   * points, most recent first, whatever the saved history was.
   */
  method SixRounds(saved: seq<real>, draws: seq<real>) returns (h: seq<real>)
    requires |draws| == 6
    requires forall i :: 0 <= i < |draws| ==> 0.0 <= draws[i] < 1.0
    ensures |h| == Cap
    ensures forall i :: 0 <= i < Cap ==> h[i] == GenerateCrash(draws[5 - i])
  {
    var g := new LimboGame(saved);
    var crashes: seq<real> := [];
    for k := 0 to 6
      invariant g.Valid() && !g.running
      invariant |crashes| == k
      invariant forall i :: 0 <= i < k ==> crashes[i] == GenerateCrash(draws[i])
      invariant g.history == Replay(saved, crashes)
    {
      var err := g.PlaceBet(Some(10.0), Some(2.0), draws[k]);
      // every crash point is at most 12.00, so this frame crashes the round
      g.Tick(MaxCrash + 1.0);
      assert (crashes + [g.crash])[..k] == crashes;
      crashes := crashes + [g.crash];
    }
    SixRoundsFillHistory(saved, crashes);
    h := g.history;
  }
}

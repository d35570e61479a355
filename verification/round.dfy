/**
 * The round engine of the Limbo game component.
 *
 * One round at a time: `PlaceBet` validates the bet and the target, draws
 * the hidden crash point and requests the first animation frame; every frame
 * runs `Tick` with the multiplier sampled for that frame, which either
 * crashes the round, cashes it out at the target, or stores the sample and
 * requests the next frame; `Reset` cancels the pending frame and clears the
 * round. The browser's frame scheduling is the `scheduled` flag: a frame is
 * pending exactly when it is set, and the caller runs `Tick` only then.
 */
module Round {
  import opened Rounding
  import opened Crash
  import opened History

  /** `parseFloat` results: `None` stands for NaN. */
  datatype Option<T> = None | Some(value: T)

  /** What the component stores in `result`: `{win, payout}`. */
  datatype Outcome = Outcome(win: bool, payout: real)

  /** The two messages `placeBet` alerts with before giving up. */
  datatype BetError = InvalidBet | InvalidTarget

  /** The three ways a frame can end. */
  datatype Decision = Crashed | CashedOut | KeepRunning

  /** What the player sees: no round yet, a round in flight, or a finished one. */
  datatype Phase = Idle | Running | Resolved

  /**
   * The check `placeBet` makes before starting a round: the bet first, then
   * the target. `None` means the round may start.
   */
  function ValidateBet(bet: Option<real>, target: Option<real>): (err: Option<BetError>)
    ensures err == None <==> bet.Some? && bet.value > 0.0 && target.Some? && target.value > 1.0
    ensures err == Some(InvalidBet) <==> bet.None? || bet.value <= 0.0
  {
    if bet.None? || bet.value <= 0.0 then Some(InvalidBet)
    else if target.None? || target.value <= 1.0 then Some(InvalidTarget)
    else None
  }

  /**
   * How a frame with sampled multiplier `curr` ends. The crash test comes
   * first, so a frame that reaches both thresholds at once is a crash.
   */
  function Decide(curr: real, crash: real, target: real, cashed: bool): (d: Decision)
    ensures d == Crashed <==> curr >= crash
    ensures d == CashedOut ==> target <= curr < crash && !cashed
    ensures d == KeepRunning ==> curr < crash && (cashed || curr < target)
    ensures crash <= target ==> d != CashedOut
  {
    if curr >= crash then Crashed
    else if !cashed && curr >= target then CashedOut
    else KeepRunning
  }

  /** What a win pays: `+(betAmt * targetMult).toFixed(2)`. */
  function Payout(bet: real, target: real): (p: real)
    ensures -0.005 <= p - bet * target <= 0.005
    ensures bet * target >= 0.0 ==> p - 0.005 <= bet * target < p + 0.005
    ensures IsHundredths(p)
  {
    Round2(bet * target)
  }

  /** A value the crash generator can produce. */
  predicate IsCrashPoint(c: real) {
    MinCrash <= c <= MaxCrash && IsHundredths(c)
  }

  class LimboGame {
    // React state
    var running: bool
    var currentMult: real
    var crashMult: Option<real>
    var result: Option<Outcome>
    var history: seq<real>
    // refs: the cash-out latch and whether an animation frame is pending
    var cashed: bool
    var scheduled: bool
    // what the current round's frame callback captured when the round started
    var betAmt: real
    var targetMult: real
    var crash: real

    ghost predicate Valid()
      reads this
    {
      && (scheduled <==> running)
      && (running ==>
            && betAmt > 0.0 && targetMult > 1.0
            && crashMult == Some(crash) && result == None && !cashed
            && 0.0 < currentMult < crash && currentMult < targetMult)
      && (crashMult.Some? ==> crashMult == Some(crash) && IsCrashPoint(crash))
      && (crashMult.None? ==> !running && result == None && currentMult == 1.0)
      && (result.Some? ==> !running && crashMult.Some?)
      && (!running && crashMult.Some? ==> result.Some?)
      && (cashed <==> result.Some? && result.value.win)
      && (result.Some? && result.value.win ==>
            && targetMult < crash && currentMult == targetMult
            && result.value.payout == Payout(betAmt, targetMult))
      && (result.Some? && !result.value.win ==>
            currentMult == crash && result.value.payout == 0.0)
    }

    function Phase(): (p: Phase)
      reads this
      requires Valid()
      ensures p == Running <==> running
      ensures p == Idle <==> crashMult == None
    {
      if running then Running else if result.Some? then Resolved else Idle
    }

    /** A fresh component, with the history saved by an earlier session. */
    constructor (saved: seq<real>)
      ensures Valid()
      ensures !running && !scheduled && !cashed
      ensures currentMult == 1.0 && crashMult == None && result == None
      ensures history == saved
    {
      running := false;
      currentMult := 1.0;
      crashMult := None;
      result := None;
      history := saved;
      cashed := false;
      scheduled := false;
      betAmt, targetMult, crash := 0.0, 0.0, 0.0;
    }

    /**
     * `placeBet`: `bet` and `target` are the parsed inputs, `r` the random
     * draw. The button is disabled while a round runs.
     */
    method PlaceBet(bet: Option<real>, target: Option<real>, r: real) returns (err: Option<BetError>)
      requires Valid() && !running
      requires 0.0 <= r < 1.0
      modifies this
      ensures Valid()
      ensures err == ValidateBet(bet, target)
      ensures err != None ==> unchanged(this)
      ensures err == None ==>
        && running && scheduled && !cashed
        && currentMult == 1.0 && result == None
        && crash == GenerateCrash(r) && crashMult == Some(crash)
        && betAmt == bet.value && targetMult == target.value
        && history == old(history)
    {
      if bet.None? || bet.value <= 0.0 {
        return Some(InvalidBet);
      }
      if target.None? || target.value <= 1.0 {
        return Some(InvalidTarget);
      }
      var c := GenerateCrash(r);
      betAmt, targetMult, crash := bet.value, target.value, c;
      crashMult := Some(c);
      running := true;
      result := None;
      currentMult := 1.0;
      cashed := false;
      scheduled := true;
      err := None;
    }

    /**
     * One animation frame of the running round; `curr` is the multiplier
     * sampled for it (`Math.exp` of the elapsed time, so positive).
     */
    method Tick(curr: real)
      requires Valid() && scheduled
      requires curr > 0.0
      modifies this
      ensures Valid()
      ensures betAmt == old(betAmt) && targetMult == old(targetMult) && crash == old(crash)
      ensures crashMult == old(crashMult)
      ensures Decide(curr, crash, targetMult, old(cashed)) == Crashed ==>
        && !running && !scheduled && currentMult == crash
        && cashed == old(cashed)
        && result == (if old(cashed) then old(result) else Some(Outcome(false, 0.0)))
        && history == PushHistory(old(history), crash)
      ensures Decide(curr, crash, targetMult, old(cashed)) == CashedOut ==>
        && !running && !scheduled && cashed && currentMult == targetMult
        && result == Some(Outcome(true, Payout(betAmt, targetMult)))
        && history == PushHistory(old(history), crash)
      ensures Decide(curr, crash, targetMult, old(cashed)) == KeepRunning ==>
        && running && scheduled && currentMult == curr
        && cashed == old(cashed) && result == old(result) && history == old(history)
    {
      // the frame that runs is no longer pending
      scheduled := false;
      if curr >= crash {
        currentMult := crash;
        running := false;
        if !cashed {
          result := Some(Outcome(false, 0.0));
        }
        history := PushHistory(history, crash);
        return;
      }
      if !cashed && curr >= targetMult {
        cashed := true;
        currentMult := targetMult;
        running := false;
        var payout := Payout(betAmt, targetMult);
        result := Some(Outcome(true, payout));
        history := PushHistory(history, crash);
        return;
      }
      currentMult := curr;
      scheduled := true;
    }

    /** `resetRound`: cancel the pending frame and clear the round. */
    method Reset()
      requires Valid()
      modifies this
      ensures Valid()
      ensures !running && !scheduled && !cashed
      ensures currentMult == 1.0 && crashMult == None && result == None
      ensures history == old(history)
      ensures betAmt == old(betAmt) && targetMult == old(targetMult) && crash == old(crash)
    {
      scheduled := false;
      cashed := false;
      running := false;
      currentMult := 1.0;
      crashMult := None;
      result := None;
    }
  }
}

/** The foreground mining session of the mining card. Its component state
    (counters, balance, level, active time, the three timer handles) lives in
    one object; every user action and every timer callback is one atomic step
    on the current state. Timer handles are the ids the host returned when the
    timer was registered; `None` is a cleared handle. */
module MiningCard {
  import opened Text
  import MiningUtils

  /** Experience granted by the card's own actions. */
  const BLOCK_EXP: real := 5.0
  const SHARE_EXP: real := 15.0
  const REFERRAL_LINK_EXP: real := 10.0
  const INVITE_EXP: real := 25.0

  /** Scoins credited for an invited friend. */
  const REFERRAL_SCOINS: real := 10.0

  const MAX_LEVEL: int := 10

  /** The card's local `addExp` on (level, exp): the threshold is
      `calculateExpRequired(level)`, and at most one level is gained. */
  function LocalExpStep(level: int, exp: real, amount: real): (int, real)
  {
    var newExp := exp + amount;
    var needed := MiningUtils.CalculateExpRequired(level) as real;
    if newExp >= needed && level < MAX_LEVEL then (level + 1, newExp - needed) else (level, newExp)
  }

  /** A level is gained exactly when the current level's threshold is
      reached below level 10, and that threshold is subtracted; the level
      stays within 1..10, experience stays non-negative, and no level is
      gained with less than 100 experience in hand. */
  lemma LocalExpStepEffect(level: int, exp: real, amount: real)
    requires 1 <= level <= MAX_LEVEL && exp >= 0.0 && amount >= 0.0
    ensures var (l, e) := LocalExpStep(level, exp, amount);
      var needed := MiningUtils.CalculateExpRequired(level) as real;
      (l == level + 1 <==> exp + amount >= needed && level < MAX_LEVEL)
      && (l == level + 1 ==> e == exp + amount - needed && exp + amount >= 100.0)
      && (l == level ==> e == exp + amount)
      && 1 <= l <= MAX_LEVEL && e >= 0.0
  {
    MiningUtils.ExpRequiredAtLeastBase(level);
  }

  /** Whether a finished block is followed by another: auto-mining is on
      and the active time is still below the 24-hour cap. */
  predicate ContinuesAfterBlock(autoMining: bool, activeMiningTime: int)
  {
    autoMining && activeMiningTime < MiningUtils.MAX_MINING_TIME
  }

  /** Timer ids handed out by the host are positive, so a held handle is truthy. */
  predicate HandleOk(h: Option<nat>)
  {
    h.Some? ==> h.value > 0
  }

  class Session {
    /** `calculateReward(level)`, supplied by the host (not part of this model). */
    const calculateReward: int -> real

    var isMining: bool
    var level: int
    var exp: real
    var successfulMines: int
    var totalAttempts: int
    var balance: real
    var scoins: real
    var activeMiningTime: int
    var successfulAnimation: bool
    var miningTimeout: Option<nat>
    var timeInterval: Option<nat>
    var progressTimer: Option<nat>
    var isMiningComplete: bool
    var autoMining: bool
    var miningDuration: int
    /** Set once a block has scheduled its 1.5 s continuation; nothing in the
        card clears it, so it records that a continuation was ever scheduled. */
    var restartScheduled: bool

    /** Counters move together, the level stays in 1..10, the active time
        within the cap, and a session that is not mining holds no timer handle. */
    ghost predicate Valid()
      reads this
    {
      successfulMines == totalAttempts && totalAttempts >= 0
      && 1 <= level <= MAX_LEVEL && exp >= 0.0
      && 0 <= activeMiningTime <= MiningUtils.MAX_MINING_TIME
      && (!isMining ==> miningTimeout.None? && timeInterval.None? && progressTimer.None?)
      && HandleOk(miningTimeout) && HandleOk(timeInterval) && HandleOk(progressTimer)
    }

    constructor (calculateReward: int -> real)
      ensures Valid() && this.calculateReward == calculateReward
      ensures !isMining && level == 1 && exp == 0.0 && successfulMines == 0 && totalAttempts == 0
      ensures balance == 0.0 && scoins == 0.0 && activeMiningTime == 0 && autoMining
      ensures miningTimeout.None? && timeInterval.None? && progressTimer.None?
      ensures !isMiningComplete && !successfulAnimation && miningDuration == 30000 && !restartScheduled
    {
      this.calculateReward := calculateReward;
      isMining := false;
      level := 1;
      exp := 0.0;
      successfulMines := 0;
      totalAttempts := 0;
      balance := 0.0;
      scoins := 0.0;
      activeMiningTime := 0;
      successfulAnimation := false;
      miningTimeout := None;
      timeInterval := None;
      progressTimer := None;
      isMiningComplete := false;
      autoMining := true;
      miningDuration := 30000;
      restartScheduled := false;
    }

    /** `addExp` (local). */
    method AddExp(amount: real)
      requires Valid() && amount >= 0.0
      modifies this`level, this`exp
      ensures Valid()
      ensures (level, exp) == LocalExpStep(old(level), old(exp), amount)
    {
      LocalExpStepEffect(level, exp, amount);
      var newExp := exp + amount;
      var expNeeded := MiningUtils.CalculateExpRequired(level) as real;
      if newExp >= expNeeded && level < MAX_LEVEL {
        level := level + 1;
        exp := newExp - expNeeded;
      } else {
        exp := newExp;
      }
    }

    /** `startMining`: a no-op while mining; otherwise it marks the session
        as mining and registers the block timeout (after `duration` ms), the
        progress interval and the time-tracking interval under the given ids. */
    method StartMining(duration: int, timeoutId: nat, progressId: nat, trackerId: nat)
      requires Valid() && timeoutId > 0 && progressId > 0 && trackerId > 0
      modifies this
      ensures Valid()
      ensures old(isMining) ==> unchanged(this)
      ensures !old(isMining) ==>
        isMining && !successfulAnimation && !isMiningComplete && miningDuration == duration
        && miningTimeout == Some(timeoutId) && progressTimer == Some(progressId) && timeInterval == Some(trackerId)
        && level == old(level) && exp == old(exp) && successfulMines == old(successfulMines)
        && totalAttempts == old(totalAttempts) && balance == old(balance) && scoins == old(scoins)
        && activeMiningTime == old(activeMiningTime) && autoMining == old(autoMining)
        && restartScheduled == old(restartScheduled)
    {
      if isMining {
        return;
      }
      isMining := true;
      successfulAnimation := false;
      isMiningComplete := false;
      miningDuration := duration;
      miningTimeout := Some(timeoutId);
      progressTimer := Some(progressId);
      timeInterval := Some(trackerId);
    }

    /** `stopMining`: not mining, and all three handles cleared (each one is
        cleared only when it is truthy, which every held handle is). */
    method StopMining()
      requires Valid()
      modifies this
      ensures Valid()
      ensures !isMining && miningTimeout.None? && timeInterval.None? && progressTimer.None?
      ensures level == old(level) && exp == old(exp) && successfulMines == old(successfulMines)
      ensures totalAttempts == old(totalAttempts) && balance == old(balance) && scoins == old(scoins)
      ensures activeMiningTime == old(activeMiningTime) && autoMining == old(autoMining)
      ensures successfulAnimation == old(successfulAnimation) && isMiningComplete == old(isMiningComplete)
      ensures miningDuration == old(miningDuration) && restartScheduled == old(restartScheduled)
    {
      isMining := false;
      if miningTimeout.Some? && miningTimeout.value != 0 {
        miningTimeout := None;
      }
      if timeInterval.Some? && timeInterval.value != 0 {
        timeInterval := None;
      }
      if progressTimer.Some? && progressTimer.value != 0 {
        progressTimer := None;
      }
    }

    /** One tick of the time-tracking interval: add a second below the cap;
        at the cap, stop the session when auto-mining is off. */
    method TickTime()
      requires Valid()
      modifies this
      ensures Valid()
      ensures old(activeMiningTime) < MiningUtils.MAX_MINING_TIME ==>
        activeMiningTime == old(activeMiningTime) + 1 && isMining == old(isMining)
        && miningTimeout == old(miningTimeout) && timeInterval == old(timeInterval)
        && progressTimer == old(progressTimer)
      ensures old(activeMiningTime) >= MiningUtils.MAX_MINING_TIME ==>
        activeMiningTime == old(activeMiningTime)
        && (old(autoMining) ==> isMining == old(isMining) && timeInterval == old(timeInterval)
                                && miningTimeout == old(miningTimeout) && progressTimer == old(progressTimer))
        && (!old(autoMining) ==> !isMining && miningTimeout.None? && timeInterval.None? && progressTimer.None?)
      ensures level == old(level) && exp == old(exp) && totalAttempts == old(totalAttempts)
      ensures successfulMines == old(successfulMines)
      ensures balance == old(balance) && scoins == old(scoins) && autoMining == old(autoMining)
      ensures isMiningComplete == old(isMiningComplete) && successfulAnimation == old(successfulAnimation)
      ensures miningDuration == old(miningDuration) && restartScheduled == old(restartScheduled)
    {
      if activeMiningTime >= MiningUtils.MAX_MINING_TIME {
        if !autoMining {
          StopMining();
        }
      } else {
        activeMiningTime := activeMiningTime + 1;
      }
    }

    /** `processMiningBlock`, run when the block timeout fires: one more
        attempt and one more success, the level's reward added to the balance,
        5 experience; then either a continuation is scheduled (auto-mining on
        and time left) or the session is marked complete and stopped. */
    method ProcessMiningBlock()
      requires Valid()
      modifies this
      ensures Valid()
      ensures totalAttempts == old(totalAttempts) + 1 && successfulMines == old(successfulMines) + 1
      ensures balance == old(balance) + calculateReward(old(level))
      ensures (level, exp) == LocalExpStep(old(level), old(exp), BLOCK_EXP)
      ensures successfulAnimation && activeMiningTime == old(activeMiningTime) && scoins == old(scoins)
      ensures autoMining == old(autoMining) && miningDuration == old(miningDuration)
      ensures ContinuesAfterBlock(old(autoMining), old(activeMiningTime)) ==>
        !isMiningComplete && restartScheduled && isMining == old(isMining)
        && miningTimeout == old(miningTimeout) && timeInterval == old(timeInterval)
        && progressTimer == old(progressTimer)
      ensures !ContinuesAfterBlock(old(autoMining), old(activeMiningTime)) ==>
        isMiningComplete && !isMining
        && miningTimeout.None? && timeInterval.None? && progressTimer.None?
        && restartScheduled == old(restartScheduled)
    {
      var miningReward := calculateReward(level);
      totalAttempts := totalAttempts + 1;
      successfulMines := successfulMines + 1;
      balance := balance + miningReward;
      successfulAnimation := true;
      AddExp(BLOCK_EXP);
      if autoMining && activeMiningTime < MiningUtils.MAX_MINING_TIME {
        isMiningComplete := false;
        restartScheduled := true;
      } else {
        isMiningComplete := true;
        StopMining();
      }
    }

    /** `toggleAutoMining`. */
    method ToggleAutoMining()
      requires Valid()
      modifies this`autoMining
      ensures Valid() && autoMining == !old(autoMining)
    {
      autoMining := !autoMining;
    }

    /** `shareOnSocial`: 15 experience. */
    method ShareOnSocial()
      requires Valid()
      modifies this`level, this`exp
      ensures Valid() && (level, exp) == LocalExpStep(old(level), old(exp), SHARE_EXP)
    {
      AddExp(SHARE_EXP);
    }

    /** The clipboard callback of `copyReferralLink`: 10 experience at levels 2, 5 and 8 only. */
    method CopyReferralLink()
      requires Valid()
      modifies this`level, this`exp
      ensures Valid()
      ensures old(level) in {2, 5, 8} ==> (level, exp) == LocalExpStep(old(level), old(exp), REFERRAL_LINK_EXP)
      ensures old(level) !in {2, 5, 8} ==> level == old(level) && exp == old(exp)
    {
      if level == 2 || level == 5 || level == 8 {
        AddExp(REFERRAL_LINK_EXP);
      }
    }

    /** `inviteFriend`: 25 experience and 10 Scoins. */
    method InviteFriend()
      requires Valid()
      modifies this`level, this`exp, this`scoins
      ensures Valid()
      ensures (level, exp) == LocalExpStep(old(level), old(exp), INVITE_EXP)
      ensures scoins == old(scoins) + REFERRAL_SCOINS
    {
      AddExp(INVITE_EXP);
      scoins := scoins + REFERRAL_SCOINS;
    }

    /** `resetStats`: any active session is stopped; counters, balance,
        active time, experience and Scoins go to zero and the level to 1;
        the auto-mining choice is kept. */
    method ResetStats()
      requires Valid()
      modifies this
      ensures Valid()
      ensures !isMining && miningTimeout.None? && timeInterval.None? && progressTimer.None?
      ensures successfulMines == 0 && totalAttempts == 0 && balance == 0.0 && activeMiningTime == 0
      ensures level == 1 && exp == 0.0 && scoins == 0.0
      ensures !successfulAnimation && !isMiningComplete
      ensures autoMining == old(autoMining) && miningDuration == old(miningDuration)
      ensures restartScheduled == old(restartScheduled)
    {
      if isMining {
        StopMining();
      }
      successfulMines := 0;
      totalAttempts := 0;
      balance := 0.0;
      activeMiningTime := 0;
      successfulAnimation := false;
      isMiningComplete := false;
      level := 1;
      exp := 0.0;
      scoins := 0.0;
    }
  }
}

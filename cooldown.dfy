/** The L2 trigger throttle (diagnostic_l2/cooldown.py): per `asset:point`
    key, the time of the last L2 trigger, and a cooldown that depends on the
    early-fault state (WARNING or ALARM; every other state never triggers). */
module Cooldown {
  import opened Features

  class L2CooldownManager {
    const warningSec: int
    const alarmSec: int
    /** `last_trigger`: key -> the time of the last trigger. */
    var lastTrigger: map<string, real>

    constructor (warningSec: int, alarmSec: int)
      ensures this.warningSec == warningSec && this.alarmSec == alarmSec
      ensures lastTrigger == map[]
    {
      this.warningSec := warningSec;
      this.alarmSec := alarmSec;
      lastTrigger := map[];
    }

    /** `_cooldown_for_state`: the cooldown of a state string, `None` for any
        state other than "WARNING" and "ALARM". */
    function CooldownForState(state: string): (c: Option<int>)
      ensures c.Some? <==> state == "WARNING" || state == "ALARM"
      ensures state == "WARNING" ==> c == Some(warningSec)
      ensures state == "ALARM" ==> c == Some(alarmSec)
    {
      if state == "WARNING" then Some(warningSec)
      else if state == "ALARM" then Some(alarmSec)
      else None
    }

    /** `can_trigger` at time `now`: a state with a cooldown triggers when the
        key was never triggered, or when its cooldown has elapsed since. */
    function CanTrigger(asset: string, point: string, state: string, now: real): (r: bool)
      reads this
      ensures state != "WARNING" && state != "ALARM" ==> !r
      ensures (state == "WARNING" || state == "ALARM") && JoinKey(asset, point) !in lastTrigger ==> r
      ensures state == "WARNING" && JoinKey(asset, point) in lastTrigger ==>
        (r <==> now - lastTrigger[JoinKey(asset, point)] >= warningSec as real)
      ensures state == "ALARM" && JoinKey(asset, point) in lastTrigger ==>
        (r <==> now - lastTrigger[JoinKey(asset, point)] >= alarmSec as real)
    {
      var key := JoinKey(asset, point);
      match CooldownForState(state)
      case None => false
      case Some(cooldown) =>
        if key !in lastTrigger then true
        else now - lastTrigger[key] >= cooldown as real
    }

    /** `mark_triggered`: records `now` as the key's last trigger, one time
        shared by both severities. */
    method MarkTriggered(asset: string, point: string, now: real)
      modifies this
      ensures lastTrigger == old(lastTrigger)[JoinKey(asset, point) := now]
    {
      lastTrigger := lastTrigger[JoinKey(asset, point) := now];
    }
  }

  /** Throttling: right after a trigger at `t`, the key triggers again at `now`
      exactly when the state's cooldown has elapsed. */
  lemma ThrottledUntilCooldown(m: L2CooldownManager, asset: string, point: string, state: string, t: real, now: real)
    requires JoinKey(asset, point) in m.lastTrigger && m.lastTrigger[JoinKey(asset, point)] == t
    requires state == "WARNING" || state == "ALARM"
    ensures m.CanTrigger(asset, point, state, now) <==> now - t >= m.CooldownForState(state).value as real
  {
  }

  /** Once the cooldown has elapsed it stays elapsed: triggering is monotone
      in time while no new trigger is marked. */
  lemma CanTriggerLater(m: L2CooldownManager, asset: string, point: string, state: string, now: real, later: real)
    requires now <= later && m.CanTrigger(asset, point, state, now)
    ensures m.CanTrigger(asset, point, state, later)
  {
  }

  /** Two sensors whose `asset:point` keys coincide share one cooldown: a
      trigger of ("pump:1", "de") throttles ("pump", "1:de"). */
  lemma SharedCooldownOnKeyCollision(m: L2CooldownManager, now: real)
    requires m.warningSec > 0
    requires JoinKey("pump:1", "de") in m.lastTrigger && m.lastTrigger[JoinKey("pump:1", "de")] == now
    ensures !m.CanTrigger("pump", "1:de", "WARNING", now)
  {
    JoinKeyCollision();
  }
}

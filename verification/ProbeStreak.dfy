/** The failover watcher's probe-failure streak (internal/controller/failover_monitor.go). */
module ProbeStreak {
  /** `failingSince` is 0 when the last probe succeeded or there was nothing to probe. */
  datatype Streak = Streak(masterIP: string, failingSince: int, fired: bool)

  datatype Tick = Tick(masterIP: string, ok: bool, now: int, downAfter: int)

  const NO_STREAK := Streak("", 0, false)

  function Advance(prev: Streak, t: Tick): (Streak, bool) {
    if t.masterIP == "" then (NO_STREAK, false)
    else if t.ok then (Streak(t.masterIP, 0, false), false)
    else
      var next := if prev.masterIP != t.masterIP || prev.failingSince == 0 then Streak(t.masterIP, t.now, false) else prev;
      if !next.fired && t.now - next.failingSince >= t.downAfter then (next.(fired := true), true) else (next, false)
  }

  /** The state before tick `t`. */
  function StreakAt(ticks: seq<Tick>, t: nat): Streak
    requires t <= |ticks|
  {
    if t == 0 then NO_STREAK else Advance(StreakAt(ticks, t - 1), ticks[t - 1]).0
  }

  predicate Fires(ticks: seq<Tick>, t: nat)
    requires t < |ticks|
  {
    Advance(StreakAt(ticks, t), ticks[t]).1
  }

  /** The ticker loop; `fired` lists the ticks that pushed the event. */
  method Watch(ticks: seq<Tick>) returns (fired: seq<nat>)
    ensures forall t :: t in fired <==> 0 <= t < |ticks| && Fires(ticks, t)
    ensures forall i, j :: 0 <= i < j < |fired| ==> fired[i] < fired[j]
  {
    fired := [];
    var streak := NO_STREAK;
    for t := 0 to |ticks|
      invariant streak == StreakAt(ticks, t)
      invariant forall u :: u in fired <==> 0 <= u < t && Fires(ticks, u)
      invariant forall i, j :: 0 <= i < j < |fired| ==> fired[i] < fired[j]
    {
      var (next, fire) := Advance(streak, ticks[t]);
      streak := next;
      if fire {
        assert forall i :: 0 <= i < |fired| ==> fired[i] in fired;
        fired := fired + [t];
      }
    }
  }

  // --------------------------------------------------- what a streak should be

  predicate Failing(t: Tick) {
    t.masterIP != "" && !t.ok
  }

  /** First tick of the maximal run of failures against one address that tick `t` belongs to. */
  function Start(ticks: seq<Tick>, t: nat): (i: nat)
    requires t < |ticks| && Failing(ticks[t])
    ensures i <= t && forall j :: i <= j <= t ==> Failing(ticks[j]) && ticks[j].masterIP == ticks[t].masterIP
    ensures i == 0 || !Failing(ticks[i - 1]) || ticks[i - 1].masterIP != ticks[t].masterIP
  {
    if t > 0 && Failing(ticks[t - 1]) && ticks[t - 1].masterIP == ticks[t].masterIP then Start(ticks, t - 1) else t
  }

  /** The run that began at `i` is old enough at tick `j`. */
  predicate Reached(ticks: seq<Tick>, i: nat, j: nat)
    requires i < |ticks| && j < |ticks|
  {
    ticks[j].now - ticks[i].now >= ticks[j].downAfter
  }

  ghost predicate EverReached(ticks: seq<Tick>, i: nat, t: nat)
    requires i <= t < |ticks|
  {
    exists j | i <= j <= t :: Reached(ticks, i, j)
  }

  lemma {:induction false} ReachedNowOrBefore(ticks: seq<Tick>, i: nat, t: nat)
    requires i <= t < |ticks|
    ensures EverReached(ticks, i, t) <==> Reached(ticks, i, t) || (i < t && EverReached(ticks, i, t - 1))
  {
    if EverReached(ticks, i, t) {
      var j :| i <= j <= t && Reached(ticks, i, j);
      assert j < t ==> EverReached(ticks, i, t - 1);
    }
  }

  lemma {:induction false} StreakTracksRun(ticks: seq<Tick>, t: nat)
    requires t < |ticks| && forall i :: 0 <= i < |ticks| ==> ticks[i].now > 0
    ensures var s := StreakAt(ticks, t + 1);
            if Failing(ticks[t]) then
              && s.masterIP == ticks[t].masterIP && s.failingSince == ticks[Start(ticks, t)].now
              && (s.fired <==> EverReached(ticks, Start(ticks, t), t))
            else s.failingSince == 0
  {
    if t > 0 { StreakTracksRun(ticks, t - 1); }
    if Failing(ticks[t]) { ReachedNowOrBefore(ticks, Start(ticks, t), t); }
  }

  /** The event is pushed at a tick exactly when it is the first tick of its run whose age has reached
      the window then in force. */
  lemma {:induction false} FiresIff(ticks: seq<Tick>, t: nat)
    requires t < |ticks| && forall i :: 0 <= i < |ticks| ==> ticks[i].now > 0
    ensures Fires(ticks, t) <==>
            Failing(ticks[t]) && Reached(ticks, Start(ticks, t), t) && forall j :: Start(ticks, t) <= j < t ==> !Reached(ticks, Start(ticks, t), j)
  {
    if t > 0 { StreakTracksRun(ticks, t - 1); }
    if Failing(ticks[t]) && Start(ticks, t) < t {
      var i := Start(ticks, t);
      assert EverReached(ticks, i, t - 1) <==> exists j | i <= j < t :: Reached(ticks, i, j);
    }
  }

  /** Hence at most once per run. */
  lemma {:induction false} FiresOncePerRun(ticks: seq<Tick>, t: nat, u: nat)
    requires t < u < |ticks| && forall i :: 0 <= i < |ticks| ==> ticks[i].now > 0
    requires Fires(ticks, t) && Fires(ticks, u)
    ensures Start(ticks, t) < Start(ticks, u)
  {
    FiresIff(ticks, t);
    FiresIff(ticks, u);
    if Start(ticks, u) <= t {
      SameRun(ticks, t, u);
    }
  }

  lemma {:induction false} SameRun(ticks: seq<Tick>, t: nat, u: nat)
    requires t <= u < |ticks| && Failing(ticks[u]) && Start(ticks, u) <= t
    ensures Failing(ticks[t]) && Start(ticks, t) == Start(ticks, u)
    decreases u
  {
    if t < u { SameRun(ticks, t, u - 1); }
  }
}

/** Evidence, budget and release of the quarantine, over every run of passes from a fresh status,
    whatever status writes are lost. */
module QuarantineTheorems {
  import opened Common
  import opened Sentinels
  import opened Capture
  import opened Quarantine

  ghost predicate ClockRuns(passes: seq<Pass>) {
    && (forall i :: 0 <= i < |passes| ==> 0 < passes[i].now <= passes[i].stamp)
    && (forall i, j :: 0 <= i < j < |passes| ==> passes[i].stamp <= passes[j].now)
  }

  ghost predicate IsRun(states: seq<Status>, passes: seq<Pass>, dangerous: bool) {
    && |states| == |passes| + 1 && states[0] == Status(None, None, 0) && ClockRuns(passes)
    && forall i :: 0 <= i < |passes| ==> states[i + 1] == Step(states[i], passes[i], dangerous)
  }

  /** The invariant of the lifecycle: attempts are bounded, an unarmed instance has one left, and a
      quarantine never outlives the capture marker it was armed on. */
  ghost predicate Inv(s: Status, dangerous: bool) {
    && 0 <= s.attempts <= AttemptLimit(dangerous)
    && (s.quarantinedSince.None? ==> s.attempts < AttemptLimit(dangerous))
    && (s.quarantinedSince.Some? ==> s.quarantinedSince.value > 0 && s.attempts > 0 && s.forsakenSince.Some?)
    && (s.forsakenSince.Some? ==> s.forsakenSince.value > 0)
  }

  lemma {:induction false} StepKeepsInv(s: Status, p: Pass, dangerous: bool)
    requires Inv(s, dangerous) && p.stamp > 0
    ensures Inv(Step(s, p, dangerous), dangerous)
  {
  }

  lemma {:induction false} RunKeepsInv(states: seq<Status>, passes: seq<Pass>, dangerous: bool, t: nat)
    requires IsRun(states, passes, dangerous) && t < |states|
    ensures Inv(states[t], dangerous)
  {
    if t > 0 {
      RunKeepsInv(states, passes, dangerous, t - 1);
      StepKeepsInv(states[t - 1], passes[t - 1], dangerous);
    }
  }

  // ---------------------------------------------------------------- evidence

  /** The pass saw the signature, or its retraction was lost. */
  ghost predicate Upholds(p: Pass) {
    Signature(p.gather).Some? || !p.landed
  }

  /** Pass `i` put up the marker that state `t` shows, outside a rollout and on the signature, and every
      pass since upheld it. */
  ghost predicate Evidence(states: seq<Status>, passes: seq<Pass>, i: nat, t: nat) {
    && i < t < |states| && |states| == |passes| + 1
    && states[t].forsakenSince == Some(passes[i].stamp)
    && passes[i].landed && !passes[i].rolling && Signature(passes[i].gather).Some?
    && forall j :: i <= j < t ==> Upholds(passes[j])
  }

  lemma {:induction false} MarkerHasEvidence(states: seq<Status>, passes: seq<Pass>, dangerous: bool, t: nat) returns (i: nat)
    requires IsRun(states, passes, dangerous) && t < |states|
    requires states[t].forsakenSince.Some? && states[t].quarantinedSince.None?
    ensures Evidence(states, passes, i, t)
  {
    RunKeepsInv(states, passes, dangerous, t - 1);
    var s, p := states[t - 1], passes[t - 1];
    if s.forsakenSince.None? {
      i := t - 1;
    } else {
      i := MarkerHasEvidence(states, passes, dangerous, t - 1);
    }
  }

  /** The pass that arms: at least the cooldown before it, a pass outside any rollout saw the signature
      and every pass since upheld it; and every gathered pod is empty, a copy of the captor, or down. */
  lemma {:induction false} ArmsOnSustainedEvidence(states: seq<Status>, passes: seq<Pass>, dangerous: bool, t: nat) returns (i: nat)
    requires IsRun(states, passes, dangerous) && t < |passes| && Decision(states[t], passes[t], dangerous).arm
    ensures Evidence(states, passes, i, t) && passes[t].now - passes[i].stamp >= FORSAKEN_COOLDOWN
    ensures Signature(passes[t].gather).Some?
    ensures forall ip <- passes[t].gather.redis :: var rn := passes[t].gather.redis[ip];
              if rn.reachable then rn.keys <= 0 || (Some(rn.masterHost) == Signature(passes[t].gather) && rn.link.LinkUp?)
              else !rn.authFailed && rn.podName in passes[t].ready && !passes[t].ready[rn.podName]
  {
    RunKeepsInv(states, passes, dangerous, t);
    i := MarkerHasEvidence(states, passes, dangerous, t);
    var g := passes[t].gather;
    var foreign := Signature(g).value;
    forall ip | ip in g.redis
      ensures var rn := g.redis[ip];
              if rn.reachable then rn.keys <= 0 || CaptorsCopy(rn, foreign)
              else !rn.authFailed && rn.podName in passes[t].ready && !passes[t].ready[rn.podName]
    {
      assert !MayHoldTheOnlyCopy(g.redis[ip], foreign) && !CannotBeProvenEmpty(g.redis[ip], passes[t].ready);
    }
  }

  lemma {:induction false} TwoStrangers(sn: SentinelNode, g: Gather)
    requires sn == SentinelNode("s", "", true, true, "9.9.9.9", "", [])
    requires g == Gather(map[], map["a" := sn, "b" := sn], {}, {}, "", false)
    ensures Signature(g).Some?
  {
    assert Observed(sn) == [MonitoredMaster("", "9.9.9.9", "", "")];
    assert Speaking(g) == {"a", "b"} && |{"a", "b"}| == 2;
    assert AllName(g, Speaking(g), "9.9.9.9");
    SignatureIs(g, "9.9.9.9");
  }

  /** The exception is real: a pass that sees nothing, and whose retraction is lost, does not restart
      the cooldown. */
  lemma {:induction false} LostRetractionStillArms() returns (states: seq<Status>, passes: seq<Pass>)
    ensures IsRun(states, passes, false) && |passes| == 3
    ensures Signature(passes[1].gather).None? && !passes[1].landed
    ensures Decision(states[2], passes[2], false).arm
  {
    var sn := SentinelNode("s", "", true, true, "9.9.9.9", "", []);
    var seen := Gather(map[], map["a" := sn, "b" := sn], {}, {}, "", false);
    var none := Gather(map[], map[], {}, {}, "", false);
    TwoStrangers(sn, seen);
    assert Speaking(none) == {};
    passes := [Pass(seen, map[], false, 1, 1, false, true), Pass(none, map[], false, 2, 2, false, false),
               Pass(seen, map[], false, 31, 31, false, true)];
    var marked := Status(Some(1), None, 0);
    assert Step(Status(None, None, 0), passes[0], false) == marked;
    assert Decision(marked, passes[2], false).arm;
    states := [Status(None, None, 0), marked, marked, Step(marked, passes[2], false)];
  }

  // ------------------------------------------------------------ what a pass does

  /** The capture signature stands, and a rollout of our own does not keep it from being a verdict. */
  ghost predicate CaptureSeen(s: Status, p: Pass) {
    Signature(p.gather).Some? && (p.rolling ==> Armed(s.forsakenSince))
  }

  ghost predicate CooledDown(s: Status, p: Pass) {
    Armed(s.forsakenSince) && p.now - s.forsakenSince.value >= 30
  }

  ghost predicate Settles(s: Status, p: Pass) {
    Armed(s.quarantinedSince) && p.now - s.quarantinedSince.value < 120
  }

  /** Every phase by its condition, for either configuration: an armed instance is latched once its budget
      is spent, settles for the period and is then released, whatever is gathered; an unarmed one is
      quarantined on a capture that has cooled down and puts no data at risk, and otherwise held for the
      first of these that fails. */
  lemma {:induction false} PhaseIff(s: Status, p: Pass, dangerous: bool)
    ensures var phase := Decision(s, p, dangerous).phase;
            var armed, spent := Armed(s.quarantinedSince), s.attempts >= (if dangerous then 1 else 2);
            var foreign := if CaptureSeen(s, p) then Signature(p.gather).value else "";
            var redis := p.gather.redis;
            var atRisk := exists ip :: ip in redis && redis[ip].reachable && redis[ip].keys > 0 &&
                                       !(foreign != "" && redis[ip].masterHost == foreign && redis[ip].link.LinkUp?);
            var unverified := exists ip :: ip in redis && !redis[ip].reachable &&
                                           (redis[ip].authFailed || redis[ip].podName !in p.ready || p.ready[redis[ip].podName]);
            && (phase == Latched <==> armed && spent)
            && (phase == Settling <==> armed && !spent && Settles(s, p))
            && (phase == Release <==> armed && !spent && !Settles(s, p))
            && (phase == NoQuarantine <==> !armed && !CaptureSeen(s, p))
            && (phase == HoldDataPresent <==> !armed && CaptureSeen(s, p) && atRisk)
            && (phase == HoldDataUnknown <==> !armed && CaptureSeen(s, p) && !atRisk && unverified)
            && (phase == HoldSuspected <==> !armed && CaptureSeen(s, p) && !atRisk && !unverified && !CooledDown(s, p))
            && (phase == QuarantinePhase.Start <==> !armed && CaptureSeen(s, p) && !atRisk && !unverified && CooledDown(s, p))
  {
  }

  /** What is done and persisted, by phase: no pods while latched, settling or just armed; the marker and
      one more attempt on arming; the marker gone on a release; and the counter back to zero only when a
      pass without quarantine or capture finds the instance Running. */
  lemma {:induction false} PassEffectIff(s: Status, p: Pass, dangerous: bool)
    requires Inv(s, dangerous) && p.stamp > 0
    ensures var q, s' := Decision(s, p, dangerous), Step(s, p, dangerous);
            && (q.scaleToZero <==> q.phase in {Latched, Settling, QuarantinePhase.Start})
            && (!p.landed ==> s' == s)
            && (p.landed && q.phase == QuarantinePhase.Start ==> s' == Status(s.forsakenSince, Some(p.stamp), s.attempts + 1))
            && (p.landed && q.phase in {Latched, Settling} ==> s' == s)
            && (p.landed && q.phase == Release && !CaptureSeen(s, p) ==> s'.forsakenSince == None && s'.quarantinedSince == None)
            && (p.landed && q.phase !in {Latched, Settling, QuarantinePhase.Start} && CaptureSeen(s, p) ==>
                  s' == s.(forsakenSince := if s.forsakenSince.Some? then s.forsakenSince else Some(p.stamp)))
            && (p.landed && q.phase in {NoQuarantine, Release} && !CaptureSeen(s, p) ==>
                  s' == Status(None, None, if p.running then 0 else s.attempts))
            && (s'.attempts < s.attempts <==> p.landed && p.running && s.attempts > 0 && q.phase in {NoQuarantine, Release} && !CaptureSeen(s, p))
  {
    PhaseIff(s, p, dangerous);
  }

  /** Along a run the replicas wanted before the gather are none for an armed sentinel instance whose
      budget is spent or whose settling period runs, and three and three for everyone else. */
  lemma {:induction false} ReplicasWanted(states: seq<Status>, passes: seq<Pass>, dangerous: bool, t: nat, sentinelMode: bool, now: int)
    requires IsRun(states, passes, dangerous) && t < |states|
    ensures var s := states[t];
            var down := && sentinelMode && s.quarantinedSince.Some?
                        && (s.attempts >= (if dangerous then 1 else 2) || now - s.quarantinedSince.value < 120);
            DesiredReplicas(s, sentinelMode, dangerous, now) == if down then (0, 0) else (3, 3)
  {
    RunKeepsInv(states, passes, dangerous, t);
  }

  // ------------------------------------------------------------------ budget

  lemma {:induction false} LatchedForever(states: seq<Status>, passes: seq<Pass>, dangerous: bool, t: nat, u: nat, now: int)
    requires IsRun(states, passes, dangerous) && t <= u < |states|
    requires states[t].quarantinedSince.Some? && states[t].attempts >= AttemptLimit(dangerous)
    ensures states[u].quarantinedSince == states[t].quarantinedSince && states[u].attempts == states[t].attempts
    ensures DesiredReplicas(states[u], true, dangerous, now) == (0, 0)
    decreases u
  {
    RunKeepsInv(states, passes, dangerous, u);
    if u > t {
      LatchedForever(states, passes, dangerous, t, u - 1, now);
      RunKeepsInv(states, passes, dangerous, u - 1);
    }
  }

  /** Once armed, the gather has no say: the decision after it is the one made before it. */
  lemma {:induction false} GatherHasNoSayWhileArmed(states: seq<Status>, passes: seq<Pass>, dangerous: bool, t: nat, now: int)
    requires IsRun(states, passes, dangerous) && t < |passes| && states[t].quarantinedSince.Some?
    ensures DesiredReplicas(states[t], true, dangerous, passes[t].now) == (0, 0) <==> Decision(states[t], passes[t], dangerous).scaleToZero
    ensures now <= passes[t].now && Decision(states[t], passes[t], dangerous).scaleToZero ==> DesiredReplicas(states[t], true, dangerous, now) == (0, 0)
    ensures now >= passes[t].now && !Decision(states[t], passes[t], dangerous).scaleToZero ==> DesiredReplicas(states[t], true, dangerous, now) == (SENTINEL_REPLICAS, SENTINEL_REPLICAS)
  {
    RunKeepsInv(states, passes, dangerous, t);
  }

  /** An armed quarantine is kept up for the whole settling period, whatever the gathers say and
      whatever writes are lost. */
  lemma {:induction false} SettlesInFull(states: seq<Status>, passes: seq<Pass>, dangerous: bool, t: nat, u: nat)
    requires IsRun(states, passes, dangerous) && t < u < |states|
    requires Decision(states[t], passes[t], dangerous).arm && passes[t].landed
    requires forall j :: t < j < u ==> passes[j].now < passes[t].stamp + SETTLE_PERIOD
    ensures states[u].quarantinedSince == Some(passes[t].stamp)
    ensures forall now :: now < passes[t].stamp + SETTLE_PERIOD ==> DesiredReplicas(states[u], true, dangerous, now) == (0, 0)
    decreases u
  {
    if u == t + 1 {
      assert passes[t].stamp > 0;
    } else {
      SettlesInFull(states, passes, dangerous, t, u - 1);
      var before := states[u - 1];
      assert passes[u - 1].now < passes[t].stamp + SETTLE_PERIOD;
      assert Decision(before, passes[u - 1], dangerous).scaleToZero;
    }
  }

  // ----------------------------------------------------------------- release

  ghost predicate Due(s: Status, p: Pass, dangerous: bool) {
    Armed(s.quarantinedSince) && Decision(s, p, dangerous).clear
  }

  /** A release that is due is recorded exactly when its write lands and the signature is gone. */
  lemma {:induction false} ReleaseIsRecordedIff(states: seq<Status>, passes: seq<Pass>, dangerous: bool, t: nat)
    requires IsRun(states, passes, dangerous) && t < |passes| && Due(states[t], passes[t], dangerous)
    ensures Step(states[t], passes[t], dangerous).quarantinedSince.None? <==> passes[t].landed && Signature(passes[t].gather).None?
  {
    RunKeepsInv(states, passes, dangerous, t);
  }

  /** So a recapture that is seen before the release was recorded is never quarantined again: for as
      long as it lasts the pods run and no pass arms. */
  lemma {:induction false} RecaptureBeforeReleaseNeverArms(states: seq<Status>, passes: seq<Pass>, dangerous: bool, t: nat, u: nat)
    requires IsRun(states, passes, dangerous) && t <= u < |passes| && Due(states[t], passes[t], dangerous)
    requires forall j :: t <= j <= u ==> Signature(passes[j].gather).Some?
    ensures states[u].quarantinedSince == states[t].quarantinedSince && states[u].attempts == states[t].attempts
    ensures !Decision(states[u], passes[u], dangerous).arm
    ensures DesiredReplicas(states[u], true, dangerous, passes[u].now) == (SENTINEL_REPLICAS, SENTINEL_REPLICAS)
    decreases u
  {
    RunKeepsInv(states, passes, dangerous, t);
    if u > t {
      RecaptureBeforeReleaseNeverArms(states, passes, dangerous, t, u - 1);
      RunKeepsInv(states, passes, dangerous, u - 1);
      assert passes[t].now <= passes[t].stamp <= passes[u].now;
    }
  }

  /** It happens: armed, settled, the release write lost, and then the signature again. */
  lemma {:induction false} LostReleaseLetsTheCaptorStay() returns (states: seq<Status>, passes: seq<Pass>)
    ensures IsRun(states, passes, false) && |passes| == 4
    ensures Due(states[3], passes[3], false) && Signature(passes[3].gather).Some?
    ensures !Decision(states[3], passes[3], false).arm && DesiredReplicas(states[3], true, false, passes[3].now) == (3, 3)
  {
    var sn := SentinelNode("s", "", true, true, "9.9.9.9", "", []);
    var seen := Gather(map[], map["a" := sn, "b" := sn], {}, {}, "", false);
    var none := Gather(map[], map[], {}, {}, "", false);
    TwoStrangers(sn, seen);
    assert Speaking(none) == {};
    var due := 31 + SETTLE_PERIOD;
    passes := [Pass(seen, map[], false, 1, 1, false, true), Pass(seen, map[], false, 31, 31, false, true),
               Pass(none, map[], false, due, due, false, false), Pass(seen, map[], false, due + 1, due + 1, false, true)];
    var unmarked, marked, armed := Status(None, None, 0), Status(Some(1), None, 0), Status(Some(1), Some(31), 1);
    assert Step(unmarked, passes[0], false) == marked;
    assert Step(marked, passes[1], false) == armed;
    assert Decision(armed, passes[3], false).clear;
    states := [unmarked, marked, armed, armed, Step(armed, passes[3], false)];
  }
}

/** The quarantine lifecycle over persisted status: what one sentinel pass writes, and what every run of
    passes keeps (internal/controller/littlered_controller.go). */
module Quarantine {
  import opened Common
  import opened Sentinels
  import opened Capture

  datatype Status = Status(forsakenSince: Option<int>, quarantinedSince: Option<int>, attempts: int)

  /** What one pass meets: its gather, the kubelet's readiness view, whether our StatefulSet is rolling,
      the clock at the decision and at the write, whether status.phase is Running, and whether the
      status write lands. */
  datatype Pass = Pass(gather: Gather, ready: map<string, bool>, rolling: bool, now: int, stamp: int, running: bool, landed: bool)

  ghost function Verdict(s: Status, p: Pass): ForsakenPlan {
    PlanForsaken(Signature(p.gather), s.forsakenSince, p.now, p.rolling)
  }

  ghost function Decision(s: Status, p: Pass, dangerous: bool): QuarantinePlan {
    var v := Verdict(s, p);
    PlanQuarantine(QuarantineInput(v.captured, v.forsaken, AtRisk(p.gather, v.foreign), Unverified(p.gather, p.ready),
                                   s.quarantinedSince, s.attempts, dangerous, p.now))
  }

  function Stamped(s: Status, t: int, q: QuarantinePlan): Status {
    Status(if s.forsakenSince.None? then Some(t) else s.forsakenSince,
           if q.arm then Some(t) else s.quarantinedSince,
           if q.arm then q.nextAttempts else s.attempts)
  }

  function Cleared(s: Status, running: bool, q: QuarantinePlan): Status {
    var clearAttempts := running && s.attempts != 0;
    Status(None, if q.clear || clearAttempts then None else s.quarantinedSince, if clearAttempts then 0 else s.attempts)
  }

  ghost function Step(s: Status, p: Pass, dangerous: bool): Status {
    var q := Decision(s, p, dangerous);
    if !p.landed then s
    else if q.scaleToZero || Verdict(s, p).captured then Stamped(s, p.stamp, q)
    else Cleared(s, p.running, q)
  }

  /** Desired Redis and Sentinel replicas, decided before the gather from the marker alone. */
  function DesiredReplicas(s: Status, sentinelMode: bool, dangerous: bool, now: int): (int, int) {
    if sentinelMode && PlanQuarantine(QuarantineInput(false, false, false, false, s.quarantinedSince, s.attempts, dangerous, now)).scaleToZero
    then (0, 0) else (SENTINEL_REPLICAS, SENTINEL_REPLICAS)
  }

  class Instance {
    var status: Status
    const dangerous: bool

    constructor (dangerous: bool)
      ensures status == Status(None, None, 0) && this.dangerous == dangerous
    {
      this.dangerous := dangerous;
      status := Status(None, None, 0);
    }

    method SetForsaken(t: int, q: QuarantinePlan, landed: bool)
      modifies this
      ensures status == if landed then Stamped(old(status), t, q) else old(status)
    {
      var latest := status;
      if latest.forsakenSince.None? {
        latest := latest.(forsakenSince := Some(t));
      }
      if q.arm {
        latest := latest.(quarantinedSince := Some(t), attempts := q.nextAttempts);
      }
      if landed {
        status := latest;
      }
    }

    method ClearForsaken(running: bool, q: QuarantinePlan, landed: bool)
      modifies this
      ensures status == if landed then Cleared(old(status), running, q) else old(status)
    {
      var clearAttempts := running && status.attempts != 0;
      var latest := status.(forsakenSince := None);
      if q.clear {
        latest := latest.(quarantinedSince := None);
      }
      if clearAttempts {
        latest := latest.(quarantinedSince := None, attempts := 0);
      }
      if landed {
        status := latest;
      }
    }

    /** The capture part of one sentinel pass; `manage` says the healing rules run after it. */
    method ReconcileCapture(p: Pass) returns (manage: bool)
      modifies this
      ensures status == Step(old(status), p, dangerous)
      ensures manage <==> !Decision(old(status), p, dangerous).scaleToZero && !Verdict(old(status), p).forsaken
    {
      var captured, foreign := ForsakenSignature(p.gather);
      var v := PlanForsaken(if captured then Some(foreign) else None, status.forsakenSince, p.now, p.rolling);
      var atRisk, unverified := QuarantineDataRisk(Some(p.gather), v.foreign, p.ready);
      var q := PlanQuarantine(QuarantineInput(v.captured, v.forsaken, atRisk, unverified,
                                              status.quarantinedSince, status.attempts, dangerous, p.now));
      manage := !q.scaleToZero && !v.forsaken;
      if q.scaleToZero || v.captured {
        SetForsaken(p.stamp, q, p.landed);
      } else {
        ClearForsaken(p.running, q, p.landed);
      }
    }
  }
}

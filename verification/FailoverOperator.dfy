/** The operator's stamping loops over the live pods, tied to the protocol's steps
    (internal/controller/failover_reconcile.go). */
module FailoverOperator {
  import opened Common
  import opened Sorting
  import opened FailoverGate
  import opened FailoverIntent
  import opened FailoverProtocol
  import opened FailoverTheorems

  /** The stamps whose patch the API server accepted. */
  function Landed(work: seq<Stamp>, lost: set<string>): seq<Stamp> {
    if work == [] then []
    else if work[0].pod in lost then Landed(work[1..], lost)
    else [work[0]] + Landed(work[1..], lost)
  }

  lemma {:induction false} LandedAppend(work: seq<Stamp>, lost: set<string>, st: Stamp)
    ensures Landed(work + [st], lost) == if st.pod in lost then Landed(work, lost) else Landed(work, lost) + [st]
  {
    if work != [] {
      assert (work + [st])[1..] == work[1..] + [st];
      LandedAppend(work[1..], lost, st);
    }
  }

  lemma {:induction false} ApplyAllAppend(pods: Pods, work: seq<Stamp>, st: Stamp)
    ensures ApplyAll(pods, work + [st]) == ApplyStamp(ApplyAll(pods, work), st)
  {
    if work == [] {
      assert ApplyAll(pods, [st]) == ApplyAll(ApplyStamp(pods, st), []);
    } else {
      assert (work + [st])[1..] == work[1..] + [st];
      ApplyAllAppend(ApplyStamp(pods, work[0]), work[1..], st);
    }
  }

  class Operator {
    var pods: Pods

    constructor (pods: Pods)
      ensures this.pods == pods
    {
      this.pods := pods;
    }

    /** Patches one pod's annotations. A pod that already carries the target is left untouched;
        a pod that is gone, or whose patch is refused, is an error. */
    method StampPod(st: Stamp, lost: set<string>) returns (ok: bool)
      modifies this
      ensures ok <==> st.pod in old(pods) && st.pod !in lost
      ensures pods == if st.pod in lost then old(pods) else ApplyStamp(old(pods), st)
    {
      if st.pod !in pods || st.pod in lost {
        return false;
      }
      var pod := pods[st.pod];
      var a := pod.annotations;
      var authSatisfied := !st.authorize || a.startAuth == Some(st.epoch);
      if a.assignment == Some(Assignment(st.role, st.masterIP, st.epoch)) && authSatisfied {
        assert Stamped(a, st) == a;
        assert pods[st.pod := pod] == pods;
        return true;
      }
      var startAuth := a.startAuth;
      if st.authorize {
        startAuth := Some(st.epoch);
      }
      pods := pods[st.pod := pod.(annotations := Annotations(Some(Assignment(st.role, st.masterIP, st.epoch)), startAuth))];
      return true;
    }

    /** One listed pod of the set: skipped while it has no address or is going away. */
    method StampListed(n: string, masterName: string, masterIP: string, epoch: nat, authorize: bool, lost: set<string>,
                       ghost before: map<string, Pod>, ghost work: seq<Stamp>, ghost done: seq<string>) returns (ok: bool)
      requires n in before && SameListing(before) && pods == ApplyAll(before, Landed(work, lost))
      requires (forall m <- done :: m in before) && work == AssignmentSet(done, before, masterName, masterIP, epoch, authorize)
      modifies this
      ensures SameListing(before)
      ensures var more := AssignmentSet(done + [n], before, masterName, masterIP, epoch, authorize);
              && pods == ApplyAll(before, Landed(more, lost)) && (ok <==> more == work || n !in lost)
              && (more == work || exists st :: more == work + [st] && st.pod == n)
    {
      assert (done + [n])[..|done|] == done;
      if pods[n].ip == "" || pods[n].terminating {
        return true;
      }
      var st := Stamp(n, AsReplica, masterIP, epoch, false);
      if n == masterName {
        st := Stamp(n, AsMaster, "", epoch, authorize);
      }
      LandedAppend(work, lost, st);
      ApplyAllAppend(before, Landed(work, lost), st);
      ok := StampPod(st, lost);
      assert AssignmentSet(done + [n], before, masterName, masterIP, epoch, authorize) == work + [st];
    }

    /** stampFailoverAssignments: one pass over the listed pods, going on past a failed patch. */
    method StampAssignments(listing: seq<string>, masterName: string, masterIP: string, epoch: nat,
                            authorize: bool, lost: set<string>) returns (ok: bool)
      requires forall n <- listing :: n in pods
      modifies this
      ensures var work := AssignmentSet(listing, old(pods), masterName, masterIP, epoch, authorize);
              && pods == ApplyAll(old(pods), Landed(work, lost))
              && (ok <==> forall st <- work :: st.pod !in lost)
    {
      ok := true;
      ghost var before := pods;
      for i := 0 to |listing|
        invariant SameListing(before)
        invariant pods == ApplyAll(before, Landed(AssignmentSet(listing[..i], before, masterName, masterIP, epoch, authorize), lost))
        invariant ok <==> forall st <- AssignmentSet(listing[..i], before, masterName, masterIP, epoch, authorize) :: st.pod !in lost
      {
        assert listing[..i + 1] == listing[..i] + [listing[i]] && listing[i] in listing;
        ghost var work := AssignmentSet(listing[..i], before, masterName, masterIP, epoch, authorize);
        var stamped := StampListed(listing[i], masterName, masterIP, epoch, authorize, lost, before, work, listing[..i]);
        ok := ok && stamped;
      }
      assert listing[..|listing|] == listing;
    }

    /** Stamping changes neither which pods there are nor their addresses and deletion marks. */
    ghost predicate SameListing(before: map<string, Pod>)
      reads this
    {
      pods.Keys == before.Keys && forall n <- before :: pods[n].ip == before[n].ip && pods[n].terminating == before[n].terminating
    }

    /** The re-authorisation loop: the planned stamps, each on its own. */
    method Reauthorise(views: seq<PodView>, intent: Intent, liveIP: string, lost: set<string>)
      modifies this
      ensures pods == ApplyAll(old(pods), Landed(SortBy(ReauthStamps(views, intent, liveIP), PodOf), lost))
    {
      ghost var before := pods;
      var stamps := PlanFailoverReauth(views, intent, liveIP);
      for i := 0 to |stamps|
        invariant pods == ApplyAll(before, Landed(stamps[..i], lost))
      {
        assert stamps[..i + 1] == stamps[..i] + [stamps[i]];
        LandedAppend(stamps[..i], lost, stamps[i]);
        ApplyAllAppend(before, Landed(stamps[..i], lost), stamps[i]);
        var _ := StampPod(stamps[i], lost);
      }
      assert stamps[..|stamps|] == stamps;
    }
  }

  /** What a stamping loop leaves behind is the end of a run of landing and lost stamps, so the
      protocol's theorems speak about the loops. */
  lemma {:induction false} LoopIsARun(s: State, lost: set<string>) returns (states: seq<State>, events: seq<Event>)
    ensures |states| == |events| + 1 && |events| == |s.work| && states[0] == s
    ensures forall i :: 0 <= i < |events| ==>
              && (events[i] == StampLands || events[i] == StampLost)
              && Enabled(states[i], events[i]) && states[i + 1] == Step(states[i], events[i])
    ensures states[|events|] == s.(pods := ApplyAll(s.pods, Landed(s.work, lost)), work := [])
    decreases |s.work|
  {
    if s.work == [] {
      states, events := [s], [];
    } else {
      var e := if s.work[0].pod in lost then StampLost else StampLands;
      var rest, more := LoopIsARun(Step(s, e), lost);
      states, events := [s] + rest, [e] + more;
    }
  }
}

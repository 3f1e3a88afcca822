/** The dance refines a single store: for every interleaving of operator commands, lost replies,
    gossip, redirections and client commands. */
module ReshardTheorems {
  import opened Common
  import opened ReshardDrain
  import opened ReshardProtocol

  /** The store the clients think they talk to: a key still on the source is authoritative. */
  function View(s: State): Store {
    s.dst + s.src
  }

  /** A key that a lost MIGRATE reply left on both nodes. */
  predicate Doubled(s: State, key: Key) {
    key in s.src && key in s.dst
  }

  /** The one way to lose a delete: the source drops a key whose copy the destination keeps. */
  predicate Resurrects(s: State, e: Event) {
    e.Serves? && e.node == Source && e.op.Del? && Doubled(s, e.op.key)
  }

  // --------------------------------------------------------------- invariant

  lemma {:induction false} StartHolds(s: State, r: Range)
    requires Start(s, r)
    ensures Inv(s, r)
  {
  }

  lemma {:induction false} TellKeepsInv(s: State, node: NodeId, slot: int, r: Range)
    requires Inv(s, r) && RangeDrained(s, r) && Drained(s, slot)
    ensures Inv(Tell(s, node, slot), r)
  {
    var t := Tell(s, node, slot);
    forall other ensures Marked(s, other) ==> Marked(t, other)
                 ensures Marked(t, other) ==> Marked(s, other)
                 ensures Accepting(s, other) ==> Accepting(t, other)
                 ensures Drained(s, other) ==> Drained(t, other) {}
  }

  lemma {:induction false} CommandKeepsInv(s: State, ok: bool, r: Range)
    requires Inv(s, r)
    ensures Inv(Command(s, ok, r), r)
  {
    var t := Command(s, ok, r);
    match s.phase
    case Flipping(node, next, failed) =>
      if node < |s.masters| && next <= r.end && ok {
        TellKeepsInv(s, s.masters[node], next, r);
        var told := Tell(s, s.masters[node], next);
        assert t == told.(phase := Flipping(node, next + 1, failed));
        forall slot ensures Marked(told, slot) == Marked(t, slot) && Accepting(told, slot) == Accepting(t, slot)
                    ensures Drained(told, slot) == Drained(t, slot) {}
      } else {
        SameButPhase(s, t, r);
      }
    case MarkImporting(_, _) => MarkingKeepsInv(s, ok, r);
    case MarkMigrating(_, _) => MarkingKeepsInv(s, ok, r);
    case _ => SameButPhase(s, t, r);
  }

  lemma {:induction false} SameButPhase(s: State, t: State, r: Range)
    requires Inv(s, r) && t == s.(phase := t.phase)
    ensures forall slot :: Marked(s, slot) == Marked(t, slot)
    ensures forall slot :: Accepting(s, slot) == Accepting(t, slot)
    ensures forall slot :: Drained(s, slot) == Drained(t, slot)
    ensures PhaseOk(t, r) ==> Inv(t, r)
  {
  }

  lemma {:induction false} MarkingKeepsInv(s: State, ok: bool, r: Range)
    requires Inv(s, r) && (s.phase.MarkImporting? || s.phase.MarkMigrating?)
    ensures Inv(Command(s, ok, r), r)
  {
    var t := Command(s, ok, r);
    forall slot ensures Marked(s, slot) ==> Marked(t, slot)
                ensures Accepting(s, slot) ==> Accepting(t, slot)
                ensures Drained(s, slot) ==> Drained(t, slot) {}
    forall slot | Marked(t, slot) ensures Accepting(t, slot) {
      if !Marked(s, slot) { assert Accepting(s, slot); }
    }
  }

  lemma {:induction false} MigrateKeepsInv(s: State, keys: set<Key>, t: State, r: Range)
    requires Inv(s, r) && s.phase == Draining && keys <= s.src.Keys
    requires Enabled(s, Migrates(keys), r) && Enabled(s, MigrateLosesAck(keys), r)
    requires t == Step(s, Migrates(keys), r) || t == Step(s, MigrateLosesAck(keys), r)
    ensures Inv(t, r)
  {
    forall slot ensures Marked(s, slot) == Marked(t, slot) && Accepting(s, slot) == Accepting(t, slot)
                ensures Drained(s, slot) ==> Drained(t, slot) {
      assert SlotKeys(t.src, slot) <= SlotKeys(s.src, slot);
    }
  }

  /** Commands served by a node leave both invariants of the redirection protocol alone: the source
      creates no key in a marked slot, the destination none outside. */
  lemma {:induction false} ServeKeepsInv(s: State, node: NodeId, asking: bool, op: Op, r: Range)
    requires Inv(s, r) && Enabled(s, Serves(node, asking, op), r)
    ensures Inv(Step(s, Serves(node, asking, op), r), r)
  {
    var t := Step(s, Serves(node, asking, op), r);
    forall slot ensures Marked(s, slot) == Marked(t, slot) && Accepting(s, slot) == Accepting(t, slot)
                ensures Drained(s, slot) ==> Drained(t, slot) {
      if Drained(s, slot) {
        forall k ensures k !in SlotKeys(t.src, slot) { assert k !in SlotKeys(s.src, slot); }
        assert SlotKeys(t.src, slot) == {};
      }
    }
    forall k | k in s.asked ensures k !in t.src {}
    forall k | k in t.dst ensures Marked(t, k.slot) {
      if k !in s.dst { assert node == Dest && k == op.key; }
    }
  }

  lemma {:induction false} StepKeepsInv(s: State, e: Event, r: Range)
    requires Inv(s, r) && Enabled(s, e, r)
    ensures Inv(Step(s, e, r), r)
  {
    match e
    case PassStarts(masters) =>
      var t := s.(masters := masters, phase := Idle);
      forall slot ensures Marked(s, slot) == Marked(t, slot) && Accepting(s, slot) == Accepting(t, slot)
                  ensures Drained(s, slot) == Drained(t, slot) {}
      assert Inv(t, r);
      SameButPhase(t, Step(s, e, r), r);
    case CommandRuns(ok) => CommandKeepsInv(s, ok, r);
    case PassFails => SameButPhase(s, Step(s, e, r), r);
    case Migrates(keys) => MigrateKeepsInv(s, keys, Step(s, e, r), r);
    case MigrateLosesAck(keys) => MigrateKeepsInv(s, keys, Step(s, e, r), r);
    case Gossips(node, slot) => TellKeepsInv(s, node, slot, r);
    case AskRedirects(key) =>
      var t := Step(s, e, r);
      forall slot ensures Marked(s, slot) == Marked(t, slot) && Accepting(s, slot) == Accepting(t, slot)
                  ensures Drained(s, slot) == Drained(t, slot) {}
    case Serves(node, asking, op) => ServeKeepsInv(s, node, asking, op, r);
  }

  lemma {:induction false} RunKeepsInv(states: seq<State>, events: seq<Event>, r: Range, t: nat)
    requires IsRun(states, events, r) && t < |states|
    ensures Inv(states[t], r)
  {
    if t == 0 {
      StartHolds(states[0], r);
    } else {
      RunKeepsInv(states, events, r, t - 1);
      StepKeepsInv(states[t - 1], events[t - 1], r);
    }
  }

  // ---------------------------------------------------------------- theorems

  /** In every run, from the moment any node takes the destination for the owner of any slot, told by the
      operator or by gossip, the source holds no key of the whole range, and never does again. */
  lemma {:induction false} OwnershipFlipsOnlyWhenDrained(states: seq<State>, events: seq<Event>, r: Range, t: nat)
    requires IsRun(states, events, r) && t < |states| && states[t].told != {}
    ensures states[t].src == map[]
  {
    RunKeepsInv(states, events, r, t);
    DrainedRangeIsEmpty(states[t], r);
  }

  lemma {:induction false} DrainedRangeIsEmpty(s: State, r: Range)
    requires Inv(s, r) && RangeDrained(s, r)
    ensures s.src == map[]
  {
    forall k ensures k !in s.src {
      if InRange(k, r) { DrainedHoldsNone(s, k); }
    }
  }

  lemma {:induction false} DrainedHoldsNone(s: State, key: Key)
    requires Drained(s, key.slot)
    ensures key !in s.src
  {
    assert key !in SlotKeys(s.src, key.slot);
  }

  /** Nothing the operator, the network or gossip does changes what the clients see. */
  lemma {:induction false} MovingChangesNothing(s: State, e: Event, r: Range)
    requires Inv(s, r) && Enabled(s, e, r) && !e.Serves?
    ensures View(Step(s, e, r)) == View(s)
  {
    match e
    case CommandRuns(ok) => CommandsKeepStores(s, ok, r);
    case Migrates(keys) => CarryingKeepsView(s.src, s.dst, keys);
    case MigrateLosesAck(keys) => CarryingKeepsView(s.src, s.dst, keys);
    case _ =>
  }

  lemma {:induction false} CarryingKeepsView(src: Store, dst: Store, keys: set<Key>)
    requires keys <= src.Keys
    ensures (dst + (map k | k in keys :: src[k])) + (src - keys) == dst + src
    ensures (dst + (map k | k in keys :: src[k])) + src == dst + src
  {
  }

  lemma {:induction false} CommandsKeepStores(s: State, ok: bool, r: Range)
    requires s.phase.Flipping? ==> s.phase.node <= |s.masters|
    ensures Command(s, ok, r).src == s.src && Command(s, ok, r).dst == s.dst
  {
  }

  lemma {:induction false} ServedReadsAreRight(s: State, node: NodeId, asking: bool, op: Op, r: Range)
    requires Inv(s, r) && Enabled(s, Serves(node, asking, op), r)
    ensures Lookup(Local(s, node), op.key) == Lookup(View(s), op.key)
    ensures node == Source ==> op.key in s.src || op.key !in s.dst
    ensures node == Dest ==> op.key !in s.src
  {
    var key := op.key;
    if node == Source {
      if key in s.dst { assert Marked(s, key.slot); }
    } else if Owns(s, Dest, key.slot) {
      DrainedHoldsNone(s, key);
    }
  }

  /** A served command reads and changes the view as it would a single store, if and only if it is not
      a delete of a doubled key. */
  lemma {:induction false} ServingIsOneStoreIff(s: State, node: NodeId, asking: bool, op: Op, r: Range)
    requires Inv(s, r) && Enabled(s, Serves(node, asking, op), r)
    ensures View(Step(s, Serves(node, asking, op), r)) == Perform(View(s), op) <==> !Resurrects(s, Serves(node, asking, op))
  {
    ServedReadsAreRight(s, node, asking, op, r);
    match node
    case Source => ServedAtSource(s.src, s.dst, op);
    case Dest => ServedAtDest(s.src, s.dst, op);
    case Other(_) =>
  }

  lemma {:induction false} ServedAtSource(src: Store, dst: Store, op: Op)
    requires op.key in src || op.key !in dst
    ensures dst + Perform(src, op) == Perform(dst + src, op) <==> !(op.Del? && op.key in dst)
  {
    match op
    case Get(_) =>
    case Set(k, v) => assert dst + src[k := v] == (dst + src)[k := v];
    case Del(k) =>
      if k in dst {
        assert k in dst + (src - {k});
      } else {
        assert dst + (src - {k}) == (dst + src) - {k};
      }
  }

  lemma {:induction false} ServedAtDest(src: Store, dst: Store, op: Op)
    requires op.key !in src
    ensures Perform(dst, op) + src == Perform(dst + src, op)
  {
    match op
    case Get(_) =>
    case Set(k, v) => assert dst[k := v] + src == (dst + src)[k := v];
    case Del(k) => assert (dst - {k}) + src == (dst + src) - {k};
  }

  /** The client commands of a run, applied in order to one store. */
  ghost function Replayed(store: Store, events: seq<Event>): Store {
    if events == [] then store
    else
      var before := Replayed(store, events[..|events| - 1]);
      var last := events[|events| - 1];
      if last.Serves? then Perform(before, last.op) else before
  }

  ghost predicate NothingResurrected(states: seq<State>, events: seq<Event>) {
    |states| == |events| + 1 && forall i :: 0 <= i < |events| ==> !Resurrects(states[i], events[i])
  }

  /** Over every run without such a delete, the two nodes together are the store the clients built,
      and every command is answered from it. */
  lemma {:induction false} DanceRefinesOneStore(states: seq<State>, events: seq<Event>, r: Range, t: nat)
    requires IsRun(states, events, r) && NothingResurrected(states, events) && t < |states|
    ensures View(states[t]) == Replayed(states[0].src, events[..t])
    ensures t < |events| && events[t].Serves? ==>
              Lookup(Local(states[t], events[t].node), events[t].op.key) == Lookup(Replayed(states[0].src, events[..t]), events[t].op.key)
  {
    if t == 0 {
      assert View(states[0]) == states[0].src;
    } else {
      DanceRefinesOneStore(states, events, r, t - 1);
      RunKeepsInv(states, events, r, t - 1);
      var s, e := states[t - 1], events[t - 1];
      assert events[..t][..t - 1] == events[..t - 1];
      if e.Serves? {
        ServingIsOneStoreIff(s, e.node, e.asking, e.op, r);
      } else {
        MovingChangesNothing(s, e, r);
      }
    }
    if t < |events| && events[t].Serves? {
      RunKeepsInv(states, events, r, t);
      ServedReadsAreRight(states[t], events[t].node, events[t].asking, events[t].op, r);
    }
  }

  /** From then on, while the flip is under way and ever after, the destination alone holds exactly what
      the clients built. */
  lemma {:induction false} FlippedRangeIsWhole(states: seq<State>, events: seq<Event>, r: Range, t: nat)
    requires IsRun(states, events, r) && NothingResurrected(states, events) && t < |states| && states[t].told != {}
    ensures states[t].dst == Replayed(states[0].src, events[..t])
  {
    DanceRefinesOneStore(states, events, r, t);
    OwnershipFlipsOnlyWhenDrained(states, events, r, t);
    assert states[t].dst + map[] == states[t].dst;
  }

  /** The flip is never taken back: what a node was told it keeps. */
  lemma {:induction false} ToldForGood(states: seq<State>, events: seq<Event>, r: Range, t: nat, u: nat)
    requires IsRun(states, events, r) && t <= u < |states|
    ensures states[t].told <= states[u].told
    decreases u
  {
    if t < u {
      ToldForGood(states, events, r, t, u - 1);
      assert states[u] == Step(states[u - 1], events[u - 1], r);
    }
  }

  /** What the flip has got done: every node before the current one was told the whole range, and the
      current one every slot so far, unless a command failed. */
  ghost predicate FlipOk(s: State, r: Range) {
    s.phase.Flipping? ==>
      && s.phase.node <= |s.masters|
      && (forall m, slot :: 0 <= m < s.phase.node && r.start <= slot <= r.end ==> (s.masters[m], slot) in s.told)
      && (!s.phase.failed && s.phase.node < |s.masters| ==>
            forall slot :: r.start <= slot < s.phase.next && slot <= r.end ==> (s.masters[s.phase.node], slot) in s.told)
  }

  lemma {:induction false} StepKeepsFlip(s: State, e: Event, r: Range)
    requires Enabled(s, e, r) && FlipOk(s, r)
    ensures FlipOk(Step(s, e, r), r)
  {
    if e.CommandRuns? { CommandKeepsFlip(s, e.ok, r); }
  }

  lemma {:induction false} CommandKeepsFlip(s: State, ok: bool, r: Range)
    requires FlipOk(s, r)
    ensures FlipOk(Command(s, ok, r), r)
  {
    if s.phase.Flipping? && s.phase.node < |s.masters| && s.phase.next > r.end && !s.phase.failed {
      var node := s.phase.node;
      forall m, slot | 0 <= m <= node && r.start <= slot <= r.end ensures (s.masters[m], slot) in s.told {}
    }
  }

  lemma {:induction false} RunKeepsFlip(states: seq<State>, events: seq<Event>, r: Range, t: nat)
    requires IsRun(states, events, r) && t < |states|
    ensures FlipOk(states[t], r)
  {
    if t > 0 {
      RunKeepsFlip(states, events, r, t - 1);
      StepKeepsFlip(states[t - 1], events[t - 1], r);
    }
  }

  /** The pass is about to report the move done. */
  predicate Finishes(s: State) {
    s.phase.Flipping? && s.phase.node == |s.masters|
  }

  /** Once a pass that set out to tell both ends reports the move done, and ever after: the source serves
      no key of the range, the destination serves every one, from exactly what the clients built. */
  lemma {:induction false} DoneIsAHandover(states: seq<State>, events: seq<Event>, r: Range, t: nat, u: nat, key: Key)
    requires IsRun(states, events, r) && NothingResurrected(states, events) && t <= u < |states| && InRange(key, r)
    requires Finishes(states[t]) && Source in states[t].masters && Dest in states[t].masters
    ensures !CanServe(states[u], Source, false, key) && CanServe(states[u], Dest, false, key)
    ensures states[u].src == map[] && states[u].dst == Replayed(states[0].src, events[..u])
  {
    var s := states[t];
    RunKeepsFlip(states, events, r, t);
    var a :| 0 <= a < |s.masters| && s.masters[a] == Source;
    var b :| 0 <= b < |s.masters| && s.masters[b] == Dest;
    assert (s.masters[a], key.slot) in s.told && (s.masters[b], key.slot) in s.told;
    ToldForGood(states, events, r, t, u);
    OwnershipFlipsOnlyWhenDrained(states, events, r, u);
    FlippedRangeIsWhole(states, events, r, u);
  }

  /** A client sent to the destination by ASK is always served there, however late it arrives. */
  lemma {:induction false} AskIsHonoured(states: seq<State>, events: seq<Event>, r: Range, t: nat, key: Key)
    requires IsRun(states, events, r) && t < |states| && key in states[t].asked
    ensures CanServe(states[t], Dest, true, key)
  {
    RunKeepsInv(states, events, r, t);
    assert Marked(states[t], key.slot);
  }

  /** A client that follows redirections gets its command served. */
  predicate Servable(s: State, key: Key) {
    || CanServe(s, Source, false, key) || CanServe(s, Dest, false, key)
    || (AnswersAsk(s, key) && CanServe(s, Dest, true, key))
  }

  /** In every run it is turned away by both ends exactly between the flip of the source and the flip of
      the destination. */
  lemma {:induction false} UnservedIff(states: seq<State>, events: seq<Event>, r: Range, t: nat, key: Key)
    requires IsRun(states, events, r) && t < |states|
    ensures !Servable(states[t], key) <==> (Source, key.slot) in states[t].told && (Dest, key.slot) !in states[t].told
  {
    RunKeepsInv(states, events, r, t);
    assert key.slot in states[t].migrating ==> Marked(states[t], key.slot);
  }

  ghost predicate Leads(s: State, e: Event, t: State, r: Range) {
    Enabled(s, e, r) && t == Step(s, e, r)
  }

  lemma {:induction false} NineSteps(states: seq<State>, events: seq<Event>, r: Range)
    requires |states| == 10 && |events| == 9 && Start(states[0], r)
    requires Leads(states[0], events[0], states[1], r) && Leads(states[1], events[1], states[2], r)
    requires Leads(states[2], events[2], states[3], r) && Leads(states[3], events[3], states[4], r)
    requires Leads(states[4], events[4], states[5], r) && Leads(states[5], events[5], states[6], r)
    requires Leads(states[6], events[6], states[7], r) && Leads(states[7], events[7], states[8], r)
    requires Leads(states[8], events[8], states[9], r)
    ensures IsRun(states, events, r)
  {
    forall i | 0 <= i < 9 ensures Leads(states[i], events[i], states[i + 1], r) {}
  }

  function Marking(store: Store, importing: set<int>, migrating: set<int>, phase: Phase): State {
    State(store, map[], importing, migrating, {}, {}, [], phase)
  }

  lemma {:induction false} MarksOneSlot(store: Store)
    ensures var r, run := Range(5, 5), CommandRuns(true);
            && Leads(Marking(store, {}, {}, Idle), PassStarts([]), Marking(store, {}, {}, MarkImporting(5, false)), r)
            && Leads(Marking(store, {}, {}, MarkImporting(5, false)), run, Marking(store, {5}, {}, MarkImporting(6, false)), r)
            && Leads(Marking(store, {5}, {}, MarkImporting(6, false)), run, Marking(store, {5}, {}, MarkMigrating(5, false)), r)
            && Leads(Marking(store, {5}, {}, MarkMigrating(5, false)), run, Marking(store, {5}, {5}, MarkMigrating(6, false)), r)
            && Leads(Marking(store, {5}, {5}, MarkMigrating(6, false)), run, Marking(store, {5}, {5}, Counting(5, false)), r)
  {
  }

  lemma {:induction false} CountsOneKey(store: Store, key: Key)
    requires key in store && key.slot == 5
    ensures var r, run := Range(5, 5), CommandRuns(true);
            && Leads(Marking(store, {5}, {5}, Counting(5, false)), run, Marking(store, {5}, {5}, Counting(6, true)), r)
            && Leads(Marking(store, {5}, {5}, Counting(6, true)), run, Marking(store, {5}, {5}, Draining), r)
  {
    assert key in SlotKeys(store, 5);
  }

  lemma {:induction false} LosesOneReply(store: Store, key: Key)
    requires store == map[key := "v"] && key.slot == 5
    ensures var r, doubled := Range(5, 5), Marking(store, {5}, {5}, Idle).(dst := store);
            && Leads(Marking(store, {5}, {5}, Draining), MigrateLosesAck({key}), doubled, r)
            && Leads(doubled, Serves(Source, false, Del(key)), doubled.(src := map[]), r)
  {
    assert map[] + (map k | k in {key} :: store[k]) == store;
    assert store - {key} == map[];
  }

  /** Doubling and its cost are reachable: a lost reply, then a delete at the source, and the key the
      client deleted is still there. */
  lemma {:induction false} LostReplyBringsAKeyBack() returns (states: seq<State>, events: seq<Event>, r: Range, key: Key)
    ensures IsRun(states, events, r) && |events| == 9
    ensures events[8] == Serves(Source, false, Del(key))
    ensures Lookup(View(states[9]), key) == Some("v")
  {
    key, r := Key(5, "a"), Range(5, 5);
    var store := map[key := "v"];
    var run := CommandRuns(true);
    var doubled := Marking(store, {5}, {5}, Idle).(dst := store);
    events := [PassStarts([]), run, run, run, run, run, run, MigrateLosesAck({key}), Serves(Source, false, Del(key))];
    states := [Marking(store, {}, {}, Idle), Marking(store, {}, {}, MarkImporting(5, false)),
               Marking(store, {5}, {}, MarkImporting(6, false)), Marking(store, {5}, {}, MarkMigrating(5, false)),
               Marking(store, {5}, {5}, MarkMigrating(6, false)), Marking(store, {5}, {5}, Counting(5, false)),
               Marking(store, {5}, {5}, Counting(6, true)), Marking(store, {5}, {5}, Draining),
               doubled, doubled.(src := map[])];
    MarksOneSlot(store);
    CountsOneKey(store, key);
    LosesOneReply(store, key);
    NineSteps(states, events, r);
  }
}

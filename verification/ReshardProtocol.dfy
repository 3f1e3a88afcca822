/** The reshard dance, command by command, with clients reading and writing in between
    (internal/controller/cluster_reshard.go; "Live reconfiguration" and "ASK redirection" in the
    Redis Cluster Specification). Only keys of the moving range are modelled. */
module ReshardProtocol {
  import opened Common
  import opened ReshardDrain

  datatype NodeId = Source | Dest | Other(id: nat)

  /** Where the pass stands. A pipeline goes on past a failed command and fails at its end. */
  datatype Phase =
    | Idle
    | MarkImporting(next: int, failed: bool)
    | MarkMigrating(next: int, failed: bool)
    | Counting(next: int, dirty: bool)
    | Draining
    | Flipping(node: nat, next: int, failed: bool)

  datatype Range = Range(start: int, end: int)

  /** `told` holds the (node, slot) pairs for which the node takes Dest to be the owner; `asked` the
      keys for which Source has ever answered ASK; `masters` the nodes this pass would flip. */
  datatype State = State(src: Store, dst: Store, importing: set<int>, migrating: set<int>,
                         told: set<(NodeId, int)>, asked: set<Key>, masters: seq<NodeId>, phase: Phase)

  datatype Op = Get(key: Key) | Set(key: Key, value: string) | Del(key: Key)

  datatype Event =
    | PassStarts(masters: seq<NodeId>)
    | CommandRuns(ok: bool)
    | PassFails
    | Migrates(keys: set<Key>)
    | MigrateLosesAck(keys: set<Key>)
    | Gossips(node: NodeId, slot: int)
    | AskRedirects(key: Key)
    | Serves(node: NodeId, asking: bool, op: Op)

  // ------------------------------------------------------------- redirection

  predicate Owns(s: State, node: NodeId, slot: int) {
    match node
    case Source => (Source, slot) !in s.told
    case Dest => (Dest, slot) in s.told
    case Other(_) => false
  }

  /** A migrating owner answers ASK for a key it does not hold. */
  predicate AnswersAsk(s: State, key: Key) {
    Owns(s, Source, key.slot) && key.slot in s.migrating && key !in s.src
  }

  /** The node answers the command itself rather than redirecting it. */
  predicate CanServe(s: State, node: NodeId, asking: bool, key: Key) {
    match node
    case Source => Owns(s, Source, key.slot) && !AnswersAsk(s, key)
    case Dest => Owns(s, Dest, key.slot) || (asking && key.slot in s.importing)
    case Other(_) => false
  }

  function Local(s: State, node: NodeId): Store {
    if node.Source? then s.src else s.dst
  }

  function Perform(store: Store, op: Op): Store {
    match op
    case Get(_) => store
    case Set(k, v) => store[k := v]
    case Del(k) => store - {k}
  }

  function Lookup(store: Store, key: Key): Option<string> {
    if key in store then Some(store[key]) else None
  }

  // ------------------------------------------------------------- transitions

  function Tell(s: State, node: NodeId, slot: int): State {
    s.(told := s.told + {(node, slot)},
       migrating := if node.Source? then s.migrating - {slot} else s.migrating,
       importing := if node.Dest? then s.importing - {slot} else s.importing)
  }

  /** The next command of the pass, or the turn of a phase. SETSLOT IMPORTING on a node that owns the
      slot, and SETSLOT MIGRATING on one that does not, are refused. */
  function Command(s: State, ok: bool, r: Range): State
    requires s.phase.Flipping? ==> s.phase.node <= |s.masters|
  {
    match s.phase
    case Idle => s
    case MarkImporting(next, failed) =>
      if next > r.end then s.(phase := if failed then Idle else MarkMigrating(r.start, false))
      else if !ok || Owns(s, Dest, next) then s.(phase := MarkImporting(next + 1, true))
      else s.(importing := s.importing + {next}, phase := MarkImporting(next + 1, failed))
    case MarkMigrating(next, failed) =>
      if next > r.end then s.(phase := if failed then Idle else Counting(r.start, false))
      else if !ok || !Owns(s, Source, next) then s.(phase := MarkMigrating(next + 1, true))
      else s.(migrating := s.migrating + {next}, phase := MarkMigrating(next + 1, failed))
    case Counting(next, dirty) =>
      if next > r.end then s.(phase := if dirty then Draining else Flipping(0, r.start, false))
      else if !ok then s.(phase := Idle)
      else s.(phase := Counting(next + 1, dirty || SlotKeys(s.src, next) != {}))
    case Draining => s.(phase := Idle)
    case Flipping(node, next, failed) =>
      if node == |s.masters| then s.(phase := Idle)
      else if next > r.end then s.(phase := if failed then Idle else Flipping(node + 1, r.start, false))
      else if !ok then s.(phase := Flipping(node, next + 1, true))
      else Tell(s, s.masters[node], next).(phase := Flipping(node, next + 1, failed))
  }

  predicate InRange(key: Key, r: Range) {
    r.start <= key.slot <= r.end
  }

  ghost predicate Enabled(s: State, e: Event, r: Range) {
    match e
    case PassStarts(_) => s.phase == Idle
    case CommandRuns(_) => s.phase.Flipping? ==> s.phase.node <= |s.masters|
    case PassFails => true
    case Migrates(keys) => s.phase == Draining && keys <= s.src.Keys
    case MigrateLosesAck(keys) => s.phase == Draining && keys <= s.src.Keys
    case Gossips(_, slot) => (Dest, slot) in s.told
    case AskRedirects(key) => InRange(key, r) && AnswersAsk(s, key)
    case Serves(node, asking, op) =>
      InRange(op.key, r) && CanServe(s, node, asking, op.key) && (asking ==> op.key in s.asked)
  }

  ghost function Step(s: State, e: Event, r: Range): State
    requires Enabled(s, e, r)
  {
    match e
    case PassStarts(masters) => s.(masters := masters, phase := MarkImporting(r.start, false))
    case CommandRuns(ok) => Command(s, ok, r)
    case PassFails => s.(phase := Idle)
    case Migrates(keys) => s.(src := s.src - keys, dst := s.dst + (map k | k in keys :: s.src[k]))
    case MigrateLosesAck(keys) => s.(dst := s.dst + (map k | k in keys :: s.src[k]), phase := Idle)
    case Gossips(node, slot) => Tell(s, node, slot)
    case AskRedirects(key) => s.(asked := s.asked + {key})
    case Serves(node, _, op) =>
      if node.Source? then s.(src := Perform(s.src, op)) else s.(dst := Perform(s.dst, op))
  }

  /** Before the first pass: Source owns the range and Dest holds none of it. */
  ghost predicate Start(s: State, r: Range) {
    && r.start <= r.end && (forall k <- s.src :: InRange(k, r)) && s.dst == map[]
    && s.importing == {} && s.migrating == {} && s.told == {} && s.asked == {} && s.phase == Idle
  }

  ghost predicate IsRun(states: seq<State>, events: seq<Event>, r: Range) {
    && |states| == |events| + 1 && Start(states[0], r)
    && forall i :: 0 <= i < |events| ==> Enabled(states[i], events[i], r) && states[i + 1] == Step(states[i], events[i], r)
  }

  // --------------------------------------------------------------- invariant

  /** Source creates no key in the slot any more. */
  predicate Marked(s: State, slot: int) { slot in s.migrating || (Source, slot) in s.told }

  /** Dest answers for the slot, at least when asked to. */
  predicate Accepting(s: State, slot: int) { slot in s.importing || (Dest, slot) in s.told }

  predicate Drained(s: State, slot: int) { Marked(s, slot) && SlotKeys(s.src, slot) == {} }

  ghost predicate RangeDrained(s: State, r: Range) {
    forall slot :: r.start <= slot <= r.end ==> Drained(s, slot)
  }

  ghost predicate PhaseOk(s: State, r: Range) {
    match s.phase
    case Idle => true
    case MarkImporting(next, failed) => r.start <= next && (failed || forall slot :: r.start <= slot < next ==> Accepting(s, slot))
    case MarkMigrating(next, failed) =>
      && r.start <= next && (forall slot :: r.start <= slot <= r.end ==> Accepting(s, slot))
      && (failed || forall slot :: r.start <= slot < next ==> Marked(s, slot))
    case Counting(next, dirty) =>
      && r.start <= next && (forall slot :: r.start <= slot <= r.end ==> Marked(s, slot))
      && (dirty || forall slot :: r.start <= slot < next ==> Drained(s, slot))
    case Draining => forall slot :: r.start <= slot <= r.end ==> Marked(s, slot)
    case Flipping(node, next, _) =>
      node <= |s.masters| && r.start <= next && RangeDrained(s, r)
  }

  ghost predicate Inv(s: State, r: Range) {
    && (forall k <- s.src :: InRange(k, r)) && (forall k <- s.dst :: InRange(k, r))
    && (forall node, slot :: (node, slot) in s.told ==> Drained(s, slot))
    && (s.told != {} ==> RangeDrained(s, r))
    && (forall k <- s.dst :: Marked(s, k.slot))
    && (forall k <- s.asked :: k !in s.src && Marked(s, k.slot))
    && (forall slot :: Marked(s, slot) ==> Accepting(s, slot))
    && PhaseOk(s, r)
  }
}

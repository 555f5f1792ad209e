/**
 * The queue / commit-or-rollback discipline of `pick_up_tips`, `drop_tips`,
 * `aspirate` and `dispense`. Each of those loops over its operations three
 * times: once to queue a change on every tracker involved, then once to
 * commit (backend succeeded) or roll back (backend raised). Here each loop
 * is the list of tracker actions it performs, in order, and `Run` performs
 * a list; the handler's imperative loop is proved to do exactly what `Run`
 * does.
 */
module Batches {
  import opened Outcomes
  import opened Trackers
  import opened Resources
  import opened Head

  /** The owner of a volume tracker: a container (well, trough, ...) or a tip. */
  datatype Holder = InContainer(container: Resource) | InTip(tip: Tip)

  /**
   * Every tracker a batch can touch: the channel trackers of the head, the
   * tip trackers of tip spots and the volume trackers of containers and
   * tips. A tip spot or holder without an entry has a tracker in its
   * initial state: empty, or holding no liquid.
   */
  datatype World = World(
    head: HeadMap,
    spots: map<Resource, Tracker<Option<Tip>>>,
    volumes: map<Holder, Tracker<real>>)

  function SpotAt(w: World, r: Resource): Tracker<Option<Tip>> {
    if r in w.spots then w.spots[r] else Fresh(None)
  }

  function VolumeAt(w: World, h: Holder): Tracker<real> {
    if h in w.volumes then w.volumes[h] else Fresh(0.0)
  }

  /** The tracker an action is performed on. */
  datatype Target = OnChannel(channel: int) | OnSpot(spot: Resource) | OnVolume(holder: Holder)

  /** The two operations a channel tracker queues: `queue_pickup` and `queue_drop`. */
  datatype ChannelChange = TakeTip(tip: Tip, from: Resource) | ReleaseTip

  function Apply(change: ChannelChange, m: Mount): Mount {
    match change
    case TakeTip(t, r) => Mount(Some(t), Some(r))
    case ReleaseTip => Mount(None, m.origin)
  }

  datatype Action =
      /** `head[channel].queue_pickup(op)` / `queue_drop(op)`. */
    | QueueChannel(channel: int, change: ChannelChange)
      /** `spot.tracker.queue_pickup(op)` (content None) / `queue_drop(op)` (content the tip). */
    | QueueSpot(spot: Resource, content: Option<Tip>)
      /** `queue_aspiration` / `queue_dispense` on a volume tracker: the volume changes by `delta`. */
    | QueueVolume(holder: Holder, delta: real)
      /** `commit()` when `commit` holds, `rollback()` otherwise. */
    | Settle(target: Target, commit: bool)
      /** `op.tip.tracker` evaluated with `op.tip` None: an AttributeError. */
    | NoTipFault

  function TargetOf(a: Action): Target
    requires !a.NoTipFault?
  {
    match a
    case QueueChannel(c, _) => OnChannel(c)
    case QueueSpot(r, _) => OnSpot(r)
    case QueueVolume(h, _) => OnVolume(h)
    case Settle(t, _) => t
  }

  /** The trackers a list of actions names. */
  function Targets(acts: seq<Action>): set<Target>
    decreases |acts|
  {
    if acts == [] then {}
    else (if acts[0].NoTipFault? then {} else {TargetOf(acts[0])}) + Targets(acts[1..])
  }

  lemma {:induction false} TargetsAppend(a: seq<Action>, b: seq<Action>)
    ensures Targets(a + b) == Targets(a) + Targets(b)
    decreases |a|
  {
    if a == [] {
      assert a + b == b;
    } else {
      assert (a + b)[1..] == a[1..] + b;
      TargetsAppend(a[1..], b);
    }
  }

  lemma TargetsSingle(a: Action)
    ensures Targets([a]) == if a.NoTipFault? then {} else {TargetOf(a)}
  {
    assert [a][1..] == [];
  }

  /** Targets of a list of at most one action followed by one action. */
  lemma TargetsPair(pre: seq<Action>, a: Action)
    requires |pre| <= 1
    ensures Targets(pre + [a]) == (if pre == [] || pre[0].NoTipFault? then {} else {TargetOf(pre[0])})
                                  + (if a.NoTipFault? then {} else {TargetOf(a)})
  {
    TargetsAppend(pre, [a]);
    TargetsSingle(a);
    if pre != [] {
      assert pre == [pre[0]];
      TargetsSingle(pre[0]);
    }
  }

  /** An action on a channel names one of `keys`. */
  predicate InHead(a: Action, keys: set<int>) {
    match a
    case QueueChannel(c, _) => c in keys
    case Settle(OnChannel(c), _) => c in keys
    case _ => true
  }

  predicate AllInHead(acts: seq<Action>, keys: set<int>) {
    forall a :: a in acts ==> InHead(a, keys)
  }

  predicate OnlyQueues(acts: seq<Action>) {
    forall a :: a in acts ==> a.QueueChannel? || a.QueueSpot? || a.QueueVolume?
  }

  predicate OnlySettles(acts: seq<Action>, commit: bool) {
    forall a :: a in acts ==> a.Settle? && a.commit == commit
  }

  /** Actions that leave every volume tracker alone. */
  predicate NoVolumeActions(acts: seq<Action>) {
    forall a :: a in acts ==> !a.QueueVolume? && !(a.Settle? && a.target.OnVolume?)
  }

  /** Actions that leave every channel and tip spot tracker alone. */
  predicate NoTipActions(acts: seq<Action>) {
    forall a :: a in acts ==> !a.QueueChannel? && !a.QueueSpot? && !(a.Settle? && (a.target.OnChannel? || a.target.OnSpot?))
  }

  /** Performs one action that is not a fault. */
  function Step(w: World, a: Action): (w': World)
    requires InHead(a, w.head.Keys) && !a.NoTipFault?
    ensures w'.head.Keys == w.head.Keys
  {
    match a
    case QueueChannel(c, change) =>
      w.(head := w.head[c := w.head[c].Queue(Apply(change, w.head[c].pending))])
    case QueueSpot(r, content) =>
      w.(spots := w.spots[r := SpotAt(w, r).Queue(content)])
    case QueueVolume(h, delta) =>
      w.(volumes := w.volumes[h := VolumeAt(w, h).Queue(VolumeAt(w, h).pending + delta)])
    case Settle(t, commit) =>
      match t
      case OnChannel(c) => w.(head := w.head[c := w.head[c].Settle(commit)])
      case OnSpot(r) => w.(spots := w.spots[r := SpotAt(w, r).Settle(commit)])
      case OnVolume(h) => w.(volumes := w.volumes[h := VolumeAt(w, h).Settle(commit)])
  }

  /** Performs the actions in order, stopping at the first fault, which it reports. */
  function Run(w: World, acts: seq<Action>): (res: (World, Option<Error>))
    requires AllInHead(acts, w.head.Keys)
    ensures res.0.head.Keys == w.head.Keys
    ensures res.1.Some? ==> res.1.value == TipAccessOnEmptyChannel
    ensures res.1.None? ==> forall a :: a in acts ==> !a.NoTipFault?
    decreases |acts|
  {
    if acts == [] then (w, None)
    else if acts[0].NoTipFault? then (w, Some(TipAccessOnEmptyChannel))
    else
      assert forall a :: a in acts[1..] ==> a in acts;
      Run(Step(w, acts[0]), acts[1..])
  }

  /** Running `a + b` runs `a`, then, unless it faulted, `b`. */
  lemma {:induction false} RunAppend(w: World, a: seq<Action>, b: seq<Action>)
    requires AllInHead(a + b, w.head.Keys)
    ensures AllInHead(a, w.head.Keys) && AllInHead(b, Run(w, a).0.head.Keys)
    ensures Run(w, a + b) == if Run(w, a).1.Some? then Run(w, a) else Run(Run(w, a).0, b)
    decreases |a|
  {
    assert forall x :: x in a ==> x in a + b;
    assert forall x :: x in b ==> x in a + b;
    if a != [] && !a[0].NoTipFault? {
      assert (a + b)[1..] == a[1..] + b;
      assert forall x :: x in a[1..] + b ==> x in a + b;
      RunAppend(Step(w, a[0]), a[1..], b);
    } else if a == [] {
      assert a + b == b;
    }
  }

  /** A list that names no volume tracker leaves the volume trackers exactly as they were. */
  lemma {:induction false} RunKeepsVolumes(w: World, acts: seq<Action>)
    requires AllInHead(acts, w.head.Keys) && NoVolumeActions(acts)
    ensures Run(w, acts).0.volumes == w.volumes
    decreases |acts|
  {
    if acts != [] && !acts[0].NoTipFault? {
      assert forall a :: a in acts[1..] ==> a in acts;
      RunKeepsVolumes(Step(w, acts[0]), acts[1..]);
    }
  }

  /** A list that names no channel and no tip spot leaves the head and the spots exactly as they were. */
  lemma {:induction false} RunKeepsTipTrackers(w: World, acts: seq<Action>)
    requires AllInHead(acts, w.head.Keys) && NoTipActions(acts)
    ensures Run(w, acts).0.head == w.head && Run(w, acts).0.spots == w.spots
    decreases |acts|
  {
    if acts != [] && !acts[0].NoTipFault? {
      assert forall a :: a in acts[1..] ==> a in acts;
      RunKeepsTipTrackers(Step(w, acts[0]), acts[1..]);
    }
  }

  /** A list without a fault action runs to its end. */
  lemma {:induction false} RunNoFault(w: World, acts: seq<Action>)
    requires AllInHead(acts, w.head.Keys) && NoTipFault !in acts
    ensures Run(w, acts).1.None?
    decreases |acts|
  {
    if acts != [] {
      assert acts[0] in acts;
      assert forall a :: a in acts[1..] ==> a in acts;
      RunNoFault(Step(w, acts[0]), acts[1..]);
    }
  }

  /** Every tracker keeps its committed value, and those `ts` does not name are untouched. */
  ghost predicate KeepsCommitted(w: World, w': World, ts: set<Target>) {
    && w'.head.Keys == w.head.Keys
    && (forall c :: c in w.head ==>
          w'.head[c].committed == w.head[c].committed
          && (OnChannel(c) !in ts ==> w'.head[c] == w.head[c]))
    && (forall r :: SpotAt(w', r).committed == SpotAt(w, r).committed
          && (OnSpot(r) !in ts ==> SpotAt(w', r) == SpotAt(w, r)))
    && (forall h :: VolumeAt(w', h).committed == VolumeAt(w, h).committed
          && (OnVolume(h) !in ts ==> VolumeAt(w', h) == VolumeAt(w, h)))
  }

  /**
   * Every tracker `ts` names is settled from its state in `w` (committed if
   * `commit`, rolled back otherwise); the others are untouched.
   */
  ghost predicate SettledOn(w: World, w': World, ts: set<Target>, commit: bool) {
    && w'.head.Keys == w.head.Keys
    && (forall c :: c in w.head ==>
          w'.head[c] == if OnChannel(c) in ts then w.head[c].Settle(commit) else w.head[c])
    && (forall r :: SpotAt(w', r) == if OnSpot(r) in ts then SpotAt(w, r).Settle(commit) else SpotAt(w, r))
    && (forall h :: VolumeAt(w', h) == if OnVolume(h) in ts then VolumeAt(w, h).Settle(commit) else VolumeAt(w, h))
  }

  lemma StepKeeps(w: World, a: Action)
    requires InHead(a, w.head.Keys) && (a.QueueChannel? || a.QueueSpot? || a.QueueVolume?)
    ensures KeepsCommitted(w, Step(w, a), {TargetOf(a)})
  {
  }

  lemma KeepsTrans(w: World, w1: World, w2: World, s1: set<Target>, s2: set<Target>)
    requires KeepsCommitted(w, w1, s1) && KeepsCommitted(w1, w2, s2)
    ensures KeepsCommitted(w, w2, s1 + s2)
  {
  }

  lemma StepSettles(w: World, a: Action)
    requires InHead(a, w.head.Keys) && a.Settle?
    ensures SettledOn(w, Step(w, a), {a.target}, a.commit)
  {
  }

  lemma SettledTrans(w: World, w1: World, w2: World, t: Target, ts: set<Target>, commit: bool)
    requires SettledOn(w, w1, {t}, commit) && SettledOn(w1, w2, ts, commit)
    ensures SettledOn(w, w2, {t} + ts, commit)
  {
  }

  /** Queueing never faults and never changes a committed value. */
  lemma {:induction false} QueueKeepsCommitted(w: World, acts: seq<Action>)
    requires AllInHead(acts, w.head.Keys) && OnlyQueues(acts)
    ensures Run(w, acts).1.None?
    ensures KeepsCommitted(w, Run(w, acts).0, Targets(acts))
    decreases |acts|
  {
    if acts != [] {
      var w1 := Step(w, acts[0]);
      assert forall a :: a in acts[1..] ==> a in acts;
      StepKeeps(w, acts[0]);
      QueueKeepsCommitted(w1, acts[1..]);
      KeepsTrans(w, w1, Run(w1, acts[1..]).0, {TargetOf(acts[0])}, Targets(acts[1..]));
    }
  }

  /** Settling a list settles exactly the trackers it names, once each. */
  lemma {:induction false} SettleNamed(w: World, acts: seq<Action>, commit: bool)
    requires AllInHead(acts, w.head.Keys) && OnlySettles(acts, commit)
    ensures Run(w, acts).1.None?
    ensures SettledOn(w, Run(w, acts).0, Targets(acts), commit)
    decreases |acts|
  {
    if acts != [] {
      var w1 := Step(w, acts[0]);
      assert forall a :: a in acts[1..] ==> a in acts;
      StepSettles(w, acts[0]);
      SettleNamed(w1, acts[1..], commit);
      SettledTrans(w, w1, Run(w1, acts[1..]).0, acts[0].target, Targets(acts[1..]), commit);
    }
  }

  /**
   * The transaction pattern: queue, then settle the same trackers. A
   * rollback leaves each of them settled at the value it had committed
   * before the queue; a commit leaves each at the value the queue put in
   * front of it. Nothing else changes either way.
   */
  lemma QueueThenSettle(w: World, queue: seq<Action>, settle: seq<Action>, commit: bool)
    requires AllInHead(queue, w.head.Keys) && AllInHead(settle, w.head.Keys)
    requires OnlyQueues(queue) && OnlySettles(settle, commit) && Targets(settle) == Targets(queue)
    ensures Run(w, queue).1.None? && Run(Run(w, queue).0, settle).1.None?
    ensures !commit ==> SettledOn(w, Run(Run(w, queue).0, settle).0, Targets(queue), false)
    ensures commit ==> SettledOn(Run(w, queue).0, Run(Run(w, queue).0, settle).0, Targets(queue), true)
    ensures KeepsCommitted(w, Run(w, queue).0, Targets(queue))
  {
    QueueKeepsCommitted(w, queue);
    var q := Run(w, queue).0;
    SettleNamed(q, settle, commit);
  }

  /** Every tracker has nothing queued. */
  ghost predicate AllSettled(w: World) {
    && (forall c :: c in w.head ==> w.head[c].Settled())
    && (forall r :: SpotAt(w, r).Settled())
    && (forall h :: VolumeAt(w, h).Settled())
  }

  /** Every tracker reads the same in both worlds. */
  ghost predicate SameTrackers(w: World, w': World) {
    && w'.head == w.head
    && (forall r :: SpotAt(w', r) == SpotAt(w, r))
    && (forall h :: VolumeAt(w', h) == VolumeAt(w, h))
  }

  /** Rolling back from a world with nothing queued gives that world back. */
  lemma RollbackRestores(w: World, w': World, ts: set<Target>)
    requires AllSettled(w) && SettledOn(w, w', ts, false)
    ensures SameTrackers(w, w')
  {
    forall c | c in w.head ensures w'.head[c] == w.head[c] {
      assert w.head[c].Settled();
    }
    forall r ensures SpotAt(w', r) == SpotAt(w, r) {
      assert SpotAt(w, r).Settled();
    }
    forall h ensures VolumeAt(w', h) == VolumeAt(w, h) {
      assert VolumeAt(w, h).Settled();
    }
  }

  // ---------------------------------------------------------------------
  // Pickups and drops

  /** One pickup or drop: the channel, the resource, and the tip concerned. */
  datatype TipMove = TipMove(channel: int, resource: Resource, tip: Tip)

  datatype TipOp = PickUpOp | DropOp

  /**
   * Whether the resource's tip tracker takes part: tip tracking is on, the
   * tracker is enabled and, for a drop, the resource is a tip spot.
   */
  predicate SpotTracked(kind: TipOp, r: Resource, tipTracking: bool, disabled: set<Resource>) {
    tipTracking && (kind.DropOp? ==> r.kind == TipSpotKind) && r !in disabled
  }

  /** What the channel queues: take the tip from the resource, or release it. */
  function ChangeOf(kind: TipOp, op: TipMove): ChannelChange {
    if kind.PickUpOp? then TakeTip(op.tip, op.resource) else ReleaseTip
  }

  /** What the resource's tracker queues: emptied by a pickup, given the tip by a drop. */
  function SpotContent(kind: TipOp, op: TipMove): Option<Tip> {
    if kind.PickUpOp? then None else Some(op.tip)
  }

  /** The trackers one operation involves. */
  function OneTipTargets(kind: TipOp, op: TipMove, tipTracking: bool, disabled: set<Resource>): set<Target> {
    (if SpotTracked(kind, op.resource, tipTracking, disabled) then {OnSpot(op.resource)} else {})
    + {OnChannel(op.channel)}
  }

  /** The queue loop's body for one operation. */
  function TipQueue(kind: TipOp, op: TipMove, tipTracking: bool, disabled: set<Resource>): (acts: seq<Action>)
    ensures Targets(acts) == OneTipTargets(kind, op, tipTracking, disabled)
  {
    var pre := if SpotTracked(kind, op.resource, tipTracking, disabled) then [QueueSpot(op.resource, SpotContent(kind, op))] else [];
    TargetsPair(pre, QueueChannel(op.channel, ChangeOf(kind, op)));
    pre + [QueueChannel(op.channel, ChangeOf(kind, op))]
  }

  /** The commit loop's (or rollback loop's) body for one operation. */
  function TipSettle(kind: TipOp, op: TipMove, commit: bool, tipTracking: bool, disabled: set<Resource>)
    : (acts: seq<Action>)
    ensures Targets(acts) == OneTipTargets(kind, op, tipTracking, disabled)
  {
    var pre := if SpotTracked(kind, op.resource, tipTracking, disabled) then [Settle(OnSpot(op.resource), commit)] else [];
    TargetsPair(pre, Settle(OnChannel(op.channel), commit));
    pre + [Settle(OnChannel(op.channel), commit)]
  }

  /** The trackers a batch of operations involves. */
  function TipTargets(kind: TipOp, ops: seq<TipMove>, tipTracking: bool, disabled: set<Resource>)
    : (ts: set<Target>)
    ensures forall i :: 0 <= i < |ops| ==>
      OnChannel(ops[i].channel) in ts
      && (SpotTracked(kind, ops[i].resource, tipTracking, disabled) ==> OnSpot(ops[i].resource) in ts)
  {
    if ops == [] then {}
    else
      var rest := TipTargets(kind, ops[1..], tipTracking, disabled);
      assert forall i :: 0 < i < |ops| ==> ops[i] == ops[1..][i - 1];
      OneTipTargets(kind, ops[0], tipTracking, disabled) + rest
  }

  /** A channel no operation uses is not among the targets. */
  lemma {:induction false} TipTargetsChannels(kind: TipOp, ops: seq<TipMove>, tipTracking: bool, disabled: set<Resource>, c: int)
    requires forall i :: 0 <= i < |ops| ==> ops[i].channel != c
    ensures OnChannel(c) !in TipTargets(kind, ops, tipTracking, disabled)
    decreases |ops|
  {
    if ops != [] {
      assert forall i :: 0 <= i < |ops[1..]| ==> ops[1..][i] == ops[i + 1];
      TipTargetsChannels(kind, ops[1..], tipTracking, disabled, c);
    }
  }

  /** A resource no operation uses is not among the targets. */
  lemma {:induction false} TipTargetsSpots(kind: TipOp, ops: seq<TipMove>, tipTracking: bool, disabled: set<Resource>, r: Resource)
    requires forall i :: 0 <= i < |ops| ==> ops[i].resource != r
    ensures OnSpot(r) !in TipTargets(kind, ops, tipTracking, disabled)
    decreases |ops|
  {
    if ops != [] {
      assert forall i :: 0 <= i < |ops[1..]| ==> ops[1..][i] == ops[i + 1];
      TipTargetsSpots(kind, ops[1..], tipTracking, disabled, r);
    }
  }

  predicate ChannelsIn(ops: seq<TipMove>, keys: set<int>) {
    forall i :: 0 <= i < |ops| ==> ops[i].channel in keys
  }

  lemma ChannelsInTail(ops: seq<TipMove>, keys: set<int>)
    requires ops != [] && ChannelsIn(ops, keys)
    ensures ops[0].channel in keys && ChannelsIn(ops[1..], keys)
  {
    assert forall i :: 0 <= i < |ops[1..]| ==> ops[1..][i] == ops[i + 1];
  }

  /** The queue loop of `pick_up_tips` (`PickUpOp`) or `drop_tips` (`DropOp`). */
  function TipBatchQueue(kind: TipOp, ops: seq<TipMove>, tipTracking: bool, disabled: set<Resource>)
    : (acts: seq<Action>)
    ensures OnlyQueues(acts)
    ensures Targets(acts) == TipTargets(kind, ops, tipTracking, disabled)
    ensures forall keys :: ChannelsIn(ops, keys) ==> AllInHead(acts, keys)
  {
    if ops == [] then []
    else
      var first := TipQueue(kind, ops[0], tipTracking, disabled);
      var rest := TipBatchQueue(kind, ops[1..], tipTracking, disabled);
      TargetsAppend(first, rest);
      assert forall keys :: ChannelsIn(ops, keys) ==> ChannelsIn(ops[1..], keys) && ops[0].channel in keys by {
        forall keys | ChannelsIn(ops, keys) ensures ChannelsIn(ops[1..], keys) && ops[0].channel in keys {
          ChannelsInTail(ops, keys);
        }
      }
      first + rest
  }

  /** The commit loop (`commit`) or the rollback loop of the same operation. */
  function TipBatchSettle(kind: TipOp, ops: seq<TipMove>, commit: bool, tipTracking: bool, disabled: set<Resource>)
    : (acts: seq<Action>)
    ensures OnlySettles(acts, commit)
    ensures Targets(acts) == TipTargets(kind, ops, tipTracking, disabled)
    ensures forall keys :: ChannelsIn(ops, keys) ==> AllInHead(acts, keys)
  {
    if ops == [] then []
    else
      var first := TipSettle(kind, ops[0], commit, tipTracking, disabled);
      var rest := TipBatchSettle(kind, ops[1..], commit, tipTracking, disabled);
      TargetsAppend(first, rest);
      assert forall keys :: ChannelsIn(ops, keys) ==> ChannelsIn(ops[1..], keys) && ops[0].channel in keys by {
        forall keys | ChannelsIn(ops, keys) ensures ChannelsIn(ops[1..], keys) && ops[0].channel in keys {
          ChannelsInTail(ops, keys);
        }
      }
      first + rest
  }

  /** The pickup and drop loops touch no volume tracker. */
  lemma {:induction false} TipBatchNoVolumes(kind: TipOp, ops: seq<TipMove>, commit: bool, tipTracking: bool, disabled: set<Resource>)
    ensures NoVolumeActions(TipBatchQueue(kind, ops, tipTracking, disabled))
    ensures NoVolumeActions(TipBatchSettle(kind, ops, commit, tipTracking, disabled))
    decreases |ops|
  {
    if ops != [] {
      TipBatchNoVolumes(kind, ops[1..], commit, tipTracking, disabled);
    }
  }

  predicate DistinctChannels(ops: seq<TipMove>) {
    forall i, j :: 0 <= i < j < |ops| ==> ops[i].channel != ops[j].channel
  }

  predicate DistinctResources(ops: seq<TipMove>) {
    forall i, j :: 0 <= i < j < |ops| ==> ops[i].resource != ops[j].resource
  }

  /** What one operation's queueing leaves pending on its channel and its resource. */
  lemma TipQueueOne(kind: TipOp, op: TipMove, tipTracking: bool, disabled: set<Resource>, w: World)
    requires op.channel in w.head
    ensures AllInHead(TipQueue(kind, op, tipTracking, disabled), w.head.Keys)
    ensures var w1 := Run(w, TipQueue(kind, op, tipTracking, disabled)).0;
      && w1.head[op.channel].pending == Apply(ChangeOf(kind, op), w.head[op.channel].pending)
      && (SpotTracked(kind, op.resource, tipTracking, disabled) ==> SpotAt(w1, op.resource).pending == SpotContent(kind, op))
  {
    var acts := TipQueue(kind, op, tipTracking, disabled);
    if SpotTracked(kind, op.resource, tipTracking, disabled) {
      var w0 := Step(w, acts[0]);
      assert acts[1..][1..] == [];
      assert Run(w, acts) == Run(w0, acts[1..]);
      assert Run(w0, acts[1..]) == Run(Step(w0, acts[1]), []);
    } else {
      assert acts[1..] == [];
    }
  }

  /** Every operation's channel holds, pending, the outcome of that operation. */
  ghost predicate ChannelsPending(kind: TipOp, ops: seq<TipMove>, w: World, q: World) {
    forall i :: 0 <= i < |ops| && ops[i].channel in w.head ==>
      ops[i].channel in q.head
      && q.head[ops[i].channel].pending == Apply(ChangeOf(kind, ops[i]), w.head[ops[i].channel].pending)
  }

  /** Every tracked resource holds, pending, the content its operation gives it. */
  ghost predicate SpotsPending(kind: TipOp, ops: seq<TipMove>, tipTracking: bool, disabled: set<Resource>, q: World) {
    forall i :: 0 <= i < |ops| && SpotTracked(kind, ops[i].resource, tipTracking, disabled) ==>
      SpotAt(q, ops[i].resource).pending == SpotContent(kind, ops[i])
  }

  lemma DistinctTail(ops: seq<TipMove>)
    requires ops != []
    ensures DistinctChannels(ops) ==> DistinctChannels(ops[1..]) && forall i :: 0 <= i < |ops[1..]| ==> ops[1..][i].channel != ops[0].channel
    ensures DistinctResources(ops) ==> DistinctResources(ops[1..]) && forall i :: 0 <= i < |ops[1..]| ==> ops[1..][i].resource != ops[0].resource
  {
    assert forall i :: 0 <= i < |ops[1..]| ==> ops[1..][i] == ops[i + 1];
  }

  /** When no channel is used twice, the queue loop leaves each channel holding the outcome of its own operation. */
  lemma {:induction false} TipQueueChannels(kind: TipOp, ops: seq<TipMove>, tipTracking: bool, disabled: set<Resource>, w: World)
    requires ChannelsIn(ops, w.head.Keys) && DistinctChannels(ops)
    ensures ChannelsPending(kind, ops, w, Run(w, TipBatchQueue(kind, ops, tipTracking, disabled)).0)
    decreases |ops|
  {
    if ops != [] {
      var first := TipQueue(kind, ops[0], tipTracking, disabled);
      var rest := TipBatchQueue(kind, ops[1..], tipTracking, disabled);
      ChannelsInTail(ops, w.head.Keys);
      RunAppend(w, first, rest);
      TipQueueOne(kind, ops[0], tipTracking, disabled, w);
      QueueKeepsCommitted(w, first);
      var w1 := Run(w, first).0;
      var q := Run(w1, rest).0;
      DistinctTail(ops);
      TipQueueChannels(kind, ops[1..], tipTracking, disabled, w1);
      QueueKeepsCommitted(w1, rest);
      TipTargetsChannels(kind, ops[1..], tipTracking, disabled, ops[0].channel);
      ChannelsPendingCons(kind, ops, tipTracking, disabled, w, w1, q);
    }
  }

  /** The step of `TipQueueChannels`: the first operation's channel, then the others'. */
  lemma ChannelsPendingCons(kind: TipOp, ops: seq<TipMove>, tipTracking: bool, disabled: set<Resource>, w: World, w1: World, q: World)
    requires ops != [] && ops[0].channel in w.head && DistinctChannels(ops)
    requires KeepsCommitted(w, w1, OneTipTargets(kind, ops[0], tipTracking, disabled))
    requires w1.head[ops[0].channel].pending == Apply(ChangeOf(kind, ops[0]), w.head[ops[0].channel].pending)
    requires ChannelsPending(kind, ops[1..], w1, q)
    requires KeepsCommitted(w1, q, TipTargets(kind, ops[1..], tipTracking, disabled))
    requires OnChannel(ops[0].channel) !in TipTargets(kind, ops[1..], tipTracking, disabled)
    ensures ChannelsPending(kind, ops, w, q)
  {
    forall i | 0 <= i < |ops| && ops[i].channel in w.head
      ensures ops[i].channel in q.head
      ensures q.head[ops[i].channel].pending == Apply(ChangeOf(kind, ops[i]), w.head[ops[i].channel].pending)
    {
      if i > 0 {
        assert ops[1..][i - 1] == ops[i];
        assert OnChannel(ops[i].channel) !in OneTipTargets(kind, ops[0], tipTracking, disabled);
      }
    }
  }

  /** When no resource is used twice, the queue loop leaves each tracked tip spot holding the content its operation gives it. */
  lemma {:induction false} TipQueueSpots(kind: TipOp, ops: seq<TipMove>, tipTracking: bool, disabled: set<Resource>, w: World)
    requires ChannelsIn(ops, w.head.Keys) && DistinctResources(ops)
    ensures SpotsPending(kind, ops, tipTracking, disabled, Run(w, TipBatchQueue(kind, ops, tipTracking, disabled)).0)
    decreases |ops|
  {
    if ops != [] {
      var first := TipQueue(kind, ops[0], tipTracking, disabled);
      var rest := TipBatchQueue(kind, ops[1..], tipTracking, disabled);
      ChannelsInTail(ops, w.head.Keys);
      RunAppend(w, first, rest);
      TipQueueOne(kind, ops[0], tipTracking, disabled, w);
      QueueKeepsCommitted(w, first);
      var w1 := Run(w, first).0;
      var q := Run(w1, rest).0;
      DistinctTail(ops);
      TipQueueSpots(kind, ops[1..], tipTracking, disabled, w1);
      QueueKeepsCommitted(w1, rest);
      TipTargetsSpots(kind, ops[1..], tipTracking, disabled, ops[0].resource);
      assert Run(w, TipBatchQueue(kind, ops, tipTracking, disabled)).0 == q;
      assert SpotTracked(kind, ops[0].resource, tipTracking, disabled) ==>
        SpotAt(q, ops[0].resource).pending == SpotContent(kind, ops[0]) by {
        assert OnSpot(ops[0].resource) !in Targets(rest);
        assert SpotAt(q, ops[0].resource) == SpotAt(w1, ops[0].resource);
      }
      forall i | 0 < i < |ops| && SpotTracked(kind, ops[i].resource, tipTracking, disabled)
        ensures SpotAt(q, ops[i].resource).pending == SpotContent(kind, ops[i])
      {
        assert ops[1..][i - 1] == ops[i];
      }
    }
  }

  // ---------------------------------------------------------------------
  // Aspirations and dispenses

  /** One aspiration or dispense: the container, the volume and the tip on the channel (None if it has none). */
  datatype LiquidOp = LiquidOp(container: Resource, volume: real, tip: Option<Tip>)

  datatype Direction = Aspirating | Dispensing

  /** How the container's volume changes; the tip's changes the other way. */
  function ContainerDelta(dir: Direction, volume: real): real {
    if dir.Aspirating? then -volume else volume
  }

  /** The volume trackers one operation involves under volume tracking. */
  function OneLiquidTargets(op: LiquidOp, volumeTracking: bool, disabled: set<Resource>): set<Target> {
    if !volumeTracking then {}
    else
      (if op.container !in disabled then {OnVolume(InContainer(op.container))} else {})
      + (if op.tip.None? then {} else {OnVolume(InTip(op.tip.value))})
  }


  /**
   * The queue loop's body: only under volume tracking; the container's
   * tracker only when enabled, the tip's tracker always.
   */
  function LiquidQueue(dir: Direction, op: LiquidOp, volumeTracking: bool, disabled: set<Resource>)
    : (acts: seq<Action>)
    ensures Targets(acts) == OneLiquidTargets(op, volumeTracking, disabled)
  {
    if !volumeTracking then []
    else
      var pre := if op.container !in disabled
        then [QueueVolume(InContainer(op.container), ContainerDelta(dir, op.volume))]
        else [];
      var last := if op.tip.None? then NoTipFault else QueueVolume(InTip(op.tip.value), -ContainerDelta(dir, op.volume));
      TargetsPair(pre, last);
      pre + [last]
  }

  /**
   * The commit or rollback loop's body as written: both trackers, but only
   * when the container's tracker is enabled, and whether or not volume
   * tracking queued anything.
   */
  function LiquidSettle(op: LiquidOp, commit: bool, disabled: set<Resource>): (acts: seq<Action>)
    ensures Targets(acts) == OneSettleTargets(op, disabled)
    ensures NoTipFault in acts <==> op.container !in disabled && op.tip.None?
  {
    if op.container in disabled then []
    else
      var last := if op.tip.None? then NoTipFault else Settle(OnVolume(InTip(op.tip.value)), commit);
      TargetsPair([Settle(OnVolume(InContainer(op.container)), commit)], last);
      [Settle(OnVolume(InContainer(op.container)), commit)] + [last]
  }

  /** The volume trackers the loop body as written settles: the container's and the tip's, when the container's is enabled. */
  function OneSettleTargets(op: LiquidOp, disabled: set<Resource>): set<Target> {
    if op.container in disabled then {}
    else {OnVolume(InContainer(op.container))} + (if op.tip.None? then {} else {OnVolume(InTip(op.tip.value))})
  }

  /** The commit or rollback loop's body settling exactly what the queue loop's body queued. */
  function LiquidSettleIntended(op: LiquidOp, commit: bool, volumeTracking: bool, disabled: set<Resource>)
    : (acts: seq<Action>)
    ensures Targets(acts) == OneLiquidTargets(op, volumeTracking, disabled)
  {
    if !volumeTracking then []
    else
      var pre := if op.container !in disabled then [Settle(OnVolume(InContainer(op.container)), commit)] else [];
      var last := if op.tip.None? then NoTipFault else Settle(OnVolume(InTip(op.tip.value)), commit);
      TargetsPair(pre, last);
      pre + [last]
  }

  predicate AllTipped(ops: seq<LiquidOp>) {
    forall i :: 0 <= i < |ops| ==> ops[i].tip.Some?
  }

  lemma AllTippedTail(ops: seq<LiquidOp>)
    requires ops != []
    ensures AllTipped(ops) ==> ops[0].tip.Some? && AllTipped(ops[1..])
  {
    assert forall i :: 0 <= i < |ops[1..]| ==> ops[1..][i] == ops[i + 1];
  }

  /** The volume trackers a batch involves under volume tracking. */
  function LiquidTargets(ops: seq<LiquidOp>, volumeTracking: bool, disabled: set<Resource>): set<Target> {
    if ops == [] then {} else OneLiquidTargets(ops[0], volumeTracking, disabled) + LiquidTargets(ops[1..], volumeTracking, disabled)
  }

  /** The queue loop of `aspirate` / `dispense`. */
  function LiquidBatchQueue(dir: Direction, ops: seq<LiquidOp>, volumeTracking: bool, disabled: set<Resource>)
    : (acts: seq<Action>)
    ensures NoTipActions(acts)
    ensures AllTipped(ops) ==> OnlyQueues(acts)
    ensures !volumeTracking ==> acts == []
    ensures Targets(acts) == LiquidTargets(ops, volumeTracking, disabled)
  {
    if ops == [] then []
    else
      var first := LiquidQueue(dir, ops[0], volumeTracking, disabled);
      var rest := LiquidBatchQueue(dir, ops[1..], volumeTracking, disabled);
      AllTippedTail(ops);
      TargetsAppend(first, rest);
      first + rest
  }

  /** Every operation whose container's tracker is enabled has a tip on its channel. */
  predicate EnabledTipped(ops: seq<LiquidOp>, disabled: set<Resource>) {
    forall i :: 0 <= i < |ops| && ops[i].container !in disabled ==> ops[i].tip.Some?
  }

  lemma EnabledTippedTail(ops: seq<LiquidOp>, disabled: set<Resource>)
    requires ops != []
    ensures EnabledTipped(ops, disabled) <==>
      (ops[0].container in disabled || ops[0].tip.Some?) && EnabledTipped(ops[1..], disabled)
  {
    assert forall i :: 0 < i < |ops| ==> ops[i] == ops[1..][i - 1];
  }

  /** No operation's container has a disabled tracker. */
  predicate NoneDisabled(ops: seq<LiquidOp>, disabled: set<Resource>) {
    forall i :: 0 <= i < |ops| ==> ops[i].container !in disabled
  }

  /** The volume trackers the commit or rollback loop as written settles. */
  function LiquidSettleTargets(ops: seq<LiquidOp>, disabled: set<Resource>): set<Target> {
    if ops == [] then {} else OneSettleTargets(ops[0], disabled) + LiquidSettleTargets(ops[1..], disabled)
  }

  /**
   * The commit or rollback loop of `aspirate` / `dispense`, as written: it
   * names the trackers of `LiquidSettleTargets`, and reaches for a missing
   * tip exactly when an operation on an enabled container has none.
   */
  function LiquidBatchSettle(ops: seq<LiquidOp>, commit: bool, disabled: set<Resource>): (acts: seq<Action>)
    ensures NoTipActions(acts)
    ensures EnabledTipped(ops, disabled) ==> OnlySettles(acts, commit)
    ensures Targets(acts) == LiquidSettleTargets(ops, disabled)
    ensures NoTipFault in acts <==> !EnabledTipped(ops, disabled)
  {
    if ops == [] then []
    else
      var first := LiquidSettle(ops[0], commit, disabled);
      var rest := LiquidBatchSettle(ops[1..], commit, disabled);
      EnabledTippedTail(ops, disabled);
      TargetsAppend(first, rest);
      first + rest
  }

  /** A holder's volume tracker is settled by the loop body as written for `op`. */
  predicate SettledBy(op: LiquidOp, disabled: set<Resource>, h: Holder) {
    op.container !in disabled && (h == InContainer(op.container) || (op.tip.Some? && h == InTip(op.tip.value)))
  }

  /**
   * The loop as written settles a holder's tracker exactly when some
   * operation on an enabled container involves it: the container itself,
   * or the tip drawing from it. Only volume trackers are named.
   */
  lemma {:induction false} SettleTargetsMembers(ops: seq<LiquidOp>, disabled: set<Resource>)
    ensures forall h :: OnVolume(h) in LiquidSettleTargets(ops, disabled) <==> exists i :: 0 <= i < |ops| && SettledBy(ops[i], disabled, h)
    ensures forall t :: t in LiquidSettleTargets(ops, disabled) ==> t.OnVolume?
    decreases |ops|
  {
    if ops != [] {
      SettleTargetsMembers(ops[1..], disabled);
      forall h ensures OnVolume(h) in LiquidSettleTargets(ops, disabled) <==> exists i :: 0 <= i < |ops| && SettledBy(ops[i], disabled, h) {
        if OnVolume(h) in LiquidSettleTargets(ops[1..], disabled) {
          var j :| 0 <= j < |ops[1..]| && SettledBy(ops[1..][j], disabled, h);
          assert SettledBy(ops[j + 1], disabled, h);
        }
        if i :| 0 <= i < |ops| && SettledBy(ops[i], disabled, h) {
          if i > 0 {
            assert SettledBy(ops[1..][i - 1], disabled, h);
          }
        }
      }
    }
  }

  /** With every container enabled and a tip on every channel, the loop as written settles exactly what was queued. */
  lemma {:induction false} SettleTargetsAllEnabled(ops: seq<LiquidOp>, disabled: set<Resource>)
    requires AllTipped(ops) && NoneDisabled(ops, disabled)
    ensures LiquidSettleTargets(ops, disabled) == LiquidTargets(ops, true, disabled)
    decreases |ops|
  {
    if ops != [] {
      AllTippedTail(ops);
      assert ops[0].container !in disabled;
      assert NoneDisabled(ops[1..], disabled) by {
        assert forall i :: 0 <= i < |ops[1..]| ==> ops[1..][i] == ops[i + 1];
      }
      SettleTargetsAllEnabled(ops[1..], disabled);
    }
  }

  /** The commit or rollback loop settling exactly the trackers the queue loop queued. */
  function LiquidBatchSettleIntended(ops: seq<LiquidOp>, commit: bool, volumeTracking: bool, disabled: set<Resource>)
    : (acts: seq<Action>)
    ensures NoTipActions(acts)
    ensures AllTipped(ops) ==> OnlySettles(acts, commit)
    ensures Targets(acts) == LiquidTargets(ops, volumeTracking, disabled)
  {
    if ops == [] then []
    else
      var first := LiquidSettleIntended(ops[0], commit, volumeTracking, disabled);
      var rest := LiquidBatchSettleIntended(ops[1..], commit, volumeTracking, disabled);
      AllTippedTail(ops);
      TargetsAppend(first, rest);
      first + rest
  }
  /** The change one operation makes to a holder's volume: the container's (if enabled) one way, the tip's the other. */
  function OneChange(dir: Direction, op: LiquidOp, disabled: set<Resource>, h: Holder): real {
    (if h == InContainer(op.container) && op.container !in disabled then ContainerDelta(dir, op.volume) else 0.0)
    + (if op.tip.Some? && h == InTip(op.tip.value) then -ContainerDelta(dir, op.volume) else 0.0)
  }

  /** The net change a batch makes to a holder's volume. */
  function QueuedChange(dir: Direction, ops: seq<LiquidOp>, disabled: set<Resource>, h: Holder): real {
    if ops == [] then 0.0 else OneChange(dir, ops[0], disabled, h) + QueuedChange(dir, ops[1..], disabled, h)
  }

  lemma LiquidQueueOne(dir: Direction, op: LiquidOp, disabled: set<Resource>, w: World)
    requires op.tip.Some?
    ensures forall h :: VolumeAt(Run(w, LiquidQueue(dir, op, true, disabled)).0, h).pending
                        == VolumeAt(w, h).pending + OneChange(dir, op, disabled, h)
  {
    var acts := LiquidQueue(dir, op, true, disabled);
    if op.container !in disabled {
      var w0 := Step(w, acts[0]);
      assert acts[1..][1..] == [];
      assert Run(w, acts) == Run(w0, acts[1..]);
      assert Run(w0, acts[1..]) == Run(Step(w0, acts[1]), []);
    } else {
      assert acts[1..] == [];
    }
  }

  /**
   * Under volume tracking, with a tip on every channel, the queue loop
   * leaves every holder's volume pending at its previous pending volume
   * plus the batch's net change to it.
   */
  lemma {:induction false} LiquidQueueVolumes(dir: Direction, ops: seq<LiquidOp>, disabled: set<Resource>, w: World)
    requires AllTipped(ops)
    ensures forall h :: VolumeAt(Run(w, LiquidBatchQueue(dir, ops, true, disabled)).0, h).pending
                        == VolumeAt(w, h).pending + QueuedChange(dir, ops, disabled, h)
    decreases |ops|
  {
    if ops != [] {
      var first := LiquidQueue(dir, ops[0], true, disabled);
      var rest := LiquidBatchQueue(dir, ops[1..], true, disabled);
      AllTippedTail(ops);
      RunAppend(w, first, rest);
      QueueKeepsCommitted(w, first);
      LiquidQueueOne(dir, ops[0], disabled, w);
      var w1 := Run(w, first).0;
      LiquidQueueVolumes(dir, ops[1..], disabled, w1);
    }
  }

  /** A holder the batch does not involve has no change queued. */
  lemma {:induction false} UninvolvedUnchanged(dir: Direction, ops: seq<LiquidOp>, disabled: set<Resource>, h: Holder)
    requires OnVolume(h) !in LiquidTargets(ops, true, disabled)
    ensures QueuedChange(dir, ops, disabled, h) == 0.0
    decreases |ops|
  {
    if ops != [] {
      UninvolvedUnchanged(dir, ops[1..], disabled, h);
    }
  }

  // ---------------------------------------------------------------------
  // Transactions

  /**
   * A pickup or drop batch: queueing never faults; the rollback restores
   * every involved tracker to the value it had committed before the
   * batch, and the commit makes the queued values the committed ones.
   */
  lemma TipTransaction(kind: TipOp, ops: seq<TipMove>, tipTracking: bool, disabled: set<Resource>, commit: bool, w: World)
    requires ChannelsIn(ops, w.head.Keys)
    ensures var q := Run(w, TipBatchQueue(kind, ops, tipTracking, disabled));
      && q.1.None?
      && KeepsCommitted(w, q.0, TipTargets(kind, ops, tipTracking, disabled))
      && var s := Run(q.0, TipBatchSettle(kind, ops, commit, tipTracking, disabled));
      && s.1.None?
      && (!commit ==> SettledOn(w, s.0, TipTargets(kind, ops, tipTracking, disabled), false))
      && (commit ==> SettledOn(q.0, s.0, TipTargets(kind, ops, tipTracking, disabled), true))
  {
    QueueThenSettle(w, TipBatchQueue(kind, ops, tipTracking, disabled),
                    TipBatchSettle(kind, ops, commit, tipTracking, disabled), commit);
  }

  /**
   * A committed batch that uses no channel and no resource twice leaves
   * each channel with its operation's outcome committed (the tip and where
   * it came from after a pickup; no tip after a drop), and each tracked
   * resource with its new content committed (empty after a pickup; holding
   * the tip after a drop).
   */
  lemma TipCommitOutcome(kind: TipOp, ops: seq<TipMove>, tipTracking: bool, disabled: set<Resource>, w: World)
    requires ChannelsIn(ops, w.head.Keys)
    ensures var q := Run(w, TipBatchQueue(kind, ops, tipTracking, disabled)).0;
      var s := Run(q, TipBatchSettle(kind, ops, true, tipTracking, disabled)).0;
      && s.head.Keys == w.head.Keys
      && (DistinctChannels(ops) ==> forall i :: 0 <= i < |ops| ==>
            ops[i].channel in s.head
            && s.head[ops[i].channel] == Fresh(Apply(ChangeOf(kind, ops[i]), w.head[ops[i].channel].pending)))
      && (DistinctResources(ops) ==> forall i :: 0 <= i < |ops| && SpotTracked(kind, ops[i].resource, tipTracking, disabled) ==>
            SpotAt(s, ops[i].resource) == Fresh(SpotContent(kind, ops[i])))
      && (forall c :: c in w.head && (forall i :: 0 <= i < |ops| ==> ops[i].channel != c) ==> s.head[c] == w.head[c])
      && (forall r :: (forall i :: 0 <= i < |ops| ==> ops[i].resource != r) ==> SpotAt(s, r) == SpotAt(w, r))
      && s.volumes == w.volumes
  {
    TipTransaction(kind, ops, tipTracking, disabled, true, w);
    if DistinctChannels(ops) {
      TipQueueChannels(kind, ops, tipTracking, disabled, w);
    }
    if DistinctResources(ops) {
      TipQueueSpots(kind, ops, tipTracking, disabled, w);
    }
    var q := Run(w, TipBatchQueue(kind, ops, tipTracking, disabled)).0;
    var s := Run(q, TipBatchSettle(kind, ops, true, tipTracking, disabled)).0;
    if DistinctChannels(ops) {
      forall i | 0 <= i < |ops|
        ensures ops[i].channel in s.head
        ensures s.head[ops[i].channel] == Fresh(Apply(ChangeOf(kind, ops[i]), w.head[ops[i].channel].pending))
      {
        assert ops[i].channel in w.head;
      }
    }
    forall c | c in w.head && (forall i :: 0 <= i < |ops| ==> ops[i].channel != c)
      ensures s.head[c] == w.head[c]
    {
      TipTargetsChannels(kind, ops, tipTracking, disabled, c);
    }
    forall r | forall i :: 0 <= i < |ops| ==> ops[i].resource != r
      ensures SpotAt(s, r) == SpotAt(w, r)
    {
      TipTargetsSpots(kind, ops, tipTracking, disabled, r);
    }
    TipBatchNoVolumes(kind, ops, true, tipTracking, disabled);
    RunKeepsVolumes(w, TipBatchQueue(kind, ops, tipTracking, disabled));
    RunKeepsVolumes(q, TipBatchSettle(kind, ops, true, tipTracking, disabled));
  }

  /**
   * An aspiration from a container whose tracker is disabled, rolled back:
   * the tip's volume tracker keeps the aspiration queued, since the
   * rollback loop skips the tip along with the container.
   */
  lemma DisabledContainerLeavesTipQueued()
    ensures var well := Resource("well", ContainerKind, None);
      var ops := [LiquidOp(well, 5.0, Some(Tip(0)))];
      var q := Run(World(map[], map[], map[]), LiquidBatchQueue(Aspirating, ops, true, {well})).0;
      var s := Run(q, LiquidBatchSettle(ops, false, {well})).0;
      VolumeAt(s, InTip(Tip(0))) == Tracker(0.0, 5.0)
  {
    var well := Resource("well", ContainerKind, None);
    var ops := [LiquidOp(well, 5.0, Some(Tip(0)))];
    var w := World(map[], map[], map[]);
    assert ops[1..] == [];
    var queue := LiquidBatchQueue(Aspirating, ops, true, {well});
    assert LiquidQueue(Aspirating, ops[0], true, {well}) == [] + [QueueVolume(InTip(Tip(0)), 5.0)];
    assert queue == LiquidQueue(Aspirating, ops[0], true, {well}) + LiquidBatchQueue(Aspirating, ops[1..], true, {well});
    assert queue == [QueueVolume(InTip(Tip(0)), 5.0)];
    assert LiquidBatchSettle(ops, false, {well}) == [];
    assert queue[1..] == [];
  }

  /**
   * An aspiration on a channel without a tip, with volume tracking off:
   * nothing is queued, yet the commit loop as written reaches for the
   * missing tip's tracker once the backend has returned; the intended
   * loop settles nothing and so does not fault.
   */
  lemma UntrackedTiplessCommitFaults()
    ensures var well := Resource("well", ContainerKind, None);
      var ops := [LiquidOp(well, 5.0, None)];
      var w := World(map[], map[], map[]);
      && LiquidBatchQueue(Aspirating, ops, false, {}) == []
      && Run(w, LiquidBatchSettle(ops, true, {})).1 == Some(TipAccessOnEmptyChannel)
      && Run(w, LiquidBatchSettleIntended(ops, true, false, {})).1 == None
  {
    var well := Resource("well", ContainerKind, None);
    var ops := [LiquidOp(well, 5.0, None)];
    var w := World(map[], map[], map[]);
    assert ops[1..] == [];
    var settle := LiquidBatchSettle(ops, true, {});
    assert LiquidSettle(ops[0], true, {}) == [Settle(OnVolume(InContainer(well)), true)] + [NoTipFault];
    assert settle == LiquidSettle(ops[0], true, {}) + LiquidBatchSettle(ops[1..], true, {});
    assert settle == [Settle(OnVolume(InContainer(well)), true), NoTipFault];
    assert settle[1..] == [NoTipFault];
    assert LiquidBatchSettleIntended(ops, true, false, {}) == [];
  }

  /**
   * An aspiration or dispense batch with a tip on every channel, settled
   * with the intended loop: queueing never faults; the rollback restores
   * every queued volume tracker to the volume it had committed before the
   * batch, and the commit makes every queued volume the committed one.
   */
  lemma LiquidTransaction(dir: Direction, ops: seq<LiquidOp>, volumeTracking: bool, disabled: set<Resource>, commit: bool, w: World)
    requires AllTipped(ops)
    ensures var q := Run(w, LiquidBatchQueue(dir, ops, volumeTracking, disabled));
      && q.1.None?
      && KeepsCommitted(w, q.0, LiquidTargets(ops, volumeTracking, disabled))
      && var s := Run(q.0, LiquidBatchSettleIntended(ops, commit, volumeTracking, disabled));
      && s.1.None?
      && (!commit ==> SettledOn(w, s.0, LiquidTargets(ops, volumeTracking, disabled), false))
      && (commit ==> SettledOn(q.0, s.0, LiquidTargets(ops, volumeTracking, disabled), true))
  {
    QueueThenSettle(w, LiquidBatchQueue(dir, ops, volumeTracking, disabled),
                    LiquidBatchSettleIntended(ops, commit, volumeTracking, disabled), commit);
  }
  /**
   * A committed aspiration or dispense batch, from a world with nothing
   * queued and with a tip on every channel: every holder's volume is its
   * previous volume plus the batch's net change, committed.
   */
  lemma LiquidCommitVolumes(dir: Direction, ops: seq<LiquidOp>, disabled: set<Resource>, w: World)
    requires AllTipped(ops) && AllSettled(w)
    ensures var q := Run(w, LiquidBatchQueue(dir, ops, true, disabled)).0;
      var s := Run(q, LiquidBatchSettleIntended(ops, true, true, disabled)).0;
      forall h :: VolumeAt(s, h).Settled() && VolumeAt(s, h).committed == VolumeAt(w, h).committed + QueuedChange(dir, ops, disabled, h)
  {
    LiquidTransaction(dir, ops, true, disabled, true, w);
    LiquidQueueVolumes(dir, ops, disabled, w);
    var q := Run(w, LiquidBatchQueue(dir, ops, true, disabled)).0;
    var s := Run(q, LiquidBatchSettleIntended(ops, true, true, disabled)).0;
    var ts := LiquidTargets(ops, true, disabled);
    forall h
      ensures VolumeAt(s, h).Settled()
      ensures VolumeAt(s, h).committed == VolumeAt(w, h).committed + QueuedChange(dir, ops, disabled, h)
    {
      assert VolumeAt(w, h).Settled();
      assert VolumeAt(q, h).pending == VolumeAt(w, h).pending + QueuedChange(dir, ops, disabled, h);
      if OnVolume(h) in ts {
        assert VolumeAt(s, h) == VolumeAt(q, h).Settle(true);
      } else {
        UninvolvedUnchanged(dir, ops, disabled, h);
        assert VolumeAt(s, h) == VolumeAt(q, h);
        assert VolumeAt(q, h) == VolumeAt(w, h);
      }
    }
  }

  /**
   * The volume trackers after the loop as written, from trackers `w` with
   * nothing queued: a tracker the loop settles has nothing queued, at its
   * old volume after a rollback or at its old volume plus the batch's net
   * change after a commit; any other keeps its old volume committed and
   * the net change queued.
   */
  ghost predicate VolumesAsWritten(dir: Direction, ops: seq<LiquidOp>, disabled: set<Resource>, commit: bool, w: World, s: World) {
    forall h :: VolumeAt(s, h) ==
      if OnVolume(h) in LiquidSettleTargets(ops, disabled)
      then Fresh(VolumeAt(w, h).committed + (if commit then QueuedChange(dir, ops, disabled, h) else 0.0))
      else Tracker(VolumeAt(w, h).committed, VolumeAt(w, h).committed + QueuedChange(dir, ops, disabled, h))
  }

  lemma VolumesAsWrittenFrom(dir: Direction, ops: seq<LiquidOp>, disabled: set<Resource>, commit: bool, w: World, q: World, s: World)
    requires AllSettled(w)
    requires forall h :: VolumeAt(q, h).committed == VolumeAt(w, h).committed
    requires forall h :: VolumeAt(q, h).pending == VolumeAt(w, h).pending + QueuedChange(dir, ops, disabled, h)
    requires SettledOn(q, s, LiquidSettleTargets(ops, disabled), commit)
    ensures VolumesAsWritten(dir, ops, disabled, commit, w, s)
  {
    forall h
      ensures VolumeAt(s, h) ==
        if OnVolume(h) in LiquidSettleTargets(ops, disabled)
        then Fresh(VolumeAt(w, h).committed + (if commit then QueuedChange(dir, ops, disabled, h) else 0.0))
        else Tracker(VolumeAt(w, h).committed, VolumeAt(w, h).committed + QueuedChange(dir, ops, disabled, h))
    {
      assert VolumeAt(w, h).Settled();
    }
  }

  /**
   * An aspiration or dispense batch under volume tracking, with a tip on
   * every channel, from trackers with nothing queued, settled by the loop
   * as written: no channel or tip spot changes, and the volume trackers
   * are as `VolumesAsWritten` says.
   */
  lemma LiquidSettleAsWritten(dir: Direction, ops: seq<LiquidOp>, disabled: set<Resource>, commit: bool, w: World)
    requires AllTipped(ops) && AllSettled(w)
    ensures var q := Run(w, LiquidBatchQueue(dir, ops, true, disabled));
      && q.1.None?
      && var s := Run(q.0, LiquidBatchSettle(ops, commit, disabled));
      && s.1.None?
      && s.0.head == w.head && s.0.spots == w.spots
      && VolumesAsWritten(dir, ops, disabled, commit, w, s.0)
  {
    var queue := LiquidBatchQueue(dir, ops, true, disabled);
    var settle := LiquidBatchSettle(ops, commit, disabled);
    QueueKeepsCommitted(w, queue);
    LiquidQueueVolumes(dir, ops, disabled, w);
    var q := Run(w, queue).0;
    assert EnabledTipped(ops, disabled);
    SettleNamed(q, settle, commit);
    RunKeepsTipTrackers(w, queue);
    RunKeepsTipTrackers(q, settle);
    VolumesAsWrittenFrom(dir, ops, disabled, commit, w, q, Run(q, settle).0);
  }

  /**
   * With volume tracking off nothing is queued, and the loop as written,
   * when it does not fault, settles trackers that have nothing queued:
   * from trackers with nothing queued, every tracker reads as before.
   */
  lemma LiquidSettleUntracked(ops: seq<LiquidOp>, disabled: set<Resource>, commit: bool, w: World)
    requires EnabledTipped(ops, disabled) && AllSettled(w)
    ensures Run(w, LiquidBatchSettle(ops, commit, disabled)).1.None?
    ensures SameTrackers(w, Run(w, LiquidBatchSettle(ops, commit, disabled)).0)
    ensures Run(w, LiquidBatchSettle(ops, commit, disabled)).0.spots == w.spots
  {
    var settle := LiquidBatchSettle(ops, commit, disabled);
    SettleNamed(w, settle, commit);
    var s := Run(w, settle).0;
    RunKeepsTipTrackers(w, settle);
    forall r ensures SpotAt(s, r) == SpotAt(w, r) {
    }
    forall h ensures VolumeAt(s, h) == VolumeAt(w, h) {
      assert VolumeAt(w, h).Settled();
    }
  }
}

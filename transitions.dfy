/**
 * Each `LiquidHandler` operation as a function from the handler's state
 * before the call to its state after the call and the outcome (`Pass`, or
 * the error the call raises). The backend is a `BackendCall`: the keyword
 * arguments passed to it, the signature of the backend method, and
 * whether the hardware call succeeds.
 */
module Transitions {
  import opened Outcomes
  import opened Trackers
  import opened Resources
  import opened Validation
  import opened Head
  import opened Batches

  /** What the handler is built with: the backend's channel count, the deck and its trash area, and the disabled trackers. */
  datatype Config = Config(numChannels: nat, deck: Resource, trash: Resource, disabled: set<Resource>)

  /** The process-wide switches `does_tip_tracking`, `does_volume_tracking` and `get_strictness`. */
  datatype Settings = Settings(tipTracking: bool, volumeTracking: bool, strictness: Strictness)

  /** One call into the backend: the keyword arguments given, the method's signature, and whether it returns normally. */
  datatype BackendCall = BackendCall(kwargs: set<string>, signature: Signature, succeeds: bool)

  /** `setup_finished`, the trackers, and `_picked_up_tips96`. */
  datatype HandlerState = HandlerState(setupFinished: bool, world: World, tips96: Option<Resource>)

  type Transition = (HandlerState, Outcome<Error>)

  /** The session flag, the 96 head and the set of channels are as before. */
  predicate SameSession(s: HandlerState, s': HandlerState) {
    s'.setupFinished == s.setupFinished && s'.tips96 == s.tips96 && s'.world.head.Keys == s.world.head.Keys
  }

  /** An error the single-channel operations raise before they queue anything. */
  predicate RaisedBeforeQueueing(e: Error) {
    !(e.BackendFailure? || e.MissingArguments? || e.ExtraArguments? || e.TipAccessOnEmptyChannel?)
  }

  // ---------------------------------------------------------------------
  // Session

  /** `setup`: refused once set up; otherwise, if the backend comes up, every channel gets a new tracker. */
  function Setup(s: HandlerState, cfg: Config, backendSucceeds: bool): (o: Transition)
    ensures o.1.Pass? <==> !s.setupFinished && backendSucceeds
    ensures s.setupFinished ==> o == (s, Fail(SetupAlreadyFinished))
    ensures !s.setupFinished && !backendSucceeds ==> o == (s, Fail(BackendFailure))
    ensures o.1.Pass? ==>
      && o.0.setupFinished
      && (forall c :: c in o.0.world.head <==> 0 <= c < cfg.numChannels)
      && (forall c :: c in o.0.world.head ==> o.0.world.head[c] == NewChannel() && !HasTip(o.0.world.head[c]))
      && o.0.world.spots == s.world.spots && o.0.world.volumes == s.world.volumes
      && o.0.tips96 == s.tips96
  {
    if s.setupFinished then (s, Fail(SetupAlreadyFinished))
    else if !backendSucceeds then (s, Fail(BackendFailure))
    else (s.(setupFinished := true, world := s.world.(head := FreshHead(cfg.numChannels))), Pass)
  }

  /** `stop`: not gated; if the backend stops, the session is over and every tracker is kept. */
  function Stop(s: HandlerState, backendSucceeds: bool): (o: Transition)
    ensures o.1.Pass? <==> backendSucceeds
    ensures o.1.Pass? ==> !o.0.setupFinished && o.0.world == s.world && o.0.tips96 == s.tips96
    ensures o.1.Fail? ==> o == (s, Fail(BackendFailure))
  {
    if backendSucceeds then (s.(setupFinished := false), Pass) else (s, Fail(BackendFailure))
  }

  /** `update_head_state`: every key must be a channel; each named channel is set to its tip, the rest keep theirs. */
  function UpdateHeadState(s: HandlerState, state: map<int, Option<Tip>>): (o: Transition)
    ensures o.1.Pass? <==> state.Keys <= s.world.head.Keys
    ensures o.1.Fail? ==> o == (s, Fail(InvalidChannel))
    ensures o.1.Pass? ==>
      && SameSession(s, o.0)
      && o.0.world.spots == s.world.spots && o.0.world.volumes == s.world.volumes
      && (forall c :: c in state ==> o.0.world.head[c] == Placed(state[c]))
      && (forall c :: c in s.world.head && c !in state ==> o.0.world.head[c] == s.world.head[c])
  {
    if state.Keys <= s.world.head.Keys then
      (s.(world := s.world.(head := UpdatedHead(s.world.head, state))), Pass)
    else (s, Fail(InvalidChannel))
  }

  /** `clear_head_state`: every channel holds no tip, with nothing queued. */
  function ClearHeadState(s: HandlerState): (o: Transition)
    ensures o.1.Pass? && SameSession(s, o.0)
    ensures forall c :: c in o.0.world.head ==> !HasTip(o.0.world.head[c]) && o.0.world.head[c].Settled()
  {
    UpdateHeadState(s, map c | c in s.world.head :: None)
  }

  // ---------------------------------------------------------------------
  // The transaction shared by the single-channel operations

  /**
   * Queue, check the backend arguments, call the backend, settle. A fault
   * while queueing, or an argument error, ends the call with whatever was
   * queued left pending; otherwise the settle list (a commit if the
   * backend succeeded, a rollback if not) runs.
   */
  function Transact(s: HandlerState, queue: seq<Action>, settle: seq<Action>, args: Result<set<string>, Error>, succeeds: bool)
    : (o: Transition)
    requires AllInHead(queue, s.world.head.Keys) && AllInHead(settle, s.world.head.Keys)
    ensures SameSession(s, o.0)
    // a fault while queueing, or an argument error after it, ends the call
    // with the queued changes left pending: no rollback runs
    ensures Run(s.world, queue).1.Some? ==>
              o == (s.(world := Run(s.world, queue).0), Fail(Run(s.world, queue).1.value))
    ensures Run(s.world, queue).1.None? && args.Err? ==>
              o == (s.(world := Run(s.world, queue).0), Fail(args.error))
    // otherwise the settle list runs on the queued trackers, and the
    // outcome is the backend's unless the settle list faults
    ensures Run(s.world, queue).1.None? && args.Ok? ==>
              o.0.world == Run(Run(s.world, queue).0, settle).0
              && (o.1.Pass? <==> Run(Run(s.world, queue).0, settle).1.None? && succeeds)
  {
    var (queued, fault) := Run(s.world, queue);
    if fault.Some? then (s.(world := queued), Fail(fault.value))
    else if args.Err? then (s.(world := queued), Fail(args.error))
    else
      var (settled, fault') := Run(queued, settle);
      (s.(world := settled),
       if fault'.Some? then Fail(fault'.value) else if succeeds then Pass else Fail(BackendFailure))
  }

  /** A pickup or drop batch through the transaction. */
  function TipTransact(s: HandlerState, kind: TipOp, ops: seq<TipMove>, settings: Settings, disabled: set<Resource>, call: BackendCall)
    : (o: Transition)
    requires ChannelsIn(ops, s.world.head.Keys)
    ensures SameSession(s, o.0)
    ensures o.1.Pass? <==> ArgsAccepted(call, settings) && call.succeeds
    ensures o.1.Fail? ==> !RaisedBeforeQueueing(o.1.error)
  {
    TipTransaction(kind, ops, settings.tipTracking, disabled, call.succeeds, s.world);
    Transact(s, TipBatchQueue(kind, ops, settings.tipTracking, disabled),
             TipBatchSettle(kind, ops, call.succeeds, settings.tipTracking, disabled),
             SingleChannelArgs(call, settings), call.succeeds)
  }

  /** `_check_args` on a single-channel backend method, which the handler gives `ops` and `use_channels`. */
  function SingleChannelArgs(call: BackendCall, settings: Settings): Result<set<string>, Error> {
    CheckArgs(call.signature, call.kwargs, {"ops", "use_channels"}, settings.strictness)
  }

  predicate ArgsAccepted(call: BackendCall, settings: Settings) {
    SingleChannelArgs(call, settings).Ok?
  }

  // ---------------------------------------------------------------------
  // Pickups

  /** `tip_spot.get_tip()` for each spot: the first empty spot is an error. */
  function SpotTips(w: World, spots: seq<Resource>): (r: Result<seq<Tip>, Error>)
    ensures r.Ok? <==> forall i :: 0 <= i < |spots| ==> SpotAt(w, spots[i]).committed.Some?
    ensures r.Ok? ==> |r.value| == |spots| && forall i :: 0 <= i < |spots| ==> SpotAt(w, spots[i]).committed == Some(r.value[i])
    ensures r.Err? ==> r.error.TipSpotHasNoTip?
  {
    if spots == [] then Ok([])
    else
      var rest := SpotTips(w, spots[1..]);
      assert forall i :: 0 < i < |spots| ==> spots[i] == spots[1..][i - 1];
      match SpotAt(w, spots[0]).committed
      case None => Err(TipSpotHasNoTip(spots[0].name))
      case Some(t) => if rest.Err? then rest else Ok([t] + rest.value)
  }

  /** The operations zipped from channels, resources and tips. */
  function TipMoves(channels: seq<int>, resources: seq<Resource>, tips: seq<Tip>): (ops: seq<TipMove>)
    requires |channels| == |resources| == |tips|
    ensures |ops| == |channels|
    ensures forall i :: 0 <= i < |ops| ==> ops[i] == TipMove(channels[i], resources[i], tips[i])
  {
    seq(|channels|, i requires 0 <= i < |channels| => TipMove(channels[i], resources[i], tips[i]))
  }

  /** The channels a batch of `n` operations uses: `use_channels`, or the first `n`. */
  function UsedChannels(useChannels: Option<seq<int>>, n: nat): seq<int> {
    useChannels.GetOr(DefaultChannels(n))
  }

  /** Everything `pick_up_tips` checks before it queues passes. */
  predicate PickUpValid(s: HandlerState, cfg: Config, tipSpots: seq<Resource>, useChannels: Option<seq<int>>) {
    var channels := UsedChannels(useChannels, |tipSpots|);
    && s.setupFinished
    && (forall i :: 0 <= i < |tipSpots| ==> Root(tipSpots[i]) == cfg.deck)
    && (forall i :: 0 <= i < |channels| ==> channels[i] in s.world.head)
    && |channels| == |tipSpots|
    && (forall i :: 0 <= i < |tipSpots| ==> SpotAt(s.world, tipSpots[i]).committed.Some?)
  }

  /** `pick_up_tips`. */
  function PickUpTips(s: HandlerState, cfg: Config, settings: Settings, tipSpots: seq<Resource>,
                      useChannels: Option<seq<int>>, call: BackendCall): (o: Transition)
    ensures SameSession(s, o.0)
    ensures !s.setupFinished ==> o == (s, Fail(SetupNotFinished))
    ensures o.1.Pass? <==> PickUpValid(s, cfg, tipSpots, useChannels) && ArgsAccepted(call, settings) && call.succeeds
    ensures !PickUpValid(s, cfg, tipSpots, useChannels) ==> o.0 == s && o.1.Fail? && RaisedBeforeQueueing(o.1.error)
  {
    if !s.setupFinished then (s, Fail(SetupNotFinished))
    else
      var onDeck := CheckOnDeck(tipSpots, cfg.deck);
      if onDeck.Fail? then (s, onDeck)
      else
        var channels := UsedChannels(useChannels, |tipSpots|);
        var known := MakeSureChannelsExist(channels, s.world.head.Keys);
        if known.Fail? then (s, known)
        else if |tipSpots| != |channels| then (s, Fail(LengthMismatch))
        else
          var tips := SpotTips(s.world, tipSpots);
          if tips.Err? then (s, Fail(tips.error))
          else TipTransact(s, PickUpOp, TipMoves(channels, tipSpots, tips.value), settings, cfg.disabled, call)
  }

  // ---------------------------------------------------------------------
  // Drops

  /**
   * The loop of `drop_tips` over the channels: the first channel without a
   * tip, or whose tip holds liquid (unless that is allowed), is an error.
   */
  function HeldTips(w: World, channels: seq<int>, allowNonzero: bool): (r: Result<seq<Tip>, Error>)
    requires forall i :: 0 <= i < |channels| ==> channels[i] in w.head
    ensures r.Ok? <==> forall i :: 0 <= i < |channels| ==> CanDrop(w, channels[i], allowNonzero)
    ensures r.Ok? ==> |r.value| == |channels|
                      && forall i :: 0 <= i < |channels| ==> w.head[channels[i]].committed.tip == Some(r.value[i])
    ensures r.Err? ==> r.error.ChannelHasNoTip? || r.error.NonzeroTipVolume?
  {
    if channels == [] then Ok([])
    else
      var c := channels[0];
      assert forall i :: 0 < i < |channels| ==> channels[i] == channels[1..][i - 1];
      var rest := HeldTips(w, channels[1..], allowNonzero);
      match w.head[c].committed.tip
      case None => Err(ChannelHasNoTip(c))
      case Some(t) =>
        if VolumeAt(w, InTip(t)).committed > 0.0 && !allowNonzero then Err(NonzeroTipVolume(VolumeAt(w, InTip(t)).committed))
        else if rest.Err? then rest
        else Ok([t] + rest.value)
  }

  /** The channel holds a tip that may be dropped: an empty one, or any if liquid is allowed. */
  predicate CanDrop(w: World, c: int, allowNonzero: bool)
    requires c in w.head
  {
    HasTip(w.head[c]) && (allowNonzero || VolumeAt(w, InTip(w.head[c].committed.tip.value)).committed <= 0.0)
  }

  /** Everything `drop_tips` checks before it queues passes. */
  predicate DropValid(s: HandlerState, cfg: Config, tipSpots: seq<Resource>, useChannels: Option<seq<int>>, allowNonzero: bool) {
    var channels := UsedChannels(useChannels, |tipSpots|);
    && s.setupFinished
    && (forall i :: 0 <= i < |tipSpots| ==> Root(tipSpots[i]) == cfg.deck)
    && (forall i :: 0 <= i < |channels| ==> channels[i] in s.world.head)
    && (forall i :: 0 <= i < |channels| ==> CanDrop(s.world, channels[i], allowNonzero))
    && |channels| == |tipSpots|
  }

  /** `drop_tips`. */
  function DropTips(s: HandlerState, cfg: Config, settings: Settings, tipSpots: seq<Resource>,
                    useChannels: Option<seq<int>>, allowNonzero: bool, call: BackendCall): (o: Transition)
    ensures SameSession(s, o.0)
    ensures !s.setupFinished ==> o == (s, Fail(SetupNotFinished))
    ensures o.1.Pass? <==> DropValid(s, cfg, tipSpots, useChannels, allowNonzero) && ArgsAccepted(call, settings) && call.succeeds
    ensures !DropValid(s, cfg, tipSpots, useChannels, allowNonzero) ==> o.0 == s && o.1.Fail? && RaisedBeforeQueueing(o.1.error)
  {
    if !s.setupFinished then (s, Fail(SetupNotFinished))
    else
      var onDeck := CheckOnDeck(tipSpots, cfg.deck);
      if onDeck.Fail? then (s, onDeck)
      else
        var channels := UsedChannels(useChannels, |tipSpots|);
        var known := MakeSureChannelsExist(channels, s.world.head.Keys);
        if known.Fail? then (s, known)
        else
          var held := HeldTips(s.world, channels, allowNonzero);
          if held.Err? then (s, Fail(held.error))
          else if |tipSpots| != |channels| then (s, Fail(LengthMismatch))
          else TipTransact(s, DropOp, TipMoves(channels, tipSpots, held.value), settings, cfg.disabled, call)
  }

  /** Where each channel's tip was picked up: a channel without a recorded pickup is an error. */
  function Origins(head: HeadMap, channels: seq<int>): (r: Result<seq<Resource>, Error>)
    requires forall i :: 0 <= i < |channels| ==> channels[i] in head
    ensures r.Ok? <==> forall i :: 0 <= i < |channels| ==> head[channels[i]].committed.origin.Some?
    ensures r.Ok? ==> |r.value| == |channels|
                      && forall i :: 0 <= i < |channels| ==> head[channels[i]].committed.origin == Some(r.value[i])
    ensures r.Err? ==> r.error.NoPickupLocation?
  {
    if channels == [] then Ok([])
    else
      assert forall i :: 0 < i < |channels| ==> channels[i] == channels[1..][i - 1];
      var rest := Origins(head, channels[1..]);
      match head[channels[0]].committed.origin
      case None => Err(NoPickupLocation(channels[0]))
      case Some(r) => if rest.Err? then rest else Ok([r] + rest.value)
  }

  /** `return_tips`: every channel holding a tip drops it where it was picked up; no backend keywords. */
  function ReturnTips(s: HandlerState, cfg: Config, settings: Settings, call: BackendCall): (o: Transition)
    ensures SameSession(s, o.0)
    ensures ChannelsWithTips(s.world.head, cfg.numChannels) == [] ==> o == (s, Fail(NoTipsPickedUp))
    ensures o.1.Pass? ==> s.setupFinished && call.succeeds
  {
    var channels := ChannelsWithTips(s.world.head, cfg.numChannels);
    if |channels| == 0 then (s, Fail(NoTipsPickedUp))
    else
      var origins := Origins(s.world.head, channels);
      if origins.Err? then (s, Fail(origins.error))
      else DropTips(s, cfg, settings, origins.value, Some(channels), false, call.(kwargs := {}))
  }

  /** `discard_tips`: the given channels, or every channel holding a tip, drop into the trash. */
  function DiscardTips(s: HandlerState, cfg: Config, settings: Settings, useChannels: Option<seq<int>>, call: BackendCall)
    : (o: Transition)
    ensures SameSession(s, o.0)
    ensures useChannels == Some([]) ==> o == (s, Fail(NoTipsToDiscard))
    ensures useChannels.None? && ChannelsWithTips(s.world.head, cfg.numChannels) == [] ==> o == (s, Fail(NoTipsToDiscard))
    ensures o.1.Pass? ==> s.setupFinished && call.succeeds
  {
    var channels := useChannels.GetOr(ChannelsWithTips(s.world.head, cfg.numChannels));
    if |channels| == 0 then (s, Fail(NoTipsToDiscard))
    else DropTips(s, cfg, settings, seq(|channels|, _ => cfg.trash), Some(channels), false, call)
  }

  // ---------------------------------------------------------------------
  // Aspirations and dispenses

  /** `resources`: one resource every channel uses, or one per operation. */
  datatype LiquidTarget = OneResource(resource: Resource) | PerOperation(resources: seq<Resource>)

  /** `vols`: one volume for every operation, or a list. */
  datatype Volumes = Uniform(volume: real) | Listed(volumes: seq<real>)

  /** `expand(vols, n)`. */
  function Expand(vols: Volumes, n: nat): (vs: seq<real>)
    ensures vols.Uniform? ==> |vs| == n && forall i :: 0 <= i < n ==> vs[i] == vols.volume
  {
    match vols
    case Uniform(v) => seq(n, _ => v)
    case Listed(vs) => vs
  }

  /**
   * The resources and channels of an aspiration or dispense. One resource:
   * channel 0 by default, repeated for each channel. A list: not empty, on
   * the deck, not in a lidded plate, channels `0..n-1` by default.
   */
  function Locations(s: HandlerState, cfg: Config, target: LiquidTarget, useChannels: Option<seq<int>>)
    : (r: Result<(seq<Resource>, seq<int>), Error>)
    ensures r.Ok? ==> forall i :: 0 <= i < |r.value.1| ==> r.value.1[i] in s.world.head
    ensures r.Ok? && target.OneResource? ==>
      |r.value.0| == |r.value.1| && forall i :: 0 <= i < |r.value.0| ==> r.value.0[i] == target.resource
    ensures r.Ok? && target.PerOperation? ==>
      && r.value.0 == target.resources && target.resources != []
      && (forall i :: 0 <= i < |target.resources| ==> Root(target.resources[i]) == cfg.deck)
      && (forall i :: 0 <= i < |target.resources| ==> !InLiddedPlate(target.resources[i]))
  {
    match target
    case OneResource(res) =>
      var channels := useChannels.GetOr([0]);
      var known := MakeSureChannelsExist(channels, s.world.head.Keys);
      if known.Fail? then Err(known.error)
      else Ok((seq(|channels|, _ => res), channels))
    case PerOperation(rs) =>
      if |rs| == 0 then Err(NoChannelsSpecified)
      else
        var onDeck := CheckOnDeck(rs, cfg.deck);
        if onDeck.Fail? then Err(onDeck.error)
        else
          var lids := CheckNoLids(rs);
          if lids.Fail? then Err(lids.error)
          else
            var channels := useChannels.GetOr(DefaultChannels(|rs|));
            var known := MakeSureChannelsExist(channels, s.world.head.Keys);
            if known.Fail? then Err(known.error) else Ok((rs, channels))
  }

  /** The operations zipped from resources, volumes and the channels' tips: as many as the shortest list. */
  function LiquidOps(resources: seq<Resource>, vols: seq<real>, tips: seq<Option<Tip>>): (ops: seq<LiquidOp>)
    ensures |ops| <= |resources| && |ops| <= |vols| && |ops| <= |tips|
    ensures |ops| == |resources| || |ops| == |vols| || |ops| == |tips|
    ensures forall i :: 0 <= i < |ops| ==> ops[i] == LiquidOp(resources[i], vols[i], tips[i])
  {
    var n := if |resources| <= |vols| && |resources| <= |tips| then |resources|
             else if |vols| <= |tips| then |vols| else |tips|;
    seq(n, i requires 0 <= i < n => LiquidOp(resources[i], vols[i], tips[i]))
  }

  /** The tip each channel holds (`get_tip()`), None for a channel without one. */
  function ChannelTips(head: HeadMap, channels: seq<int>): (tips: seq<Option<Tip>>)
    requires forall i :: 0 <= i < |channels| ==> channels[i] in head
    ensures |tips| == |channels| && forall i :: 0 <= i < |channels| ==> tips[i] == head[channels[i]].committed.tip
  {
    seq(|channels|, i requires 0 <= i < |channels| => head[channels[i]].committed.tip)
  }

  /** Everything `aspirate`/`dispense` checks before it queues passes. */
  predicate LiquidValid(s: HandlerState, cfg: Config, target: LiquidTarget, vols: Volumes, useChannels: Option<seq<int>>) {
    && s.setupFinished
    && var loc := Locations(s, cfg, target, useChannels);
    && loc.Ok?
    && |Expand(vols, |loc.value.0|)| == |loc.value.0|
  }

  /** The operations of a call whose checks pass. */
  function LiquidBatch(s: HandlerState, cfg: Config, target: LiquidTarget, vols: Volumes, useChannels: Option<seq<int>>)
    : seq<LiquidOp>
    requires LiquidValid(s, cfg, target, vols, useChannels)
  {
    var (resources, channels) := Locations(s, cfg, target, useChannels).value;
    LiquidOps(resources, Expand(vols, |resources|), ChannelTips(s.world.head, channels))
  }

  /**
   * `aspirate` (`Aspirating`) and `dispense` (`Dispensing`). The call
   * passes when the checks pass, the arguments are accepted, the backend
   * succeeds, and no loop reaches for a missing tip: under volume tracking
   * the queue loop needs a tip on every channel, and the commit loop needs
   * one on every channel whose container's tracker is enabled. When only
   * the latter fails, the error comes after the backend has run.
   */
  function MoveLiquid(s: HandlerState, cfg: Config, settings: Settings, dir: Direction, target: LiquidTarget,
                      vols: Volumes, useChannels: Option<seq<int>>, call: BackendCall): (o: Transition)
    ensures SameSession(s, o.0)
    ensures !s.setupFinished ==> o == (s, Fail(SetupNotFinished))
    ensures !LiquidValid(s, cfg, target, vols, useChannels) ==> o.0 == s && o.1.Fail? && RaisedBeforeQueueing(o.1.error)
    ensures o.1.Pass? <==>
      && LiquidValid(s, cfg, target, vols, useChannels) && ArgsAccepted(call, settings) && call.succeeds
      && (settings.volumeTracking ==> AllTipped(LiquidBatch(s, cfg, target, vols, useChannels)))
      && EnabledTipped(LiquidBatch(s, cfg, target, vols, useChannels), cfg.disabled)
    ensures
      && LiquidValid(s, cfg, target, vols, useChannels) && ArgsAccepted(call, settings)
      && (settings.volumeTracking ==> AllTipped(LiquidBatch(s, cfg, target, vols, useChannels)))
      && !EnabledTipped(LiquidBatch(s, cfg, target, vols, useChannels), cfg.disabled)
      ==> o.1 == Fail(TipAccessOnEmptyChannel)
  {
    if !s.setupFinished then (s, Fail(SetupNotFinished))
    else
      var loc := Locations(s, cfg, target, useChannels);
      if loc.Err? then (s, Fail(loc.error))
      else
        var (resources, channels) := loc.value;
        var vs := Expand(vols, |resources|);
        if |vs| != |resources| then (s, Fail(LengthMismatch))
        else
          var ops := LiquidOps(resources, vs, ChannelTips(s.world.head, channels));
          var queue := LiquidBatchQueue(dir, ops, settings.volumeTracking, cfg.disabled);
          var settle := LiquidBatchSettle(ops, call.succeeds, cfg.disabled);
          LiquidFaults(dir, ops, settings.volumeTracking, cfg.disabled, call.succeeds, s.world);
          Transact(s, queue, settle, SingleChannelArgs(call, settings), call.succeeds)
  }

  /**
   * A liquid batch's queue loop faults exactly when volume tracking is on
   * and some operation's channel has no tip; after a queue loop that does
   * not fault, the commit or rollback loop as written faults exactly when
   * an operation on an enabled container has no tip.
   */
  lemma LiquidFaults(dir: Direction, ops: seq<LiquidOp>, volumeTracking: bool, disabled: set<Resource>, commit: bool, w: World)
    ensures var q := Run(w, LiquidBatchQueue(dir, ops, volumeTracking, disabled));
      && (q.1.None? <==> (volumeTracking ==> AllTipped(ops)))
      && (q.1.None? ==> (Run(q.0, LiquidBatchSettle(ops, commit, disabled)).1.None? <==> EnabledTipped(ops, disabled)))
  {
    var queue := LiquidBatchQueue(dir, ops, volumeTracking, disabled);
    var settle := LiquidBatchSettle(ops, commit, disabled);
    if volumeTracking && !AllTipped(ops) {
      var i :| 0 <= i < |ops| && ops[i].tip.None?;
      QueueFaultsUntipped(dir, ops, disabled, w, i);
    } else {
      if volumeTracking {
        QueueKeepsCommitted(w, queue);
      }
      var q := Run(w, queue).0;
      if EnabledTipped(ops, disabled) {
        RunNoFault(q, settle);
      } else {
        RunFaultsOn(q, settle);
      }
    }
  }

  /** Under volume tracking, an operation without a tip makes the queue loop fault. */
  lemma {:induction false} QueueFaultsUntipped(dir: Direction, ops: seq<LiquidOp>, disabled: set<Resource>, w: World, i: nat)
    requires i < |ops| && ops[i].tip.None?
    ensures Run(w, LiquidBatchQueue(dir, ops, true, disabled)).1.Some?
    decreases |ops|
  {
    var first := LiquidQueue(dir, ops[0], true, disabled);
    var rest := LiquidBatchQueue(dir, ops[1..], true, disabled);
    RunAppend(w, first, rest);
    if i == 0 {
      assert NoTipFault in first by {
        assert first[|first| - 1] == NoTipFault;
      }
      RunFaultsOn(w, first);
    } else if Run(w, first).1.None? {
      assert ops[1..][i - 1] == ops[i];
      QueueFaultsUntipped(dir, ops[1..], disabled, Run(w, first).0, i - 1);
    }
  }

  /** A list holding a fault does not run to its end. */
  lemma RunFaultsOn(w: World, acts: seq<Action>)
    requires AllInHead(acts, w.head.Keys) && NoTipFault in acts
    ensures Run(w, acts).1.Some?
  {
  }

  // ---------------------------------------------------------------------
  // The 96 head

  /** `_check_args` on a 96-head backend method, which the handler gives the one named argument. */
  function Head96Args(call: BackendCall, settings: Settings, supplied: string): Result<set<string>, Error> {
    CheckArgs(call.signature, call.kwargs, {supplied}, settings.strictness)
  }

  /** `pick_up_tips96`: not gated; on success the 96 head holds the rack's tips. */
  function PickUpTips96(s: HandlerState, settings: Settings, rack: Resource, call: BackendCall): (o: Transition)
    ensures o.1.Pass? <==> Head96Args(call, settings, "pickup").Ok? && call.succeeds
    ensures o.1.Pass? ==> o.0 == s.(tips96 := Some(rack))
    ensures o.1.Fail? ==> o.0 == s
  {
    var args := Head96Args(call, settings, "pickup");
    if args.Err? then (s, Fail(args.error))
    else if !call.succeeds then (s, Fail(BackendFailure))
    else (s.(tips96 := Some(rack)), Pass)
  }

  /** `drop_tips96`: not gated; on success the 96 head holds no tips. */
  function DropTips96(s: HandlerState, settings: Settings, rack: Resource, call: BackendCall): (o: Transition)
    ensures o.1.Pass? <==> Head96Args(call, settings, "drop").Ok? && call.succeeds
    ensures o.1.Pass? ==> o.0 == s.(tips96 := None)
    ensures o.1.Fail? ==> o.0 == s
  {
    var args := Head96Args(call, settings, "drop");
    if args.Err? then (s, Fail(args.error))
    else if !call.succeeds then (s, Fail(BackendFailure))
    else (s.(tips96 := None), Pass)
  }

  /** `return_tips96`: the tips go back to the rack they came from; no backend keywords. */
  function ReturnTips96(s: HandlerState, settings: Settings, call: BackendCall): (o: Transition)
    ensures s.tips96.None? ==> o == (s, Fail(NoTips96PickedUp))
    ensures o.1.Pass? <==> s.tips96.Some? && Head96Args(call.(kwargs := {}), settings, "drop").Ok? && call.succeeds
    ensures o.1.Pass? ==> o.0 == s.(tips96 := None)
    ensures o.1.Fail? ==> o.0 == s
  {
    if s.tips96.None? then (s, Fail(NoTips96PickedUp))
    else DropTips96(s, settings, s.tips96.value, call.(kwargs := {}))
  }

  /** A plate as the 96 head sees it: whether it has a lid, and its columns and rows. */
  datatype Plate = Plate(hasLid: bool, columns: nat, rows: nat)

  /**
   * `aspirate_plate` / `dispense_plate`: arguments, then tips on the 96
   * head, then no lid, then a 12 by 8 plate, then the backend. No tracker
   * changes either way.
   */
  function PlateTransfer(s: HandlerState, settings: Settings, dir: Direction, plate: Plate, call: BackendCall)
    : (o: Outcome<Error>)
    ensures o.Pass? <==>
      && Head96Args(call, settings, if dir.Aspirating? then "aspiration" else "dispense").Ok?
      && s.tips96.Some? && !plate.hasLid && plate.columns == 12 && plate.rows == 8 && call.succeeds
    ensures o.Fail? && Head96Args(call, settings, if dir.Aspirating? then "aspiration" else "dispense").Ok? ==>
      o.error == (if s.tips96.None? then Head96HasNoTips
                  else if plate.hasLid then PlateHasLid
                  else if plate.columns != 12 || plate.rows != 8 then UnsupportedPlate(plate.columns, plate.rows)
                  else BackendFailure)
  {
    var args := Head96Args(call, settings, if dir.Aspirating? then "aspiration" else "dispense");
    if args.Err? then Fail(args.error)
    else if s.tips96.None? then Fail(Head96HasNoTips)
    else if plate.hasLid then Fail(PlateHasLid)
    else if !(plate.columns == 12 && plate.rows == 8) then Fail(UnsupportedPlate(plate.columns, plate.rows))
    else if !call.succeeds then Fail(BackendFailure)
    else Pass
  }
}

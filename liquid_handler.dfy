/**
 * `LiquidHandler` as an object: the session flag, the channel trackers,
 * the spot and volume trackers it drives, and the 96 head's tips are
 * fields its methods update in place. Every method is proved to leave the
 * handler in the state, and to return the outcome, that the matching
 * function of `Transitions` computes from the state before the call.
 */
module LiquidHandling {
  import opened Outcomes
  import opened Trackers
  import opened Resources
  import opened Validation
  import opened Head
  import opened Batches
  import opened Transitions

  /** The next key taken from a dictionary's remaining keys. */
  method NextKey(keys: set<int>) returns (c: int)
    requires keys != {}
    ensures c in keys
  {
    if forall k :: k !in keys {
      assert false;
    }
    c :| c in keys;
  }

  class LiquidHandler {
    /** `backend.num_channels`. */
    const numChannels: nat
    const deck: Resource
    /** `deck.get_trash_area()`. */
    const trash: Resource
    /** The spots and containers whose trackers are disabled. */
    const disabled: set<Resource>

    var setupFinished: bool
    /** `self.head`. */
    var head: HeadMap
    /** The tip trackers of tip spots. */
    var spots: map<Resource, Tracker<Option<Tip>>>
    /** The volume trackers of containers and tips. */
    var volumes: map<Holder, Tracker<real>>
    /** `_picked_up_tips96`. */
    var pickedUpTips96: Option<Resource>

    function Configuration(): Config {
      Config(numChannels, deck, trash, disabled)
    }

    function CurrentWorld(): World
      reads this
    {
      World(head, spots, volumes)
    }

    function State(): HandlerState
      reads this
    {
      HandlerState(setupFinished, CurrentWorld(), pickedUpTips96)
    }

    /** The channels are numbered `0..numChannels-1`, as `setup` builds them. */
    ghost predicate Valid()
      reads this
    {
      forall c :: c in head ==> 0 <= c < numChannels
    }

    /**
     * A handler on `deck`, whose labware arrives with its own trackers: the
     * tips in its racks (`spots`) and the liquid in its containers (`volumes`).
     */
    constructor (numChannels: nat, deck: Resource, trash: Resource, disabled: set<Resource>,
                 spots: map<Resource, Tracker<Option<Tip>>>, volumes: map<Holder, Tracker<real>>)
      ensures Configuration() == Config(numChannels, deck, trash, disabled)
      ensures State() == HandlerState(false, World(map[], spots, volumes), None)
      ensures Valid()
    {
      this.numChannels := numChannels;
      this.deck := deck;
      this.trash := trash;
      this.disabled := disabled;
      setupFinished := false;
      head := map[];
      this.spots := spots;
      this.volumes := volumes;
      pickedUpTips96 := None;
    }

    // -------------------------------------------------------------------
    // Session

    method Setup(backendSucceeds: bool) returns (o: Outcome<Error>)
      requires Valid()
      modifies this
      ensures Valid()
      ensures (State(), o) == Transitions.Setup(old(State()), Configuration(), backendSucceeds)
    {
      if setupFinished {
        return Fail(SetupAlreadyFinished);
      }
      if !backendSucceeds {
        return Fail(BackendFailure);
      }
      setupFinished := true;
      var h: HeadMap := map[];
      for c := 0 to numChannels
        invariant h == FreshHead(c)
      {
        h := h[c := NewChannel()];
      }
      head := h;
      o := Pass;
    }

    method Stop(backendSucceeds: bool) returns (o: Outcome<Error>)
      requires Valid()
      modifies this
      ensures Valid()
      ensures (State(), o) == Transitions.Stop(old(State()), backendSucceeds)
    {
      if !backendSucceeds {
        return Fail(BackendFailure);
      }
      setupFinished := false;
      o := Pass;
    }

    method UpdateHeadState(state: map<int, Option<Tip>>) returns (o: Outcome<Error>)
      requires Valid()
      modifies this
      ensures Valid()
      ensures (State(), o) == Transitions.UpdateHeadState(old(State()), state)
    {
      if !(state.Keys <= head.Keys) {
        return Fail(InvalidChannel);
      }
      var todo := state.Keys;
      while todo != {}
        invariant todo <= state.Keys
        invariant head.Keys == old(head).Keys
        invariant spots == old(spots) && volumes == old(volumes)
        invariant setupFinished == old(setupFinished) && pickedUpTips96 == old(pickedUpTips96)
        invariant forall c :: c in state && c !in todo ==> head[c] == Placed(state[c])
        invariant forall c :: c in head && (c !in state || c in todo) ==> head[c] == old(head)[c]
        decreases |todo|
      {
        var c := NextKey(todo);
        head := head[c := Placed(state[c])];
        todo := todo - {c};
      }
      forall c | c in head ensures head[c] == UpdatedHead(old(head), state)[c] {
        if c in state {
          assert c !in todo;
        }
      }
      assert head.Keys == UpdatedHead(old(head), state).Keys;
      assert head == UpdatedHead(old(head), state);
      o := Pass;
    }

    method ClearHeadState() returns (o: Outcome<Error>)
      requires Valid()
      modifies this
      ensures Valid()
      ensures (State(), o) == Transitions.ClearHeadState(old(State()))
    {
      o := UpdateHeadState(map c | c in head :: None);
    }

    // -------------------------------------------------------------------
    // Performing queued changes

    /** One action on the trackers. */
    method Perform(a: Action)
      requires InHead(a, head.Keys) && !a.NoTipFault?
      modifies this
      ensures CurrentWorld() == Step(old(CurrentWorld()), a)
      ensures setupFinished == old(setupFinished) && pickedUpTips96 == old(pickedUpTips96)
    {
      match a
      case QueueChannel(c, change) =>
        head := head[c := head[c].Queue(Apply(change, head[c].pending))];
      case QueueSpot(r, content) =>
        spots := spots[r := SpotAt(CurrentWorld(), r).Queue(content)];
      case QueueVolume(h, delta) =>
        var t := VolumeAt(CurrentWorld(), h);
        volumes := volumes[h := t.Queue(t.pending + delta)];
      case Settle(target, commit) =>
        match target
        case OnChannel(c) => head := head[c := head[c].Settle(commit)];
        case OnSpot(r) => spots := spots[r := SpotAt(CurrentWorld(), r).Settle(commit)];
        case OnVolume(h) => volumes := volumes[h := VolumeAt(CurrentWorld(), h).Settle(commit)];
    }

    /** The loop over a batch's operations: performs the actions in order up to the first fault. */
    method Execute(acts: seq<Action>) returns (fault: Option<Error>)
      requires AllInHead(acts, head.Keys)
      modifies this
      ensures (CurrentWorld(), fault) == Run(old(CurrentWorld()), acts)
      ensures setupFinished == old(setupFinished) && pickedUpTips96 == old(pickedUpTips96)
    {
      var i := 0;
      while i < |acts|
        invariant 0 <= i <= |acts|
        invariant head.Keys == old(head).Keys
        invariant AllInHead(acts[i..], head.Keys)
        invariant Run(CurrentWorld(), acts[i..]) == Run(old(CurrentWorld()), acts)
        invariant setupFinished == old(setupFinished) && pickedUpTips96 == old(pickedUpTips96)
      {
        assert acts[i..][0] == acts[i] && acts[i..][1..] == acts[i + 1..];
        if acts[i].NoTipFault? {
          return Some(TipAccessOnEmptyChannel);
        }
        Perform(acts[i]);
        i := i + 1;
      }
      fault := None;
    }

    /** Queue, check the backend's arguments, call the backend, then commit or roll back. */
    method Transaction(queue: seq<Action>, settle: seq<Action>, args: Result<set<string>, Error>, succeeds: bool)
      returns (o: Outcome<Error>)
      requires AllInHead(queue, head.Keys) && AllInHead(settle, head.Keys)
      modifies this
      ensures (State(), o) == Transact(old(State()), queue, settle, args, succeeds)
    {
      var fault := Execute(queue);
      if fault.Some? {
        return Fail(fault.value);
      }
      if args.Err? {
        return Fail(args.error);
      }
      fault := Execute(settle);
      if fault.Some? {
        return Fail(fault.value);
      }
      o := if succeeds then Pass else Fail(BackendFailure);
    }

    method TipBatch(kind: TipOp, ops: seq<TipMove>, settings: Settings, call: BackendCall) returns (o: Outcome<Error>)
      requires ChannelsIn(ops, head.Keys)
      modifies this
      ensures (State(), o) == TipTransact(old(State()), kind, ops, settings, disabled, call)
    {
      o := Transaction(TipBatchQueue(kind, ops, settings.tipTracking, disabled),
                       TipBatchSettle(kind, ops, call.succeeds, settings.tipTracking, disabled),
                       SingleChannelArgs(call, settings), call.succeeds);
    }

    // -------------------------------------------------------------------
    // Pickups and drops

    method PickUpTips(settings: Settings, tipSpots: seq<Resource>, useChannels: Option<seq<int>>, call: BackendCall)
      returns (o: Outcome<Error>)
      requires Valid()
      modifies this
      ensures Valid()
      ensures (State(), o) == Transitions.PickUpTips(old(State()), Configuration(), settings, tipSpots, useChannels, call)
    {
      if !setupFinished {
        return Fail(SetupNotFinished);
      }
      o := AssertResourcesExist(tipSpots, deck);
      if o.Fail? {
        return;
      }
      var channels := UsedChannels(useChannels, |tipSpots|);
      o := MakeSureChannelsExist(channels, head.Keys);
      if o.Fail? {
        return;
      }
      if |tipSpots| != |channels| {
        return Fail(LengthMismatch);
      }
      var tips := SpotTips(CurrentWorld(), tipSpots);
      if tips.Err? {
        return Fail(tips.error);
      }
      o := TipBatch(PickUpOp, TipMoves(channels, tipSpots, tips.value), settings, call);
    }

    method DropTips(settings: Settings, tipSpots: seq<Resource>, useChannels: Option<seq<int>>, allowNonzero: bool,
                    call: BackendCall) returns (o: Outcome<Error>)
      requires Valid()
      modifies this
      ensures Valid()
      ensures (State(), o) == Transitions.DropTips(old(State()), Configuration(), settings, tipSpots, useChannels, allowNonzero, call)
    {
      if !setupFinished {
        return Fail(SetupNotFinished);
      }
      o := AssertResourcesExist(tipSpots, deck);
      if o.Fail? {
        return;
      }
      var channels := UsedChannels(useChannels, |tipSpots|);
      o := MakeSureChannelsExist(channels, head.Keys);
      if o.Fail? {
        return;
      }
      var held := HeldTips(CurrentWorld(), channels, allowNonzero);
      if held.Err? {
        return Fail(held.error);
      }
      if |tipSpots| != |channels| {
        return Fail(LengthMismatch);
      }
      o := TipBatch(DropOp, TipMoves(channels, tipSpots, held.value), settings, call);
    }

    /** The loop over `head.items()` that collects the channels holding a tip. */
    method TippedChannels() returns (channels: seq<int>)
      ensures channels == ChannelsWithTips(head, numChannels)
      ensures forall c :: c in channels <==> 0 <= c < numChannels && c in head && HasTip(head[c])
    {
      channels := [];
      for c := 0 to numChannels
        invariant channels == ChannelsWithTips(head, c)
      {
        if c in head && HasTip(head[c]) {
          channels := channels + [c];
        }
      }
    }

    method ReturnTips(settings: Settings, call: BackendCall) returns (o: Outcome<Error>)
      requires Valid()
      modifies this
      ensures Valid()
      ensures (State(), o) == Transitions.ReturnTips(old(State()), Configuration(), settings, call)
    {
      var channels := TippedChannels();
      if |channels| == 0 {
        return Fail(NoTipsPickedUp);
      }
      var origins := Origins(head, channels);
      if origins.Err? {
        return Fail(origins.error);
      }
      o := DropTips(settings, origins.value, Some(channels), false, call.(kwargs := {}));
    }

    method DiscardTips(settings: Settings, useChannels: Option<seq<int>>, call: BackendCall) returns (o: Outcome<Error>)
      requires Valid()
      modifies this
      ensures Valid()
      ensures (State(), o) == Transitions.DiscardTips(old(State()), Configuration(), settings, useChannels, call)
    {
      var channels: seq<int>;
      if useChannels.None? {
        channels := TippedChannels();
      } else {
        channels := useChannels.value;
      }
      if |channels| == 0 {
        return Fail(NoTipsToDiscard);
      }
      o := DropTips(settings, seq(|channels|, _ => trash), Some(channels), false, call);
    }

    // -------------------------------------------------------------------
    // Aspirations and dispenses

    /** The resource and channel checks of `aspirate`/`dispense`. */
    method LiquidLocations(target: LiquidTarget, useChannels: Option<seq<int>>)
      returns (r: Result<(seq<Resource>, seq<int>), Error>)
      ensures r == Locations(State(), Configuration(), target, useChannels)
    {
      match target
      case OneResource(res) =>
        var channels := useChannels.GetOr([0]);
        var known := MakeSureChannelsExist(channels, head.Keys);
        if known.Fail? {
          return Err(known.error);
        }
        r := Ok((seq(|channels|, _ => res), channels));
      case PerOperation(rs) =>
        if |rs| == 0 {
          return Err(NoChannelsSpecified);
        }
        var onDeck := AssertResourcesExist(rs, deck);
        if onDeck.Fail? {
          return Err(onDeck.error);
        }
        var lids := CheckNoLids(rs);
        if lids.Fail? {
          return Err(lids.error);
        }
        var channels := useChannels.GetOr(DefaultChannels(|rs|));
        var known := MakeSureChannelsExist(channels, head.Keys);
        if known.Fail? {
          return Err(known.error);
        }
        r := Ok((rs, channels));
    }

    method MoveLiquid(settings: Settings, dir: Direction, target: LiquidTarget, vols: Volumes,
                      useChannels: Option<seq<int>>, call: BackendCall) returns (o: Outcome<Error>)
      requires Valid()
      modifies this
      ensures Valid()
      ensures (State(), o) == Transitions.MoveLiquid(old(State()), Configuration(), settings, dir, target, vols, useChannels, call)
    {
      if !setupFinished {
        return Fail(SetupNotFinished);
      }
      var loc := LiquidLocations(target, useChannels);
      if loc.Err? {
        return Fail(loc.error);
      }
      var (resources, channels) := loc.value;
      var vs := Expand(vols, |resources|);
      if |vs| != |resources| {
        return Fail(LengthMismatch);
      }
      var ops := LiquidOps(resources, vs, ChannelTips(head, channels));
      o := Transaction(LiquidBatchQueue(dir, ops, settings.volumeTracking, disabled),
                       LiquidBatchSettle(ops, call.succeeds, disabled),
                       SingleChannelArgs(call, settings), call.succeeds);
    }

    method Aspirate(settings: Settings, target: LiquidTarget, vols: Volumes, useChannels: Option<seq<int>>, call: BackendCall)
      returns (o: Outcome<Error>)
      requires Valid()
      modifies this
      ensures Valid()
      ensures (State(), o)
           == Transitions.MoveLiquid(old(State()), Configuration(), settings, Aspirating, target, vols, useChannels, call)
    {
      o := MoveLiquid(settings, Aspirating, target, vols, useChannels, call);
    }

    method Dispense(settings: Settings, target: LiquidTarget, vols: Volumes, useChannels: Option<seq<int>>, call: BackendCall)
      returns (o: Outcome<Error>)
      requires Valid()
      modifies this
      ensures Valid()
      ensures (State(), o)
           == Transitions.MoveLiquid(old(State()), Configuration(), settings, Dispensing, target, vols, useChannels, call)
    {
      o := MoveLiquid(settings, Dispensing, target, vols, useChannels, call);
    }

    // -------------------------------------------------------------------
    // The 96 head

    method PickUpTips96(settings: Settings, rack: Resource, call: BackendCall) returns (o: Outcome<Error>)
      requires Valid()
      modifies this
      ensures Valid()
      ensures (State(), o) == Transitions.PickUpTips96(old(State()), settings, rack, call)
    {
      var args := Head96Args(call, settings, "pickup");
      if args.Err? {
        return Fail(args.error);
      }
      if !call.succeeds {
        return Fail(BackendFailure);
      }
      pickedUpTips96 := Some(rack);
      o := Pass;
    }

    method DropTips96(settings: Settings, rack: Resource, call: BackendCall) returns (o: Outcome<Error>)
      requires Valid()
      modifies this
      ensures Valid()
      ensures (State(), o) == Transitions.DropTips96(old(State()), settings, rack, call)
    {
      var args := Head96Args(call, settings, "drop");
      if args.Err? {
        return Fail(args.error);
      }
      if !call.succeeds {
        return Fail(BackendFailure);
      }
      pickedUpTips96 := None;
      o := Pass;
    }

    method ReturnTips96(settings: Settings, call: BackendCall) returns (o: Outcome<Error>)
      requires Valid()
      modifies this
      ensures Valid()
      ensures (State(), o) == Transitions.ReturnTips96(old(State()), settings, call)
    {
      if pickedUpTips96.None? {
        return Fail(NoTips96PickedUp);
      }
      o := DropTips96(settings, pickedUpTips96.value, call.(kwargs := {}));
    }

    /** `aspirate_plate` (`Aspirating`) and `dispense_plate` (`Dispensing`): no tracker changes. */
    method PlateTransfer(settings: Settings, dir: Direction, plate: Plate, call: BackendCall) returns (o: Outcome<Error>)
      ensures o == Transitions.PlateTransfer(State(), settings, dir, plate, call)
      ensures o.Pass? ==> pickedUpTips96.Some? && !plate.hasLid && plate.columns == 12 && plate.rows == 8
    {
      var args := Head96Args(call, settings, if dir.Aspirating? then "aspiration" else "dispense");
      if args.Err? {
        return Fail(args.error);
      }
      if pickedUpTips96.None? {
        return Fail(Head96HasNoTips);
      }
      if plate.hasLid {
        return Fail(PlateHasLid);
      }
      if !(plate.columns == 12 && plate.rows == 8) {
        return Fail(UnsupportedPlate(plate.columns, plate.rows));
      }
      o := if call.succeeds then Pass else Fail(BackendFailure);
    }
  }
}

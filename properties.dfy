/**
 * What the handler's operations promise: the session cycle, and for each
 * single-channel operation what a failed backend call (rollback) and a
 * successful one (commit) leave in the trackers.
 */
module Properties {
  import opened Outcomes
  import opened Trackers
  import opened Resources
  import opened Validation
  import opened Head
  import opened Batches
  import opened Transitions

  /**
   * Stopping twice is stopping once; a stopped handler can be set up
   * again, which it cannot while it is running.
   */
  lemma SessionCycle(s: HandlerState, cfg: Config)
    ensures Stop(Stop(s, true).0, true) == Stop(s, true)
    ensures !Stop(s, true).0.setupFinished
    ensures Setup(Stop(s, true).0, cfg, true).1 == Pass
    ensures Setup(Setup(s, cfg, true).0, cfg, true).1 == Fail(SetupAlreadyFinished)
  {
  }

  // ---------------------------------------------------------------------
  // Pickups and drops

  /** A batch whose backend call raises: the backend's error, and every tracker reads as before the call. */
  lemma TipRollback(s: HandlerState, kind: TipOp, ops: seq<TipMove>, settings: Settings, disabled: set<Resource>, call: BackendCall)
    requires ChannelsIn(ops, s.world.head.Keys) && ArgsAccepted(call, settings) && !call.succeeds
    requires AllSettled(s.world)
    ensures TipTransact(s, kind, ops, settings, disabled, call).1 == Fail(BackendFailure)
    ensures SameTrackers(s.world, TipTransact(s, kind, ops, settings, disabled, call).0.world)
  {
    TipTransaction(kind, ops, settings.tipTracking, disabled, false, s.world);
    var q := Run(s.world, TipBatchQueue(kind, ops, settings.tipTracking, disabled)).0;
    var r := Run(q, TipBatchSettle(kind, ops, false, settings.tipTracking, disabled)).0;
    RollbackRestores(s.world, r, TipTargets(kind, ops, settings.tipTracking, disabled));
  }

  /**
   * A handler built on a deck whose rack holds a tip at `A1`, once set up,
   * picks that tip up on channel 0 when the backend takes the arguments
   * and succeeds; the channel then holds the tip and the spot is empty.
   */
  lemma TipPickupAfterLoading(settings: Settings, call: BackendCall)
    requires ArgsAccepted(call, settings) && call.succeeds
    ensures var deck := Resource("deck", OtherKind, None);
      var spot := Resource("A1", TipSpotKind, Some(Resource("tip_rack_01", OtherKind, Some(deck))));
      var cfg := Config(8, deck, Resource("trash", OtherKind, Some(deck)), {});
      var loaded := HandlerState(false, World(map[], map[spot := Fresh(Some(Tip(0)))], map[]), None);
      var set_up := Setup(loaded, cfg, true);
      var o := PickUpTips(set_up.0, cfg, settings, [spot], Some([0]), call);
      && set_up.1 == Pass && o.1 == Pass
      && o.0.world.head[0] == Fresh(Mount(Some(Tip(0)), Some(spot)))
      && (settings.tipTracking ==> SpotAt(o.0.world, spot) == Fresh(None))
  {
    var deck := Resource("deck", OtherKind, None);
    var spot := Resource("A1", TipSpotKind, Some(Resource("tip_rack_01", OtherKind, Some(deck))));
    var cfg := Config(8, deck, Resource("trash", OtherKind, Some(deck)), {});
    var loaded := HandlerState(false, World(map[], map[spot := Fresh(Some(Tip(0)))], map[]), None);
    var s := Setup(loaded, cfg, true).0;
    assert 0 in s.world.head && SpotAt(s.world, spot).committed == Some(Tip(0));
    PickUpOne(s, cfg, settings, spot, 0, call);
  }

  /** One pickup on a known channel from a spot on the deck holding a tip. */
  lemma PickUpOne(s: HandlerState, cfg: Config, settings: Settings, spot: Resource, c: int, call: BackendCall)
    requires s.setupFinished && c in s.world.head && Root(spot) == cfg.deck && SpotAt(s.world, spot).committed.Some?
    requires ArgsAccepted(call, settings) && call.succeeds && spot !in cfg.disabled
    ensures var o := PickUpTips(s, cfg, settings, [spot], Some([c]), call);
      && o.1 == Pass
      && o.0.world.head[c] == Fresh(Mount(SpotAt(s.world, spot).committed, Some(spot)))
      && (settings.tipTracking ==> SpotAt(o.0.world, spot) == Fresh(None))
  {
    assert PickUpValid(s, cfg, [spot], Some([c]));
    PickUpTipsCommits(s, cfg, settings, [spot], Some([c]), call);
    assert Distinct([c]) && Distinct([spot]);
    assert [c][0] == c && [spot][0] == spot;
  }

  /** The pickups of a call whose checks pass. */
  function PickUpOps(s: HandlerState, cfg: Config, tipSpots: seq<Resource>, useChannels: Option<seq<int>>): (ops: seq<TipMove>)
    requires PickUpValid(s, cfg, tipSpots, useChannels)
    ensures ChannelsIn(ops, s.world.head.Keys)
    ensures |ops| == |tipSpots| && forall i :: 0 <= i < |ops| ==>
      && ops[i].channel == UsedChannels(useChannels, |tipSpots|)[i] && ops[i].resource == tipSpots[i]
      && SpotAt(s.world, tipSpots[i]).committed == Some(ops[i].tip)
  {
    TipMoves(UsedChannels(useChannels, |tipSpots|), tipSpots, SpotTips(s.world, tipSpots).value)
  }

  /** The drops of a call whose checks pass. */
  function DropOps(s: HandlerState, cfg: Config, tipSpots: seq<Resource>, useChannels: Option<seq<int>>, allowNonzero: bool)
    : (ops: seq<TipMove>)
    requires DropValid(s, cfg, tipSpots, useChannels, allowNonzero)
    ensures ChannelsIn(ops, s.world.head.Keys)
    ensures |ops| == |tipSpots| && forall i :: 0 <= i < |ops| ==>
      && ops[i].channel == UsedChannels(useChannels, |tipSpots|)[i] && ops[i].resource == tipSpots[i]
      && s.world.head[ops[i].channel].committed.tip == Some(ops[i].tip)
  {
    var channels := UsedChannels(useChannels, |tipSpots|);
    TipMoves(channels, tipSpots, HeldTips(s.world, channels, allowNonzero).value)
  }

  /** `pick_up_tips` whose backend raises: every spot and channel tracker reads as before the call. */
  lemma PickUpTipsRollsBack(s: HandlerState, cfg: Config, settings: Settings, tipSpots: seq<Resource>,
                            useChannels: Option<seq<int>>, call: BackendCall)
    requires PickUpValid(s, cfg, tipSpots, useChannels) && ArgsAccepted(call, settings) && !call.succeeds
    requires AllSettled(s.world)
    ensures PickUpTips(s, cfg, settings, tipSpots, useChannels, call).1 == Fail(BackendFailure)
    ensures SameTrackers(s.world, PickUpTips(s, cfg, settings, tipSpots, useChannels, call).0.world)
  {
    var ops := PickUpOps(s, cfg, tipSpots, useChannels);
    TipRollback(s, PickUpOp, ops, settings, cfg.disabled, call);
    assert PickUpTips(s, cfg, settings, tipSpots, useChannels, call) == TipTransact(s, PickUpOp, ops, settings, cfg.disabled, call);
  }

  /**
   * `_check_args` raising after the queue loop of a pickup or drop: its
   * error is reported and no rollback runs, so every committed value is as
   * before while each used channel and tracked spot keeps its change queued.
   */
  lemma TipArgsRejectedLeavesQueued(s: HandlerState, kind: TipOp, ops: seq<TipMove>, settings: Settings,
                                    disabled: set<Resource>, call: BackendCall)
    requires ChannelsIn(ops, s.world.head.Keys) && SingleChannelArgs(call, settings).Err?
    ensures TipTransact(s, kind, ops, settings, disabled, call).1 == Fail(SingleChannelArgs(call, settings).error)
    ensures KeepsCommitted(s.world, TipTransact(s, kind, ops, settings, disabled, call).0.world,
                           TipTargets(kind, ops, settings.tipTracking, disabled))
    ensures DistinctChannels(ops) ==>
              ChannelsPending(kind, ops, s.world, TipTransact(s, kind, ops, settings, disabled, call).0.world)
    ensures DistinctResources(ops) ==>
              SpotsPending(kind, ops, settings.tipTracking, disabled, TipTransact(s, kind, ops, settings, disabled, call).0.world)
  {
    var queue := TipBatchQueue(kind, ops, settings.tipTracking, disabled);
    TipTransaction(kind, ops, settings.tipTracking, disabled, call.succeeds, s.world);
    assert TipTransact(s, kind, ops, settings, disabled, call).0.world == Run(s.world, queue).0;
    if DistinctChannels(ops) {
      TipQueueChannels(kind, ops, settings.tipTracking, disabled, s.world);
    }
    if DistinctResources(ops) {
      TipQueueSpots(kind, ops, settings.tipTracking, disabled, s.world);
    }
  }

  /** What a committed batch leaves: each channel and tracked spot settled on its change, every other channel as it was. */
  ghost predicate CommittedOn(kind: TipOp, ops: seq<TipMove>, tipTracking: bool, disabled: set<Resource>, w: World, w': World)
    requires ChannelsIn(ops, w.head.Keys)
  {
    && w'.head.Keys == w.head.Keys
    && (DistinctChannels(ops) ==> forall i :: 0 <= i < |ops| ==>
          w'.head[ops[i].channel] == Fresh(Apply(ChangeOf(kind, ops[i]), w.head[ops[i].channel].pending)))
    && (DistinctResources(ops) ==> forall i :: 0 <= i < |ops| && SpotTracked(kind, ops[i].resource, tipTracking, disabled) ==>
          SpotAt(w', ops[i].resource) == Fresh(SpotContent(kind, ops[i])))
    && (forall c :: c in w.head && (forall i :: 0 <= i < |ops| ==> ops[i].channel != c) ==> w'.head[c] == w.head[c])
    && (forall r :: (forall i :: 0 <= i < |ops| ==> ops[i].resource != r) ==> SpotAt(w', r) == SpotAt(w, r))
    && w'.volumes == w.volumes
  }

  /** A batch whose backend call succeeds passes, and leaves the trackers committed on its changes. */
  lemma TipCommit(s: HandlerState, kind: TipOp, ops: seq<TipMove>, settings: Settings, disabled: set<Resource>, call: BackendCall)
    requires ChannelsIn(ops, s.world.head.Keys) && ArgsAccepted(call, settings) && call.succeeds
    ensures TipTransact(s, kind, ops, settings, disabled, call).1 == Pass
    ensures CommittedOn(kind, ops, settings.tipTracking, disabled, s.world, TipTransact(s, kind, ops, settings, disabled, call).0.world)
  {
    TipCommitOutcome(kind, ops, settings.tipTracking, disabled, s.world);
  }

  /** After a successful pickup: the per-channel and per-spot outcome. */
  ghost predicate PickedUp(s: HandlerState, cfg: Config, settings: Settings, tipSpots: seq<Resource>,
                           useChannels: Option<seq<int>>, w': World)
    requires PickUpValid(s, cfg, tipSpots, useChannels)
  {
    var channels := UsedChannels(useChannels, |tipSpots|);
    && (Distinct(channels) ==> forall i :: 0 <= i < |tipSpots| ==>
          channels[i] in w'.head
          && w'.head[channels[i]] == Fresh(Mount(SpotAt(s.world, tipSpots[i]).committed, Some(tipSpots[i]))))
    && (Distinct(tipSpots) ==> forall i :: 0 <= i < |tipSpots| && settings.tipTracking && tipSpots[i] !in cfg.disabled ==>
          SpotAt(w', tipSpots[i]) == Fresh(None))
    && (forall c :: c in s.world.head && c !in channels ==> c in w'.head && w'.head[c] == s.world.head[c])
    && (forall r :: r !in tipSpots ==> SpotAt(w', r) == SpotAt(s.world, r))
    && w'.volumes == s.world.volumes
  }

  /**
   * `pick_up_tips` whose backend succeeds: each used channel (when none is
   * used twice) holds the tip its spot held and remembers that spot; each
   * tracked spot (when none is used twice) is empty; every other channel,
   * every other spot and every volume tracker is untouched.
   */
  lemma PickUpTipsCommits(s: HandlerState, cfg: Config, settings: Settings, tipSpots: seq<Resource>,
                          useChannels: Option<seq<int>>, call: BackendCall)
    requires PickUpValid(s, cfg, tipSpots, useChannels) && ArgsAccepted(call, settings) && call.succeeds
    ensures PickUpTips(s, cfg, settings, tipSpots, useChannels, call).1 == Pass
    ensures PickedUp(s, cfg, settings, tipSpots, useChannels, PickUpTips(s, cfg, settings, tipSpots, useChannels, call).0.world)
  {
    var ops := PickUpOps(s, cfg, tipSpots, useChannels);
    PickUpIsTransact(s, cfg, settings, tipSpots, useChannels, call);
    TipCommit(s, PickUpOp, ops, settings, cfg.disabled, call);
    PickUpWorld(s, cfg, settings, tipSpots, useChannels, TipTransact(s, PickUpOp, ops, settings, cfg.disabled, call).0.world);
  }

  lemma PickUpIsTransact(s: HandlerState, cfg: Config, settings: Settings, tipSpots: seq<Resource>,
                         useChannels: Option<seq<int>>, call: BackendCall)
    requires PickUpValid(s, cfg, tipSpots, useChannels)
    ensures PickUpTips(s, cfg, settings, tipSpots, useChannels, call)
         == TipTransact(s, PickUpOp, PickUpOps(s, cfg, tipSpots, useChannels), settings, cfg.disabled, call)
  {
  }

  /** The pickup batch's committed trackers, read per spot and channel. */
  lemma PickUpWorld(s: HandlerState, cfg: Config, settings: Settings, tipSpots: seq<Resource>,
                    useChannels: Option<seq<int>>, w': World)
    requires PickUpValid(s, cfg, tipSpots, useChannels)
    requires CommittedOn(PickUpOp, PickUpOps(s, cfg, tipSpots, useChannels), settings.tipTracking, cfg.disabled, s.world, w')
    ensures PickedUp(s, cfg, settings, tipSpots, useChannels, w')
  {
    var channels := UsedChannels(useChannels, |tipSpots|);
    var ops := PickUpOps(s, cfg, tipSpots, useChannels);
    if Distinct(channels) {
      assert DistinctChannels(ops);
      forall i | 0 <= i < |tipSpots|
        ensures channels[i] in w'.head
        ensures w'.head[channels[i]] == Fresh(Mount(SpotAt(s.world, tipSpots[i]).committed, Some(tipSpots[i])))
      {
        assert ops[i] == TipMove(channels[i], tipSpots[i], ops[i].tip);
      }
    }
    if Distinct(tipSpots) {
      assert DistinctResources(ops);
      forall i | 0 <= i < |tipSpots| && settings.tipTracking && tipSpots[i] !in cfg.disabled
        ensures SpotAt(w', tipSpots[i]) == Fresh(None)
      {
        assert ops[i].resource == tipSpots[i];
        assert SpotTracked(PickUpOp, ops[i].resource, settings.tipTracking, cfg.disabled);
      }
    }
    forall c | c in s.world.head && c !in channels ensures c in w'.head && w'.head[c] == s.world.head[c] {
      forall i | 0 <= i < |ops| ensures ops[i].channel != c {
        assert channels[i] in channels;
      }
    }
    forall r | r !in tipSpots ensures SpotAt(w', r) == SpotAt(s.world, r) {
      forall i | 0 <= i < |ops| ensures ops[i].resource != r {
        assert tipSpots[i] in tipSpots;
      }
    }
  }

  /** `drop_tips` whose backend raises: every spot and channel tracker reads as before the call. */
  lemma DropTipsRollsBack(s: HandlerState, cfg: Config, settings: Settings, tipSpots: seq<Resource>,
                          useChannels: Option<seq<int>>, allowNonzero: bool, call: BackendCall)
    requires DropValid(s, cfg, tipSpots, useChannels, allowNonzero) && ArgsAccepted(call, settings) && !call.succeeds
    requires AllSettled(s.world)
    ensures DropTips(s, cfg, settings, tipSpots, useChannels, allowNonzero, call).1 == Fail(BackendFailure)
    ensures SameTrackers(s.world, DropTips(s, cfg, settings, tipSpots, useChannels, allowNonzero, call).0.world)
  {
    var ops := DropOps(s, cfg, tipSpots, useChannels, allowNonzero);
    TipRollback(s, DropOp, ops, settings, cfg.disabled, call);
    assert DropTips(s, cfg, settings, tipSpots, useChannels, allowNonzero, call)
        == TipTransact(s, DropOp, ops, settings, cfg.disabled, call);
  }

  /** After a successful drop: the per-channel and per-spot outcome. */
  ghost predicate Dropped(s: HandlerState, cfg: Config, settings: Settings, tipSpots: seq<Resource>,
                          useChannels: Option<seq<int>>, w': World)
    requires |UsedChannels(useChannels, |tipSpots|)| == |tipSpots|
    requires forall i :: 0 <= i < |tipSpots| ==> UsedChannels(useChannels, |tipSpots|)[i] in s.world.head
  {
    var channels := UsedChannels(useChannels, |tipSpots|);
    && (Distinct(channels) ==> forall i :: 0 <= i < |tipSpots| ==>
          channels[i] in w'.head
          && w'.head[channels[i]] == Fresh(Mount(None, s.world.head[channels[i]].committed.origin)))
    && (Distinct(tipSpots) ==> forall i :: 0 <= i < |tipSpots| && SpotTracked(DropOp, tipSpots[i], settings.tipTracking, cfg.disabled) ==>
          SpotAt(w', tipSpots[i]) == Fresh(s.world.head[channels[i]].committed.tip))
    && (forall c :: c in s.world.head && c !in channels ==> c in w'.head && w'.head[c] == s.world.head[c])
    && (forall r :: r !in tipSpots ==> SpotAt(w', r) == SpotAt(s.world, r))
    && w'.volumes == s.world.volumes
  }

  /**
   * `drop_tips` whose backend succeeds, from trackers with nothing queued:
   * each used channel (when none is used twice) holds no tip but still
   * remembers where its last tip came from; each tracked tip spot (when
   * none is used twice) holds the tip dropped on it; every other channel,
   * every other spot and every volume tracker is untouched.
   */
  lemma DropTipsCommits(s: HandlerState, cfg: Config, settings: Settings, tipSpots: seq<Resource>,
                        useChannels: Option<seq<int>>, allowNonzero: bool, call: BackendCall)
    requires DropValid(s, cfg, tipSpots, useChannels, allowNonzero) && ArgsAccepted(call, settings) && call.succeeds
    requires AllSettled(s.world)
    ensures DropTips(s, cfg, settings, tipSpots, useChannels, allowNonzero, call).1 == Pass
    ensures Dropped(s, cfg, settings, tipSpots, useChannels, DropTips(s, cfg, settings, tipSpots, useChannels, allowNonzero, call).0.world)
  {
    var ops := DropOps(s, cfg, tipSpots, useChannels, allowNonzero);
    DropIsTransact(s, cfg, settings, tipSpots, useChannels, allowNonzero, call);
    TipCommit(s, DropOp, ops, settings, cfg.disabled, call);
    DropWorld(s, cfg, settings, tipSpots, useChannels, allowNonzero, TipTransact(s, DropOp, ops, settings, cfg.disabled, call).0.world);
  }

  lemma DropIsTransact(s: HandlerState, cfg: Config, settings: Settings, tipSpots: seq<Resource>,
                       useChannels: Option<seq<int>>, allowNonzero: bool, call: BackendCall)
    requires DropValid(s, cfg, tipSpots, useChannels, allowNonzero)
    ensures DropTips(s, cfg, settings, tipSpots, useChannels, allowNonzero, call)
         == TipTransact(s, DropOp, DropOps(s, cfg, tipSpots, useChannels, allowNonzero), settings, cfg.disabled, call)
  {
  }

  /** The drop batch's committed trackers, read per spot and channel. */
  lemma DropWorld(s: HandlerState, cfg: Config, settings: Settings, tipSpots: seq<Resource>,
                  useChannels: Option<seq<int>>, allowNonzero: bool, w': World)
    requires DropValid(s, cfg, tipSpots, useChannels, allowNonzero) && AllSettled(s.world)
    requires CommittedOn(DropOp, DropOps(s, cfg, tipSpots, useChannels, allowNonzero), settings.tipTracking, cfg.disabled, s.world, w')
    ensures Dropped(s, cfg, settings, tipSpots, useChannels, w')
  {
    var channels := UsedChannels(useChannels, |tipSpots|);
    var ops := DropOps(s, cfg, tipSpots, useChannels, allowNonzero);
    if Distinct(channels) {
      assert DistinctChannels(ops);
      forall i | 0 <= i < |tipSpots|
        ensures channels[i] in w'.head
        ensures w'.head[channels[i]] == Fresh(Mount(None, s.world.head[channels[i]].committed.origin))
      {
        assert ops[i].channel == channels[i];
        assert s.world.head[channels[i]].Settled();
      }
    }
    if Distinct(tipSpots) {
      assert DistinctResources(ops);
      forall i | 0 <= i < |tipSpots| && SpotTracked(DropOp, tipSpots[i], settings.tipTracking, cfg.disabled)
        ensures SpotAt(w', tipSpots[i]) == Fresh(s.world.head[channels[i]].committed.tip)
      {
        assert ops[i].channel == channels[i] && ops[i].resource == tipSpots[i];
      }
    }
    forall c | c in s.world.head && c !in channels ensures c in w'.head && w'.head[c] == s.world.head[c] {
      forall i | 0 <= i < |ops| ensures ops[i].channel != c {
        assert channels[i] in channels;
      }
    }
    forall r | r !in tipSpots ensures SpotAt(w', r) == SpotAt(s.world, r) {
      forall i | 0 <= i < |ops| ensures ops[i].resource != r {
        assert tipSpots[i] in tipSpots;
      }
    }
  }

  /** The channels are numbered below the channel count, as `setup` numbers them. */
  predicate HeadNumbered(s: HandlerState, cfg: Config) {
    forall c :: c in s.world.head ==> 0 <= c < cfg.numChannels
  }

  /** A `return_tips` that succeeds, from trackers with nothing queued, leaves every channel without a tip. */
  lemma ReturnTipsEmptiesHead(s: HandlerState, cfg: Config, settings: Settings, call: BackendCall)
    requires HeadNumbered(s, cfg) && AllSettled(s.world)
    requires ReturnTips(s, cfg, settings, call).1.Pass?
    ensures forall c :: c in s.world.head ==> !HasTip(ReturnTips(s, cfg, settings, call).0.world.head[c])
  {
    var channels := ChannelsWithTips(s.world.head, cfg.numChannels);
    var origins := Origins(s.world.head, channels).value;
    var call' := call.(kwargs := {});
    assert ReturnTips(s, cfg, settings, call) == DropTips(s, cfg, settings, origins, Some(channels), false, call');
    DropTipsCommits(s, cfg, settings, origins, Some(channels), false, call');
    EmptiedHead(s, channels, DropTips(s, cfg, settings, origins, Some(channels), false, call').0, cfg);
  }

  /**
   * A `discard_tips` that succeeds, from trackers with nothing queued,
   * leaves every channel it used without a tip; without `use_channels`,
   * that is every channel.
   */
  lemma DiscardTipsEmptiesChannels(s: HandlerState, cfg: Config, settings: Settings, useChannels: Option<seq<int>>, call: BackendCall)
    requires HeadNumbered(s, cfg) && AllSettled(s.world)
    requires DiscardTips(s, cfg, settings, useChannels, call).1.Pass?
    ensures useChannels.Some? && Distinct(useChannels.value) ==>
      forall c :: c in useChannels.value ==> !HasTip(DiscardTips(s, cfg, settings, useChannels, call).0.world.head[c])
    ensures useChannels.None? ==>
      forall c :: c in s.world.head ==> !HasTip(DiscardTips(s, cfg, settings, useChannels, call).0.world.head[c])
  {
    var channels := useChannels.GetOr(ChannelsWithTips(s.world.head, cfg.numChannels));
    var trash := seq(|channels|, _ => cfg.trash);
    assert DiscardTips(s, cfg, settings, useChannels, call) == DropTips(s, cfg, settings, trash, Some(channels), false, call);
    DropTipsCommits(s, cfg, settings, trash, Some(channels), false, call);
    var o := DropTips(s, cfg, settings, trash, Some(channels), false, call);
    if useChannels.None? {
      EmptiedHead(s, channels, o.0, cfg);
    } else if Distinct(channels) {
      forall c | c in channels ensures !HasTip(o.0.world.head[c]) {
        var i :| 0 <= i < |channels| && channels[i] == c;
      }
    }
  }

  /** The channels with tips all dropped theirs, and the others had none and kept none. */
  lemma EmptiedHead(s: HandlerState, channels: seq<int>, s': HandlerState, cfg: Config)
    requires HeadNumbered(s, cfg) && channels == ChannelsWithTips(s.world.head, cfg.numChannels)
    requires s'.world.head.Keys == s.world.head.Keys
    requires forall i :: 0 <= i < |channels| ==> channels[i] in s'.world.head && !HasTip(s'.world.head[channels[i]])
    requires forall c :: c in s.world.head && c !in channels ==> s'.world.head[c] == s.world.head[c]
    ensures forall c :: c in s.world.head ==> !HasTip(s'.world.head[c])
  {
    forall c | c in s.world.head ensures !HasTip(s'.world.head[c]) {
      if c in channels {
        var i :| 0 <= i < |channels| && channels[i] == c;
      }
    }
  }

  // ---------------------------------------------------------------------
  // Aspirations and dispenses

  /** An aspiration or dispense whose checks pass is its batch through the transaction, settled by the loop as written. */
  lemma MoveLiquidIsTransact(s: HandlerState, cfg: Config, settings: Settings, dir: Direction, target: LiquidTarget,
                             vols: Volumes, useChannels: Option<seq<int>>, call: BackendCall)
    requires LiquidValid(s, cfg, target, vols, useChannels)
    ensures var ops := LiquidBatch(s, cfg, target, vols, useChannels);
      MoveLiquid(s, cfg, settings, dir, target, vols, useChannels, call)
        == Transact(s, LiquidBatchQueue(dir, ops, settings.volumeTracking, cfg.disabled),
                    LiquidBatchSettle(ops, call.succeeds, cfg.disabled), SingleChannelArgs(call, settings), call.succeeds)
  {
  }

  /**
   * `aspirate`/`dispense` with volume tracking off, from trackers with
   * nothing queued, where every channel drawing on an enabled container
   * holds a tip: the backend's outcome, and every tracker reads as before
   * the call.
   */
  lemma MoveLiquidUntracked(s: HandlerState, cfg: Config, settings: Settings, dir: Direction, target: LiquidTarget,
                            vols: Volumes, useChannels: Option<seq<int>>, call: BackendCall)
    requires LiquidValid(s, cfg, target, vols, useChannels) && ArgsAccepted(call, settings) && !settings.volumeTracking
    requires EnabledTipped(LiquidBatch(s, cfg, target, vols, useChannels), cfg.disabled) && AllSettled(s.world)
    ensures var o := MoveLiquid(s, cfg, settings, dir, target, vols, useChannels, call);
      && o.1 == (if call.succeeds then Pass else Fail(BackendFailure))
      && SameTrackers(s.world, o.0.world) && o.0.world.spots == s.world.spots
  {
    var ops := LiquidBatch(s, cfg, target, vols, useChannels);
    MoveLiquidIsTransact(s, cfg, settings, dir, target, vols, useChannels, call);
    assert LiquidBatchQueue(dir, ops, false, cfg.disabled) == [];
    LiquidSettleUntracked(ops, cfg.disabled, call.succeeds, s.world);
  }

  /**
   * What a rollback as written leaves, from trackers `w` with nothing
   * queued: no channel or tip spot changes and no committed volume
   * changes. Every volume tracker the rollback loop reaches (or every one,
   * with volume tracking off) reads as before; under volume tracking any
   * other keeps the batch's net change queued. With no container's
   * tracker disabled, every tracker reads as before.
   */
  ghost predicate LiquidRolledBack(dir: Direction, ops: seq<LiquidOp>, disabled: set<Resource>, volumeTracking: bool,
                                   w: World, w': World) {
    && w'.head == w.head && w'.spots == w.spots
    && (forall h :: VolumeAt(w', h).committed == VolumeAt(w, h).committed)
    && (forall h :: !volumeTracking || OnVolume(h) in LiquidSettleTargets(ops, disabled) ==> VolumeAt(w', h) == VolumeAt(w, h))
    && (volumeTracking ==> forall h :: OnVolume(h) !in LiquidSettleTargets(ops, disabled) ==>
          VolumeAt(w', h).pending == VolumeAt(w, h).committed + QueuedChange(dir, ops, disabled, h))
    && (NoneDisabled(ops, disabled) ==> SameTrackers(w, w'))
  }

  /** `aspirate`/`dispense` whose backend raises, with a tip on every channel used, from trackers with nothing queued. */
  lemma MoveLiquidRollsBack(s: HandlerState, cfg: Config, settings: Settings, dir: Direction, target: LiquidTarget,
                            vols: Volumes, useChannels: Option<seq<int>>, call: BackendCall)
    requires LiquidValid(s, cfg, target, vols, useChannels) && ArgsAccepted(call, settings) && !call.succeeds
    requires AllTipped(LiquidBatch(s, cfg, target, vols, useChannels)) && AllSettled(s.world)
    ensures MoveLiquid(s, cfg, settings, dir, target, vols, useChannels, call).1 == Fail(BackendFailure)
    ensures LiquidRolledBack(dir, LiquidBatch(s, cfg, target, vols, useChannels), cfg.disabled, settings.volumeTracking,
                             s.world, MoveLiquid(s, cfg, settings, dir, target, vols, useChannels, call).0.world)
  {
    var ops := LiquidBatch(s, cfg, target, vols, useChannels);
    var o := MoveLiquid(s, cfg, settings, dir, target, vols, useChannels, call);
    if !settings.volumeTracking {
      assert EnabledTipped(ops, cfg.disabled);
      MoveLiquidUntracked(s, cfg, settings, dir, target, vols, useChannels, call);
      UntrackedRolledBack(dir, ops, cfg.disabled, s.world, o.0.world);
    } else {
      MoveLiquidIsTransact(s, cfg, settings, dir, target, vols, useChannels, call);
      LiquidSettleAsWritten(dir, ops, cfg.disabled, false, s.world);
      VolumesRolledBack(dir, ops, cfg.disabled, s.world, o.0.world);
    }
  }

  lemma UntrackedRolledBack(dir: Direction, ops: seq<LiquidOp>, disabled: set<Resource>, w: World, w': World)
    requires SameTrackers(w, w') && w'.spots == w.spots
    ensures LiquidRolledBack(dir, ops, disabled, false, w, w')
  {
  }

  /** The volume trackers after a rollback as written under volume tracking, read per holder. */
  lemma VolumesRolledBack(dir: Direction, ops: seq<LiquidOp>, disabled: set<Resource>, w: World, w': World)
    requires AllTipped(ops) && AllSettled(w)
    requires w'.head == w.head && w'.spots == w.spots && VolumesAsWritten(dir, ops, disabled, false, w, w')
    ensures LiquidRolledBack(dir, ops, disabled, true, w, w')
  {
    forall h | OnVolume(h) in LiquidSettleTargets(ops, disabled) ensures VolumeAt(w', h) == VolumeAt(w, h) {
      assert VolumeAt(w, h).Settled();
    }
    if NoneDisabled(ops, disabled) {
      SettleTargetsAllEnabled(ops, disabled);
      forall h | OnVolume(h) !in LiquidSettleTargets(ops, disabled) ensures VolumeAt(w', h) == VolumeAt(w, h) {
        UninvolvedUnchanged(dir, ops, disabled, h);
        assert VolumeAt(w, h).Settled();
      }
    }
  }

  /**
   * `aspirate`/`dispense` whose backend succeeds, under volume tracking,
   * with a tip on every channel used, from trackers with nothing queued:
   * no channel or tip spot changes; every volume tracker has the batch's
   * net change applied to its pending volume; the commit loop as written
   * makes that the committed volume of the trackers it reaches, and leaves
   * any other at its old committed volume. With no container's tracker
   * disabled, every volume moves by the net change, committed.
   */
  lemma MoveLiquidCommits(s: HandlerState, cfg: Config, settings: Settings, dir: Direction, target: LiquidTarget,
                          vols: Volumes, useChannels: Option<seq<int>>, call: BackendCall)
    requires LiquidValid(s, cfg, target, vols, useChannels) && ArgsAccepted(call, settings) && call.succeeds
    requires settings.volumeTracking
    requires AllTipped(LiquidBatch(s, cfg, target, vols, useChannels)) && AllSettled(s.world)
    ensures var o := MoveLiquid(s, cfg, settings, dir, target, vols, useChannels, call);
      var ops := LiquidBatch(s, cfg, target, vols, useChannels);
      && o.1 == Pass
      && o.0.world.head == s.world.head && o.0.world.spots == s.world.spots
      && (forall h :: VolumeAt(o.0.world, h).pending == VolumeAt(s.world, h).committed + QueuedChange(dir, ops, cfg.disabled, h))
      && (forall h :: VolumeAt(o.0.world, h).committed ==
            if OnVolume(h) in LiquidSettleTargets(ops, cfg.disabled)
            then VolumeAt(s.world, h).committed + QueuedChange(dir, ops, cfg.disabled, h)
            else VolumeAt(s.world, h).committed)
      && (NoneDisabled(ops, cfg.disabled) ==> forall h :: VolumeAt(o.0.world, h).Settled())
  {
    var ops := LiquidBatch(s, cfg, target, vols, useChannels);
    MoveLiquidIsTransact(s, cfg, settings, dir, target, vols, useChannels, call);
    LiquidSettleAsWritten(dir, ops, cfg.disabled, true, s.world);
    var o := MoveLiquid(s, cfg, settings, dir, target, vols, useChannels, call);
    VolumesCommitted(dir, ops, cfg.disabled, s.world, o.0.world);
  }

  /** The volume trackers after a commit as written, read per holder. */
  lemma VolumesCommitted(dir: Direction, ops: seq<LiquidOp>, disabled: set<Resource>, w: World, w': World)
    requires AllTipped(ops) && VolumesAsWritten(dir, ops, disabled, true, w, w')
    ensures forall h :: VolumeAt(w', h).pending == VolumeAt(w, h).committed + QueuedChange(dir, ops, disabled, h)
    ensures forall h :: VolumeAt(w', h).committed ==
              if OnVolume(h) in LiquidSettleTargets(ops, disabled)
              then VolumeAt(w, h).committed + QueuedChange(dir, ops, disabled, h)
              else VolumeAt(w, h).committed
    ensures NoneDisabled(ops, disabled) ==> forall h :: VolumeAt(w', h).Settled()
  {
    if NoneDisabled(ops, disabled) {
      SettleTargetsAllEnabled(ops, disabled);
      forall h | OnVolume(h) !in LiquidSettleTargets(ops, disabled) ensures VolumeAt(w', h).Settled() {
        UninvolvedUnchanged(dir, ops, disabled, h);
      }
    }
  }

  /** Aspirating `v` from one enabled container into `n` channels takes `n` times `v` from it. */
  lemma {:induction false} OneContainerChange(dir: Direction, ops: seq<LiquidOp>, disabled: set<Resource>, r: Resource, v: real)
    requires r !in disabled
    requires forall i :: 0 <= i < |ops| ==> ops[i].container == r && ops[i].volume == v
    ensures QueuedChange(dir, ops, disabled, InContainer(r)) == (|ops| as real) * ContainerDelta(dir, v)
    decreases |ops|
  {
    if ops != [] {
      assert forall i :: 0 <= i < |ops[1..]| ==> ops[1..][i] == ops[i + 1];
      OneContainerChange(dir, ops[1..], disabled, r, v);
    }
  }
}

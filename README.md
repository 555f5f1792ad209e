# LiquidHandler session and head bookkeeping, in Dafny

This project models the bookkeeping core of PyLabRobot's `LiquidHandler`
(`pylabrobot/liquid_handling/liquid_handler.py`):

- the set-up/stop session and the `need_setup_finished` gate;
- the single-channel head, a map from channel number to a channel tip tracker;
- the tip trackers of tip spots, and the volume trackers of containers and tips;
- the checks each operation makes before it calls the backend:
  - resources on the deck;
  - known channels;
  - matching lengths;
  - tips present, and empty when dropped;
  - no lidded plates;
  - the backend's keyword arguments (`_check_args`);
- the queue → backend call → commit-or-rollback transaction of `pick_up_tips`,
  `drop_tips`, `aspirate` and `dispense`, and what `return_tips` and
  `discard_tips` build on top of `drop_tips`;
- the 96 head's picked-up rack and the plate checks of `aspirate_plate` and
  `dispense_plate`.

Structure:

- `outcomes.dfy`, `trackers.dfy`, `resources.dfy`, `validation.dfy` and `head.dfy`
  hold the data model and the argument checks.
- `batches.dfy` turns each operation's queue loop and its commit/rollback loop
  into lists of actions on trackers. It proves:
  - queueing never changes a committed value;
  - a rollback restores every tracker;
  - a commit lands exactly the queued changes;
  - the per-channel, per-spot and per-holder results of a commit.
- `transitions.dfy` gives every handler operation as a function from the state
  before the call to the state after it and the outcome (`Pass`, or the error
  the call raises). Its contracts state when each operation passes, which
  error it raises, and that the checks run before anything is queued.
- `properties.dfy` proves what each operation leaves in the trackers when the
  backend raises and when it returns: tips moved, spots emptied or filled,
  volumes changed by the batch's net amount, the head emptied by
  `return_tips`, and everything else as before. For `aspirate` and
  `dispense` it also says which volume changes the commit and rollback
  loops leave queued.
- `liquid_handler.dfy` is the handler as a class. Its fields are updated in
  place by methods with the source's loops. Each method is proved to produce
  exactly the state and outcome of its function in `Transitions`.

The environment is passed in as parameters:

- the backend is a `BackendCall`: the keyword arguments given, the backend
  method's signature, and whether the hardware call returns normally;
- the process-wide switches `does_tip_tracking()`, `does_volume_tracking()`
  and `get_strictness()` are a `Settings` value;
- the disabled trackers are a set of resources.

The trackers themselves live in other files, which are not part of this
model. They are abstracted to the value they have committed and the value
they will hold once every queued operation is applied.

## Model

| member | source | states |
|---|---|---|
| Resources.CheckOnDeck | pylabrobot/liquid_handling/liquid_handler.py:205-220 | passes iff the topmost ancestor of every resource is the deck; a failure names a stray root |
| Resources.AssertResourcesExist | pylabrobot/liquid_handling/liquid_handler.py:215-220 | the loop that walks each resource up to its root returns exactly `CheckOnDeck` |
| Resources.CheckNoLids | pylabrobot/liquid_handling/liquid_handler.py:630-632 | passes iff no resource sits directly in a plate with a lid; otherwise the lid error |
| Validation.AssertPositionsUnique | pylabrobot/liquid_handling/liquid_handler.py:194-203 | passes iff the positions that are not None are pairwise distinct |
| Validation.NotNoneDistinct | pylabrobot/liquid_handling/liquid_handler.py:201-202 | the not-None list has no duplicates iff the positions are unique where set |
| Validation.ElementsSize | pylabrobot/liquid_handling/liquid_handler.py:202 | `len(set(xs)) == len(xs)` iff `xs` has no duplicates, and never more |
| Validation.MakeSureChannelsExist | pylabrobot/liquid_handling/liquid_handler.py:270-274 | passes iff every channel is a head key; a failure lists a non-empty set of channels |
| Validation.UnknownChannels | pylabrobot/liquid_handling/liquid_handler.py:272 | holds exactly the requested channels that are not head keys |
| Validation.CheckArgs | pylabrobot/liquid_handling/liquid_handler.py:222-268 | as written: missing non-default parameters are an error; every other keyword is returned for removal, and rejected only when strict and there is no `**kwargs` |
| Validation.OptionalParameterReportedExtra | pylabrobot/liquid_handling/liquid_handler.py:249-268 | a keyword naming a backend parameter that has a default is stripped, and rejected under strict mode |
| Validation.VarKeywordStillStripped | pylabrobot/liquid_handling/liquid_handler.py:245-268 | a backend taking `**kwargs` still has every extra keyword stripped from the call |
| Validation.CheckArgsIntended | pylabrobot/liquid_handling/liquid_handler.py:222-268 | corrected: on success a keyword is removed iff the backend method cannot take it; extras are an error only when strict, and only for keywords it cannot take; under strict mode, with the required keywords given, any keyword it cannot take is that error |
| Head.FreshHead | pylabrobot/liquid_handling/liquid_handler.py:112 | keys are exactly `0..n-1`, each a new tracker with no tip |
| Head.ChannelsWithTips | pylabrobot/liquid_handling/liquid_handler.py:489-492 | strictly ascending; a channel is listed iff it is in the head and its tracker holds a tip |
| Head.DefaultChannels | pylabrobot/liquid_handling/liquid_handler.py:332-333 | `list(range(n))` |
| Batches.Run | pylabrobot/liquid_handling/liquid_handler.py:347-350 | running a loop keeps the channel set; the only fault is a tip accessed on an empty channel; a run without fault met no fault action |
| Batches.RunAppend | pylabrobot/liquid_handling/liquid_handler.py:347-369 | running two lists in turn is running their concatenation, stopping at a fault |
| Batches.QueueKeepsCommitted | pylabrobot/liquid_handling/liquid_handler.py:347-350 | a queue loop never faults and leaves every committed value unchanged; untouched trackers are unchanged entirely |
| Batches.SettleNamed | pylabrobot/liquid_handling/liquid_handler.py:359-369 | a commit/rollback loop settles exactly the trackers it names and leaves the rest alone |
| Batches.QueueThenSettle | pylabrobot/liquid_handling/liquid_handler.py:347-369 | queueing then rolling back the same trackers restores their committed values; committing makes the queued values committed |
| Batches.RollbackRestores | pylabrobot/liquid_handling/liquid_handler.py:359-364 | from trackers with nothing queued, a rollback of the queued trackers gives back every tracker as it was |
| Batches.TipBatchQueue | pylabrobot/liquid_handling/liquid_handler.py:347-350 | only queue actions; names each op's channel, and its spot when tip tracking is on and the spot enabled |
| Batches.TipBatchSettle | pylabrobot/liquid_handling/liquid_handler.py:360-369 | only settle actions, naming the same trackers as the queue loop |
| Batches.TipTargetsChannels | pylabrobot/liquid_handling/liquid_handler.py:347-350 | a channel no op uses is not touched |
| Batches.TipTargetsSpots | pylabrobot/liquid_handling/liquid_handler.py:347-350 | a spot no op uses is not touched |
| Batches.TipQueueChannels | pylabrobot/liquid_handling/liquid_handler.py:446-450 | with distinct channels, each channel's pending state is its change applied to its previous pending state |
| Batches.TipQueueSpots | pylabrobot/liquid_handling/liquid_handler.py:446-450 | with distinct spots, each tracked spot's pending content is empty for a pickup and the tip for a drop |
| Batches.RunKeepsVolumes | pylabrobot/liquid_handling/liquid_handler.py:347-369 | a loop that names no volume tracker leaves every volume tracker as it was |
| Batches.RunKeepsTipTrackers | pylabrobot/liquid_handling/liquid_handler.py:652-675 | a loop that names no channel or tip spot leaves the head and every spot as they were |
| Batches.RunNoFault | pylabrobot/liquid_handling/liquid_handler.py:652-675 | a loop without a tip access on an empty channel runs to its end |
| Batches.TipBatchNoVolumes | pylabrobot/liquid_handling/liquid_handler.py:347-369 | the pickup and drop loops name no volume tracker |
| Batches.TipTransaction | pylabrobot/liquid_handling/liquid_handler.py:347-369 | pickup/drop loops never fault; a rollback restores, and a commit lands, exactly the queued trackers |
| Batches.TipCommitOutcome | pylabrobot/liquid_handling/liquid_handler.py:366-369 | after a commit, each used channel holds its change with nothing queued, each tracked spot its new content; every other channel and spot, and every volume tracker, is as before |
| Batches.LiquidBatchQueue | pylabrobot/liquid_handling/liquid_handler.py:652-656 | nothing unless volume tracking is on; never touches a channel tracker; with tips everywhere, only queue actions |
| Batches.LiquidBatchSettle | pylabrobot/liquid_handling/liquid_handler.py:665-675 | as written: names exactly `LiquidSettleTargets` (container and tip of each op whose container is enabled, whether or not anything was queued); reaches for a missing tip iff some op on an enabled container has none; never touches a channel or spot |
| Batches.SettleTargetsMembers | pylabrobot/liquid_handling/liquid_handler.py:665-675 | the loop as written settles a holder iff some op on an enabled container involves it, as that container or as its tip; only volume trackers |
| Batches.SettleTargetsAllEnabled | pylabrobot/liquid_handling/liquid_handler.py:652-675 | with every container enabled and every channel tipped, the loop as written settles exactly what the queue loop queued |
| Batches.LiquidBatchSettleIntended | pylabrobot/liquid_handling/liquid_handler.py:665-675 | corrected: settles exactly the trackers the queue loop queued |
| Batches.LiquidQueueVolumes | pylabrobot/liquid_handling/liquid_handler.py:652-656 | every holder's pending volume moves by the batch's net change to it |
| Batches.UninvolvedUnchanged | pylabrobot/liquid_handling/liquid_handler.py:652-656 | a holder that no op involves has a net change of zero |
| Batches.DisabledContainerLeavesTipQueued | pylabrobot/liquid_handling/liquid_handler.py:665-669 | an aspiration from a disabled container, rolled back, leaves the tip's volume change queued |
| Batches.UntrackedTiplessCommitFaults | pylabrobot/liquid_handling/liquid_handler.py:671-675 | with volume tracking off, the commit loop as written faults on a channel without a tip; the corrected loop does not |
| Batches.LiquidTransaction | pylabrobot/liquid_handling/liquid_handler.py:652-675 | corrected loop (`LiquidBatchSettleIntended`): with a tip on every channel, a rollback restores and a commit lands exactly the queued volume trackers |
| Batches.LiquidCommitVolumes | pylabrobot/liquid_handling/liquid_handler.py:652-675 | corrected loop: after a commit from settled trackers, every holder's volume is its old volume plus the batch's net change, with nothing queued |
| Batches.LiquidSettleAsWritten | pylabrobot/liquid_handling/liquid_handler.py:652-675 | loop as written, volume tracking on, tips everywhere, from settled trackers: no fault, head and spots unchanged; a settled-on holder ends fresh at its old volume (rollback) or old plus net change (commit); any other keeps its old volume committed and the net change queued |
| Batches.LiquidSettleUntracked | pylabrobot/liquid_handling/liquid_handler.py:663-675 | volume tracking off, every op on an enabled container tipped, from settled trackers: the loop as written does not fault and every tracker reads as before |
| Transitions.Setup | pylabrobot/liquid_handling/liquid_handler.py:103-116 | refused when already set up; a backend failure changes nothing; otherwise set up, with a new tracker on exactly the channels `0..n-1` |
| Transitions.Stop | pylabrobot/liquid_handling/liquid_handler.py:139-141 | not gated; passes iff the backend stops, then the session flag is off and every tracker kept |
| Transitions.UpdateHeadState | pylabrobot/liquid_handling/liquid_handler.py:118-132 | passes iff every key is a channel; named channels get the given tip, the others are unchanged |
| Transitions.ClearHeadState | pylabrobot/liquid_handling/liquid_handler.py:134-137 | always passes; every channel is left without a tip and with nothing queued |
| Transitions.Transact | pylabrobot/liquid_handling/liquid_handler.py:347-369 | a fault in the queue loop, or an argument error after it, ends the call with the queued changes left pending and no rollback; otherwise the commit or rollback list runs on the queued trackers and the call passes iff that list does not fault and the backend succeeds |
| Transitions.TipTransact | pylabrobot/liquid_handling/liquid_handler.py:347-369 | passes iff `_check_args` as written accepts the backend arguments and the backend succeeds; its errors are the ones raised after queueing |
| Transitions.SpotTips | pylabrobot/liquid_handling/liquid_handler.py:340-342 | succeeds iff every spot holds a tip, giving each spot's tip in order; otherwise the no-tip error |
| Transitions.PickUpTips | pylabrobot/liquid_handling/liquid_handler.py:276-369 | gated on set-up; passes iff all checks pass, the arguments are accepted and the backend succeeds; a failed check changes nothing |
| Transitions.HeldTips | pylabrobot/liquid_handling/liquid_handler.py:431-438 | succeeds iff every channel holds a tip that is empty or may be dropped full; otherwise the no-tip or nonzero-volume error |
| Transitions.DropTips | pylabrobot/liquid_handling/liquid_handler.py:371-471 | gated on set-up; passes iff all checks pass, the arguments are accepted and the backend succeeds; a failed check changes nothing |
| Transitions.Origins | pylabrobot/liquid_handling/liquid_handler.py:489-492 | succeeds iff every channel recorded where its tip was picked up, giving those spots in order |
| Transitions.ReturnTips | pylabrobot/liquid_handling/liquid_handler.py:473-497 | no tipped channel is the "no tips" error with no change; a pass implies set-up and a backend success |
| Transitions.DiscardTips | pylabrobot/liquid_handling/liquid_handler.py:499-538 | an empty channel list, given or found, is the "no tips" error with no change; a pass implies set-up and a backend success |
| Transitions.Locations | pylabrobot/liquid_handling/liquid_handler.py:604-639 | one resource repeats across the channels (default `[0]`); a list must be non-empty, on the deck and lid-free; the channels are head keys |
| Transitions.LiquidOps | pylabrobot/liquid_handling/liquid_handler.py:648-650 | as many operations as the shortest input list, each pairing the entries at its index |
| Transitions.ChannelTips | pylabrobot/liquid_handling/liquid_handler.py:644 | each channel's committed tip, None where it has none |
| Transitions.MoveLiquid | pylabrobot/liquid_handling/liquid_handler.py:540-678 | gated; a failed check changes nothing; passes iff the checks pass, the arguments are accepted, the backend succeeds, under volume tracking every channel holds a tip, and every channel on an enabled container holds one; when only the last fails, the error is the missing-tip access after the backend ran |
| Transitions.LiquidFaults | pylabrobot/liquid_handling/liquid_handler.py:652-675 | the queue loop faults iff volume tracking is on and some channel has no tip; after it, the commit or rollback loop as written faults iff some op on an enabled container has no tip |
| Transitions.QueueFaultsUntipped | pylabrobot/liquid_handling/liquid_handler.py:656 | under volume tracking an operation without a tip makes the queue loop fault |
| Transitions.PickUpTips96 | pylabrobot/liquid_handling/liquid_handler.py:904-932 | not gated; passes iff the arguments are accepted and the backend succeeds, then the 96 head holds the rack; otherwise no change |
| Transitions.DropTips96 | pylabrobot/liquid_handling/liquid_handler.py:934-962 | not gated; passes iff the arguments are accepted and the backend succeeds, then the 96 head holds nothing; otherwise no change |
| Transitions.ReturnTips96 | pylabrobot/liquid_handling/liquid_handler.py:964-980 | no rack picked up is an error; otherwise the drop to that rack, with no backend keywords |
| Transitions.PlateTransfer | pylabrobot/liquid_handling/liquid_handler.py:1009-1029 | passes iff the arguments are accepted, the 96 head has tips, the plate has no lid, it is 12 by 8 and the backend succeeds; errors come in that order |
| Properties.SessionCycle | pylabrobot/liquid_handling/liquid_handler.py:103-141 | stopping twice is stopping once; a stopped handler can be set up; setting up twice is refused |
| Properties.TipArgsRejectedLeavesQueued | pylabrobot/liquid_handling/liquid_handler.py:347-356 | when `_check_args` raises after the queue loop of a pickup or drop, its error is reported, every committed value is as before, and each used channel and tracked spot keeps its change queued |
| Properties.PickUpTipsRollsBack | pylabrobot/liquid_handling/liquid_handler.py:357-364 | from trackers with nothing queued, a pickup whose backend raises reports the backend error and leaves every tracker as it was |
| Properties.TipPickupAfterLoading | pylabrobot/server/liquid_handling_api_tests.py:116-126 | a handler built on a deck with a tip at `A1`, once set up, picks it up on channel 0; the channel holds it and, with tip tracking, the spot is empty |
| Properties.PickUpOne | pylabrobot/liquid_handling/liquid_handler.py:276-369 | one pickup from a deck spot holding a tip onto a known channel passes, mounts that tip with its origin and empties the tracked spot |
| Properties.PickUpTipsCommits | pylabrobot/liquid_handling/liquid_handler.py:357-369 | a successful pickup puts each spot's tip on its channel, with that spot as its origin, and empties the tracked spots; other channels, other spots and every volume tracker are unchanged |
| Properties.DropTipsRollsBack | pylabrobot/liquid_handling/liquid_handler.py:457-465 | from trackers with nothing queued, a drop whose backend raises reports the backend error and leaves every tracker as it was |
| Properties.DropTipsCommits | pylabrobot/liquid_handling/liquid_handler.py:457-471 | from trackers with nothing queued, a successful drop leaves each channel without a tip, keeping its origin; each tracked tip spot holds the dropped tip; other channels, other spots and every volume tracker are unchanged |
| Properties.ReturnTipsEmptiesHead | pylabrobot/liquid_handling/liquid_handler.py:473-497 | from trackers with nothing queued, on a head whose channels are numbered below the channel count, a successful `return_tips` leaves no channel holding a tip |
| Properties.DiscardTipsEmptiesChannels | pylabrobot/liquid_handling/liquid_handler.py:499-538 | from trackers with nothing queued, on a head whose channels are numbered below the channel count, a successful `discard_tips` leaves every channel it used without a tip: the given channels when they are distinct, all of them when no channels are given |
| Properties.MoveLiquidUntracked | pylabrobot/liquid_handling/liquid_handler.py:652-675 | from trackers with nothing queued, volume tracking off, every channel on an enabled container tipped: the backend's outcome, and every tracker as it was |
| Properties.MoveLiquidRollsBack | pylabrobot/liquid_handling/liquid_handler.py:663-670 | from trackers with nothing queued and with a tip on every channel used, backend raises: its error; head, spots and committed volumes as before; the trackers the rollback reaches as before, any other keeping the net change queued; with no container disabled, every tracker as before |
| Properties.MoveLiquidCommits | pylabrobot/liquid_handling/liquid_handler.py:663-675 | from trackers with nothing queued and with a tip on every channel used, backend succeeds under volume tracking: head and spots as before; every pending volume moved by the net change, committed only on the trackers the commit reaches; with no container disabled, everything committed |
| Properties.OneContainerChange | pylabrobot/liquid_handling/liquid_handler.py:623 | `n` channels drawing `v` from one enabled resource change its volume by `n` times `v` |
| LiquidHandling.LiquidHandler.constructor | pylabrobot/liquid_handling/liquid_handler.py:85-101 | not set up, no channels, no 96-head rack; the deck's tip spots and volumes are the trackers its labware arrives with |
| LiquidHandling.LiquidHandler.Setup | pylabrobot/liquid_handling/liquid_handler.py:103-116 | the new state and outcome are those of `Transitions.Setup`; channels stay numbered below the channel count |
| LiquidHandling.LiquidHandler.Stop | pylabrobot/liquid_handling/liquid_handler.py:139-141 | the new state and outcome are those of `Transitions.Stop` |
| LiquidHandling.LiquidHandler.UpdateHeadState | pylabrobot/liquid_handling/liquid_handler.py:118-132 | the loop over `state` gives the state and outcome of `Transitions.UpdateHeadState` |
| LiquidHandling.LiquidHandler.ClearHeadState | pylabrobot/liquid_handling/liquid_handler.py:134-137 | the new state and outcome are those of `Transitions.ClearHeadState` |
| LiquidHandling.LiquidHandler.Execute | pylabrobot/liquid_handling/liquid_handler.py:347-369 | the loop over a batch leaves the trackers, and reports the fault, that `Batches.Run` gives |
| LiquidHandling.LiquidHandler.Transaction | pylabrobot/liquid_handling/liquid_handler.py:347-369 | queue, argument check, backend call and settle give the state and outcome of `Transitions.Transact` |
| LiquidHandling.LiquidHandler.PickUpTips | pylabrobot/liquid_handling/liquid_handler.py:276-369 | the new state and outcome are those of `Transitions.PickUpTips` |
| LiquidHandling.LiquidHandler.DropTips | pylabrobot/liquid_handling/liquid_handler.py:371-471 | the new state and outcome are those of `Transitions.DropTips` |
| LiquidHandling.LiquidHandler.TippedChannels | pylabrobot/liquid_handling/liquid_handler.py:489-492 | the loop over the head returns exactly the channels holding a tip, in channel order |
| LiquidHandling.LiquidHandler.ReturnTips | pylabrobot/liquid_handling/liquid_handler.py:473-497 | the new state and outcome are those of `Transitions.ReturnTips` |
| LiquidHandling.LiquidHandler.DiscardTips | pylabrobot/liquid_handling/liquid_handler.py:499-538 | the new state and outcome are those of `Transitions.DiscardTips` |
| LiquidHandling.LiquidHandler.LiquidLocations | pylabrobot/liquid_handling/liquid_handler.py:604-639 | returns exactly `Transitions.Locations` and changes nothing |
| LiquidHandling.LiquidHandler.MoveLiquid | pylabrobot/liquid_handling/liquid_handler.py:540-678 | the checks, the queue loop, `_check_args`, the backend call and the commit or rollback loop as written give the state and outcome of `Transitions.MoveLiquid` |
| LiquidHandling.LiquidHandler.Aspirate | pylabrobot/liquid_handling/liquid_handler.py:540-678 | the new state and outcome are those of `Transitions.MoveLiquid` for an aspiration |
| LiquidHandling.LiquidHandler.Dispense | pylabrobot/liquid_handling/liquid_handler.py:680-820 | the new state and outcome are those of `Transitions.MoveLiquid` for a dispense |
| LiquidHandling.LiquidHandler.PickUpTips96 | pylabrobot/liquid_handling/liquid_handler.py:904-932 | the new state and outcome are those of `Transitions.PickUpTips96` |
| LiquidHandling.LiquidHandler.DropTips96 | pylabrobot/liquid_handling/liquid_handler.py:934-962 | the new state and outcome are those of `Transitions.DropTips96` |
| LiquidHandling.LiquidHandler.ReturnTips96 | pylabrobot/liquid_handling/liquid_handler.py:964-980 | the new state and outcome are those of `Transitions.ReturnTips96` |
| LiquidHandling.LiquidHandler.PlateTransfer | pylabrobot/liquid_handling/liquid_handler.py:982-1081 | changes nothing and returns `Transitions.PlateTransfer`; a pass needs a rack on the 96 head and a lid-free 12 by 8 plate |

## Left out

- Offsets, `get_2d_center_offsets`, flow rates and liquid heights are not modelled. Nor is the single-resource branch's check that supplied offsets match the channel count (lines 615-618 and 757-760): these are geometry and hardware parameters that the trackers do not record.
- `end_delay` sleeps, the resource-assigned callbacks in `setup`, and `_run_async_in_thread` are left out: they involve time, threads and callbacks.
- `transfer`, `stamp`, `move_resource`, `move_lid`, `move_plate`, `unassign_resource`, `get_resource`, `summary` and serialisation are outside the modelled core.
- `_check_args` reads the backend method's signature by reflection. Here the signature is a `Signature` value: required and optional keyword names, and whether there is `**kwargs`. `*args` is not modelled.
- The warning or log line that `_check_args` emits for extra arguments outside strict mode is not modelled; the arguments are still removed.
- The tracker classes live in other files, which are not part of this model. In particular:
  - `ChannelHasTipError` on picking up onto a channel that already holds a tip is not modelled;
  - a tip's used volume is read as its committed volume;
  - `get_last_pickup_location` is taken to raise when no pickup was recorded.
- SpotTips: `TipSpot.get_tip()` makes a new tip, and never raises, when the spot's tracker is disabled or tip tracking is off; `SpotTips` always reads the spot's committed tip and reports the no-tip error when there is none. The new tip object comes from `make_tip()` in a file that is not part of this model. One consequence: with tip tracking off, a spot's committed tip never changes, so repeated pickups from that spot mount the same `Tip` value, and their in-tip volume trackers (`InTip` holders) are one and the same; in the source each `get_tip()` makes a new tip with a tracker of its own.
- PickUpTips: because of the `SpotTips` line above, a pickup from an untracked or disabled spot that holds no committed tip is refused here, where the source picks up a new tip. `PickUpValid`, `PickUpTipsRollsBack`, `PickUpTipsCommits` and `PickUpOne` are stated for spots that hold a committed tip. The errors of the spot tracker's `queue_pickup` are not modelled either: a batch that names one tracked spot twice finds it empty the second time and raises in the source, leaving the earlier operations queued, while the model queues both.
- DropTips: the errors of the spot tracker's `queue_drop` are not modelled. A drop onto a tracked, enabled tip spot that already holds a tip (or the same spot twice in one batch) raises `TipSpotHasTipError` in the source, with the earlier operations left queued; the model queues the drop, and `DropTipsCommits` reports the spot holding the dropped tip. The tracker class that raises it is in a file that is not part of this model.
- LiquidTransaction: stated for the corrected settle loop `LiquidBatchSettleIntended`. The handler uses the loop as written, which `LiquidSettleAsWritten` and `LiquidSettleUntracked` cover.
- LiquidCommitVolumes: stated for the corrected settle loop, like `LiquidTransaction`. `MoveLiquidCommits` gives the commit as written.
- MoveLiquid: the volume trackers' own queue errors are not modelled. In the source, the container's and the tip's `queue_aspiration` and `queue_dispense` refuse a change that would take a tracker below zero or past its capacity. Both run in the queue loop (lines 655-656 and 797-798), so they raise before the backend is called and leave the earlier operations queued. The model has no capacity and lets a volume go below zero or past any limit, so `MoveLiquid`'s pass-iff does not include these two conditions. The volume tracker class is in a file that is not part of this model.
- MoveLiquidCommits: because of the `MoveLiquid` line above, it reports a pass and the committed net change for volumes that the source's volume trackers would refuse.
- MoveLiquidRollsBack: because of the `MoveLiquid` line above, it reports the backend error for volumes that the source's volume trackers would refuse in the queue loop, before the backend runs.
- `expand` is modelled only for one value or a list; a list of the wrong length is reported as a length mismatch, and `flow_rates` and `liquid_height` are not expanded.
- `deck.get_trash_area()` is a configured resource; a deck without a trash area is not modelled.
- `Transitions.ReturnTips`: the model first collects the tipped channels, then reads their pickup locations. The source reads them in the same loop. This yields the same error and state, but the interleaving is not kept.
- `LiquidHandling.LiquidHandler.UpdateHeadState`: the source walks the dictionary in insertion order; the model takes the keys in any order, which gives the same result because the keys are distinct.
- The order of `self.head.items()` is taken to be channel order `0..n-1`, which is how `setup` inserts the channels (`LiquidHandler.Valid`). A head built differently by `update_head_state` cannot add channels.
- Which kind of exception (`RuntimeError`, `ValueError`, `TypeError`, `AssertionError`, `AttributeError`) each error is raised as, and its message text, are collapsed into the `Error` datatype.
- The 96-head operations keep only which rack is on the head. Tip and volume trackers are not updated for them, as in the source.

## Findings

| source | as written | input that shows it | evidently intended | confidence | as-written member | corrected member |
|---|---|---|---|---|---|---|
| pylabrobot/liquid_handling/liquid_handler.py:249-268 | `_check_args` treats every keyword that is not a required parameter as extra. Parameters that have a default are stripped from the call, and rejected under strict mode. A method with `**kwargs` also has every keyword stripped. | backend `pick_up_tips(self, ops, use_channels, speed=1)` called with `speed=2` | only keywords the backend method cannot take are extra, as the docstring says ("arguments that need to be removed") | not executed; high | Validation.OptionalParameterReportedExtra | Validation.CheckArgsIntended |
| pylabrobot/liquid_handling/liquid_handler.py:665-675 | the rollback and commit loops of `aspirate` (and `dispense`, 807-817) settle the tip's tracker only when the container's tracker is enabled. They do this whether or not volume tracking queued anything. | aspirate 5 µl from a well whose tracker is disabled, backend raises: the tip's tracker keeps 5 µl queued; with volume tracking off and a channel without a tip, the commit reaches for the missing tip after the backend has run | settle exactly the trackers the queue loop queued | not executed; high | Batches.DisabledContainerLeavesTipQueued | Batches.LiquidBatchSettleIntended |

The handler (`Transitions`, `Properties`, `LiquidHandling`) follows the code
as written, `Validation.CheckArgs` and `Batches.LiquidBatchSettle`, so its
contracts include both discrepancies: `Transitions.MoveLiquid` fails after the
backend has run, and `Properties.MoveLiquidRollsBack` and
`Properties.MoveLiquidCommits` say which volume changes stay queued. The
corrected definitions are proved on their own: `Validation.CheckArgsIntended`,
and `Batches.LiquidTransaction` and `Batches.LiquidCommitVolumes` about
`Batches.LiquidBatchSettleIntended`. `Batches.UntrackedTiplessCommitFaults`
exhibits the second half of the second row.

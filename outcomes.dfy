/** Option, Result and Outcome, and the errors the liquid handler raises. */
module Outcomes {

  datatype Option<+T> = None | Some(value: T) {
    function GetOr(default: T): T {
      match this
      case Some(v) => v
      case None => default
    }
  }

  datatype Result<+R, +E> = Ok(value: R) | Err(error: E)

  datatype Outcome<+E> = Pass | Fail(error: E)

  /** One constructor per exception the handler raises (or lets through). */
  datatype Error =
      /** RuntimeError from `need_setup_finished`: the setup has not finished. */
    | SetupNotFinished
      /** RuntimeError from `setup`: the setup has already finished. */
    | SetupAlreadyFinished
      /** Whatever the backend raised, re-raised unchanged. */
    | BackendFailure
      /** AssertionError from `update_head_state`: a key is not a head channel. */
    | InvalidChannel
      /** ValueError from `_assert_positions_unique`. */
    | PositionsNotUnique
      /** ValueError from `_assert_resources_exist`, naming the root that was reached. */
    | ResourceNotOnDeck(rootName: string)
      /** TypeError from `_check_args`: required backend parameters not supplied. */
    | MissingArguments(missing: set<string>)
      /** TypeError from `_check_args` under strict mode: unexpected keyword arguments. */
    | ExtraArguments(extra: set<string>)
      /** ValueError from `_make_sure_channels_exist`, listing the unknown channels in order. */
    | InvalidChannels(channels: seq<int>)
      /** AssertionError: the per-channel lists differ in length. */
    | LengthMismatch
      /** TipSpotHasNoTipError: a tip spot to pick up from holds no tip. */
    | TipSpotHasNoTip(spotName: string)
      /** ChannelHasNoTipError from `drop_tips`. */
    | ChannelHasNoTip(channel: int)
      /** RuntimeError from `drop_tips`: the tip still holds liquid. */
    | NonzeroTipVolume(volume: real)
      /** RuntimeError from `return_tips`: no channel holds a tip. */
    | NoTipsPickedUp
      /** RuntimeError from `discard_tips`: no channel holds a tip and none was named. */
    | NoTipsToDiscard
      /** A channel holds a tip that was not picked up by this handler, so it has no origin. */
    | NoPickupLocation(channel: int)
      /** ValueError from `aspirate`/`dispense`: an empty list of resources. */
    | NoChannelsSpecified
      /** ValueError: the container sits in a plate that has a lid. */
    | PlateHasLid
      /** AttributeError: `op.tip.tracker` read for a channel that holds no tip. */
    | TipAccessOnEmptyChannel
      /** RuntimeError from `return_tips96`: nothing on the 96 head. */
    | NoTips96PickedUp
      /** ChannelHasNoTipError from `aspirate_plate`/`dispense_plate`. */
    | Head96HasNoTips
      /** NotImplementedError: the 96 head only serves 12 x 8 plates. */
    | UnsupportedPlate(columns: nat, rows: nat)
}

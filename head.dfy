/**
 * The single-channel head: a map from channel id to the channel's tip
 * tracker, and the channel selections `return_tips`/`discard_tips` make.
 */
module Head {
  import opened Outcomes
  import opened Trackers
  import opened Resources

  /** A tip object, by identity; its volume tracker is kept in `Batches.World`. */
  datatype Tip = Tip(id: nat)

  /** What a channel tracker holds: the tip on the channel and the spot it was last picked up from. */
  datatype Mount = Mount(tip: Option<Tip>, origin: Option<Resource>)

  type ChannelTracker = Tracker<Mount>

  type HeadMap = map<int, ChannelTracker>

  /** A new `ChannelTipTracker()`: no tip, no pickup recorded. */
  function NewChannel(): ChannelTracker {
    Fresh(Mount(None, None))
  }

  /** The tracker after `set_tip(tip)`: the tip is committed at once, with no pickup origin. */
  function Placed(tip: Option<Tip>): ChannelTracker {
    Fresh(Mount(tip, None))
  }

  /** `tracker.has_tip`. */
  predicate HasTip(t: ChannelTracker) {
    t.committed.tip.Some?
  }

  /** The channel ids `range(n)`. */
  function ChannelRange(n: nat): (cs: set<int>)
    ensures forall c :: c in cs <==> 0 <= c < n
  {
    if n == 0 then {} else ChannelRange(n - 1) + {n - 1}
  }

  /** `{c: ChannelTipTracker() for c in range(n)}`, the head `setup` builds. */
  function FreshHead(n: nat): (h: HeadMap)
    ensures h.Keys == ChannelRange(n)
    ensures forall c :: c in h ==> h[c] == NewChannel() && !HasTip(h[c])
  {
    if n == 0 then map[] else FreshHead(n - 1)[n - 1 := NewChannel()]
  }

  /** The head after `set_tip` on every channel named in `state`. */
  function UpdatedHead(head: HeadMap, state: map<int, Option<Tip>>): HeadMap {
    map c | c in head :: if c in state then Placed(state[c]) else head[c]
  }

  /**
   * The channels, in the order `head.items()` lists them (ascending, as
   * `setup` inserts them), whose tracker holds a tip; `n` is the number of
   * channels the head was built with.
   */
  function ChannelsWithTips(head: HeadMap, n: nat): (cs: seq<int>)
    ensures forall i, j :: 0 <= i < j < |cs| ==> cs[i] < cs[j]
    ensures forall c :: c in cs <==> 0 <= c < n && c in head && HasTip(head[c])
    ensures forall i :: 0 <= i < |cs| ==> 0 <= cs[i] < n
  {
    if n == 0 then []
    else
      var below := ChannelsWithTips(head, n - 1);
      var c := n - 1;
      if c in head && HasTip(head[c]) then below + [c] else below
  }

  /** The `use_channels` a batch operation falls back to: `list(range(n))`. */
  function DefaultChannels(n: nat): (cs: seq<int>)
    ensures |cs| == n && forall i :: 0 <= i < n ==> cs[i] == i
  {
    seq(n, i => i)
  }
}

/** The argument checks the handler runs before it queues anything. */
module Validation {
  import opened Outcomes

  predicate Distinct<T(==)>(s: seq<T>) {
    forall i, j :: 0 <= i < j < |s| ==> s[i] != s[j]
  }

  /** The elements of `s`, as Python's `set(s)`. */
  function Elements<T(==)>(s: seq<T>): set<T> {
    set x | x in s
  }

  /** A list is as long as its set of elements exactly when it repeats nothing. */
  lemma {:induction false} ElementsSize<T>(s: seq<T>)
    ensures |Elements(s)| <= |s|
    ensures |Elements(s)| == |s| <==> Distinct(s)
  {
    if s != [] {
      var init, x := s[..|s| - 1], s[|s| - 1];
      ElementsSize(init);
      assert s == init + [x];
      assert Elements(s) == Elements(init) + {x};
      if x in init {
        assert Elements(s) == Elements(init);
        var k :| 0 <= k < |init| && init[k] == x;
        assert s[k] == s[|s| - 1];
      } else {
        assert |Elements(s)| == |Elements(init)| + 1;
        if Distinct(init) {
          forall i, j | 0 <= i < j < |s| ensures s[i] != s[j] {
            if j == |s| - 1 {
              assert s[i] == init[i];
            } else {
              assert s[i] == init[i] && s[j] == init[j];
            }
          }
        } else {
          var i, j :| 0 <= i < j < |init| && init[i] == init[j];
          assert s[i] == s[j];
        }
      }
    }
  }

  /** `[p for p in positions if p is not None]`. */
  function NotNone(positions: seq<Option<string>>): (s: seq<string>)
    ensures forall p :: p in s <==> Some(p) in positions
  {
    if positions == [] then []
    else
      var init := NotNone(positions[..|positions| - 1]);
      var last := positions[|positions| - 1];
      assert positions == positions[..|positions| - 1] + [last];
      if last.Some? then init + [last.value] else init
  }

  /** No two entries of `positions` that are not None are equal. */
  predicate UniqueWhereSome(positions: seq<Option<string>>) {
    forall i, j :: 0 <= i < j < |positions| && positions[i].Some? && positions[j].Some? ==>
      positions[i] != positions[j]
  }

  lemma DistinctSnoc<T>(s: seq<T>, x: T)
    ensures Distinct(s + [x]) <==> Distinct(s) && x !in s
  {
    var t := s + [x];
    assert forall i :: 0 <= i < |s| ==> t[i] == s[i];
    if x in s {
      var k :| 0 <= k < |s| && s[k] == x;
      assert t[k] == t[|s|];
    }
  }

  lemma UniqueWhereSomeSnoc(init: seq<Option<string>>, last: Option<string>)
    ensures UniqueWhereSome(init + [last]) <==> UniqueWhereSome(init) && (last.Some? ==> last !in init)
  {
    var t := init + [last];
    assert forall i :: 0 <= i < |init| ==> t[i] == init[i];
    if last.Some? && last in init {
      var k :| 0 <= k < |init| && init[k] == last;
      assert t[k] == t[|init|];
    }
  }

  lemma {:induction false} NotNoneDistinct(positions: seq<Option<string>>)
    ensures Distinct(NotNone(positions)) <==> UniqueWhereSome(positions)
  {
    if positions != [] {
      var init, last := positions[..|positions| - 1], positions[|positions| - 1];
      NotNoneDistinct(init);
      assert positions == init + [last];
      UniqueWhereSomeSnoc(init, last);
      if last.Some? {
        DistinctSnoc(NotNone(init), last.value);
      }
    }
  }

  /** `_assert_positions_unique`: fails exactly when two entries that are not None are equal. */
  function AssertPositionsUnique(positions: seq<Option<string>>): (o: Outcome<Error>)
    ensures o.Pass? <==> UniqueWhereSome(positions)
    ensures o.Fail? ==> o.error == PositionsNotUnique
  {
    var notNone := NotNone(positions);
    ElementsSize(notNone);
    NotNoneDistinct(positions);
    if |notNone| != |Elements(notNone)| then Fail(PositionsNotUnique) else Pass
  }

  /** `[c for c in channels if c not in head]`. */
  function UnknownChannels(channels: seq<int>, head: set<int>): (bad: seq<int>)
    ensures forall c :: c in bad <==> c in channels && c !in head
    ensures |bad| <= |channels|
  {
    if channels == [] then []
    else
      var rest := UnknownChannels(channels[1..], head);
      assert forall c :: c in channels <==> c == channels[0] || c in channels[1..];
      if channels[0] in head then rest else [channels[0]] + rest
  }

  /** `_make_sure_channels_exist`: fails exactly when some requested channel is not a head key, and lists those. */
  function MakeSureChannelsExist(channels: seq<int>, head: set<int>): (o: Outcome<Error>)
    ensures o.Pass? <==> forall i :: 0 <= i < |channels| ==> channels[i] in head
    ensures o.Fail? ==> o.error.InvalidChannels? && o.error.channels != []
                        && forall c :: c in o.error.channels <==> c in channels && c !in head
  {
    var bad := UnknownChannels(channels, head);
    if |bad| != 0 then
      assert bad[0] in bad;
      Fail(InvalidChannels(bad))
    else
      assert forall i :: 0 <= i < |channels| ==> channels[i] in head by {
        forall i | 0 <= i < |channels| ensures channels[i] in head {
          assert channels[i] in channels;
        }
      }
      Pass
  }

  /** The global strictness switch consulted by `_check_args`. */
  datatype Strictness = Ignore | Warn | Strict

  /**
   * What `inspect.signature` tells `_check_args` about a backend method:
   * its named parameters without a default, those with a default, and
   * whether it takes `**kwargs`.
   */
  datatype Signature = Signature(required: set<string>, optional: set<string>, varKeyword: bool)

  /** Named parameters without a default, other than `self` and those the handler supplies. */
  function NonDefault(sig: Signature, handlerSupplied: set<string>): set<string> {
    sig.required - (handlerSupplied + {"self"})
  }

  /**
   * `_check_args`: a TypeError when a non-default parameter is not among
   * the keywords; otherwise the keywords that are not non-default
   * parameters, which are an error only in strict mode and only when the
   * method has no `**kwargs`.
   */
  function CheckArgs(sig: Signature, kwargs: set<string>, handlerSupplied: set<string>, strictness: Strictness)
    : (r: Result<set<string>, Error>)
    ensures var needed := NonDefault(sig, handlerSupplied);
      && (r.Err? && r.error.MissingArguments? <==> !(needed <= kwargs))
      && (r.Err? && r.error.MissingArguments? ==> r.error.missing == needed - kwargs && r.error.missing != {})
      && (r.Err? && r.error.ExtraArguments? <==>
            needed <= kwargs && kwargs - needed != {} && !sig.varKeyword && strictness == Strict)
      && (r.Err? && r.error.ExtraArguments? ==> r.error.extra == kwargs - needed)
      && (r.Err? ==> r.error.MissingArguments? || r.error.ExtraArguments?)
      && (r.Ok? ==> r.value == kwargs - needed)
  {
    var nonDefault := NonDefault(sig, handlerSupplied);
    var missing := nonDefault - kwargs;
    if |missing| > 0 then Err(MissingArguments(missing))
    else
      var extra := kwargs - nonDefault;
      if |extra| > 0 && !sig.varKeyword && strictness == Strict then Err(ExtraArguments(extra))
      else Ok(extra)
  }

  /**
   * A backend keyword parameter that has a default is reported as extra:
   * the handler strips it from the call, and strict mode rejects it.
   */
  lemma OptionalParameterReportedExtra()
    ensures var sig := Signature({"self", "ops", "use_channels"}, {"speed"}, false);
      && CheckArgs(sig, {"speed"}, {"ops", "use_channels"}, Warn) == Ok({"speed"})
      && CheckArgs(sig, {"speed"}, {"ops", "use_channels"}, Strict) == Err(ExtraArguments({"speed"}))
  {
    var sig := Signature({"self", "ops", "use_channels"}, {"speed"}, false);
    assert NonDefault(sig, {"ops", "use_channels"}) == {};
  }

  /** A method taking `**kwargs` still has every extra keyword stripped. */
  lemma VarKeywordStillStripped()
    ensures var sig := Signature({"self", "ops", "use_channels"}, {}, true);
      CheckArgs(sig, {"speed"}, {"ops", "use_channels"}, Strict) == Ok({"speed"})
  {
    var sig := Signature({"self", "ops", "use_channels"}, {}, true);
    assert NonDefault(sig, {"ops", "use_channels"}) == {};
  }

  /** Every keyword the backend method declares, or accepts through `**kwargs`. */
  predicate Accepts(sig: Signature, handlerSupplied: set<string>, k: string) {
    sig.varKeyword || k in (sig.required + sig.optional) - (handlerSupplied + {"self"})
  }

  /**
   * `_check_args` as its documentation describes it: only keywords the
   * backend method cannot take are removed (or rejected in strict mode).
   */
  function CheckArgsIntended(sig: Signature, kwargs: set<string>, handlerSupplied: set<string>, strictness: Strictness)
    : (r: Result<set<string>, Error>)
    ensures r.Err? && r.error.MissingArguments? <==> !(NonDefault(sig, handlerSupplied) <= kwargs)
    ensures r.Ok? ==> forall k :: k in kwargs ==> (k in r.value <==> !Accepts(sig, handlerSupplied, k))
    ensures r.Err? && r.error.ExtraArguments? ==>
              strictness == Strict && r.error.extra != {}
              && forall k :: k in r.error.extra ==> k in kwargs && !Accepts(sig, handlerSupplied, k)
    ensures NonDefault(sig, handlerSupplied) <= kwargs && strictness == Strict
            && (exists k :: k in kwargs && !Accepts(sig, handlerSupplied, k)) ==>
              r.Err? && r.error.ExtraArguments?
    ensures r.Err? ==> r.error.MissingArguments? || r.error.ExtraArguments?
  {
    var missing := NonDefault(sig, handlerSupplied) - kwargs;
    if |missing| > 0 then Err(MissingArguments(missing))
    else
      var extra := set k | k in kwargs && !Accepts(sig, handlerSupplied, k);
      if |extra| > 0 && strictness == Strict then Err(ExtraArguments(extra))
      else Ok(extra)
  }
}

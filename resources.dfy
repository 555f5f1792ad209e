/**
 * The part of the resource tree the handler looks at: a resource's name,
 * what kind of resource it is, and the chain of parents above it.
 */
module Resources {
  import opened Outcomes

  /** What the handler tells apart: tip spots, plates (with or without a lid), containers, and every other resource. */
  datatype Kind =
    | TipSpotKind
    | PlateKind(hasLid: bool)
    | ContainerKind
    | OtherKind

  /** A resource together with the chain of resources it is assigned to. */
  datatype Resource = Resource(name: string, kind: Kind, parent: Option<Resource>)

  /** `a` is `r` or one of the resources `r` is (transitively) assigned to. */
  predicate AncestorOrSelf(a: Resource, r: Resource)
    decreases r
  {
    a == r || (r.parent.Some? && AncestorOrSelf(a, r.parent.value))
  }

  /** The resource reached by following `parent` until there is none. */
  function Root(r: Resource): (top: Resource)
    ensures top.parent.None?
    ensures AncestorOrSelf(top, r)
    decreases r
  {
    match r.parent
    case None => r
    case Some(p) => Root(p)
  }

  /**
   * What `_assert_resources_exist` decides: every resource's root must be
   * the deck, and the first one whose root is not makes it fail, naming
   * that root.
   */
  function CheckOnDeck(resources: seq<Resource>, deck: Resource): (o: Outcome<Error>)
    ensures o.Pass? <==> forall i :: 0 <= i < |resources| ==> Root(resources[i]) == deck
    ensures o.Fail? ==> exists i :: 0 <= i < |resources| && Root(resources[i]) != deck
                          && o.error == ResourceNotOnDeck(Root(resources[i]).name)
                          && forall j :: 0 <= j < i ==> Root(resources[j]) == deck
  {
    if |resources| == 0 then Pass
    else if Root(resources[0]) != deck then Fail(ResourceNotOnDeck(Root(resources[0]).name))
    else
      var rest := CheckOnDeck(resources[1..], deck);
      assert forall i :: 1 <= i < |resources| ==> resources[i] == resources[1..][i - 1];
      rest
  }

  /** `_assert_resources_exist`: walks each resource's parent chain up to its root. */
  method AssertResourcesExist(resources: seq<Resource>, deck: Resource) returns (o: Outcome<Error>)
    ensures o == CheckOnDeck(resources, deck)
  {
    for i := 0 to |resources|
      invariant CheckOnDeck(resources, deck) == CheckOnDeck(resources[i..], deck)
    {
      var r := resources[i];
      while r.parent.Some?
        invariant Root(r) == Root(resources[i])
        decreases r
      {
        r := r.parent.value;
      }
      if r != deck {
        return Fail(ResourceNotOnDeck(r.name));
      }
      assert resources[i..][1..] == resources[i + 1..];
    }
    return Pass;
  }

  /** The container sits directly in a plate that has a lid. */
  predicate InLiddedPlate(r: Resource) {
    r.parent.Some? && r.parent.value.kind.PlateKind? && r.parent.value.kind.hasLid
  }

  /** The lid check of `aspirate`/`dispense`: the first container in a lidded plate fails. */
  function CheckNoLids(resources: seq<Resource>): (o: Outcome<Error>)
    ensures o.Pass? <==> forall i :: 0 <= i < |resources| ==> !InLiddedPlate(resources[i])
    ensures o.Fail? ==> o.error == PlateHasLid
  {
    if forall i :: 0 <= i < |resources| ==> !InLiddedPlate(resources[i]) then Pass else Fail(PlateHasLid)
  }
}

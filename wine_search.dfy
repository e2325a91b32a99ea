/** Dynamic wine search: keyed specification providers, the first-match
    provider lookup (`WineSpecificationProviderManager`), the name provider
    (`NameSpecificationProvider`), and the builder that conjoins the
    predicates of the parameter groups that are present
    (`WineSpecificationBuilder`).  A specification is a predicate on wines. */
module WineSearch {
  import opened Common
  import opened Records

  type Specification = Wine -> bool

  /** A specification provider: the key it is registered under, and the
      predicate it builds from a group of parameter values.  Providers other
      than the name provider are given as values of this type. */
  datatype Provider = Provider(key: string, specification: seq<string> -> Specification)

  /** The search request (`WineSearchParametersDto`): each group may be absent
      (`null`) or present with any number of values. */
  datatype SearchParameters = SearchParameters(
    names: Option<seq<string>>,
    grapeVarieties: Option<seq<string>>,
    regionNames: Option<seq<string>>)

  const NameKey: string := "name"
  const GrapeVarietyKey: string := "grapeVariety"
  const RegionKey: string := "region"

  /** `Specification.where(null)`: every wine matches. */
  function MatchAll(): (spec: Specification)
    ensures forall w :: spec(w)
  {
    w => true
  }

  /** `Specification.and`. */
  function And(a: Specification, b: Specification): (spec: Specification)
    ensures forall w :: spec(w) <==> a(w) && b(w)
  {
    w => a(w) && b(w)
  }

  /** `NameSpecificationProvider`: registered under "name", it accepts a wine
      whose name is one of the values. */
  function NameProvider(): (p: Provider)
    ensures p.key == "name"
    ensures forall params, w :: p.specification(params)(w) <==> w.name in params
  {
    Provider(NameKey, (params: seq<string>) => (w: Wine) => w.name in params)
  }

  /** `getSpecificationProvider`: the position of the first provider in list
      order registered under `key`, or the `IllegalArgumentException` for an
      unknown key. */
  function FindProvider(providers: seq<Provider>, key: string): (r: Result<nat>)
    ensures r.Ok? <==> exists i :: 0 <= i < |providers| && providers[i].key == key
    ensures r.Ok? ==> r.value < |providers| && providers[r.value].key == key
    ensures r.Ok? ==> forall j :: 0 <= j < r.value ==> providers[j].key != key
    ensures r.Err? ==> r.failure == Failure(IllegalArgument, "No specification provider found for key: " + key)
  {
    if providers == [] then
      Result<nat>.Err(Failure(IllegalArgument, "No specification provider found for key: " + key))
    else if providers[0].key == key then
      Ok(0)
    else
      match FindProvider(providers[1..], key)
      case Ok(i) => Ok(i + 1)
      case Err(f) =>
        assert forall i :: 0 <= i < |providers| - 1 ==> providers[1..][i] == providers[i + 1];
        Err(f)
  }

  /** A group takes part in the search only when it is non-null and has at
      least one value. */
  predicate Present(group: Option<seq<string>>)
  {
    group.Some? && |group.value| > 0
  }

  /** One `if` of `build`: a present group conjoins its provider's predicate
      to what has been built so far; an absent group leaves it as it is. */
  function AddGroup(spec: Result<Specification>, providers: seq<Provider>, key: string, group: Option<seq<string>>)
    : (r: Result<Specification>)
    ensures spec.Err? ==> r.Err? && r.failure == spec.failure
    ensures spec.Ok? && !Present(group) ==> r.Ok? && forall w :: r.value(w) == spec.value(w)
    ensures spec.Ok? && Present(group) ==> (r.Ok? <==> FindProvider(providers, key).Ok?)
    ensures spec.Ok? && Present(group) && r.Err? ==> r.failure == FindProvider(providers, key).failure
    ensures spec.Ok? && Present(group) && r.Ok? ==> forall w :: r.value(w) <==>
      spec.value(w) && providers[FindProvider(providers, key).value].specification(group.value)(w)
  {
    if spec.Err? || !Present(group) then spec
    else match FindProvider(providers, key)
      case Err(f) => Err(f)
      case Ok(i) => Ok(And(spec.value, providers[i].specification(group.value)))
  }

  /** `build`: the names, grape-variety and region groups, in that order. */
  function Build(params: SearchParameters, providers: seq<Provider>): Result<Specification>
  {
    var s1 := AddGroup(Ok(MatchAll()), providers, NameKey, params.names);
    var s2 := AddGroup(s1, providers, GrapeVarietyKey, params.grapeVarieties);
    AddGroup(s2, providers, RegionKey, params.regionNames)
  }

  /** Whether `w` satisfies a group's provider predicate; an absent group
      says nothing. */
  predicate GroupAccepts(providers: seq<Provider>, key: string, group: Option<seq<string>>, w: Wine)
  {
    Present(group) ==> match FindProvider(providers, key)
      case Ok(i) => providers[i].specification(group.value)(w)
      case Err(_) => false
  }

  /** Whether every present group's key has a provider. */
  predicate Resolvable(providers: seq<Provider>, key: string, group: Option<seq<string>>)
  {
    Present(group) ==> FindProvider(providers, key).Ok?
  }

  /** The built specification exists exactly when every present group's key
      has a provider; it then accepts a wine exactly when every present
      group's predicate does.  Otherwise the error is the one of the first
      present group, in the order names, grape varieties, regions, whose key
      is unknown. */
  lemma BuildMeaning(params: SearchParameters, providers: seq<Provider>)
    ensures Build(params, providers).Ok? <==>
      && Resolvable(providers, NameKey, params.names)
      && Resolvable(providers, GrapeVarietyKey, params.grapeVarieties)
      && Resolvable(providers, RegionKey, params.regionNames)
    ensures Build(params, providers).Ok? ==> forall w :: Build(params, providers).value(w) <==>
      && GroupAccepts(providers, NameKey, params.names, w)
      && GroupAccepts(providers, GrapeVarietyKey, params.grapeVarieties, w)
      && GroupAccepts(providers, RegionKey, params.regionNames, w)
    ensures !Resolvable(providers, NameKey, params.names) ==>
      Build(params, providers).Err? &&
      Build(params, providers).failure == Failure(IllegalArgument, "No specification provider found for key: name")
    ensures Resolvable(providers, NameKey, params.names) && !Resolvable(providers, GrapeVarietyKey, params.grapeVarieties) ==>
      Build(params, providers).Err? &&
      Build(params, providers).failure == Failure(IllegalArgument, "No specification provider found for key: grapeVariety")
    ensures (Resolvable(providers, NameKey, params.names) && Resolvable(providers, GrapeVarietyKey, params.grapeVarieties)
             && !Resolvable(providers, RegionKey, params.regionNames)) ==>
      Build(params, providers).Err? &&
      Build(params, providers).failure == Failure(IllegalArgument, "No specification provider found for key: region")
  {
    var s1 := AddGroup(Ok(MatchAll()), providers, NameKey, params.names);
    var s2 := AddGroup(s1, providers, GrapeVarietyKey, params.grapeVarieties);
    assert NameKey == "name" && GrapeVarietyKey == "grapeVariety" && RegionKey == "region";
  }

  /** With every group absent or empty, the search accepts every wine, whatever
      providers are registered. */
  lemma NoGroupsMatchAll(params: SearchParameters, providers: seq<Provider>)
    requires !Present(params.names) && !Present(params.grapeVarieties) && !Present(params.regionNames)
    ensures Build(params, providers).Ok?
    ensures forall w :: Build(params, providers).value(w)
  {
  }

  /** Adding a present group to a search never lets more wines through. */
  lemma AddingGroupNarrows(params: SearchParameters, more: SearchParameters, providers: seq<Provider>, w: Wine)
    requires Build(params, providers).Ok? && Build(more, providers).Ok?
    requires Present(params.names) ==> more.names == params.names
    requires Present(params.grapeVarieties) ==> more.grapeVarieties == params.grapeVarieties
    requires Present(params.regionNames) ==> more.regionNames == params.regionNames
    ensures Build(more, providers).value(w) ==> Build(params, providers).value(w)
  {
    BuildMeaning(params, providers);
    BuildMeaning(more, providers);
  }

  /** The lookup returns the first matching provider, so registering a
      provider after the others never changes a key that is already found. */
  lemma {:induction false} AppendKeepsLookup(providers: seq<Provider>, extra: Provider, key: string)
    requires FindProvider(providers, key).Ok?
    ensures FindProvider(providers + [extra], key) == FindProvider(providers, key)
  {
    if providers[0].key != key {
      assert (providers + [extra])[1..] == providers[1..] + [extra];
      AppendKeepsLookup(providers[1..], extra, key);
    }
  }

  /** The name predicate depends only on the set of values: reordering or
      repeating them changes nothing. */
  lemma NameParamsAsSet(params1: seq<string>, params2: seq<string>, w: Wine)
    requires forall s :: s in params1 <==> s in params2
    ensures NameProvider().specification(params1)(w) == NameProvider().specification(params2)(w)
  {
  }

  /** Adding a value to the name group never drops a wine from the match. */
  lemma NameParamsMonotone(params: seq<string>, extra: string, w: Wine)
    ensures NameProvider().specification(params)(w) ==> NameProvider().specification(params + [extra])(w)
  {
  }

  /** With the name provider registered ahead of any other "name" provider
      and only the name group given, a wine matches exactly when its name is
      one of the values. */
  lemma SearchByNameOnly(names: seq<string>, others: seq<Provider>, w: Wine)
    requires |names| > 0
    ensures var params := SearchParameters(Some(names), None, None);
      && Build(params, [NameProvider()] + others).Ok?
      && (Build(params, [NameProvider()] + others).value(w) <==> w.name in names)
  {
    var providers := [NameProvider()] + others;
    assert FindProvider(providers, NameKey) == Ok(0);
  }
}

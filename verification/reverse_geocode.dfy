/** Reverse geocoding: turning the geocoding service's answer for a point
    into the six address fields of the order form. The request itself is
    I/O; the model takes the API key and the fetched answer as inputs. */
module ReverseGeocode {
  import opened Wrappers
  import opened Find

  /** One entry of a result's `address_components`. */
  datatype Component = Component(longName: string, types: seq<string>)

  /** One entry of the answer's `results`. */
  datatype GeoResult = GeoResult(components: seq<Component>)

  /** The decoded JSON answer; an absent `results` is `None`. */
  datatype Response = Response(status: string, results: Option<seq<GeoResult>>, errorMessage: string)

  datatype Address = Address(
    street: string,
    number: string,
    colony: string,
    municipality: string,
    state: string,
    postalCode: string)

  datatype GeoError =
    | MissingApiKey
    | FetchFailed(reason: string)
    | RequestFailed(status: string, message: string)

  /** `types.some(t => c.types.includes(t))`. */
  predicate HasAnyType(c: Component, types: seq<string>) {
    exists t :: t in types && t in c.types
  }

  /** `r` is what the first component carrying one of `types` names: that
      component's long name, or the empty string when no component carries
      any of them. */
  predicate FirstMatchName(r: string, components: seq<Component>, types: seq<string>) {
    && (forall i ::
          (0 <= i < |components| && HasAnyType(components[i], types)
           && forall j :: 0 <= j < i ==> !HasAnyType(components[j], types)) ==>
          r == components[i].longName)
    && ((forall j :: 0 <= j < |components| ==> !HasAnyType(components[j], types)) ==> r == "")
  }

  function Matches(types: seq<string>): Component -> bool {
    (c: Component) => HasAnyType(c, types)
  }

  /** `getAddressComponent(...types)`: the long name of the first component,
      in component order, carrying any of the requested types; the empty
      string when none does. */
  function GetAddressComponent(components: seq<Component>, types: seq<string>): (r: string)
    ensures FirstMatchName(r, components, types)
  {
    match FindIndex(components, Matches(types))
    case Some(i) => components[i].longName
    case None => ""
  }

  /** The winner is the earliest matching component: whichever requested
      type it carries, and in whatever order the types were requested. */
  lemma FirstMatchingComponentWins(components: seq<Component>, types: seq<string>, i: nat)
    requires i < |components| && HasAnyType(components[i], types)
    requires forall j :: 0 <= j < i ==> !HasAnyType(components[j], types)
    ensures GetAddressComponent(components, types) == components[i].longName
  {
    assert Matches(types)(components[i]);
  }

  /** Requesting the same types in another order, or repeated, changes
      nothing. */
  lemma TypeOrderIrrelevant(components: seq<Component>, types: seq<string>, types': seq<string>)
    requires forall t :: t in types <==> t in types'
    ensures GetAddressComponent(components, types) == GetAddressComponent(components, types')
  {
    assert forall j :: 0 <= j < |components| ==>
      (Matches(types)(components[j]) <==> Matches(types')(components[j]));
    FindIndexExtensional(components, Matches(types), Matches(types'));
  }

  /** The same search written as the two nested loops of `find` and
      `some`. */
  method LookupComponent(components: seq<Component>, types: seq<string>) returns (name: string)
    ensures name == GetAddressComponent(components, types)
  {
    var i := 0;
    while i < |components|
      invariant 0 <= i <= |components|
      invariant forall j :: 0 <= j < i ==> !HasAnyType(components[j], types)
    {
      var c := components[i];
      var k := 0;
      var found := false;
      while k < |types| && !found
        invariant 0 <= k <= |types|
        invariant found <==> exists n :: 0 <= n < k && types[n] in c.types
      {
        found := types[k] in c.types;
        k := k + 1;
      }
      if found {
        FirstMatchingComponentWins(components, types, i);
        return c.longName;
      }
      assert forall t :: t in types ==> t !in c.types;
      i := i + 1;
    }
    name := "";
  }

  /** The six fields of the form, each looked up by its types. */
  function ExtractAddress(components: seq<Component>): (a: Address)
    ensures FirstMatchName(a.street, components, ["route"])
    ensures FirstMatchName(a.number, components, ["street_number"])
    ensures FirstMatchName(a.colony, components, ["neighborhood", "sublocality"])
    ensures FirstMatchName(a.municipality, components, ["locality", "administrative_area_level_2"])
    ensures FirstMatchName(a.state, components, ["administrative_area_level_1"])
    ensures FirstMatchName(a.postalCode, components, ["postal_code"])
  {
    Address(
      GetAddressComponent(components, ["route"]),
      GetAddressComponent(components, ["street_number"]),
      GetAddressComponent(components, ["neighborhood", "sublocality"]),
      GetAddressComponent(components, ["locality", "administrative_area_level_2"]),
      GetAddressComponent(components, ["administrative_area_level_1"]),
      GetAddressComponent(components, ["postal_code"]))
  }

  /** The answer check and the extraction from its first result: a status
      other than "OK", or no results, is an error carrying the status and
      the service's message. */
  function Normalize(resp: Response): (r: Result<Address, GeoError>)
    ensures r.Failure? <==>
      resp.status != "OK" || resp.results.None? || resp.results.value == []
    ensures r.Failure? ==> r.error == RequestFailed(resp.status, resp.errorMessage)
    ensures r.Success? ==> r.value == ExtractAddress(resp.results.value[0].components)
  {
    if resp.status != "OK" || resp.results.None? || resp.results.value == [] then
      Failure(RequestFailed(resp.status, resp.errorMessage))
    else
      Success(ExtractAddress(resp.results.value[0].components))
  }

  /** The tool as a whole: the key is checked before any request, a failed
      request propagates its reason, and a received answer is normalised.
      An empty key counts as missing. */
  function ReverseGeocode(apiKey: string, fetched: Result<Response, string>): (r: Result<Address, GeoError>)
    ensures apiKey == "" ==> r == Failure(MissingApiKey)
    ensures apiKey != "" && fetched.Failure? ==> r == Failure(FetchFailed(fetched.error))
    ensures apiKey != "" && fetched.Success? ==> r == Normalize(fetched.value)
  {
    if apiKey == "" then Failure(MissingApiKey)
    else match fetched
      case Failure(e) => Failure(FetchFailed(e))
      case Success(resp) => Normalize(resp)
  }

  /** Without a key, what the service would have answered is irrelevant:
      no request is made. */
  lemma MissingKeyIgnoresAnswer(a: Result<Response, string>, b: Result<Response, string>)
    ensures ReverseGeocode("", a) == ReverseGeocode("", b)
  {
  }

  /** Only the first result is read; appending results never changes the
      address. */
  lemma LaterResultsIgnored(status: string, first: GeoResult, rest: seq<GeoResult>, msg: string)
    ensures Normalize(Response(status, Some([first] + rest), msg))
         == Normalize(Response(status, Some([first]), msg))
  {
  }

  /** A successful answer always yields all six fields; a type no component
      carries leaves its field empty instead of failing. */
  lemma AbsentComponentsAreEmpty(status: string, results: seq<GeoResult>, msg: string)
    requires status == "OK" && results != []
    requires forall j :: 0 <= j < |results[0].components| ==> "route" !in results[0].components[j].types
    ensures Normalize(Response(status, Some(results), msg)).Success?
    ensures Normalize(Response(status, Some(results), msg)).value.street == ""
  {
    var cs := results[0].components;
    forall j | 0 <= j < |cs|
      ensures !HasAnyType(cs[j], ["route"])
    {
    }
  }

  /** The colony is the earlier of a neighbourhood and a sublocality in the
      component list, even though "neighborhood" is requested first. */
  lemma ColonyDecidedByPosition(sub: Component, hood: Component)
    requires "sublocality" in sub.types && "neighborhood" !in sub.types
    ensures ExtractAddress([sub, hood]).colony == sub.longName
  {
    FirstMatchingComponentWins([sub, hood], ["neighborhood", "sublocality"], 0);
  }
}

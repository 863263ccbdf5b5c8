/** The URL of a read-resource-description request, which the dispatch handler sends as a
    GET: the endpoint, the address as path segments, and a fixed list of query parameters. */
module DmrRouting {
  import opened DmrOperation

  /** The endpoint with one trailing '/' removed, if it has one. */
  function StripTrailingSlash(endpoint: string): string {
    if |endpoint| > 0 && endpoint[|endpoint| - 1] == '/' then endpoint[..|endpoint| - 1] else endpoint
  }

  /** "/name/value" for every address segment, in address order. */
  function AddressPath(address: Address): string
    decreases |address|
  {
    if address == [] then ""
    else
      var (name, value) := address[|address| - 1];
      AddressPath(address[..|address| - 1]) + "/" + name + "/" + value
  }

  /** "&p=v" when the operation carries parameter p, nothing otherwise. */
  function ParamPart(params: map<string, string>, p: string): string {
    if p in params then "&" + p + "=" + params[p] else ""
  }

  /** The query parts of the given parameter names, in the order of `names`. */
  function QueryParams(params: map<string, string>, names: seq<string>): string
    decreases |names|
  {
    if names == [] then ""
    else QueryParams(params, names[..|names| - 1]) + ParamPart(params, names[|names| - 1])
  }

  const DESCRIPTION_QUERY: string := "?operation=resource-description"

  /** What descriptionOperationToUrl appends to the endpoint. */
  function DescriptionSuffix(o: Op): string {
    AddressPath(o.address) + DESCRIPTION_QUERY + QueryParams(o.params, DESCRIPTION_PARAMETERS)
  }

  /** The full URL of a description request, before URL encoding. */
  function DescriptionUrl(endpoint: string, o: Op): string {
    StripTrailingSlash(endpoint) + DescriptionSuffix(o)
  }

  /** Builds the suffix with a buffer: the address loop, the fixed query, the parameter loop. */
  method DescriptionOperationToUrl(o: Op) returns (url: string)
    ensures url == DescriptionSuffix(o)
  {
    var path := AppendAddress(o.address);
    var query := AppendParameters(o.params);
    url := path + DESCRIPTION_QUERY + query;
  }

  /** The address loop of descriptionOperationToUrl. */
  method AppendAddress(address: Address) returns (path: string)
    ensures path == AddressPath(address)
  {
    path := "";
    for i := 0 to |address|
      invariant path == AddressPath(address[..i])
    {
      assert address[..i + 1][..i] == address[..i];
      var segment := address[i];
      path := path + "/" + segment.0 + "/" + segment.1;
    }
    assert address[..|address|] == address;
  }

  /** The parameter loop of descriptionOperationToUrl. */
  method AppendParameters(params: map<string, string>) returns (query: string)
    ensures query == QueryParams(params, DESCRIPTION_PARAMETERS)
  {
    var names := DESCRIPTION_PARAMETERS;
    query := "";
    for j := 0 to |names|
      invariant query == QueryParams(params, names[..j])
    {
      assert names[..j + 1][..j] == names[..j];
      var parameter := names[j];
      if parameter in params {
        query := query + "&" + parameter + "=" + params[parameter];
      }
    }
    assert names[..|names|] == names;
  }

  /** An endpoint configured with or without one trailing slash yields the same base, so
      the description URL never starts its path with a double slash for such endpoints. */
  lemma TrailingSlashTolerated(endpoint: string)
    requires endpoint == [] || endpoint[|endpoint| - 1] != '/'
    ensures StripTrailingSlash(endpoint + "/") == endpoint
    ensures StripTrailingSlash(endpoint) == endpoint
  {
  }

  /** Only one slash is removed: the result is a prefix of the endpoint, at most one shorter. */
  lemma StripTrailingSlashRemovesAtMostOne(endpoint: string)
    ensures var e := StripTrailingSlash(endpoint);
      && e <= endpoint
      && (|e| == |endpoint| || (|e| + 1 == |endpoint| && endpoint[|e|] == '/'))
  {
  }

  /** Address segments of a concatenated address appear one after the other. */
  lemma {:induction false} AddressPathAppend(a1: Address, a2: Address)
    ensures AddressPath(a1 + a2) == AddressPath(a1) + AddressPath(a2)
    decreases |a2|
  {
    if a2 != [] {
      assert (a1 + a2)[..|a1 + a2| - 1] == a1 + a2[..|a2| - 1];
      AddressPathAppend(a1, a2[..|a2| - 1]);
    } else {
      assert a1 + a2 == a1;
    }
  }

  /** The query parts of a concatenated name list appear one after the other. */
  lemma {:induction false} QueryParamsAppend(params: map<string, string>, n1: seq<string>, n2: seq<string>)
    ensures QueryParams(params, n1 + n2) == QueryParams(params, n1) + QueryParams(params, n2)
    decreases |n2|
  {
    if n2 != [] {
      var all, init := n1 + n2, n2[..|n2| - 1];
      assert all[..|all| - 1] == n1 + init && all[|all| - 1] == n2[|n2| - 1];
      QueryParamsAppend(params, n1, init);
    } else {
      assert n1 + n2 == n1;
    }
  }

  /** Extending a name list's prefix by one name appends that name's query part. */
  lemma QueryParamsExtend(params: map<string, string>, names: seq<string>, k: nat)
    requires k < |names|
    ensures QueryParams(params, names[..k + 1]) == QueryParams(params, names[..k]) + ParamPart(params, names[k])
  {
    assert names[..k + 1][..k] == names[..k];
  }

  /** The suffix lists recursive, proxies, operations, inherited and locale in that order,
      each one present exactly when the operation carries it. */
  lemma DescriptionParametersInOrder(o: Op)
    ensures DescriptionSuffix(o) ==
      AddressPath(o.address) + DESCRIPTION_QUERY
      + ParamPart(o.params, RECURSIVE) + ParamPart(o.params, PROXIES) + ParamPart(o.params, OPERATIONS)
      + ParamPart(o.params, INHERITED) + ParamPart(o.params, LOCALE)
  {
    var ps, names := o.params, DESCRIPTION_PARAMETERS;
    assert names[0] == RECURSIVE && names[1] == PROXIES && names[2] == OPERATIONS;
    assert names[3] == INHERITED && names[4] == LOCALE;
    var p1, p2, p3, p4, p5 := ParamPart(ps, RECURSIVE), ParamPart(ps, PROXIES), ParamPart(ps, OPERATIONS),
                              ParamPart(ps, INHERITED), ParamPart(ps, LOCALE);
    assert QueryParams(ps, names[..1]) == p1 by {
      assert names[..0] == [];
      QueryParamsExtend(ps, names, 0);
    }
    QueryParamsExtend(ps, names, 1);
    QueryParamsExtend(ps, names, 2);
    QueryParamsExtend(ps, names, 3);
    QueryParamsExtend(ps, names, 4);
    assert names[..5] == names;
    Regroup(AddressPath(o.address) + DESCRIPTION_QUERY, p1, p2, p3, p4, p5);
  }

  lemma Regroup(head: string, p1: string, p2: string, p3: string, p4: string, p5: string)
    ensures head + ((((p1 + p2) + p3) + p4) + p5) == head + p1 + p2 + p3 + p4 + p5
  {
  }

  /** Parameters outside the list never reach the URL: two operations that agree on the
      listed parameters have the same query. */
  lemma {:induction false} QueryParamsIgnoreOthers(p1: map<string, string>, p2: map<string, string>, names: seq<string>)
    requires forall n :: n in names ==> (n in p1 <==> n in p2) && (n in p1 ==> p1[n] == p2[n])
    ensures QueryParams(p1, names) == QueryParams(p2, names)
    decreases |names|
  {
    if names != [] {
      var init := names[..|names| - 1];
      assert forall n :: n in init ==> n in names;
      QueryParamsIgnoreOthers(p1, p2, init);
    }
  }

  /** The worked example: subsystem=logging on an endpoint written with a trailing slash. */
  lemma LoggingDescriptionUrl(o: Op)
    requires o.address == [("subsystem", "logging")] && o.params == map[]
    ensures DescriptionUrl("http://host/mgmt/", o) == "http://host/mgmt" + "/subsystem/logging" + "?operation=resource-description"
    ensures DescriptionUrl("http://host/mgmt", o) == DescriptionUrl("http://host/mgmt/", o)
  {
    assert o.address[..0] == [];
    assert AddressPath(o.address) == "/subsystem/logging";
    assert StripTrailingSlash("http://host/mgmt/") == "http://host/mgmt";
    assert QueryParams(o.params, DESCRIPTION_PARAMETERS) == "" by {
      DescriptionParametersInOrder(o);
    }
    assert DescriptionSuffix(o) == "/subsystem/logging" + DESCRIPTION_QUERY;
  }
}

/**
 * What `get_routes` produces, stated against an independent description:
 * list every (path, method) entry of the Paths Object in iteration order,
 * then keep the route of each entry that resolves to a function.
 */
module RouteProperties {
  import opened Wrappers
  import opened JsonValues
  import opened SwaggerParsing

  /** One `(method, method_config)` pair of the path item stored under `path`. */
  datatype MethodEntry = MethodEntry(path: string, httpMethod: string, config: Json)

  /** The method entries of one path item; a path item that is not a mapping has none. */
  function PathEntries(pathItem: (string, Json)): (es: seq<MethodEntry>)
    ensures pathItem.1.JObj? ==> |es| == |pathItem.1.fields|
    ensures pathItem.1.JObj? ==> forall k :: 0 <= k < |es| ==>
      es[k] == MethodEntry(pathItem.0, pathItem.1.fields[k].0, pathItem.1.fields[k].1)
    ensures !pathItem.1.JObj? ==> es == []
  {
    if !pathItem.1.JObj? then []
    else
      var fields := pathItem.1.fields;
      seq(|fields|, k requires 0 <= k < |fields| => MethodEntry(pathItem.0, fields[k].0, fields[k].1))
  }

  /** Every method entry of a Paths Object, path by path and, within a path, in method order. */
  function Entries(paths: seq<(string, Json)>): seq<MethodEntry>
  {
    if paths == [] then [] else PathEntries(paths[0]) + Entries(paths[1..])
  }

  /**
   * The route an entry contributes: one exactly when its config resolves to a
   * function. Its fields must agree with `IsRouteFor`, as
   * `MethodRouteIsEntryRoute` proves.
   */
  function EntryRoute(e: MethodEntry, eventType: EventType, stackPath: string, nameOf: FunctionNameParser): Option<Route>
  {
    if ResolvesFunction(e.config, nameOf) then
      Some(Route(
        nameOf(IntegrationUri(e.config)).value,
        e.path,
        [RouteMethod(e.httpMethod)],
        eventType,
        Get(IntegrationOf(e.config).fields, "payloadFormatVersion", JNull),
        Get(e.config.fields, "operationId", JNull),
        stackPath))
    else None
  }

  /** What each entry contributes, in entry order. */
  function Contributions(es: seq<MethodEntry>, eventType: EventType, stackPath: string, nameOf: FunctionNameParser): (cs: seq<Option<Route>>)
    ensures |cs| == |es|
    ensures forall k :: 0 <= k < |es| ==> cs[k] == EntryRoute(es[k], eventType, stackPath, nameOf)
  {
    seq(|es|, k requires 0 <= k < |es| => EntryRoute(es[k], eventType, stackPath, nameOf))
  }

  /** The present values of a sequence of options, in order. */
  function Present(os: seq<Option<Route>>): (rs: seq<Route>)
    ensures |rs| <= |os|
  {
    if os == [] then []
    else (if os[0].Some? then [os[0].value] else []) + Present(os[1..])
  }

  /** The routes of a list of entries, in entry order, skipping entries that contribute none. */
  function EntryRoutes(es: seq<MethodEntry>, eventType: EventType, stackPath: string, nameOf: FunctionNameParser): seq<Route>
  {
    Present(Contributions(es, eventType, stackPath, nameOf))
  }

  // ---------------------------------------------------------------------------
  // Facts about the reference description
  // ---------------------------------------------------------------------------

  lemma {:induction false} PresentAppend(a: seq<Option<Route>>, b: seq<Option<Route>>)
    ensures Present(a + b) == Present(a) + Present(b)
  {
    if a != [] {
      assert (a + b)[1..] == a[1..] + b;
      PresentAppend(a[1..], b);
    } else {
      assert a + b == b;
    }
  }

  lemma EntryRoutesAppend(a: seq<MethodEntry>, b: seq<MethodEntry>,
                          eventType: EventType, stackPath: string, nameOf: FunctionNameParser)
    ensures EntryRoutes(a + b, eventType, stackPath, nameOf)
         == EntryRoutes(a, eventType, stackPath, nameOf) + EntryRoutes(b, eventType, stackPath, nameOf)
  {
    assert Contributions(a + b, eventType, stackPath, nameOf)
        == Contributions(a, eventType, stackPath, nameOf) + Contributions(b, eventType, stackPath, nameOf);
    PresentAppend(Contributions(a, eventType, stackPath, nameOf), Contributions(b, eventType, stackPath, nameOf));
  }

  lemma {:induction false} EntriesAppend(paths: seq<(string, Json)>, last: (string, Json))
    ensures Entries(paths + [last]) == Entries(paths) + PathEntries(last)
  {
    if paths == [] {
      assert [last][1..] == [];
    } else {
      assert (paths + [last])[1..] == paths[1..] + [last];
      EntriesAppend(paths[1..], last);
    }
  }

  /** A value is present exactly when some option holds it. */
  lemma {:induction false} PresentMembership(os: seq<Option<Route>>, route: Route)
    ensures route in Present(os) <==> exists k :: 0 <= k < |os| && os[k] == Some(route)
  {
    if os != [] {
      PresentMembership(os[1..], route);
      if route in Present(os[1..]) {
        var k :| 0 <= k < |os[1..]| && os[1..][k] == Some(route);
        assert os[k + 1] == Some(route);
      }
      if exists k :: 0 <= k < |os| && os[k] == Some(route) {
        var k :| 0 <= k < |os| && os[k] == Some(route);
        if k > 0 {
          assert os[1..][k - 1] == os[k];
        }
      }
    }
  }

  /** A route appears in the routes of some entries exactly when one of the entries contributes it. */
  lemma EntryRoutesMembership(es: seq<MethodEntry>, route: Route,
                              eventType: EventType, stackPath: string, nameOf: FunctionNameParser)
    ensures route in EntryRoutes(es, eventType, stackPath, nameOf) <==>
      exists k :: 0 <= k < |es| && EntryRoute(es[k], eventType, stackPath, nameOf) == Some(route)
  {
    PresentMembership(Contributions(es, eventType, stackPath, nameOf), route);
  }

  // ---------------------------------------------------------------------------
  // get_routes follows the reference description
  // ---------------------------------------------------------------------------

  /** The route `MethodRoute` yields for an entry is the one the entry contributes. */
  lemma MethodRouteIsEntryRoute(e: MethodEntry, eventType: EventType, stackPath: string, nameOf: FunctionNameParser)
    requires MethodRoute(e.path, e.httpMethod, e.config, eventType, stackPath, nameOf).Ok?
    ensures MethodRoute(e.path, e.httpMethod, e.config, eventType, stackPath, nameOf).value
         == EntryRoute(e, eventType, stackPath, nameOf)
  {
  }

  lemma PathEntriesSnoc(fullPath: string, methods: seq<(string, Json)>)
    requires methods != []
    ensures PathEntries((fullPath, JObj(methods)))
         == PathEntries((fullPath, JObj(methods[..|methods| - 1])))
            + [MethodEntry(fullPath, methods[|methods| - 1].0, methods[|methods| - 1].1)]
  {
  }

  lemma SingleEntryRoutes(e: MethodEntry, eventType: EventType, stackPath: string, nameOf: FunctionNameParser)
    ensures EntryRoutes([e], eventType, stackPath, nameOf)
         == match EntryRoute(e, eventType, stackPath, nameOf)
            case Some(route) => [route]
            case None => []
  {
    assert Contributions([e], eventType, stackPath, nameOf) == [EntryRoute(e, eventType, stackPath, nameOf)];
  }

  /** The routes of one path are those of its entries, in method order. */
  lemma {:induction false} PathRoutesFollowEntries(fullPath: string, methods: seq<(string, Json)>,
                                                   eventType: EventType, stackPath: string, nameOf: FunctionNameParser)
    requires PathRoutes(fullPath, methods, eventType, stackPath, nameOf).Ok?
    ensures PathRoutes(fullPath, methods, eventType, stackPath, nameOf).value
         == EntryRoutes(PathEntries((fullPath, JObj(methods))), eventType, stackPath, nameOf)
  {
    if methods != [] {
      var init := methods[..|methods| - 1];
      var last := methods[|methods| - 1];
      var e := MethodEntry(fullPath, last.0, last.1);
      PathRoutesFollowEntries(fullPath, init, eventType, stackPath, nameOf);
      PathEntriesSnoc(fullPath, methods);
      EntryRoutesAppend(PathEntries((fullPath, JObj(init))), [e], eventType, stackPath, nameOf);
      MethodRouteIsEntryRoute(e, eventType, stackPath, nameOf);
      SingleEntryRoutes(e, eventType, stackPath, nameOf);
    }
  }

  /** The routes of a Paths Object are those of its entries, path by path. */
  lemma {:induction false} PathsRoutesFollowEntries(paths: seq<(string, Json)>,
                                                    eventType: EventType, stackPath: string, nameOf: FunctionNameParser)
    requires PathsRoutes(paths, eventType, stackPath, nameOf).Ok?
    ensures PathsRoutes(paths, eventType, stackPath, nameOf).value == EntryRoutes(Entries(paths), eventType, stackPath, nameOf)
  {
    if paths != [] {
      var init := paths[..|paths| - 1];
      var last := paths[|paths| - 1];
      assert paths == init + [last];
      PathsRoutesFollowEntries(init, eventType, stackPath, nameOf);
      PathRoutesFollowEntries(last.0, last.1.fields, eventType, stackPath, nameOf);
      EntriesAppend(init, last);
      EntryRoutesAppend(Entries(init), PathEntries(last), eventType, stackPath, nameOf);
      assert (last.0, JObj(last.1.fields)) == last;
    }
  }

  /**
   * `get_routes` returns, in path-then-method order, exactly the routes of
   * the entries that resolve to a function: one per such entry and no other.
   */
  lemma RoutesFollowEntries(swagger: Json, eventType: EventType, stackPath: string, nameOf: FunctionNameParser)
    requires Routes(swagger, eventType, stackPath, nameOf).Ok?
    ensures swagger.JObj? && PathsObject(swagger).JObj?
    ensures Routes(swagger, eventType, stackPath, nameOf).value
         == EntryRoutes(Entries(PathsObject(swagger).fields), eventType, stackPath, nameOf)
  {
    PathsRoutesFollowEntries(PathsObject(swagger).fields, eventType, stackPath, nameOf);
  }

  /** There are never more routes than method entries. */
  lemma RouteCountBound(swagger: Json, eventType: EventType, stackPath: string, nameOf: FunctionNameParser)
    requires Routes(swagger, eventType, stackPath, nameOf).Ok?
    ensures swagger.JObj? && PathsObject(swagger).JObj?
    ensures |Routes(swagger, eventType, stackPath, nameOf).value| <= |Entries(PathsObject(swagger).fields)|
  {
    RoutesFollowEntries(swagger, eventType, stackPath, nameOf);
  }

  /** A route is emitted exactly when some method entry resolves to it. */
  lemma RouteMembership(swagger: Json, route: Route, eventType: EventType, stackPath: string, nameOf: FunctionNameParser)
    requires Routes(swagger, eventType, stackPath, nameOf).Ok?
    ensures swagger.JObj? && PathsObject(swagger).JObj?
    ensures var es := Entries(PathsObject(swagger).fields);
      route in Routes(swagger, eventType, stackPath, nameOf).value <==>
      exists k :: 0 <= k < |es| && EntryRoute(es[k], eventType, stackPath, nameOf) == Some(route)
  {
    RoutesFollowEntries(swagger, eventType, stackPath, nameOf);
    EntryRoutesMembership(Entries(PathsObject(swagger).fields), route, eventType, stackPath, nameOf);
  }

  /**
   * Every emitted route has a non-empty function name, one method (`ANY`
   * for the any-method extension in any case), the caller's event type and
   * the parser's stack path.
   */
  lemma RoutesShape(swagger: Json, eventType: EventType, stackPath: string, nameOf: FunctionNameParser)
    requires Routes(swagger, eventType, stackPath, nameOf).Ok?
    ensures forall route <- Routes(swagger, eventType, stackPath, nameOf).value ::
      && route.functionName != ""
      && |route.methods| == 1
      && Lower(route.methods[0]) != AnyMethodExtensionKey
      && route.eventType == eventType
      && route.stackPath == stackPath
  {
    forall route <- Routes(swagger, eventType, stackPath, nameOf).value
      ensures && route.functionName != ""
              && |route.methods| == 1
              && Lower(route.methods[0]) != AnyMethodExtensionKey
              && route.eventType == eventType
              && route.stackPath == stackPath
    {
      RouteMembership(swagger, route, eventType, stackPath, nameOf);
      var es := Entries(PathsObject(swagger).fields);
      var k :| 0 <= k < |es| && EntryRoute(es[k], eventType, stackPath, nameOf) == Some(route);
      RouteMethodNormalises(es[k].httpMethod);
    }
  }

  /**
   * Method normalisation: the result is `ANY` exactly for the any-method
   * extension (in any case) and for `ANY` itself; only the extension is
   * changed; no result is still the extension.
   */
  lemma RouteMethodNormalises(httpMethod: string)
    ensures RouteMethod(httpMethod) == AnyMethod <==>
      (Lower(httpMethod) == AnyMethodExtensionKey || httpMethod == AnyMethod)
    ensures RouteMethod(httpMethod) != httpMethod ==> Lower(httpMethod) == AnyMethodExtensionKey
    ensures Lower(RouteMethod(httpMethod)) != AnyMethodExtensionKey
  {
    assert |Lower(AnyMethod)| != |AnyMethodExtensionKey|;
  }

  /**
   * The any-method extension is matched case-insensitively: a method name
   * becomes `ANY` by lower-casing exactly when it spells the extension with
   * any mix of cases (or a KELVIN SIGN for its `k`).
   */
  lemma AnyMethodCaseInsensitive(httpMethod: string)
    ensures Lower(httpMethod) == AnyMethodExtensionKey <==>
      |httpMethod| == |AnyMethodExtensionKey| &&
      forall i :: 0 <= i < |httpMethod| ==> CaseVariant(httpMethod[i], AnyMethodExtensionKey[i])
  {
    LowerMatches(httpMethod, AnyMethodExtensionKey);
  }

  /**
   * The proxy integration type is matched case-insensitively: a readable
   * integration type is a Lambda proxy exactly when it spells `aws_proxy`
   * with any mix of cases.
   */
  lemma AwsProxyCaseInsensitive(methodConfig: Json)
    requires HasMappingIntegration(methodConfig) && IntegrationTypeValue(methodConfig).JStr?
    ensures IsAwsProxy(methodConfig) <==>
      var t := IntegrationTypeValue(methodConfig).s;
      |t| == |AwsProxy| && forall i :: 0 <= i < |t| ==> CaseVariant(t[i], AwsProxy[i])
  {
    LowerMatches(IntegrationTypeValue(methodConfig).s, AwsProxy);
  }

  // ---------------------------------------------------------------------------
  // When get_routes raises
  // ---------------------------------------------------------------------------

  /** Every path item is a mapping, and no method config has an integration whose type cannot be lower-cased. */
  predicate PathsReadable(paths: seq<(string, Json)>) {
    && (forall k :: 0 <= k < |paths| ==> paths[k].1.JObj?)
    && (forall k, j :: 0 <= k < |paths| && paths[k].1.JObj? && 0 <= j < |paths[k].1.fields| ==>
          !TypeUnreadable(paths[k].1.fields[j].1))
  }

  /** A path's routes are computed without raising exactly when none of its integrations has an unreadable type. */
  lemma {:induction false} PathRoutesSucceedIff(fullPath: string, methods: seq<(string, Json)>,
                                                eventType: EventType, stackPath: string, nameOf: FunctionNameParser)
    ensures PathRoutes(fullPath, methods, eventType, stackPath, nameOf).Ok? <==>
      forall j :: 0 <= j < |methods| ==> !TypeUnreadable(methods[j].1)
  {
    if methods != [] {
      var init := methods[..|methods| - 1];
      PathRoutesSucceedIff(fullPath, init, eventType, stackPath, nameOf);
      assert forall j :: 0 <= j < |init| ==> init[j] == methods[j];
    }
  }

  lemma {:induction false} PathsRoutesSucceedIff(paths: seq<(string, Json)>,
                                                 eventType: EventType, stackPath: string, nameOf: FunctionNameParser)
    ensures PathsRoutes(paths, eventType, stackPath, nameOf).Ok? <==> PathsReadable(paths)
  {
    if paths != [] {
      var init := paths[..|paths| - 1];
      var last := paths[|paths| - 1];
      PathsRoutesSucceedIff(init, eventType, stackPath, nameOf);
      assert forall k :: 0 <= k < |init| ==> init[k] == paths[k];
      if last.1.JObj? {
        PathRoutesSucceedIff(last.0, last.1.fields, eventType, stackPath, nameOf);
      }
    }
  }

  /**
   * `get_routes` raises exactly when the document is not a mapping, its
   * `paths` is present but not a mapping, a path item is not a mapping, or
   * some integration's type cannot be lower-cased.
   */
  lemma RoutesSucceedIff(swagger: Json, eventType: EventType, stackPath: string, nameOf: FunctionNameParser)
    ensures Routes(swagger, eventType, stackPath, nameOf).Ok? <==>
      swagger.JObj? && PathsObject(swagger).JObj? && PathsReadable(PathsObject(swagger).fields)
  {
    if swagger.JObj? && PathsObject(swagger).JObj? {
      PathsRoutesSucceedIff(PathsObject(swagger).fields, eventType, stackPath, nameOf);
    }
  }

  // ---------------------------------------------------------------------------
  // Documents without paths
  // ---------------------------------------------------------------------------

  /** A document without `paths` (in particular the `{}` that replaces `None`) has no routes. */
  lemma NoPathsNoRoutes(swagger: Json, eventType: EventType, stackPath: string, nameOf: FunctionNameParser)
    requires swagger.JObj? && Lookup(swagger.fields, "paths").None?
    ensures Routes(swagger, eventType, stackPath, nameOf) == Ok([])
  {
  }

  /** A parser built from a missing or empty document reports no routes and no binary media types. */
  lemma EmptyDocumentParser(parser: SwaggerParser, eventType: EventType, nameOf: FunctionNameParser)
    requires parser.swagger == JObj([])
    ensures parser.GetBinaryMediaTypes() == Ok(JArr([]))
    ensures Routes(parser.swagger, eventType, parser.stackPath, nameOf) == Ok([])
  {
  }

  // ---------------------------------------------------------------------------
  // A worked document
  // ---------------------------------------------------------------------------

  /** The function named by an integration `uri`: here, a plain string uri names itself. */
  function UriAsName(uri: Json): Option<string> {
    if uri.JStr? then Some(uri.s) else None
  }

  /** A Lambda proxy integration, its type written in upper case. */
  const PetsProxy: Json := JObj([(IntegrationKey, JObj([("type", JStr("AWS_PROXY")), ("uri", JStr("PetsFn"))]))])
  /** An HTTP integration, which yields no route. */
  const PetsHttp: Json := JObj([(IntegrationKey, JObj([("type", JStr("http")), ("uri", JStr("Other"))]))])
  /** The path item of `/pets`: a proxy `GET`, the any-method extension in mixed case, an HTTP `post`. */
  const PetsMethods: seq<(string, Json)> :=
    [("GET", PetsProxy), ("X-Amazon-ApiGateway-Any-Method", PetsProxy), ("post", PetsHttp)]
  const PetsGetRoute: Route := Route("PetsFn", "/pets", ["GET"], Api, JNull, JNull, "root")
  const PetsAnyRoute: Route := Route("PetsFn", "/pets", [AnyMethod], Api, JNull, JNull, "root")

  lemma PetsProxyIntegration()
    ensures IsAwsProxy(PetsProxy)
    ensures Get(IntegrationOf(PetsProxy).fields, "payloadFormatVersion", JNull) == JNull
    ensures Get(PetsProxy.fields, "operationId", JNull) == JNull
    ensures UriAsName(IntegrationUri(PetsProxy)) == Some("PetsFn")
  {
    assert Lower("AWS_PROXY") == AwsProxy;
    assert PetsProxy.fields[0].0 != "operationId" && PetsProxy.fields[1..] == [];
    assert Lookup(PetsProxy.fields, "operationId") == Lookup(PetsProxy.fields[1..], "operationId") == None;
  }

  lemma PetsGetEntry()
    ensures MethodRoute("/pets", "GET", PetsProxy, Api, "root", UriAsName) == Ok(Some(PetsGetRoute))
  {
    PetsProxyIntegration();
    assert |Lower("GET")| == 3;
    assert RouteMethod("GET") == "GET";
  }

  /** The any-method extension is recognised whatever its case. */
  lemma MixedCaseAnyMethod()
    ensures RouteMethod("X-Amazon-ApiGateway-Any-Method") == AnyMethod
  {
    assert Lower("X-Amazon-ApiGateway-Any-Method") == AnyMethodExtensionKey;
  }

  lemma PetsAnyEntry()
    ensures MethodRoute("/pets", "X-Amazon-ApiGateway-Any-Method", PetsProxy, Api, "root", UriAsName)
         == Ok(Some(PetsAnyRoute))
  {
    PetsProxyIntegration();
    MixedCaseAnyMethod();
  }

  lemma PetsPostEntry()
    ensures MethodRoute("/pets", "post", PetsHttp, Api, "root", UriAsName) == Ok(None)
  {
    assert !IsAwsProxy(PetsHttp) && !TypeUnreadable(PetsHttp);
  }

  lemma PetsPathRoutes()
    ensures PathRoutes("/pets", PetsMethods, Api, "root", UriAsName) == Ok([PetsGetRoute, PetsAnyRoute])
  {
    var methods := PetsMethods;
    PetsGetEntry();
    PetsAnyEntry();
    PetsPostEntry();
    assert methods[..0] == [];
    PathRoutesStep("/pets", methods, 0, Api, "root", UriAsName);
    PathRoutesStep("/pets", methods, 1, Api, "root", UriAsName);
    PathRoutesStep("/pets", methods, 2, Api, "root", UriAsName);
    assert PathRoutes("/pets", methods[..0], Api, "root", UriAsName) == Ok([]);
    assert [] + [PetsGetRoute] == [PetsGetRoute];
    assert PathRoutes("/pets", methods[..1], Api, "root", UriAsName) == Ok([PetsGetRoute]);
    assert [PetsGetRoute] + [PetsAnyRoute] == [PetsGetRoute, PetsAnyRoute];
    assert PathRoutes("/pets", methods[..2], Api, "root", UriAsName) == Ok([PetsGetRoute, PetsAnyRoute]);
    assert methods[..3] == methods;
  }

  /**
   * A document whose `/pets` holds a proxy `GET`, the any-method extension
   * in mixed case and an HTTP `post`: the two proxy entries become routes, in
   * order, `GET` kept verbatim and the extension as `ANY`; `post` is skipped.
   */
  lemma PetsExample()
    ensures Routes(JObj([("paths", JObj([("/pets", JObj(PetsMethods))]))]), Api, "root", UriAsName)
         == Ok([PetsGetRoute, PetsAnyRoute])
  {
    var paths := [("/pets", JObj(PetsMethods))];
    var swagger := JObj([("paths", JObj(paths))]);
    PetsPathRoutes();
    assert PathsObject(swagger) == JObj(paths);
    assert paths[..0] == [] && paths[..1] == paths;
    PathsRoutesStep(paths, 0, Api, "root", UriAsName);
    assert PathsRoutes(paths[..0], Api, "root", UriAsName) == Ok([]);
    assert [] + [PetsGetRoute, PetsAnyRoute] == [PetsGetRoute, PetsAnyRoute];
  }
}

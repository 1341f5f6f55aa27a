/**
 * The Swagger route extractor used for local API emulation: it reads the
 * Paths Object of an OpenAPI 2.0 document together with the API Gateway
 * vendor extensions and produces the routes to emulate and the API's binary
 * media types.
 *
 * Where the parser would raise (calling `.get`, `.items()` or `.lower()` on a
 * value that has no such method) the model returns `Err(AttributeError(..))`
 * carrying the value the attribute was looked up on.
 */
module SwaggerParsing {
  import opened Wrappers
  import opened JsonValues

  const IntegrationKey: string := "x-amazon-apigateway-integration"
  const AnyMethodExtensionKey: string := "x-amazon-apigateway-any-method"
  const BinaryMediaTypesExtensionKey: string := "x-amazon-apigateway-binary-media-types"
  const AnyMethod: string := "ANY"
  /** The value of the `aws_proxy` integration type (Lambda proxy integration). */
  const AwsProxy: string := "aws_proxy"

  /** Python's `AttributeError`: `attribute` looked up on `receiver`, which lacks it. */
  datatype Fault = AttributeError(receiver: Json, attribute: string)

  /** The event source a route is emulated for; `Api` is the default of `get_routes`. */
  datatype EventType = Api | HttpApi

  /** One API route to emulate: a function reached by `methods` on `path`. */
  datatype Route = Route(
    functionName: string,
    path: string,
    methods: seq<string>,
    eventType: EventType,
    payloadFormatVersion: Json,
    operationName: Json,
    stackPath: string)

  /** An uninterpreted `LambdaUri.get_function_name`: the function named by an integration `uri`. */
  type FunctionNameParser = Json -> Option<string>

  // ---------------------------------------------------------------------------
  // Integrations of one method configuration
  // ---------------------------------------------------------------------------

  /** The method config is a mapping whose integration key holds a non-empty mapping. */
  predicate HasMappingIntegration(methodConfig: Json) {
    && methodConfig.JObj?
    && Truthy(Get(methodConfig.fields, IntegrationKey, JNull))
    && Get(methodConfig.fields, IntegrationKey, JNull).JObj?
  }

  /** The integration of a method config that has one. */
  function IntegrationOf(methodConfig: Json): (i: Json)
    requires HasMappingIntegration(methodConfig)
    ensures i.JObj? && i.fields != []
  {
    Get(methodConfig.fields, IntegrationKey, JNull)
  }

  /** The integration's `type` value, `JNull` when it has none. */
  function IntegrationTypeValue(methodConfig: Json): Json
    requires HasMappingIntegration(methodConfig)
  {
    Get(IntegrationOf(methodConfig).fields, "type", JNull)
  }

  /** Reading the type raises: it is missing, null or not a string, so it has no `lower`. */
  predicate TypeUnreadable(methodConfig: Json) {
    HasMappingIntegration(methodConfig) && !IntegrationTypeValue(methodConfig).JStr?
  }

  /** The method config carries a Lambda proxy integration (type `aws_proxy` in any case). */
  predicate IsAwsProxy(methodConfig: Json) {
    && HasMappingIntegration(methodConfig)
    && IntegrationTypeValue(methodConfig).JStr?
    && Lower(IntegrationTypeValue(methodConfig).s) == AwsProxy
  }

  /**
   * `_get_integration`: the integration of a method config when it is an
   * `aws_proxy` one, returned unchanged; `None` when the config is not a
   * mapping, has no integration key, or its integration is empty, not a
   * mapping or of another type; an error when the type cannot be lower-cased.
   */
  function Integration(methodConfig: Json): (r: Result<Option<Json>, Fault>)
    ensures r.Err? <==> TypeUnreadable(methodConfig)
    ensures r.Err? ==> r.error == AttributeError(IntegrationTypeValue(methodConfig), "lower")
    ensures (r.Ok? && r.value.Some?) <==> IsAwsProxy(methodConfig)
    ensures r.Ok? && r.value.Some? ==> r.value.value == IntegrationOf(methodConfig)
  {
    if !methodConfig.JObj? || Lookup(methodConfig.fields, IntegrationKey).None? then
      Ok(None)
    else
      var integration := Lookup(methodConfig.fields, IntegrationKey).value;
      if !Truthy(integration) || !integration.JObj? then
        Ok(None)
      else
        var integrationType := Get(integration.fields, "type", JNull);
        if !integrationType.JStr? then
          Err(AttributeError(integrationType, "lower"))
        else if Lower(integrationType.s) == AwsProxy then
          Ok(Some(integration))
        else
          Ok(None)
  }

  /** The `uri` of a Lambda proxy integration, `JNull` when it has none. */
  function IntegrationUri(methodConfig: Json): Json
    requires IsAwsProxy(methodConfig)
  {
    Get(IntegrationOf(methodConfig).fields, "uri", JNull)
  }

  /**
   * `_get_integration_function_name`: `None` when there is no Lambda proxy
   * integration; otherwise whatever the URI parser makes of the integration's
   * `uri` (which may itself be `None`).
   */
  function IntegrationFunctionName(methodConfig: Json, nameOf: FunctionNameParser): (r: Result<Option<string>, Fault>)
    ensures r.Err? <==> Integration(methodConfig).Err?
    ensures r.Err? ==> r.error == Integration(methodConfig).error
    ensures Integration(methodConfig) == Ok(None) ==> r == Ok(None)
    ensures IsAwsProxy(methodConfig) ==> r == Ok(nameOf(IntegrationUri(methodConfig)))
  {
    match Integration(methodConfig)
    case Err(e) => Err(e)
    case Ok(None) => Ok(None)
    case Ok(Some(integration)) => Ok(nameOf(Get(integration.fields, "uri", JNull)))
  }

  /**
   * `_get_payload_format_version`: `None` when there is no Lambda proxy
   * integration; otherwise the integration's `payloadFormatVersion`, `None`
   * when it has none.
   */
  function PayloadFormatVersion(methodConfig: Json): (r: Result<Json, Fault>)
    ensures r.Err? <==> Integration(methodConfig).Err?
    ensures r.Err? ==> r.error == Integration(methodConfig).error
    ensures Integration(methodConfig) == Ok(None) ==> r == Ok(JNull)
    ensures IsAwsProxy(methodConfig) ==>
      r == Ok(Get(IntegrationOf(methodConfig).fields, "payloadFormatVersion", JNull))
  {
    match Integration(methodConfig)
    case Err(e) => Err(e)
    case Ok(None) => Ok(JNull)
    case Ok(Some(integration)) => Ok(Get(integration.fields, "payloadFormatVersion", JNull))
  }

  // ---------------------------------------------------------------------------
  // Routes: the specification of `get_routes`
  // ---------------------------------------------------------------------------

  /**
   * The method a route is emulated for: the any-method extension, in any
   * case, becomes `ANY`; every other method name is kept verbatim.
   */
  function RouteMethod(httpMethod: string): (r: string)
    ensures Lower(httpMethod) == AnyMethodExtensionKey ==> r == AnyMethod
    ensures Lower(httpMethod) != AnyMethodExtensionKey ==> r == httpMethod
  {
    if Lower(httpMethod) == AnyMethodExtensionKey then AnyMethod else httpMethod
  }

  /** The method config resolves to a function: a Lambda proxy integration whose `uri` names a non-empty function. */
  predicate ResolvesFunction(methodConfig: Json, nameOf: FunctionNameParser) {
    IsAwsProxy(methodConfig) &&
    nameOf(IntegrationUri(methodConfig)).Some? && nameOf(IntegrationUri(methodConfig)).value != ""
  }

  /** `route` is the one emitted for `method` of `fullPath` with the given config. */
  predicate IsRouteFor(route: Route, fullPath: string, httpMethod: string, methodConfig: Json,
                       eventType: EventType, stackPath: string, nameOf: FunctionNameParser)
    requires ResolvesFunction(methodConfig, nameOf)
  {
    && route.functionName == nameOf(IntegrationUri(methodConfig)).value
    && route.path == fullPath
    && route.methods == [RouteMethod(httpMethod)]
    && route.eventType == eventType
    && route.payloadFormatVersion == Get(IntegrationOf(methodConfig).fields, "payloadFormatVersion", JNull)
    && route.operationName == Get(methodConfig.fields, "operationId", JNull)
    && route.stackPath == stackPath
  }

  /**
   * One `(method, method_config)` entry of a path: an error when its
   * integration type cannot be read, no route when it names no function,
   * otherwise the route for it.
   */
  function MethodRoute(fullPath: string, httpMethod: string, methodConfig: Json,
                       eventType: EventType, stackPath: string, nameOf: FunctionNameParser): (r: Result<Option<Route>, Fault>)
    ensures r.Err? <==> TypeUnreadable(methodConfig)
    ensures r.Err? ==> r.error == AttributeError(IntegrationTypeValue(methodConfig), "lower")
    ensures (r.Ok? && r.value.Some?) <==> ResolvesFunction(methodConfig, nameOf)
    ensures r.Ok? && r.value.Some? ==>
      IsRouteFor(r.value.value, fullPath, httpMethod, methodConfig, eventType, stackPath, nameOf)
  {
    match IntegrationFunctionName(methodConfig, nameOf)
    case Err(e) => Err(e)
    case Ok(functionName) =>
      if functionName.None? || functionName.value == "" then
        Ok(None)
      else
        Ok(Some(Route(
          functionName.value,
          fullPath,
          [RouteMethod(httpMethod)],
          eventType,
          PayloadFormatVersion(methodConfig).value,
          Get(methodConfig.fields, "operationId", JNull),
          stackPath)))
  }

  /** The routes of one path's method entries, in entry order; the first error raised stops it. */
  function PathRoutes(fullPath: string, methods: seq<(string, Json)>,
                      eventType: EventType, stackPath: string, nameOf: FunctionNameParser): (r: Result<seq<Route>, Fault>)
    ensures r.Ok? ==> |r.value| <= |methods|
  {
    if methods == [] then Ok([])
    else
      var last := methods[|methods| - 1];
      match PathRoutes(fullPath, methods[..|methods| - 1], eventType, stackPath, nameOf)
      case Err(e) => Err(e)
      case Ok(routes) =>
        match MethodRoute(fullPath, last.0, last.1, eventType, stackPath, nameOf)
        case Err(e) => Err(e)
        case Ok(None) => Ok(routes)
        case Ok(Some(route)) => Ok(routes + [route])
  }

  /**
   * The routes of a Paths Object's entries, path by path; iterating over a
   * path config that is not a mapping raises.
   */
  function PathsRoutes(paths: seq<(string, Json)>,
                       eventType: EventType, stackPath: string, nameOf: FunctionNameParser): (r: Result<seq<Route>, Fault>)
  {
    if paths == [] then Ok([])
    else
      var last := paths[|paths| - 1];
      match PathsRoutes(paths[..|paths| - 1], eventType, stackPath, nameOf)
      case Err(e) => Err(e)
      case Ok(routes) =>
        if !last.1.JObj? then Err(AttributeError(last.1, "items"))
        else
          match PathRoutes(last.0, last.1.fields, eventType, stackPath, nameOf)
          case Err(e) => Err(e)
          case Ok(more) => Ok(routes + more)
  }

  /** The document's `paths` entry, `{}` when it has none. */
  function PathsObject(swagger: Json): Json
    requires swagger.JObj?
  {
    Get(swagger.fields, "paths", JObj([]))
  }

  /** What `get_routes` returns, or raises, for a (normalised) swagger document. */
  function Routes(swagger: Json, eventType: EventType, stackPath: string, nameOf: FunctionNameParser): (r: Result<seq<Route>, Fault>)
  {
    if !swagger.JObj? then Err(AttributeError(swagger, "get"))
    else if !PathsObject(swagger).JObj? then Err(AttributeError(PathsObject(swagger), "items"))
    else PathsRoutes(PathsObject(swagger).fields, eventType, stackPath, nameOf)
  }

  /** Taking one more method entry of a path extends its routes by that entry's route. */
  lemma PathRoutesStep(fullPath: string, methods: seq<(string, Json)>, j: nat,
                       eventType: EventType, stackPath: string, nameOf: FunctionNameParser)
    requires j < |methods|
    ensures PathRoutes(fullPath, methods[..j + 1], eventType, stackPath, nameOf)
         == match PathRoutes(fullPath, methods[..j], eventType, stackPath, nameOf)
            case Err(e) => Err(e)
            case Ok(routes) =>
              match MethodRoute(fullPath, methods[j].0, methods[j].1, eventType, stackPath, nameOf)
              case Err(e) => Err(e)
              case Ok(None) => Ok(routes)
              case Ok(Some(route)) => Ok(routes + [route])
  {
    assert methods[..j + 1][..j] == methods[..j];
  }

  /** Taking one more path extends the routes by that path's routes. */
  lemma PathsRoutesStep(paths: seq<(string, Json)>, i: nat,
                        eventType: EventType, stackPath: string, nameOf: FunctionNameParser)
    requires i < |paths|
    ensures PathsRoutes(paths[..i + 1], eventType, stackPath, nameOf)
         == match PathsRoutes(paths[..i], eventType, stackPath, nameOf)
            case Err(e) => Err(e)
            case Ok(routes) =>
              if !paths[i].1.JObj? then Err(AttributeError(paths[i].1, "items"))
              else
                match PathRoutes(paths[i].0, paths[i].1.fields, eventType, stackPath, nameOf)
                case Err(e) => Err(e)
                case Ok(more) => Ok(routes + more)
  {
    assert paths[..i + 1][..i] == paths[..i];
  }

  /** Once a prefix of a path's entries raises, the whole path raises the same error. */
  lemma {:induction false} PathErrorPersists(fullPath: string, methods: seq<(string, Json)>, k: nat,
                                             eventType: EventType, stackPath: string, nameOf: FunctionNameParser)
    requires k <= |methods|
    requires PathRoutes(fullPath, methods[..k], eventType, stackPath, nameOf).Err?
    ensures PathRoutes(fullPath, methods, eventType, stackPath, nameOf)
         == PathRoutes(fullPath, methods[..k], eventType, stackPath, nameOf)
  {
    if k == |methods| {
      assert methods[..k] == methods;
    } else {
      var init := methods[..|methods| - 1];
      assert init[..k] == methods[..k];
      PathErrorPersists(fullPath, init, k, eventType, stackPath, nameOf);
    }
  }

  /** Once a prefix of the paths raises, all of them raise the same error. */
  lemma {:induction false} PathsErrorPersists(paths: seq<(string, Json)>, k: nat,
                                              eventType: EventType, stackPath: string, nameOf: FunctionNameParser)
    requires k <= |paths|
    requires PathsRoutes(paths[..k], eventType, stackPath, nameOf).Err?
    ensures PathsRoutes(paths, eventType, stackPath, nameOf) == PathsRoutes(paths[..k], eventType, stackPath, nameOf)
  {
    if k == |paths| {
      assert paths[..k] == paths;
    } else {
      var init := paths[..|paths| - 1];
      assert init[..k] == paths[..k];
      PathsErrorPersists(init, k, eventType, stackPath, nameOf);
    }
  }

  // ---------------------------------------------------------------------------
  // The parser object
  // ---------------------------------------------------------------------------

  class SwaggerParser {
    const swagger: Json
    const stackPath: string

    /** A missing or empty document (`None`, `{}`) is replaced by `{}`. */
    constructor (stackPath: string, swagger: Json)
      ensures this.stackPath == stackPath
      ensures Truthy(swagger) ==> this.swagger == swagger
      ensures !Truthy(swagger) ==> this.swagger == JObj([])
    {
      this.swagger := if Truthy(swagger) then swagger else JObj([]);
      this.stackPath := stackPath;
    }

    /**
     * `get_binary_media_types`: the value under the binary-media-types
     * extension when it is there and truthy, the empty list otherwise.
     */
    function GetBinaryMediaTypes(): (r: Result<Json, Fault>)
      ensures r.Err? <==> !swagger.JObj?
      ensures r.Err? ==> r.error == AttributeError(swagger, "get")
      ensures r.Ok? && Truthy(r.value) ==>
        Lookup(swagger.fields, BinaryMediaTypesExtensionKey) == Some(r.value)
      ensures r.Ok? && !Truthy(r.value) ==>
        && r.value == JArr([])
        && (Lookup(swagger.fields, BinaryMediaTypesExtensionKey).None? ||
            !Truthy(Lookup(swagger.fields, BinaryMediaTypesExtensionKey).value))
    {
      if !swagger.JObj? then Err(AttributeError(swagger, "get"))
      else
        var value := Get(swagger.fields, BinaryMediaTypesExtensionKey, JNull);
        if Truthy(value) then Ok(value) else Ok(JArr([]))
    }

    /**
     * `get_routes`: walks the paths and, for each, its method entries,
     * appending one route per entry whose integration names a function.
     */
    method GetRoutes(nameOf: FunctionNameParser, eventType: EventType := Api) returns (r: Result<seq<Route>, Fault>)
      ensures r == Routes(swagger, eventType, stackPath, nameOf)
    {
      if !swagger.JObj? {
        return Err(AttributeError(swagger, "get"));
      }
      var result: seq<Route> := [];
      var pathsDict := Get(swagger.fields, "paths", JObj([]));
      if !pathsDict.JObj? {
        return Err(AttributeError(pathsDict, "items"));
      }
      var paths := pathsDict.fields;
      var i := 0;
      while i < |paths|
        invariant 0 <= i <= |paths|
        invariant PathsRoutes(paths[..i], eventType, stackPath, nameOf) == Ok(result)
      {
        var fullPath := paths[i].0;
        var pathConfig := paths[i].1;
        PathsRoutesStep(paths, i, eventType, stackPath, nameOf);
        if !pathConfig.JObj? {
          PathsErrorPersists(paths, i + 1, eventType, stackPath, nameOf);
          return Err(AttributeError(pathConfig, "items"));
        }
        var methods := pathConfig.fields;
        ghost var before := result;
        ghost var inner: seq<Route> := [];
        var j := 0;
        while j < |methods|
          invariant 0 <= j <= |methods|
          invariant PathRoutes(fullPath, methods[..j], eventType, stackPath, nameOf) == Ok(inner)
          invariant result == before + inner
        {
          var httpMethod := methods[j].0;
          var methodConfig := methods[j].1;
          PathRoutesStep(fullPath, methods, j, eventType, stackPath, nameOf);
          var functionName := IntegrationFunctionName(methodConfig, nameOf);
          if functionName.Err? {
            PathErrorPersists(fullPath, methods, j + 1, eventType, stackPath, nameOf);
            PathsErrorPersists(paths, i + 1, eventType, stackPath, nameOf);
            return Err(functionName.error);
          }
          if functionName.value.None? || functionName.value.value == "" {
            j := j + 1;
            continue;
          }
          if Lower(httpMethod) == AnyMethodExtensionKey {
            httpMethod := AnyMethod;
          }
          var payloadFormatVersion := PayloadFormatVersion(methodConfig).value;
          var route := Route(functionName.value.value, fullPath, [httpMethod], eventType,
                             payloadFormatVersion, Get(methodConfig.fields, "operationId", JNull), stackPath);
          assert MethodRoute(fullPath, methods[j].0, methodConfig, eventType, stackPath, nameOf) == Ok(Some(route));
          result := result + [route];
          inner := inner + [route];
          j := j + 1;
        }
        assert methods[..j] == methods;
        i := i + 1;
      }
      assert paths[..i] == paths;
      return Ok(result);
    }
  }
}

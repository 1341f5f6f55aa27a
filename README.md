# Swagger route extraction for local API emulation

This project models `SwaggerParser` from the SAM CLI. It reads a Swagger
document: the Paths Object and Path Item Objects of the OpenAPI
Specification 2.0, plus the API Gateway vendor extensions
`x-amazon-apigateway-integration`, `x-amazon-apigateway-any-method` and
`x-amazon-apigateway-binary-media-types`. From that document it produces
two things for local API emulation:

- the list of `Route`s, one per (path, method) entry whose Lambda proxy
  integration names a function;
- the API's binary media types.

The files:

- `wrappers.dfy` (`Wrappers`): `Option` and `Result`.
- `json.dfy` (`JsonValues`): the document as a Python JSON/YAML value.
  - `JNull` is `None`.
  - A mapping is a sequence of key/value pairs in insertion order, so
    iterating over `items()` visits them in sequence order.
  - `Truthy` is Python's truth value.
  - `Lookup` and `Get` are `key in d`, `d[key]` and `d.get(key, default)`.
  - `Lower` is `str.lower()` (see "Left out").
- `swagger_parser.dfy` (`SwaggerParsing`):
  - the parser's constants;
  - `Integration`, `IntegrationFunctionName` and `PayloadFormatVersion`
    (the three private helpers);
  - the functions that specify `get_routes` (`MethodRoute`, `PathRoutes`,
    `PathsRoutes`, `Routes`);
  - the class `SwaggerParser`. Its constructor normalises the document.
    `GetBinaryMediaTypes` is a function. `GetRoutes` is the nested loop
    that appends to `result`, proved equal to `Routes`.
- `route_properties.dfy` (`RouteProperties`): a second, independent
  description of the routes, and the lemmas that tie `Routes` to it.
  - The description lists every (path, method) entry path by path, then
    keeps the route each resolving entry contributes.
  - The lemmas cover order, the count bound, membership, route shape,
    exactly when `get_routes` raises, documents without paths, and a
    worked document.

Where the parser would raise, the model returns
`Err(AttributeError(receiver, attribute))` instead of requiring
well-formed input. This happens when `.get` is called on a document that
is not a mapping. It happens when `.items()` is called on a `paths` value
or a path item that is not a mapping. It also happens when `.lower()` is
called on an integration `type` that is missing, `null` or not a string.
`RoutesSucceedIff` states exactly when `get_routes` raises.

The function name is read from an integration's `uri` by
`LambdaUri.get_function_name`. The model takes it as a parameter
`nameOf: Json -> Option<string>`. The function name is `None` when there
is no Lambda proxy integration. The converse does not hold: a proxy
integration whose `uri` the URI parser cannot read also gives `None`.
Likewise the payload format version is `None` both without an
integration and when the integration has no `payloadFormatVersion`.
An empty function name is skipped like `None`, because the code tests
`if not function_name`.

## Model

| member | source | states |
|---|---|---|
| `JsonValues.LookupFindsFirst` | samcli/commands/local/lib/swagger/parser.py:117-120 | `key in d` is false exactly when no pair has the key; otherwise `d[key]` is the value of the first pair with that key |
| `JsonValues.LowerChar` | samcli/commands/local/lib/swagger/parser.py:125 | lower-casing gives an ASCII lower-case letter exactly for a-z, A-Z and the Kelvin sign; each of A-Z becomes the letter at the same alphabet position, the Kelvin sign becomes `k`; every other character stays as it is |
| `JsonValues.LowerMatches` | samcli/commands/local/lib/swagger/parser.py:85 | for a lower-case ASCII `t`, `s.lower() == t` exactly when `s` has the length of `t` and each character is the one of `t`, its upper-case letter, or the Kelvin sign for `k` |
| `RouteProperties.AnyMethodCaseInsensitive` | samcli/commands/local/lib/swagger/parser.py:85 | a method name is the any-method extension after lower-casing exactly when it spells `x-amazon-apigateway-any-method` in any mix of cases |
| `RouteProperties.AwsProxyCaseInsensitive` | samcli/commands/local/lib/swagger/parser.py:125 | a readable integration type is a Lambda proxy exactly when it spells `aws_proxy` in any mix of cases |
| `SwaggerParsing.Integration` | samcli/commands/local/lib/swagger/parser.py:101-130 | raises exactly when the config is a mapping whose integration is a non-empty mapping with a missing, null or non-string `type`; the error is `AttributeError` on that value for `lower`; returns an integration exactly when the type lower-cases to `aws_proxy`, and then it is the stored integration, unchanged; otherwise `None` (not a mapping, no key, empty or non-mapping integration, other type) |
| `SwaggerParsing.IntegrationFunctionName` | samcli/commands/local/lib/swagger/parser.py:132-154 | raises exactly when `_get_integration` raises, with the same error; `None` when there is no proxy integration; otherwise what the URI parser returns for the integration's `uri` (`None` when absent) |
| `SwaggerParsing.PayloadFormatVersion` | samcli/commands/local/lib/swagger/parser.py:156-174 | raises exactly when `_get_integration` raises; `None` without a proxy integration; otherwise the integration's `payloadFormatVersion`, `None` when absent |
| `SwaggerParsing.MethodRoute` | samcli/commands/local/lib/swagger/parser.py:75-98 | one entry raises exactly when its integration type is unreadable; it yields a route exactly when it has a proxy integration whose `uri` names a non-empty function; that route has the function name, the full path, the one method `RouteMethod(method)`, the caller's event type, the integration's `payloadFormatVersion`, the config's `operationId` and the stack path |
| `SwaggerParsing.PathRoutes` | samcli/commands/local/lib/swagger/parser.py:75-98 | a path yields at most one route per method entry |
| `SwaggerParsing.SwaggerParser.constructor` | samcli/commands/local/lib/swagger/parser.py:17-25 | a falsy document (`None`, `{}`, ...) is replaced by `{}`; any other is kept; the stack path is stored |
| `SwaggerParsing.SwaggerParser.GetBinaryMediaTypes` | samcli/commands/local/lib/swagger/parser.py:27-37 | raises exactly when the document is not a mapping; a truthy result is the value stored under the binary-media-types extension; a falsy result is `[]`, and only when that value is absent or falsy |
| `SwaggerParsing.SwaggerParser.GetRoutes` | samcli/commands/local/lib/swagger/parser.py:39-99 | the nested loop returns, or raises, exactly what `Routes` specifies for the parser's document and stack path |
| `RouteProperties.RoutesFollowEntries` | samcli/commands/local/lib/swagger/parser.py:71-99 | when `get_routes` returns, its routes are those of the resolving entries in path-then-method order: the independent filter over all entries |
| `RouteProperties.RouteCountBound` | samcli/commands/local/lib/swagger/parser.py:71-99 | there are never more routes than (path, method) entries |
| `RouteProperties.RouteMembership` | samcli/commands/local/lib/swagger/parser.py:74-98 | a route is emitted if and only if some (path, method) entry resolves to exactly that route |
| `RouteProperties.RoutesShape` | samcli/commands/local/lib/swagger/parser.py:85-97 | every emitted route has a non-empty function name, exactly one method, no leftover any-method extension, the caller's event type and the parser's stack path |
| `RouteProperties.RouteMethodNormalises` | samcli/commands/local/lib/swagger/parser.py:85-87 | a route's method is `ANY` if and only if the entry's method lower-cases to `x-amazon-apigateway-any-method` or is `ANY` already; only the extension is changed, every other method name is kept verbatim without case change; no route method is still the extension |
| `RouteProperties.PathRoutesSucceedIff` | samcli/commands/local/lib/swagger/parser.py:75-76 | one path's entries are processed without raising exactly when none of their integration types is unreadable |
| `RouteProperties.PathsRoutesSucceedIff` | samcli/commands/local/lib/swagger/parser.py:74-76 | a Paths Object is processed without raising exactly when every path item is a mapping and no integration type is unreadable |
| `RouteProperties.RoutesSucceedIff` | samcli/commands/local/lib/swagger/parser.py:71-126 | `get_routes` returns without raising exactly when the document is a mapping, its `paths` is absent or a mapping, every path item is a mapping, and every integration type that is read is a string |
| `RouteProperties.NoPathsNoRoutes` | samcli/commands/local/lib/swagger/parser.py:71-72 | a document without `paths` has no routes |
| `RouteProperties.EmptyDocumentParser` | samcli/commands/local/lib/swagger/parser.py:24-37 | a parser over the `{}` that replaces a missing document has no binary media types (`[]`) and no routes |
| `RouteProperties.MixedCaseAnyMethod` | samcli/commands/local/lib/swagger/parser.py:85-87 | `X-Amazon-ApiGateway-Any-Method` is recognised as the any-method extension |
| `RouteProperties.PetsExample` | samcli/commands/local/lib/swagger/parser.py:39-99 | a path with a proxy `GET`, the mixed-case any-method extension and an HTTP `post` gives two routes, in order: `GET` kept verbatim, then `ANY`; `post` is skipped |

## Left out

- `LambdaUri.get_function_name` and `IntegrationType` come from
  `samcli/commands/local/lib/swagger/integration_uri.py`, which is not
  part of this model. Function-name extraction is an arbitrary
  parameter. `aws_proxy` is a constant. ARN parsing is not modelled.
- `Route` (from `samcli/local/apigw/local_apigw_service.py`) is a plain
  record here. Its constructor's own processing is not part of this
  model. The event type has two values, `Api` (the default) and
  `HttpApi`.
- `LOG.debug` calls: logging has no effect on the result.
- `Lower` models `str.lower()` only as far as comparisons against the
  lower-case ASCII constants `aws_proxy` and
  `x-amazon-apigateway-any-method` need it. It maps A-Z and the Kelvin
  sign (U+212A) to ASCII and leaves every other character as it is. For
  such comparisons this is exact. The other characters whose Unicode
  lower case contains ASCII do not matter. U+0130 becomes `i` followed
  by a combining dot, so the result is never all-ASCII.
- Numbers are integers. Floating-point values such as `0.0`, which is
  falsy in Python, are not modelled.
- Mapping keys are strings. YAML documents with non-string keys are not
  modelled. Such a method key would make `method.lower()` raise.
- Python dictionaries have distinct keys. The model's mappings are
  sequences of pairs and do not enforce this. A lookup finds the first
  pair with the key.
- `samcli/lib/sync/infra_sync_executor.py` and its unit tests are outside
  the swagger parser and are not modelled.
- `tests/end_to_end/test_stages.py` and
  `tests/end_to_end/end_to_end_base.py` are not modelled. They are
  subprocess, cloud-client and file-lock plumbing.

/**
 * generateRoutesCode (assets/js/routes-generator.js): the import of the
 * controller and one resource route, with the `auth` middleware when asked
 * for.
 */
module RoutesGenerator {
  import opened Text

  const AuthMiddleware := "->middleware('auth')"

  function Middleware(includeAuthMiddleware: bool): string
  {
    if includeAuthMiddleware then AuthMiddleware else ""
  }

  function ControllerClass(modelName: string): string
  {
    modelName + "Controller"
  }

  /** The URI segment and route-name prefix: the lower-cased model name with
      an `s`. */
  function ResourceName(modelName: string): string
  {
    ToLower(modelName) + "s"
  }

  function Quoted(s: string): string { "'" + s + "'" }

  /** `<Class>::class` */
  function ClassRef(className: string): string { className + "::class" }

  /** `Route::resource('<lower>s', <Model>Controller::class)`, before the
      middleware and the semicolon. */
  function ResourceCall(modelName: string): string
  {
    "Route::resource(" + Quoted(ResourceName(modelName)) + ", " + ClassRef(ControllerClass(modelName)) + ")"
  }

  function RouteLine(modelName: string, includeAuthMiddleware: bool): string
  {
    ResourceCall(modelName) + Middleware(includeAuthMiddleware) + ";"
  }

  const ControllersNamespace := "App\\Http\\Controllers\\"

  function ImportLine(modelName: string): string
  {
    "use " + ControllersNamespace + ControllerClass(modelName) + ";"
  }

  function RoutesLines(modelName: string, includeAuthMiddleware: bool): seq<string>
  {
    [ImportLine(modelName), RouteLine(modelName, includeAuthMiddleware)]
  }

  /** The route ends in `->middleware('auth');` exactly when the flag is set,
      and the flag changes nothing else. */
  lemma MiddlewareIffFlag(modelName: string, includeAuthMiddleware: bool)
    ensures EndsWith(RouteLine(modelName, includeAuthMiddleware), AuthMiddleware + ";") <==> includeAuthMiddleware
    ensures RouteLine(modelName, true) == ResourceCall(modelName) + AuthMiddleware + ";"
    ensures RouteLine(modelName, false) == ResourceCall(modelName) + ";"
  {
    var call := ResourceCall(modelName);
    var tail := AuthMiddleware + ";";
    if includeAuthMiddleware {
      EndsWithConcat(call, tail);
    } else {
      var front := "Route::resource(" + Quoted(ResourceName(modelName)) + ", " + ControllerClass(modelName);
      assert call == front + "::class)";
      assert call[|call| - 2] == 's';
      var line := call + ";";
      assert line[|line| - 3] == 's';
      assert tail[|tail| - 3] == '\'';
    }
  }

  /** The imported class and the class the route points at are both
      `<Model>Controller`. */
  lemma ControllerImportedAndReferenced(modelName: string, includeAuthMiddleware: bool)
    ensures EndsWith(RoutesLines(modelName, includeAuthMiddleware)[0], ControllerClass(modelName) + ";")
    ensures Contains(RoutesLines(modelName, includeAuthMiddleware)[1], ClassRef(ControllerClass(modelName)))
    ensures Contains(RoutesLines(modelName, includeAuthMiddleware)[1], Quoted(ResourceName(modelName)))
  {
    LastParts("use " + ControllersNamespace, ControllerClass(modelName), ";");
    MiddleParts(RouteLine(modelName, includeAuthMiddleware), "Route::resource(", Quoted(ResourceName(modelName)),
                ", ", ClassRef(ControllerClass(modelName)), ")", Middleware(includeAuthMiddleware) + ";");
  }

  lemma LastParts(a: string, b: string, c: string)
    ensures EndsWith(a + b + c, b + c)
  {
    assert a + b + c == a + (b + c);
    EndsWithConcat(a, b + c);
  }

  lemma MiddleParts(line: string, a: string, x: string, b: string, y: string, c: string, d: string)
    requires line == a + x + b + y + c + d
    ensures Contains(line, x) && Contains(line, y)
  {
    assert line == a + x + (b + y + c + d);
    ContainsAt(line, a, x, b + y + c + d);
    assert line == (a + x + b) + y + (c + d);
    ContainsAt(line, a + x + b, y, c + d);
  }
}

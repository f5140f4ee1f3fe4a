/**
 * The root server-function handler of the admin panel: it builds a table
 * from function name to server function (the default `form-state` entry,
 * then the configured entries, a later one replacing an earlier one of the
 * same name), looks the requested name up, throwing when it is unknown, and
 * calls the function with the client's arguments augmented by `importMap`
 * and `req`.
 */
module ServerFunctions {
  import opened Wrappers

  /** A server function, by identity: the default `buildFormState` or a configured one. */
  datatype ServerFunction = BuildFormState | ConfiguredFunction(id: nat)

  datatype ServerFunctionConfig = ServerFunctionConfig(name: string, fn: ServerFunction)

  datatype ImportMap = ImportMap(id: nat)

  /**
   * The request `initReq` yields for the configuration; the model keeps only
   * its identity and `payload.config.admin.serverFunctions`.
   */
  datatype Request = Request(id: nat, serverFunctions: Option<seq<ServerFunctionConfig>>)

  datatype ArgValue = JsonArg(value: Json) | ImportMapArg(importMap: ImportMap) | RequestArg(req: Request)

  type Args = map<string, ArgValue>

  function DefaultFunctions(): map<string, ServerFunction> {
    map["form-state" := BuildFormState]
  }

  /** `{ ...fnArgs, importMap, req }`: the two added keys win over same-named client arguments. */
  function AugmentArgs(fnArgs: Args, importMap: ImportMap, req: Request): (r: Args)
    ensures r.Keys == fnArgs.Keys + {"importMap", "req"}
    ensures r["importMap"] == ImportMapArg(importMap) && r["req"] == RequestArg(req)
    ensures forall k :: k in fnArgs && k != "importMap" && k != "req" ==> r[k] == fnArgs[k]
  {
    fnArgs["importMap" := ImportMapArg(importMap)]["req" := RequestArg(req)]
  }

  /** Entry `i` is the last configured entry with its name. */
  ghost predicate IsLastNamed(configured: seq<ServerFunctionConfig>, i: int) {
    && 0 <= i < |configured|
    && forall j :: i < j < |configured| ==> configured[j].name != configured[i].name
  }

  function Names(configured: seq<ServerFunctionConfig>): set<string> {
    set c | c in configured :: c.name
  }

  /** The `reduce` that folds the configured entries into one object, a later entry overwriting an earlier one. */
  method ConfiguredTable(configured: seq<ServerFunctionConfig>) returns (acc: map<string, ServerFunction>)
    ensures acc.Keys == Names(configured)
    ensures forall i :: IsLastNamed(configured, i) ==> acc[configured[i].name] == configured[i].fn
  {
    acc := map[];
    var i := 0;
    while i < |configured|
      invariant 0 <= i <= |configured|
      invariant acc.Keys == Names(configured[..i])
      invariant forall k :: IsLastNamed(configured[..i], k) ==> acc[configured[k].name] == configured[k].fn
    {
      var fnConfig := configured[i];
      acc := acc[fnConfig.name := fnConfig.fn];
      assert configured[..i + 1] == configured[..i] + [fnConfig];
      forall k | IsLastNamed(configured[..i + 1], k)
        ensures acc[configured[k].name] == configured[k].fn
      {
        if k < i {
          assert configured[..i + 1][i].name != configured[k].name;
          assert IsLastNamed(configured[..i], k);
        }
      }
      i := i + 1;
    }
    assert configured[..i] == configured;
  }

  /** `{ ...defaultFunctions, ...configured }` */
  method BuildServerFunctions(configured: Option<seq<ServerFunctionConfig>>) returns (table: map<string, ServerFunction>)
    ensures configured.None? ==> table == DefaultFunctions()
    ensures configured.Some? ==> table.Keys == {"form-state"} + Names(configured.value)
    ensures configured.Some? ==>
              forall i :: IsLastNamed(configured.value, i) ==> table[configured.value[i].name] == configured.value[i].fn
    ensures configured.None? || "form-state" !in Names(configured.value) ==> table["form-state"] == BuildFormState
  {
    table := DefaultFunctions();
    if configured.Some? {
      var acc := ConfiguredTable(configured.value);
      table := table + acc;
    }
  }

  /** The own-key lookup, throwing `Unknown Server Function: <name>` on a miss. */
  function Lookup(table: map<string, ServerFunction>, name: string): (r: Result<ServerFunction, string>)
    ensures r.Success? <==> name in table
    ensures r.Success? ==> r.value == table[name]
    ensures r.Failure? ==> r.error == "Unknown Server Function: " + name
  {
    if name in table then Success(table[name]) else Failure("Unknown Server Function: " + name)
  }

  /** The single call the handler makes: which function, with which arguments. */
  datatype Invocation = Invocation(fn: ServerFunction, args: Args)

  /** `name` resolves to `fn`: its last configured entry, or the default when no entry names it. */
  ghost predicate Resolves(configured: seq<ServerFunctionConfig>, name: string, fn: ServerFunction) {
    || (exists i :: IsLastNamed(configured, i) && configured[i].name == name && configured[i].fn == fn)
    || (name == "form-state" && name !in Names(configured) && fn == BuildFormState)
  }

  /**
   * `handleServerFunctions`: a known name yields exactly one call of its
   * function with the augmented arguments (whose result the handler returns);
   * an unknown name throws and calls nothing. `req` is what `initReq` produced.
   */
  method HandleServerFunctions(name: string, fnArgs: Args, importMap: ImportMap, req: Request)
    returns (r: Result<Invocation, string>)
    ensures var configured := req.serverFunctions.GetOr([]);
            r.Success? <==> name == "form-state" || name in Names(configured)
    ensures r.Failure? ==> r.error == "Unknown Server Function: " + name
    ensures r.Success? ==> Resolves(req.serverFunctions.GetOr([]), name, r.value.fn)
    ensures r.Success? ==> r.value.args == AugmentArgs(fnArgs, importMap, req)
  {
    var augmentedArgs := AugmentArgs(fnArgs, importMap, req);
    var serverFunctions := BuildServerFunctions(req.serverFunctions);
    var fn :- Lookup(serverFunctions, name);
    ghost var configured := req.serverFunctions.GetOr([]);
    if name in Names(configured) {
      ghost var i := LastIndexNamed(configured, name);
    }
    return Success(Invocation(fn, augmentedArgs));
  }

  /** The position of the last configured entry called `name`. */
  ghost function LastIndexNamed(configured: seq<ServerFunctionConfig>, name: string): (i: nat)
    requires name in Names(configured)
    ensures IsLastNamed(configured, i) && configured[i].name == name
  {
    var last := configured[|configured| - 1];
    if last.name == name then |configured| - 1
    else
      assert name in Names(configured[..|configured| - 1]) by {
        var c :| c in configured && c.name == name;
        var k :| 0 <= k < |configured| && configured[k] == c;
        assert configured[..|configured| - 1][k] == c;
      }
      LastIndexNamed(configured[..|configured| - 1], name)
  }

  // ---------------------------------------------------------------------
  // The lookup as written: a plain-object property read
  // ---------------------------------------------------------------------

  /** Properties every plain JavaScript object inherits from `Object.prototype`; all are truthy. */
  const ObjectPrototypeKeys: set<string> := {
    "constructor", "hasOwnProperty", "isPrototypeOf", "propertyIsEnumerable",
    "toLocaleString", "toString", "valueOf", "__defineGetter__",
    "__defineSetter__", "__lookupGetter__", "__lookupSetter__", "__proto__"
  }

  /** What `serverFunctions[fnKey]` reads from the object literal. */
  datatype PropertyRead = OwnProperty(fn: ServerFunction) | InheritedProperty(key: string) | Undefined

  function ReadProperty(table: map<string, ServerFunction>, key: string): PropertyRead {
    if key in table then OwnProperty(table[key])
    else if key in ObjectPrototypeKeys then InheritedProperty(key)
    else Undefined
  }

  /** `const fn = serverFunctions[fnKey]; if (!fn) throw ...`, as written. */
  function LookupAsWritten(table: map<string, ServerFunction>, name: string): (r: Result<PropertyRead, string>)
    ensures r.Failure? <==> name !in table && name !in ObjectPrototypeKeys
  {
    match ReadProperty(table, name)
    case Undefined => Failure("Unknown Server Function: " + name)
    case found => Success(found)
  }

  /**
   * A name the table does not hold but every object inherits, such as
   * `constructor`, passes the unknown-function check as written, while the
   * own-key lookup rejects it.
   */
  lemma InheritedNamePassesUnknownCheck(table: map<string, ServerFunction>)
    requires "constructor" !in table
    ensures && LookupAsWritten(table, "constructor") == Success(InheritedProperty("constructor"))
            && Lookup(table, "constructor").Failure?
  {
  }
}

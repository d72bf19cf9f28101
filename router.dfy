/**
 * The method tree: a router holds a prefix, a name-to-handler map, an ordered
 * middleware list and a prefix-to-child map; it is built by registration and
 * mounting, and can dump itself as a nested method table.
 *
 * Handlers and middlewares are descriptors: the reflection the server does on
 * Python functions is replaced by the explicit parameter list a handler
 * carries.
 */
module Router {
  import opened JsonValue
  import opened Wrappers

  /** A schema as `model_json_schema` gives it, with its `json.dumps(..., indent=2)` text. */
  datatype Schema = Schema(value: Json, pretty: string)

  /** A parameter or return annotation, as reflection reports it. */
  datatype Annotation =
    | Unannotated                                           // no annotation at all
    | NoneValue                                             // the annotation `None`
    | ModelClass(name: string, moduleName: string, doc: string, schema: Schema)  // a pydantic model class
    | PlainClass(name: string, moduleName: string, doc: string) // any other class
    | NotAClass(text: string)                               // `Annotated[...]`, unions: their `str()`

  /** A declared default: a JSON-serialisable value with its `str()`, or an object known by its `repr()`. */
  datatype DefaultValue = JsonDefault(value: Json, text: string) | OpaqueDefault(repr: string)

  datatype ParamDefault = NoDefault | HasDefault(value: DefaultValue)

  /** One declared parameter of a handler, in declaration order. */
  datatype ParamDesc = ParamDesc(name: string, kind: string, annotation: Annotation, default: ParamDefault)

  /** A handler: its `__name__`, docstring, parameter list and return annotation. */
  datatype Handler = Handler(name: string, doc: string, params: seq<ParamDesc>, result: Annotation)

  /** A middleware, known only by its name and docstring; it is never executed by the tree. */
  datatype Middleware = Middleware(name: string, doc: string)

  /**
   * A value of a router's `methods` map: a handler, or (after `method_tree`)
   * the nested table of a sub-router stored under its prefix.
   */
  datatype MethodEntry = Func(handler: Handler) | Table(entries: map<string, MethodEntry>)

  /** The outcome of mounting a sub-router. */
  datatype MountOutcome = Mounted | DuplicatePrefix

  /** The key `register_method` uses: the given name, or the function's own name when that is falsy. */
  function MethodKey(name: Option<string>, func: Handler): (key: string)
    ensures name.Some? && name.value != "" ==> key == name.value
    ensures name.None? || name.value == "" ==> key == func.name
  {
    if name.Some? && name.value != "" then name.value else func.name
  }

  class RpcRouter {
    const prefix: string
    var methods: map<string, MethodEntry>
    var middlewares: seq<Middleware>
    var subRouters: map<string, RpcRouter>
    /** This router and every router below it. */
    ghost var Repr: set<RpcRouter>

    /**
     * The routers form a tree: every child is keyed by its own prefix, lies
     * in this router's footprint, does not reach back to it, and no two
     * children share a router.
     */
    ghost predicate Valid()
      reads this`subRouters, this`Repr, Repr`subRouters, Repr`Repr
      decreases Repr
    {
      && this in Repr
      && (forall p | p in subRouters ::
            && subRouters[p] in Repr
            && subRouters[p].Repr <= Repr
            && this !in subRouters[p].Repr
            && subRouters[p].prefix == p
            && subRouters[p].Valid())
      && (forall p, q | p in subRouters && q in subRouters && p != q ::
            subRouters[p].Repr !! subRouters[q].Repr)
    }

    /** A fresh router with the given prefix and nothing registered. */
    constructor (prefix: string)
      ensures Valid() && Repr == {this}
      ensures this.prefix == prefix
      ensures methods == map[] && middlewares == [] && subRouters == map[]
    {
      this.prefix := prefix;
      methods := map[];
      middlewares := [];
      subRouters := map[];
      Repr := {this};
    }

    /** `register_middleware`: appends, so registration order is kept; the middleware is handed back. */
    method RegisterMiddleware(mw: Middleware) returns (registered: Middleware)
      requires Valid()
      modifies this`middlewares
      ensures Valid()
      ensures middlewares == old(middlewares) + [mw]
      ensures registered == mw
    {
      middlewares := middlewares + [mw];
      registered := mw;
    }

    /** `register_method`: stores the handler under its key, replacing an earlier entry of that key. */
    method RegisterMethod(name: Option<string>, func: Handler) returns (registered: Handler)
      requires Valid()
      modifies this`methods
      ensures Valid()
      ensures methods == old(methods)[MethodKey(name, func) := Func(func)]
      ensures registered == func
    {
      var key := if name.Some? && name.value != "" then name.value else func.name;
      methods := methods[key := Func(func)];
      registered := func;
    }

    /**
     * `include_router`: a prefix already mounted is refused (`ValueError`) and
     * nothing changes; otherwise exactly one entry, keyed by the child's
     * prefix, is added.
     */
    method IncludeRouter(child: RpcRouter) returns (outcome: MountOutcome)
      requires Valid() && child.Valid()
      requires child.Repr !! Repr
      modifies this`subRouters, this`Repr
      ensures Valid()
      ensures old(child.prefix in subRouters) ==>
                outcome == DuplicatePrefix && subRouters == old(subRouters) && Repr == old(Repr)
      ensures old(child.prefix !in subRouters) ==>
                && outcome == Mounted
                && subRouters == old(subRouters)[child.prefix := child]
                && Repr == old(Repr) + child.Repr
    {
      if child.prefix in subRouters {
        outcome := DuplicatePrefix;
        return;
      }
      subRouters := subRouters[child.prefix := child];
      Repr := Repr + child.Repr;
      outcome := Mounted;
    }

    /**
     * The table `method_tree` produces: the router's own methods, with the
     * table of every sub-router stored under that sub-router's prefix, which
     * overwrites a method of the same name.
     */
    function Tree(): (t: map<string, MethodEntry>)
      reads this, Repr
      requires Valid()
      ensures t.Keys == methods.Keys + subRouters.Keys
      ensures forall p | p in subRouters :: t[p] == Table(subRouters[p].Tree())
      ensures forall m | m in methods && m !in subRouters :: t[m] == methods[m]
      decreases Repr
    {
      methods + map p | p in subRouters :: Table(subRouters[p].Tree())
    }

    /** Validity depends only on the `subRouters` and `Repr` fields below a router. */
    twostate lemma ValidUnchanged(r: RpcRouter)
      requires old(r.Valid())
      requires forall o | o in old(r.Repr) :: o.subRouters == old(o.subRouters) && o.Repr == old(o.Repr)
      ensures r.Valid()
      decreases old(r.Repr)
    {
      forall p | p in r.subRouters
        ensures r.subRouters[p].Valid()
      {
        ValidUnchanged(r.subRouters[p]);
      }
    }

    /**
     * Any table with the router's own methods, overwritten by the table of
     * every sub-router under its prefix, is the router's `Tree`.
     */
    lemma {:induction false} TreeIs(t: map<string, MethodEntry>)
      requires Valid()
      requires t.Keys == methods.Keys + subRouters.Keys
      requires forall p | p in subRouters :: t[p] == Table(subRouters[p].Tree())
      requires forall m | m in methods && m !in subRouters :: t[m] == methods[m]
      ensures t == Tree()
    {
    }

    /**
     * The loop of `method_tree`: starts from the router's own `methods` map
     * and stores the table of every sub-router under that sub-router's
     * prefix, which gives the table `Tree`.
     */
    method CollectTree() returns (tree: map<string, MethodEntry>)
      requires Valid()
      ensures tree == Tree()
    {
      tree := methods;
      var pending := subRouters.Keys;
      ghost var done: set<string> := {};
      while pending != {}
        invariant pending !! done && pending + done == subRouters.Keys
        invariant tree.Keys == methods.Keys + done
        invariant forall p | p in done :: tree[p] == Table(subRouters[p].Tree())
        invariant forall m | m in methods && m !in done :: tree[m] == methods[m]
        decreases pending
      {
        var p :| p in pending;
        var sub := subRouters[p].Tree();
        tree := tree[p := Table(sub)];
        pending := pending - {p};
        done := done + {p};
      }
      TreeIs(tree);
    }

    /**
     * `method_tree`: keeps the collected table as the router's own `methods`
     * map and returns it; the result is the table `Tree` described before
     * the call.
     */
    method MethodTree() returns (tree: map<string, MethodEntry>)
      requires Valid()
      modifies this`methods
      ensures Valid()
      ensures tree == methods
      ensures tree == old(Tree())
    {
      tree := CollectTree();
      methods := tree;
      ValidUnchanged(this);
    }
  }
}

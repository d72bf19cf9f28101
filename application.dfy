/**
 * The request dispatcher: one input line is decoded, validated as a request,
 * routed through the router tree by its dotted method name, bound to the
 * handler's declared parameters and answered; the read loop keeps serving
 * lines until an empty one, swallowing protocol and validation errors.
 *
 * Three things the dispatcher calls are not visible and are taken as given
 * functions (an `Env`): the middleware chain, the construction of a model
 * class from a params mapping, and the handler call itself.
 */
module Application {
  import opened JsonValue
  import opened Wrappers
  import PyText
  import opened JsonRpcModel
  import opened Router

  /** One line read from the input: its text and what `json.loads` makes of it (None: not JSON). */
  datatype Line = Line(text: string, parsed: Option<Json>)

  /** A bound argument: a value, a declared default, or the `inspect.Parameter.empty` marker. */
  datatype Arg = Value(value: Json) | Default(default: DefaultValue) | EmptyMarker

  /** What the middleware chain does with a request: hand it (maybe changed) to the handler, or answer itself. */
  datatype ChainOutcome = Delegated(request: Request) | Settled(outcome: Result<Response>)

  /** What a call leaves behind: the state of the handlers' world after it, and its value or failure. */
  datatype Handled<W, T> = Handled(world: W, answer: Result<T>)

  /**
   * The behaviour of the code the dispatcher calls but that is not part of
   * this model: the middleware chain over the collected middlewares, the
   * construction `ann(**params)` of a model class, and the handler call.
   * Handlers keep state of their own (a database, a task table): a call is
   * made in the world `W` the earlier calls left, and gives the next one.
   */
  datatype Env<!W> = Env(
    chain: (seq<Middleware>, Request) -> ChainOutcome,
    build: (Annotation, map<string, Json>) -> Result<Json>,
    invoke: (W, Handler, map<string, Arg>) -> Handled<W, Json>)

  // ---------------------------------------------------------------------------
  // Method-name segments.

  /** The method name split on ".", with the first segment dropped when it is the server name. */
  function Segments(methodName: string, serverName: string): (segments: seq<string>)
    ensures forall k | 0 <= k < |segments| :: '.' !in segments[k]
    ensures PyText.Split(methodName, '.')[0] != serverName ==> PyText.Join(segments, '.') == methodName
    ensures PyText.Split(methodName, '.')[0] == serverName ==>
              methodName == if segments == [] then serverName else serverName + "." + PyText.Join(segments, '.')
  {
    var pieces := PyText.Split(methodName, '.');
    PyText.SplitPiecesAreFree(methodName, '.');
    PyText.JoinOfSplit(methodName, '.');
    if pieces[0] == serverName then pieces[1..] else pieces
  }

  /**
   * Only the first segment is compared with the server name: prefixing a
   * name whose first segment is not the server name with it changes nothing.
   */
  lemma {:induction false} SegmentsElideServerName(methodName: string, serverName: string)
    requires '.' !in serverName
    requires PyText.Split(methodName, '.')[0] != serverName
    ensures Segments(serverName + "." + methodName, serverName) == Segments(methodName, serverName)
    ensures Segments(methodName, serverName) == PyText.Split(methodName, '.')
  {
    PyText.SplitAfterPiece(serverName, '.', methodName);
  }

  /** The segment list is empty exactly when the method name is the server name alone. */
  lemma {:induction false} SegmentsEmpty(methodName: string, serverName: string)
    ensures Segments(methodName, serverName) == [] <==> methodName == serverName && '.' !in serverName
  {
    var pieces := PyText.Split(methodName, '.');
    if methodName == serverName && '.' !in serverName {
      PyText.SplitOfFree(methodName, '.');
    }
    if Segments(methodName, serverName) == [] {
      assert pieces == [serverName];
      PyText.JoinOfSplit(methodName, '.');
      PyText.SplitPiecesAreFree(methodName, '.');
      assert '.' !in pieces[0];
    }
  }

  // ---------------------------------------------------------------------------
  // Resolution of the segments in the router tree.

  /** The handler found for a method name and the middlewares collected on the way, root first. */
  datatype Route = Route(middlewares: seq<Middleware>, target: MethodEntry)

  /**
   * `dispatch`: every visited router adds its middlewares; the last segment
   * is looked up in `methods`, every earlier one in `sub_routers`. No segment
   * at all fails the unpacking `head, *tail = parts`.
   */
  function Resolve(node: RpcRouter, parts: seq<string>, collected: seq<Middleware>): (r: Result<Route>)
    reads node, node.Repr
    requires node.Valid()
    ensures |parts| == 0 <==> r.Err? && r.failure.Fatal?
    ensures r.Err? ==> r.failure.Fatal? || (r.failure.Protocol? && r.failure.error.MethodNotFound?)
    ensures r.Ok? ==> collected + node.middlewares <= r.value.middlewares
    decreases |parts|
  {
    var acc := collected + node.middlewares;
    if |parts| == 0 then Err(Fatal("not enough values to unpack"))
    else if |parts| == 1 then
      if parts[0] in node.methods then Ok(Route(acc, node.methods[parts[0]]))
      else Err(Protocol(MethodNotFound("没有找到方法: " + parts[0])))
    else if parts[0] in node.subRouters then
      var r := Resolve(node.subRouters[parts[0]], parts[1..], acc);
      r
    else Err(Protocol(MethodNotFound("没有找到子路由: " + parts[0])))
  }

  /** `routers` are the routers met when following `path` through `sub_routers` from `node`. */
  ghost predicate Reaches(node: RpcRouter, path: seq<string>, routers: seq<RpcRouter>)
    reads routers
  {
    && |routers| == |path| + 1
    && routers[0] == node
    && forall i | 0 <= i < |path| ::
         path[i] in routers[i].subRouters && routers[i].subRouters[path[i]] == routers[i + 1]
  }

  /** The middlewares of the given routers, each router's whole list, in order. */
  function Collected(routers: seq<RpcRouter>): (mws: seq<Middleware>)
    reads routers
  {
    if routers == [] then [] else routers[0].middlewares + Collected(routers[1..])
  }

  /**
   * When every segment but the last names a sub-router and the last names a
   * method of the router reached, that method is found and the middlewares
   * are those of every router on the way, root first.
   */
  lemma {:induction false} ResolveFound(node: RpcRouter, parts: seq<string>, routers: seq<RpcRouter>,
                                        collected: seq<Middleware>)
    requires node.Valid()
    requires |parts| >= 1 && Reaches(node, parts[..|parts| - 1], routers)
    requires parts[|parts| - 1] in routers[|routers| - 1].methods
    ensures Resolve(node, parts, collected)
            == Ok(Route(collected + Collected(routers), routers[|routers| - 1].methods[parts[|parts| - 1]]))
    decreases |parts|
  {
    if |parts| == 1 {
      assert routers == [node];
      assert Collected(routers) == node.middlewares + Collected([]);
      assert Collected(routers) == node.middlewares;
      assert Resolve(node, parts, collected) == Ok(Route(collected + node.middlewares, node.methods[parts[0]]));
    } else {
      var child := node.subRouters[parts[0]];
      assert parts[..|parts| - 1][0] == parts[0];
      var rest := routers[1..];
      assert Reaches(child, parts[1..][..|parts[1..]| - 1], rest) by {
        assert parts[1..][..|parts[1..]| - 1] == parts[..|parts| - 1][1..];
        forall i | 0 <= i < |parts| - 2
          ensures parts[1..][i] in rest[i].subRouters && rest[i].subRouters[parts[1..][i]] == rest[i + 1]
        {
          assert parts[..|parts| - 1][i + 1] == parts[1..][i];
        }
      }
      ResolveFound(child, parts[1..], rest, collected + node.middlewares);
      assert Collected(routers) == node.middlewares + Collected(rest);
      assert collected + node.middlewares + Collected(rest) == collected + Collected(routers);
      assert parts[1..][|parts[1..]| - 1] == parts[|parts| - 1];
    }
  }

  /** Conversely, a successful resolution follows such a path. */
  lemma {:induction false} ResolvedPath(node: RpcRouter, parts: seq<string>, collected: seq<Middleware>)
    returns (routers: seq<RpcRouter>)
    requires node.Valid()
    requires Resolve(node, parts, collected).Ok?
    ensures |parts| >= 1 && Reaches(node, parts[..|parts| - 1], routers)
    ensures parts[|parts| - 1] in routers[|routers| - 1].methods
    ensures Resolve(node, parts, collected)
            == Ok(Route(collected + Collected(routers), routers[|routers| - 1].methods[parts[|parts| - 1]]))
    decreases |parts|
  {
    if |parts| == 1 {
      routers := [node];
      assert Collected(routers) == node.middlewares + Collected([]);
      assert Collected(routers) == node.middlewares;
    } else {
      var child := node.subRouters[parts[0]];
      var rest := ResolvedPath(child, parts[1..], collected + node.middlewares);
      routers := [node] + rest;
      assert routers[1..] == rest;
      assert Collected(routers) == node.middlewares + Collected(rest);
      assert collected + node.middlewares + Collected(rest) == collected + Collected(routers);
      assert parts[1..][|parts[1..]| - 1] == parts[|parts| - 1];
      forall i | 0 <= i < |parts| - 1
        ensures parts[..|parts| - 1][i] in routers[i].subRouters
        ensures routers[i].subRouters[parts[..|parts| - 1][i]] == routers[i + 1]
      {
        if i > 0 {
          assert parts[..|parts| - 1][i] == parts[1..][..|parts[1..]| - 1][i - 1];
        }
      }
    }
  }

  /**
   * The first segment that cannot be followed raises Method Not Found naming
   * that segment: a missing sub-router before the last segment, a missing
   * method at the last one.
   */
  lemma {:induction false} ResolveMissing(node: RpcRouter, parts: seq<string>, k: nat, routers: seq<RpcRouter>,
                                          collected: seq<Middleware>)
    requires node.Valid()
    requires k < |parts| && Reaches(node, parts[..k], routers)
    requires k < |parts| - 1 ==> parts[k] !in routers[k].subRouters
    requires k == |parts| - 1 ==> parts[k] !in routers[k].methods
    ensures k < |parts| - 1 ==>
              Resolve(node, parts, collected) == Err(Protocol(MethodNotFound("没有找到子路由: " + parts[k])))
    ensures k == |parts| - 1 ==>
              Resolve(node, parts, collected) == Err(Protocol(MethodNotFound("没有找到方法: " + parts[k])))
    decreases k
  {
    if k > 0 {
      var child := node.subRouters[parts[0]];
      assert parts[..k][0] == parts[0];
      var rest := routers[1..];
      assert Reaches(child, parts[1..][..k - 1], rest) by {
        forall i | 0 <= i < k - 1
          ensures parts[1..][i] in rest[i].subRouters && rest[i].subRouters[parts[1..][i]] == rest[i + 1]
        {
          assert parts[..k][i + 1] == parts[1..][i];
        }
      }
      ResolveMissing(child, parts[1..], k - 1, rest, collected + node.middlewares);
    }
  }

  /**
   * The recursive `dispatch`, extending the collected middleware list as it
   * descends; it changes nothing, so resolving twice over an unchanged tree
   * gives the same route.
   */
  method Dispatch(current: RpcRouter, parts: seq<string>, collected: seq<Middleware>) returns (r: Result<Route>)
    requires current.Valid()
    ensures r == Resolve(current, parts, collected)
    decreases |parts|
  {
    var acc := collected + current.middlewares;
    if |parts| == 0 {
      return Err(Fatal("not enough values to unpack"));
    }
    var head, tail := parts[0], parts[1..];
    if |tail| == 0 {
      if head !in current.methods {
        return Err(Protocol(MethodNotFound("没有找到方法: " + head)));
      }
      return Ok(Route(acc, current.methods[head]));
    }
    if head !in current.subRouters {
      return Err(Protocol(MethodNotFound("没有找到子路由: " + head)));
    }
    r := Dispatch(current.subRouters[head], tail, acc);
  }

  // ---------------------------------------------------------------------------
  // Parameter binding and execution.

  /** Python's `name in params` on a decoded JSON value; `None`, numbers and booleans raise `TypeError`. */
  function Contains(params: Json, name: string): (r: Result<bool>)
    ensures r.Ok? <==> params.JObj? || params.JArr? || params.JStr?
    ensures params.JObj? ==> r == Ok(name in params.fields)
    ensures params.JArr? ==> r == Ok(exists k | 0 <= k < |params.items| :: params.items[k] == JStr(name))
    ensures params.JStr? ==> r == Ok(exists k :: PyText.OccursAt(name, params.s, k))
  {
    PyText.IsSubstringAt(name, if params.JStr? then params.s else "");
    match params
    case JObj(fields) => Ok(name in fields)
    case JArr(items) => Ok(JStr(name) in items)
    case JStr(s) => Ok(PyText.IsSubstring(name, s))
    case _ => Err(Fatal("argument is not iterable"))
  }

  /** `param.default`: the declared default, or the empty marker. */
  function DefaultArg(d: ParamDefault): (arg: Arg)
  {
    if d.HasDefault? then Default(d.value) else EmptyMarker
  }

  /**
   * One step of the binding loop: a model-class annotation with a dict of
   * params builds the model from the whole mapping; otherwise a name found
   * in params is taken from it (only a dict can be indexed by name); otherwise
   * the declared default is bound.
   */
  function BindOne<W>(p: ParamDesc, params: Json, env: Env<W>): (r: Result<Arg>)
    ensures p.annotation.ModelClass? && params.JObj? ==>
              (r.Ok? <==> env.build(p.annotation, params.fields).Ok?)
              && (r.Ok? ==> r.value == Value(env.build(p.annotation, params.fields).value))
              && (r.Err? ==> r.failure == env.build(p.annotation, params.fields).failure)
    ensures !p.annotation.ModelClass? && params.JObj? ==>
              r == Ok(if p.name in params.fields then Value(params.fields[p.name]) else DefaultArg(p.default))
    ensures !params.JObj? ==> (r.Ok? <==> Contains(params, p.name) == Ok(false))
    ensures !params.JObj? && r.Ok? ==> r.value == DefaultArg(p.default)
  {
    if p.annotation.ModelClass? && params.JObj? then
      match env.build(p.annotation, params.fields)
      case Ok(instance) => Ok(Value(instance))
      case Err(f) => Err(f)
    else
      match Contains(params, p.name)
      case Err(f) => Err(f)
      case Ok(found) =>
        if !found then Ok(DefaultArg(p.default))
        else if params.JObj? then Ok(Value(params.fields[p.name]))
        else Err(Fatal("indices must be integers"))
  }

  /** The binding loop from some parameter on, with the arguments bound so far. */
  function BindFrom<W>(ps: seq<ParamDesc>, params: Json, env: Env<W>, bound: map<string, Arg>): (r: Result<map<string, Arg>>)
    decreases |ps|
  {
    if ps == [] then Ok(bound)
    else match BindOne(ps[0], params, env)
      case Err(f) => Err(f)
      case Ok(a) => BindFrom(ps[1..], params, env, bound[ps[0].name := a])
  }

  /** The arguments bound for a declared parameter list, or the first failure. */
  function Bind<W>(ps: seq<ParamDesc>, params: Json, env: Env<W>): (r: Result<map<string, Arg>>)
    ensures r.Ok? ==> r.value.Keys == Names(ps) && forall i | 0 <= i < |ps| :: BindOne(ps[i], params, env).Ok?
    ensures r.Err? ==> exists k | 0 <= k < |ps| :: BindOne(ps[k], params, env).Err?
                                                  && r.failure == BindOne(ps[k], params, env).failure
  {
    if BindFrom(ps, params, env, map[]).Ok? then
      BindFromBindsEach(ps, params, env, map[]);
      BindFrom(ps, params, env, map[])
    else
      assert exists k | 0 <= k < |ps| :: BindOne(ps[k], params, env).Err?
                                        && BindFrom(ps, params, env, map[]).failure == BindOne(ps[k], params, env).failure by {
        var k := BindFromFirstFailure(ps, params, env, map[]);
      }
      BindFrom(ps, params, env, map[])
  }

  function Names(ps: seq<ParamDesc>): (names: set<string>)
  {
    set i | 0 <= i < |ps| :: ps[i].name
  }

  predicate DistinctNames(ps: seq<ParamDesc>)
  {
    forall i, j | 0 <= i < j < |ps| :: ps[i].name != ps[j].name
  }

  /** The names of a parameter list are the first one's and those of the rest. */
  lemma {:induction false} NamesCons(ps: seq<ParamDesc>)
    requires ps != []
    ensures Names(ps) == {ps[0].name} + Names(ps[1..])
  {
    forall n | n in Names(ps) ensures n in {ps[0].name} + Names(ps[1..]) {
      var i :| 0 <= i < |ps| && ps[i].name == n;
      if i > 0 { assert ps[1..][i - 1].name == n; }
    }
  }

  /**
   * A successful binding binds every declared parameter, and (names being
   * distinct, as in any Python signature) each one to what its own binding
   * step gives.
   */
  lemma {:induction false} BindFromBindsEach<W>(ps: seq<ParamDesc>, params: Json, env: Env<W>, bound: map<string, Arg>)
    requires BindFrom(ps, params, env, bound).Ok?
    ensures BindFrom(ps, params, env, bound).value.Keys == bound.Keys + Names(ps)
    ensures forall i | 0 <= i < |ps| :: BindOne(ps[i], params, env).Ok?
    ensures DistinctNames(ps) ==>
              forall i | 0 <= i < |ps| ::
                BindFrom(ps, params, env, bound).value[ps[i].name] == BindOne(ps[i], params, env).value
    ensures forall n | n in bound && n !in Names(ps) :: BindFrom(ps, params, env, bound).value[n] == bound[n]
    decreases |ps|
  {
    if ps != [] {
      var a := BindOne(ps[0], params, env).value;
      var next := bound[ps[0].name := a];
      BindFromBindsEach(ps[1..], params, env, next);
      var result := BindFrom(ps, params, env, bound).value;
      assert result == BindFrom(ps[1..], params, env, next).value;
      NamesCons(ps);
      forall i | 0 <= i < |ps|
        ensures BindOne(ps[i], params, env).Ok?
      {
        if i > 0 { assert ps[i] == ps[1..][i - 1]; }
      }
      if DistinctNames(ps) {
        assert DistinctNames(ps[1..]);
        assert ps[0].name !in Names(ps[1..]);
        forall i | 0 <= i < |ps|
          ensures result[ps[i].name] == BindOne(ps[i], params, env).value
        {
          if i > 0 { assert ps[i] == ps[1..][i - 1]; }
        }
      }
    }
  }

  /** The failure of a binding is that of the first parameter whose step fails; the later ones are not visited. */
  lemma {:induction false} BindFromFirstFailure<W>(ps: seq<ParamDesc>, params: Json, env: Env<W>, bound: map<string, Arg>)
    returns (k: nat)
    requires BindFrom(ps, params, env, bound).Err?
    ensures k < |ps|
    ensures forall i | 0 <= i < k :: BindOne(ps[i], params, env).Ok?
    ensures BindOne(ps[k], params, env).Err?
    ensures BindFrom(ps, params, env, bound).failure == BindOne(ps[k], params, env).failure
    decreases |ps|
  {
    if BindOne(ps[0], params, env).Err? {
      k := 0;
    } else {
      var next := bound[ps[0].name := BindOne(ps[0], params, env).value];
      var j := BindFromFirstFailure(ps[1..], params, env, next);
      k := j + 1;
      forall i | 0 <= i < k
        ensures BindOne(ps[i], params, env).Ok?
      {
        if i > 0 { assert ps[i] == ps[1..][i - 1]; }
      }
      assert ps[k] == ps[1..][j];
    }
  }

  /** `__execute_method`'s binding loop over the declared parameters, in order. */
  method BindArgs<W>(ps: seq<ParamDesc>, params: Json, env: Env<W>) returns (r: Result<map<string, Arg>>)
    ensures r == Bind(ps, params, env)
  {
    var bound: map<string, Arg> := map[];
    var i := 0;
    while i < |ps|
      invariant 0 <= i <= |ps|
      invariant BindFrom(ps[i..], params, env, bound) == Bind(ps, params, env)
    {
      var p := ps[i];
      assert ps[i..][0] == p && ps[i..][1..] == ps[i + 1..];
      var arg: Arg;
      if p.annotation.ModelClass? && params.JObj? {
        var built := env.build(p.annotation, params.fields);
        if built.Err? {
          return Err(built.failure);
        }
        arg := Value(built.value);
      } else {
        var found := Contains(params, p.name);
        if found.Err? {
          return Err(found.failure);
        } else if found.value {
          if !params.JObj? {
            return Err(Fatal("indices must be integers"));
          }
          arg := Value(params.fields[p.name]);
        } else {
          arg := DefaultArg(p.default);
        }
      }
      bound := bound[p.name := arg];
      i := i + 1;
    }
    r := Ok(bound);
  }

  /**
   * `__execute_method`: binds, calls the handler in the current world and
   * wraps its value in a response built from the result alone (so with id
   * 0); a validation error from binding or from the call becomes Invalid
   * Params carrying the request id, any other failure passes through. A
   * nested table is not callable and fails. Only the handler call changes
   * the world.
   */
  function Execute<W>(entry: MethodEntry, params: Json, requestId: Id, env: Env<W>, w: W): (r: Handled<W, Response>)
    ensures r.answer.Ok? ==> r.answer.value.id == DefaultId && r.answer.value.jsonrpc == Version
    ensures r.answer.Err? ==> !r.answer.failure.Invalid?
    ensures entry.Table? ==> r.world == w && r.answer.Err? && r.answer.failure.Fatal?
    ensures entry.Func? && Bind(entry.handler.params, params, env).Err? ==>
              var f := Bind(entry.handler.params, params, env).failure;
              && r.world == w
              && (f.Invalid? ==> r.answer == Err(Protocol(InvalidParams(f.errors, requestId))))
              && (!f.Invalid? ==> r.answer == Err(f))
    ensures entry.Func? && Bind(entry.handler.params, params, env).Ok? ==>
              var called := env.invoke(w, entry.handler, Bind(entry.handler.params, params, env).value);
              && r.world == called.world
              && (called.answer.Ok? ==> r.answer == Ok(Response(DefaultId, Version, called.answer.value)))
              && (called.answer.Err? && called.answer.failure.Invalid? ==>
                    r.answer == Err(Protocol(InvalidParams(called.answer.failure.errors, requestId))))
              && (called.answer.Err? && !called.answer.failure.Invalid? ==> r.answer == Err(called.answer.failure))
  {
    match entry
    case Table(_) => Handled(w, Err(Fatal("not a callable object")))
    case Func(h) =>
      var called := match Bind(h.params, params, env)
        case Err(f) => Handled(w, Err(f))
        case Ok(bound) => env.invoke(w, h, bound);
      match called.answer
      case Ok(value) => Handled(called.world, Ok(NewResponse(value)))
      case Err(Invalid(errs)) => Handled(called.world, Err(Protocol(InvalidParams(errs, requestId))))
      case Err(f) => Handled(called.world, Err(f))
  }

  method ExecuteMethod<W>(entry: MethodEntry, params: Json, requestId: Id, env: Env<W>, w: W)
    returns (world: W, r: Result<Response>)
    ensures Handled(world, r) == Execute(entry, params, requestId, env, w)
  {
    if entry.Table? {
      return w, Err(Fatal("not a callable object"));
    }
    var bound := BindArgs(entry.handler.params, params, env);
    var outcome: Result<Json>;
    if bound.Err? {
      world, outcome := w, Err(bound.failure);
    } else {
      var called := env.invoke(w, entry.handler, bound.value);
      world, outcome := called.world, called.answer;
    }
    if outcome.Ok? {
      r := Ok(NewResponse(outcome.value));
    } else if outcome.failure.Invalid? {
      r := Err(Protocol(InvalidParams(outcome.failure.errors, requestId)));
    } else {
      r := Err(outcome.failure);
    }
  }

  // ---------------------------------------------------------------------------
  // The read loop, given the answer each line gets.

  /** Why the read loop stopped: the input ran out, an empty line was read, or an exception escaped. */
  datatype Stop = Exhausted | EmptyLine | Raised(reason: string)

  /** What the read loop writes, and why it stops. */
  datatype Session = Session(written: seq<Response>, stop: Stop)

  /**
   * The read loop over lines, `answers[i]` being what handling `lines[i]`
   * gives: an empty line (or the end of the input) stops it; a response is
   * written; a protocol or validation error is dropped without a write; any
   * other failure escapes and stops it.
   */
  function Serve(lines: seq<Line>, answers: seq<Result<Response>>): (s: Session)
    requires |answers| == |lines|
    ensures |s.written| <= |lines|
    decreases |lines|
  {
    if |lines| == 0 then Session([], Exhausted)
    else if lines[0].text == "" then Session([], EmptyLine)
    else
      var rest := Serve(lines[1..], answers[1..]);
      match answers[0]
      case Ok(response) => Session([response] + rest.written, rest.stop)
      case Err(Fatal(reason)) => Session([], Raised(reason))
      case Err(_) => rest
  }

  /** A session continued after some responses were already written. */
  function Resume(written: seq<Response>, s: Session): (session: Session)
  {
    Session(written + s.written, s.stop)
  }

  /** The loop from line i on: one line is handled, then the loop goes on from line i + 1. */
  lemma {:induction false} ServeStep(lines: seq<Line>, answers: seq<Result<Response>>, i: nat)
    requires |answers| == |lines| && i < |lines|
    ensures lines[i].text == "" ==> Serve(lines[i..], answers[i..]) == Session([], EmptyLine)
    ensures lines[i].text != "" && answers[i].Ok? ==>
              Serve(lines[i..], answers[i..])
              == Session([answers[i].value] + Serve(lines[i + 1..], answers[i + 1..]).written,
                         Serve(lines[i + 1..], answers[i + 1..]).stop)
    ensures lines[i].text != "" && answers[i].Err? && answers[i].failure.Fatal? ==>
              Serve(lines[i..], answers[i..]) == Session([], Raised(answers[i].failure.reason))
    ensures lines[i].text != "" && answers[i].Err? && !answers[i].failure.Fatal? ==>
              Serve(lines[i..], answers[i..]) == Serve(lines[i + 1..], answers[i + 1..])
  {
    assert lines[i..][0] == lines[i] && lines[i..][1..] == lines[i + 1..];
    assert answers[i..][0] == answers[i] && answers[i..][1..] == answers[i + 1..];
  }

  /**
   * One more line answered without an escaping failure: its response, if
   * any, joins what is written, and the loop goes on from the next line.
   */
  lemma {:induction false} ServeAdvance(lines: seq<Line>, answers: seq<Result<Response>>, i: nat, written: seq<Response>)
    requires |answers| == |lines| && i < |lines| && lines[i].text != ""
    requires !(answers[i].Err? && answers[i].failure.Fatal?)
    requires Serve(lines, answers) == Resume(written, Serve(lines[i..], answers[i..]))
    ensures Serve(lines, answers)
            == Resume(written + (if answers[i].Ok? then [answers[i].value] else []), Serve(lines[i + 1..], answers[i + 1..]))
  {
    ServeStep(lines, answers, i);
    var rest := Serve(lines[i + 1..], answers[i + 1..]);
    if answers[i].Ok? {
      assert written + ([answers[i].value] + rest.written) == written + [answers[i].value] + rest.written;
    } else {
      assert written + [] == written;
    }
  }

  /** One non-empty line in the loop: an escaping failure ends it, anything else lets it go on from the next line. */
  lemma {:induction false} ServeProgress(lines: seq<Line>, answers: seq<Result<Response>>, i: nat, written: seq<Response>)
    requires |answers| == |lines| && i < |lines| && lines[i].text != ""
    requires Serve(lines, answers) == Resume(written, Serve(lines[i..], answers[i..]))
    ensures answers[i].Err? && answers[i].failure.Fatal? ==>
              Serve(lines, answers) == Session(written, Raised(answers[i].failure.reason))
    ensures !(answers[i].Err? && answers[i].failure.Fatal?) ==>
              Serve(lines, answers)
              == Resume(written + (if answers[i].Ok? then [answers[i].value] else []), Serve(lines[i + 1..], answers[i + 1..]))
  {
    ServeStep(lines, answers, i);
    if !(answers[i].Err? && answers[i].failure.Fatal?) {
      ServeAdvance(lines, answers, i, written);
    } else {
      assert written + [] == written;
    }
  }

  /** The loop stops at the end of the input, or at an empty line, with what it has written. */
  lemma {:induction false} ServeHalt(lines: seq<Line>, answers: seq<Result<Response>>, i: nat, written: seq<Response>)
    requires |answers| == |lines| && i <= |lines|
    requires Serve(lines, answers) == Resume(written, Serve(lines[i..], answers[i..]))
    ensures i == |lines| ==> Serve(lines, answers) == Session(written, Exhausted)
    ensures i < |lines| && lines[i].text == "" ==> Serve(lines, answers) == Session(written, EmptyLine)
  {
    assert written + [] == written;
    if i < |lines| {
      ServeStep(lines, answers, i);
    } else {
      assert lines[i..] == [] && answers[i..] == [];
    }
  }

  /**
   * Every response written answers one of the lines, and an escaping
   * failure is the failure of one of them.
   */
  lemma {:induction false} ServeWritesAnswers(lines: seq<Line>, answers: seq<Result<Response>>)
    requires |answers| == |lines|
    ensures forall k | 0 <= k < |Serve(lines, answers).written| ::
              exists j | 0 <= j < |lines| :: answers[j] == Ok(Serve(lines, answers).written[k])
    ensures Serve(lines, answers).stop.Raised? ==>
              exists j | 0 <= j < |lines| :: answers[j] == Err(Fatal(Serve(lines, answers).stop.reason))
    decreases |lines|
  {
    if |lines| > 0 && lines[0].text != "" {
      ServeWritesAnswers(lines[1..], answers[1..]);
      var s, rest := Serve(lines, answers), Serve(lines[1..], answers[1..]);
      forall k | 0 <= k < |s.written|
        ensures exists j | 0 <= j < |lines| :: answers[j] == Ok(s.written[k])
      {
        if answers[0].Ok? && k == 0 {
          assert answers[0] == Ok(s.written[k]);
        } else {
          var k' := if answers[0].Ok? then k - 1 else k;
          assert s.written[k] == rest.written[k'];
          var j :| 0 <= j < |lines[1..]| && answers[1..][j] == Ok(rest.written[k']);
          assert answers[j + 1] == Ok(s.written[k]);
        }
      }
      if s.stop.Raised? && !(answers[0].Err? && answers[0].failure.Fatal?) {
        var j :| 0 <= j < |lines[1..]| && answers[1..][j] == Err(Fatal(rest.stop.reason));
        assert answers[j + 1] == Err(Fatal(s.stop.reason));
      }
    } else {
      assert Serve(lines, answers).written == [] && !Serve(lines, answers).stop.Raised?;
    }
  }

  /**
   * Running over two inputs one after the other: the second is read only
   * when the first ran out without stopping.
   */
  lemma {:induction false} ServeConcat(a: seq<Line>, aa: seq<Result<Response>>, b: seq<Line>, ba: seq<Result<Response>>)
    requires |aa| == |a| && |ba| == |b|
    ensures Serve(a, aa).stop == Exhausted ==>
              Serve(a + b, aa + ba) == Session(Serve(a, aa).written + Serve(b, ba).written, Serve(b, ba).stop)
    ensures Serve(a, aa).stop != Exhausted ==> Serve(a + b, aa + ba) == Serve(a, aa)
    decreases |a|
  {
    if |a| == 0 {
      assert a + b == b && aa + ba == ba;
    } else {
      assert (a + b)[0] == a[0] && (a + b)[1..] == a[1..] + b;
      assert (aa + ba)[0] == aa[0] && (aa + ba)[1..] == aa[1..] + ba;
      if a[0].text != "" {
        ServeConcat(a[1..], aa[1..], b, ba);
        match aa[0]
        case Ok(response) =>
          assert [response] + Serve(a[1..], aa[1..]).written + Serve(b, ba).written
              == [response] + (Serve(a[1..], aa[1..]).written + Serve(b, ba).written);
        case Err(f) =>
      }
    }
  }

  /** A run over lines ending with an empty line does not run out of input. */
  lemma {:induction false} ServeEndsAtEmptyLine(lines: seq<Line>, answers: seq<Result<Response>>)
    requires |answers| == |lines|
    requires |lines| > 0 && lines[|lines| - 1].text == ""
    ensures Serve(lines, answers).stop != Exhausted
    decreases |lines|
  {
    if lines[0].text != "" {
      assert lines[1..][|lines[1..]| - 1] == lines[|lines| - 1];
      ServeEndsAtEmptyLine(lines[1..], answers[1..]);
    }
  }

  /** Nothing after an empty line is read. */
  lemma {:induction false} ServeStopsAtEmptyLine(before: seq<Line>, blank: Line, after: seq<Line>, answers: seq<Result<Response>>)
    requires blank.text == ""
    requires |answers| == |before| + 1 + |after|
    ensures Serve(before + [blank] + after, answers) == Serve(before + [blank], answers[..|before| + 1])
  {
    var upto := before + [blank];
    var aa, ab := answers[..|before| + 1], answers[|before| + 1..];
    assert aa + ab == answers;
    ServeEndsAtEmptyLine(upto, aa);
    ServeConcat(upto, aa, after, ab);
  }

  /** The server: a router (its root, prefixed by the server name) with an output stream. */
  class RpcServer {
    const serverName: string
    const root: RpcRouter
    /** The responses written so far. */
    var output: seq<Response>
    var writerOpen: bool

    constructor (serverName: string)
      ensures this.serverName == serverName
      ensures fresh(root) && root.Valid() && root.Repr == {root} && root.prefix == serverName
      ensures root.methods == map[] && root.middlewares == [] && root.subRouters == map[]
      ensures output == [] && writerOpen
    {
      this.serverName := serverName;
      root := new RpcRouter(serverName);
      output := [];
      writerOpen := true;
    }

    /**
     * `handle_request`: a line that is not JSON fails with Parse Error before
     * anything else; an invalid request fails as validation does; then the
     * segments are resolved from the root, and the middleware chain runs
     * over the collected middlewares with the execution as its handler. A
     * middleware may answer itself; only an execution changes the world.
     */
    function Handle<W>(line: Line, env: Env<W>, w: W): (r: Handled<W, Response>)
      reads root, root.Repr
      requires root.Valid()
      ensures line.parsed.None? ==> r == Handled(w, Err(Protocol(ParseError)))
      ensures line.parsed.Some? && ValidateRequest(line.parsed.value).Err? ==>
                r == Handled(w, Err(ValidateRequest(line.parsed.value).failure))
      ensures line.parsed.Some? && ValidateRequest(line.parsed.value).Ok? ==>
                var rq := ValidateRequest(line.parsed.value).value;
                var route := Resolve(root, Segments(rq.methodName, serverName), []);
                && (route.Err? ==> r == Handled(w, Err(route.failure)))
                && (route.Ok? && env.chain(route.value.middlewares, rq).Settled? ==>
                      r == Handled(w, env.chain(route.value.middlewares, rq).outcome))
                && (route.Ok? && env.chain(route.value.middlewares, rq).Delegated? ==>
                      var given := env.chain(route.value.middlewares, rq).request;
                      r == Execute(route.value.target, given.params, given.id, env, w))
    {
      match line.parsed
      case None => Handled(w, Err(Protocol(ParseError)))
      case Some(doc) =>
        match ValidateRequest(doc)
        case Err(f) => Handled(w, Err(f))
        case Ok(request) =>
          match Resolve(root, Segments(request.methodName, serverName), [])
          case Err(f) => Handled(w, Err(f))
          case Ok(route) =>
            match env.chain(route.middlewares, request)
            case Settled(outcome) => Handled(w, outcome)
            case Delegated(given) => Execute(route.target, given.params, given.id, env, w)
    }

    method HandleRequest<W>(line: Line, env: Env<W>, w: W) returns (world: W, r: Result<Response>)
      requires root.Valid()
      ensures Handled(world, r) == Handle(line, env, w)
    {
      if line.parsed.None? {
        return w, Err(Protocol(ParseError));
      }
      var request := ValidateRequest(line.parsed.value);
      if request.Err? {
        return w, Err(request.failure);
      }
      var segments := Segments(request.value.methodName, serverName);
      var route := Dispatch(root, segments, []);
      if route.Err? {
        return w, Err(route.failure);
      }
      var chained := env.chain(route.value.middlewares, request.value);
      if chained.Settled? {
        world, r := w, chained.outcome;
      } else {
        world, r := ExecuteMethod(route.value.target, chained.request.params, chained.request.id, env, w);
      }
    }

    /**
     * What handling the lines one after the other gives, over the router
     * tree as it is: each line is handled in the world the lines before it
     * left.
     */
    function Answers<W>(lines: seq<Line>, env: Env<W>, w: W): (answers: seq<Result<Response>>)
      reads root, root.Repr
      requires root.Valid()
      ensures |answers| == |lines|
      ensures lines != [] ==> answers[0] == Handle(lines[0], env, w).answer
      decreases |lines|
    {
      if lines == [] then []
      else
        var h := Handle(lines[0], env, w);
        [h.answer] + Answers(lines[1..], env, h.world)
    }

    /** The world after handling the first i lines in order. */
    function WorldAt<W>(lines: seq<Line>, env: Env<W>, w: W, i: nat): (world: W)
      reads root, root.Repr
      requires root.Valid() && i <= |lines|
      decreases i
    {
      if i == 0 then w else WorldAt(lines[1..], env, Handle(lines[0], env, w).world, i - 1)
    }

    /**
     * The answer to each line is that line handled in the world the lines
     * before it left, so the same line sent twice may be answered
     * differently (a name taken by the first creation, say).
     */
    lemma {:induction false} AnswersAt<W>(lines: seq<Line>, env: Env<W>, w: W)
      requires root.Valid()
      ensures forall i | 0 <= i < |lines| ::
                Answers(lines, env, w)[i] == Handle(lines[i], env, WorldAt(lines, env, w, i)).answer
      decreases |lines|
    {
      if lines != [] {
        var h := Handle(lines[0], env, w);
        AnswersAt(lines[1..], env, h.world);
        forall i | 0 <= i < |lines|
          ensures Answers(lines, env, w)[i] == Handle(lines[i], env, WorldAt(lines, env, w, i)).answer
        {
          if i > 0 {
            assert lines[i] == lines[1..][i - 1];
            assert Answers(lines, env, w)[i] == Answers(lines[1..], env, h.world)[i - 1];
          }
        }
      }
    }

    /** Answering the lines from i on: line i in the current world, the rest in the world it leaves. */
    lemma {:induction false} AnswersStep<W>(lines: seq<Line>, env: Env<W>, w: W, i: nat, answers: seq<Result<Response>>)
      requires root.Valid() && i < |lines| && i <= |answers|
      requires answers[i..] == Answers(lines[i..], env, w)
      ensures answers[i] == Handle(lines[i], env, w).answer
      ensures answers[i + 1..] == Answers(lines[i + 1..], env, Handle(lines[i], env, w).world)
    {
      assert lines[i..][0] == lines[i] && lines[i..][1..] == lines[i + 1..];
      assert answers[i..][0] == answers[i] && answers[i..][1..] == answers[i + 1..];
    }

    /** Handling line i in the current world gives its answer and the world the later lines are answered in. */
    method AnswerLine<W>(lines: seq<Line>, env: Env<W>, w: W, i: nat, ghost answers: seq<Result<Response>>)
      returns (next: W, r: Result<Response>)
      requires root.Valid() && i < |lines| && i <= |answers|
      requires answers[i..] == Answers(lines[i..], env, w)
      ensures r == answers[i]
      ensures answers[i + 1..] == Answers(lines[i + 1..], env, next)
    {
      AnswersStep(lines, env, w, i, answers);
      next, r := HandleRequest(lines[i], env, w);
    }

    /**
     * The loop of `_run`: reads and answers lines until an empty one, each in
     * the world the earlier ones left; the errors the server raises for a
     * request and validation errors are dropped, any other exception ends
     * the loop.
     */
    method ServeLines<W>(lines: seq<Line>, env: Env<W>, w: W) returns (written: seq<Response>, stop: Stop)
      requires root.Valid()
      ensures Session(written, stop) == Serve(lines, Answers(lines, env, w))
    {
      ghost var answers := Answers(lines, env, w);
      var world := w;
      var i := 0;
      written := [];
      while true
        invariant 0 <= i <= |lines|
        invariant answers[i..] == Answers(lines[i..], env, world)
        invariant Serve(lines, answers) == Resume(written, Serve(lines[i..], answers[i..]))
        decreases |lines| - i
      {
        ServeHalt(lines, answers, i, written);
        if i == |lines| {
          stop := Exhausted;
          break;
        }
        if lines[i].text == "" {
          stop := EmptyLine;
          break;
        }
        var r: Result<Response>;
        world, r := AnswerLine(lines, env, world, i, answers);
        ServeProgress(lines, answers, i, written);
        if r.Ok? {
          written := written + [r.value];
        } else if r.failure.Fatal? {
          stop := Raised(r.failure.reason);
          break;
        }
        i := i + 1;
      }
    }

    /**
     * `_run`: the responses of the loop are written to the output, and the
     * writer is closed in every case, also when an exception escapes.
     */
    method Run<W>(lines: seq<Line>, env: Env<W>, w: W) returns (stop: Stop)
      requires root.Valid()
      modifies this`output, this`writerOpen
      ensures output == old(output) + Serve(lines, Answers(lines, env, w)).written
      ensures stop == Serve(lines, Answers(lines, env, w)).stop
      ensures !writerOpen
    {
      var written;
      written, stop := ServeLines(lines, env, w);
      output := output + written;
      writerOpen := false;
    }
  }
}

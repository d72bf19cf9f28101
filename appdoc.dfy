/**
 * The server's documentation: a read-only walk of the router tree into a
 * structured description (`docs_json`), and a Markdown rendering of that
 * description (`docs_markdown`).
 *
 * The walk reads routers whose methods and middlewares carry display labels
 * and whose nodes carry a label of their own; such a router is given here as
 * a `DocRouter` value, children in mounting order. Reflection on handlers is
 * replaced by the `Handler` descriptors of the router module.
 */
module AppDoc {
  import opened JsonValue
  import opened Wrappers
  import opened Router
  import PyText

  // ---------------------------------------------------------------------------
  // The tree that is documented
  // ---------------------------------------------------------------------------

  /** A registered method: the name it is registered under, its handler and its display label. */
  datatype LabelledMethod = LabelledMethod(name: string, handler: Handler, labelText: string)

  /** A middleware with its display label. */
  datatype LabelledMiddleware = LabelledMiddleware(middleware: Middleware, labelText: string)

  /** A router node: its prefix, label, methods and middlewares in order, and its sub-routers. */
  datatype DocRouter = DocRouter(prefix: string, labelText: string, methods: seq<LabelledMethod>,
                                 middlewares: seq<LabelledMiddleware>, children: seq<DocRouter>)

  /**
   * The shape every live router tree has, since the router keeps its methods
   * and sub-routers in dicts: method names distinct within a node, prefixes
   * distinct among siblings, all the way down. The walk and the rendering
   * below are defined, and most of their lemmas proved, for any tree;
   * `WalkDistinctKeys` needs this shape.
   */
  predicate WellFormed(node: DocRouter)
    decreases node
  {
    && (forall i, j | 0 <= i < j < |node.methods| :: node.methods[i].name != node.methods[j].name)
    && (forall i, j | 0 <= i < j < |node.children| :: node.children[i].prefix != node.children[j].prefix)
    && (forall i | 0 <= i < |node.children| :: WellFormed(node.children[i]))
  }

  /** The server: its name, version and label, and its root router. */
  datatype DocServer = DocServer(serverName: string, version: string, labelText: string, root: DocRouter)

  // ---------------------------------------------------------------------------
  // The description `docs_json` produces
  // ---------------------------------------------------------------------------

  /**
   * One documented parameter. `typeName` is None where the item's "type" is
   * None; `default` is the item's "default" and `defaultText` its `str()`.
   */
  datatype ParamDoc = ParamDoc(name: string, kind: string, required: bool, typeName: Option<string>,
                               schema: Option<Schema>, default: Json, defaultText: string)

  /** The one item documenting a return annotation. */
  datatype ResultDoc = ResultDoc(typeName: string, schema: Option<Schema>, doc: Option<string>)

  datatype MethodDoc = MethodDoc(name: string, labelText: string, path: string, doc: string,
                                 params: seq<ParamDoc>, results: seq<ResultDoc>)

  datatype MiddlewareDoc = MiddlewareDoc(name: string, labelText: string, doc: string)

  /** A documented router node; `routers` keeps the sub-routers' insertion order. */
  datatype NodeDoc = NodeDoc(labelText: string, methods: seq<MethodDoc>, middlewares: seq<MiddlewareDoc>,
                             routers: seq<SubDoc>)

  /** A `routers` entry: the sub-router's prefix as key, and its walk. */
  datatype SubDoc = SubDoc(prefix: string, tree: NodeDoc)

  datatype ServerDoc = ServerDoc(serverName: string, version: string, labelText: string,
                                 methods: seq<MethodDoc>, middlewares: seq<MiddlewareDoc>, routers: seq<SubDoc>)

  // ---------------------------------------------------------------------------
  // Dotted paths
  // ---------------------------------------------------------------------------

  /** `".".join(filter(None, [prefix, name]))`: empty parts are dropped before joining. */
  function DottedJoin(prefix: string, name: string): (path: string)
    ensures prefix == "" ==> path == name
    ensures name == "" ==> path == prefix
    ensures prefix != "" && name != "" ==> path == prefix + "." + name
  {
    if prefix == "" then name else if name == "" then prefix else prefix + "." + name
  }

  /** The parts that are not empty, in order. */
  function NonEmpty(parts: seq<string>): (kept: seq<string>)
    ensures |kept| <= |parts|
    ensures forall k | 0 <= k < |kept| :: kept[k] != "" && kept[k] in parts
  {
    if parts == [] then []
    else (if parts[0] == "" then [] else [parts[0]]) + NonEmpty(parts[1..])
  }

  /** The dotted name of a chain of prefixes and names, as the walk builds it level by level. */
  function ChainPath(parts: seq<string>): (text: string)
  {
    PyText.Join(NonEmpty(parts), '.')
  }

  lemma {:induction false} NonEmptySnoc(parts: seq<string>, x: string)
    ensures NonEmpty(parts + [x]) == NonEmpty(parts) + (if x == "" then [] else [x])
    decreases |parts|
  {
    if parts == [] {
      assert NonEmpty([x]) == (if x == "" then [] else [x]) + NonEmpty([]);
    } else {
      assert (parts + [x])[1..] == parts[1..] + [x];
      NonEmptySnoc(parts[1..], x);
    }
  }

  /** A chain whose parts are all non-empty is kept whole. */
  lemma {:induction false} NonEmptyKeepsAll(parts: seq<string>)
    requires forall k | 0 <= k < |parts| :: parts[k] != ""
    ensures NonEmpty(parts) == parts
    decreases |parts|
  {
    if parts != [] {
      NonEmptyKeepsAll(parts[1..]);
      assert [parts[0]] + parts[1..] == parts;
    }
  }

  lemma {:induction false} JoinSnoc(pieces: seq<string>, x: string)
    ensures PyText.Join(pieces + [x], '.') ==
              if pieces == [] then x else PyText.Join(pieces, '.') + "." + x
    decreases |pieces|
  {
    if |pieces| > 1 {
      assert (pieces + [x])[1..] == pieces[1..] + [x];
      JoinSnoc(pieces[1..], x);
    } else if |pieces| == 1 {
      assert (pieces + [x])[1..] == [x];
    }
  }

  /** Joining non-empty pieces gives the empty string only when there are no pieces. */
  lemma {:induction false} JoinEmpty(pieces: seq<string>)
    requires forall k | 0 <= k < |pieces| :: pieces[k] != ""
    ensures PyText.Join(pieces, '.') == "" <==> pieces == []
  {
    if |pieces| > 1 {
      assert |PyText.Join(pieces, '.')| >= |pieces[0]|;
    }
  }

  /** One level of the walk: the dotted name of a chain, extended by one part, is the chain's own extended by that part. */
  lemma {:induction false} ChainStep(parts: seq<string>, x: string)
    ensures DottedJoin(ChainPath(parts), x) == ChainPath(parts + [x])
  {
    var kept := NonEmpty(parts);
    NonEmptySnoc(parts, x);
    JoinEmpty(kept);
    if x != "" {
      JoinSnoc(kept, x);
      assert ChainPath(parts + [x]) == PyText.Join(kept + [x], '.');
      if kept == [] {
        assert ChainPath(parts) == "";
      } else {
        assert ChainPath(parts) != "";
      }
    } else {
      assert kept + [] == kept;
    }
  }

  /**
   * A documented path is the dispatcher's path back: when no part of the chain
   * is empty or holds a dot, splitting its dotted name on "." gives the chain.
   */
  lemma {:induction false} ChainPathSplits(parts: seq<string>)
    requires parts != []
    requires forall k | 0 <= k < |parts| :: parts[k] != "" && '.' !in parts[k]
    ensures PyText.Split(ChainPath(parts), '.') == parts
  {
    NonEmptyKeepsAll(parts);
    PyText.SplitOfJoin(parts, '.');
  }

  // ---------------------------------------------------------------------------
  // serialize_params, serialize_results
  // ---------------------------------------------------------------------------

  /** The internal injected type: a class whose `__name__` is "IOWrite". */
  predicate IsIOWrite(a: Annotation)
  {
    (a.ModelClass? || a.PlainClass?) && a.name == "IOWrite"
  }

  /** `is_custom_type`: a class defined outside `builtins` and `typing`. */
  predicate IsCustomType(a: Annotation)
  {
    (a.ModelClass? || a.PlainClass?) && a.moduleName != "builtins" && a.moduleName != "typing"
  }

  /** The "type" entry of an item: None without an annotation, a class's name, or the annotation's `str()`. */
  function TypeTag(a: Annotation): (tag: Option<string>)
    ensures tag.None? <==> a.Unannotated?
    ensures a.ModelClass? || a.PlainClass? ==> tag == Some(a.name)
    ensures a.NotAClass? ==> tag == Some(a.text)
    ensures a.NoneValue? ==> tag == Some("None")
  {
    match a
    case Unannotated => None
    case NoneValue => Some("None")
    case ModelClass(name, _, _, _) => Some(name)
    case PlainClass(name, _, _) => Some(name)
    case NotAClass(text) => Some(text)
  }

  /** The "schema" entry: present exactly for a pydantic model. */
  function SchemaOf(a: Annotation): (s: Option<Schema>)
    ensures s.Some? <==> a.ModelClass?
  {
    if a.ModelClass? then Some(a.schema) else None
  }

  /** The item documenting one parameter. */
  function ParamDocOf(p: ParamDesc): (d: ParamDoc)
    ensures d.name == p.name && d.kind == p.kind
    ensures d.required <==> p.default.NoDefault?
    ensures d.typeName == TypeTag(p.annotation) && d.schema == SchemaOf(p.annotation)
    ensures p.default.NoDefault? ==> d.default == JNull
    ensures p.default.HasDefault? && p.default.value.JsonDefault? ==>
              d.default == p.default.value.value && d.defaultText == p.default.value.text
    ensures p.default.HasDefault? && p.default.value.OpaqueDefault? ==>
              d.default == JStr(p.default.value.repr) && d.defaultText == p.default.value.repr
  {
    var shown := match p.default
      case NoDefault => (JNull, "None")
      case HasDefault(JsonDefault(value, text)) => (value, text)
      case HasDefault(OpaqueDefault(repr)) => (JStr(repr), repr);
    ParamDoc(p.name, p.kind, p.default.NoDefault?, TypeTag(p.annotation), SchemaOf(p.annotation),
             shown.0, shown.1)
  }

  /** The parameter items of a handler: one per parameter that is not `IOWrite`, in declaration order. */
  function ParamDocs(ps: seq<ParamDesc>): (docs: seq<ParamDoc>)
    ensures |docs| <= |ps|
  {
    if ps == [] then []
    else (if IsIOWrite(ps[0].annotation) then [] else [ParamDocOf(ps[0])]) + ParamDocs(ps[1..])
  }

  /** Documenting two runs of parameters documents each in turn: the order is kept. */
  lemma {:induction false} ParamDocsAppend(ps: seq<ParamDesc>, qs: seq<ParamDesc>)
    ensures ParamDocs(ps + qs) == ParamDocs(ps) + ParamDocs(qs)
    decreases |ps|
  {
    if ps == [] {
      assert ps + qs == qs;
    } else {
      var head := if IsIOWrite(ps[0].annotation) then [] else [ParamDocOf(ps[0])];
      assert (ps + qs)[0] == ps[0];
      assert (ps + qs)[1..] == ps[1..] + qs;
      ParamDocsAppend(ps[1..], qs);
      assert ParamDocs(ps + qs) == head + (ParamDocs(ps[1..]) + ParamDocs(qs));
      assert head + (ParamDocs(ps[1..]) + ParamDocs(qs)) == (head + ParamDocs(ps[1..])) + ParamDocs(qs);
    }
  }

  /** Exactly the parameters that are not `IOWrite` are documented. */
  lemma {:induction false} ParamDocsKeep(ps: seq<ParamDesc>)
    ensures forall i | 0 <= i < |ps| && !IsIOWrite(ps[i].annotation) :: ParamDocOf(ps[i]) in ParamDocs(ps)
    ensures forall d | d in ParamDocs(ps) ::
              exists i | 0 <= i < |ps| :: !IsIOWrite(ps[i].annotation) && d == ParamDocOf(ps[i])
    decreases |ps|
  {
    if ps != [] {
      ParamDocsKeep(ps[1..]);
      forall d | d in ParamDocs(ps)
        ensures exists i | 0 <= i < |ps| :: !IsIOWrite(ps[i].annotation) && d == ParamDocOf(ps[i])
      {
        if d !in ParamDocs(ps[1..]) {
          assert d == ParamDocOf(ps[0]) && !IsIOWrite(ps[0].annotation);
        } else {
          var i :| 0 <= i < |ps[1..]| && !IsIOWrite(ps[1..][i].annotation) && d == ParamDocOf(ps[1..][i]);
          assert ps[i + 1] == ps[1..][i];
        }
      }
      forall i | 0 <= i < |ps| && !IsIOWrite(ps[i].annotation)
        ensures ParamDocOf(ps[i]) in ParamDocs(ps)
      {
        if i > 0 {
          assert ps[1..][i - 1] == ps[i];
        }
      }
    }
  }

  /** Documenting the parameters from i on: parameter i's item, if kept, then the rest. */
  lemma {:induction false} ParamDocsFrom(ps: seq<ParamDesc>, i: nat, docs: seq<ParamDoc>)
    requires i < |ps|
    ensures docs + ParamDocs(ps[i..])
            == (docs + (if IsIOWrite(ps[i].annotation) then [] else [ParamDocOf(ps[i])])) + ParamDocs(ps[i + 1..])
  {
    assert ps[i..][0] == ps[i] && ps[i..][1..] == ps[i + 1..];
  }

  /** `serialize_params`: the loop over the signature, appending one item per kept parameter. */
  method SerializeParams(ps: seq<ParamDesc>) returns (docs: seq<ParamDoc>)
    ensures docs == ParamDocs(ps)
  {
    docs := [];
    var i := 0;
    while i < |ps|
      invariant 0 <= i <= |ps|
      invariant docs + ParamDocs(ps[i..]) == ParamDocs(ps)
    {
      var p := ps[i];
      ParamDocsFrom(ps, i, docs);
      if !IsIOWrite(p.annotation) {
        docs := docs + [ParamDocOf(p)];
      }
      i := i + 1;
    }
  }

  /**
   * `serialize_results`: nothing for a missing or `None` annotation, otherwise
   * one item, with the docstring of a custom class when it has one.
   */
  function ResultDocs(a: Annotation): (r: seq<ResultDoc>)
    ensures r == [] <==> a.Unannotated? || a.NoneValue?
    ensures |r| <= 1
    ensures r != [] ==> r[0].typeName == TypeTag(a).value && r[0].schema == SchemaOf(a)
    ensures r != [] ==> (r[0].doc.Some? <==> IsCustomType(a) && a.doc != "")
    ensures r != [] && r[0].doc.Some? ==> r[0].doc.value == a.doc
  {
    if a.Unannotated? || a.NoneValue? then []
    else
      var doc := if IsCustomType(a) && a.doc != "" then Some(a.doc) else None;
      [ResultDoc(TypeTag(a).value, SchemaOf(a), doc)]
  }

  // ---------------------------------------------------------------------------
  // walk, docs_json
  // ---------------------------------------------------------------------------

  function MethodDocOf(m: LabelledMethod, fullPrefix: string): (item: MethodDoc)
  {
    MethodDoc(m.name, m.labelText, DottedJoin(fullPrefix, m.name), m.handler.doc,
              ParamDocs(m.handler.params), ResultDocs(m.handler.result))
  }

  function MiddlewareDocOf(mw: LabelledMiddleware): (item: MiddlewareDoc)
  {
    MiddlewareDoc(mw.middleware.name, mw.labelText, mw.middleware.doc)
  }

  /**
   * `walk`: one method item per registered method, its path the dotted join of
   * the prefix and its name; one middleware item per middleware; and one
   * `routers` entry per sub-router, keyed by its prefix, holding that
   * sub-router's walk under the extended prefix.
   */
  function Walk(node: DocRouter, fullPrefix: string): (d: NodeDoc)
    ensures d.labelText == node.labelText
    ensures |d.methods| == |node.methods| && |d.middlewares| == |node.middlewares|
    ensures |d.routers| == |node.children|
    ensures forall i | 0 <= i < |d.methods| ::
              && d.methods[i].name == node.methods[i].name
              && d.methods[i].labelText == node.methods[i].labelText
              && d.methods[i].path == DottedJoin(fullPrefix, node.methods[i].name)
    ensures forall i | 0 <= i < |d.middlewares| ::
              d.middlewares[i] == MiddlewareDoc(node.middlewares[i].middleware.name, node.middlewares[i].labelText,
                                                node.middlewares[i].middleware.doc)
    ensures forall i | 0 <= i < |d.routers| ::
              && d.routers[i].prefix == node.children[i].prefix
              && d.routers[i].tree == Walk(node.children[i], DottedJoin(fullPrefix, node.children[i].prefix))
    decreases node
  {
    NodeDoc(node.labelText,
            seq(|node.methods|, i requires 0 <= i < |node.methods| => MethodDocOf(node.methods[i], fullPrefix)),
            seq(|node.middlewares|, i requires 0 <= i < |node.middlewares| => MiddlewareDocOf(node.middlewares[i])),
            seq(|node.children|, i requires 0 <= i < |node.children| =>
                  SubDoc(node.children[i].prefix,
                         Walk(node.children[i], DottedJoin(fullPrefix, node.children[i].prefix)))))
  }

  /**
   * A description in which no two methods of a node share a name and no two
   * `routers` entries share a prefix, all the way down: `docs_json` builds
   * `routers` as a dict keyed by prefix, so with this shape no entry of it
   * overwrites another.
   */
  predicate DistinctKeys(d: NodeDoc)
    decreases d
  {
    && (forall i, j | 0 <= i < j < |d.methods| :: d.methods[i].name != d.methods[j].name)
    && (forall i, j | 0 <= i < j < |d.routers| :: d.routers[i].prefix != d.routers[j].prefix)
    && (forall i | 0 <= i < |d.routers| :: DistinctKeys(d.routers[i].tree))
  }

  /** The walk of a well-formed tree has distinct keys at every node, whatever the prefix. */
  lemma {:induction false} WalkDistinctKeys(node: DocRouter, fullPrefix: string)
    requires WellFormed(node)
    ensures DistinctKeys(Walk(node, fullPrefix))
    decreases node
  {
    var d := Walk(node, fullPrefix);
    forall i | 0 <= i < |d.routers|
      ensures DistinctKeys(d.routers[i].tree)
    {
      WalkDistinctKeys(node.children[i], DottedJoin(fullPrefix, node.children[i].prefix));
    }
  }

  /** `docs_json`: the walk of the root from the empty prefix, with the server's name, version and label. */
  function DocsJson(s: DocServer): (d: ServerDoc)
    ensures d.serverName == s.serverName && d.version == s.version && d.labelText == s.labelText
    ensures d.methods == Walk(s.root, "").methods
    ensures d.middlewares == Walk(s.root, "").middlewares
    ensures d.routers == Walk(s.root, "").routers
  {
    var tree := Walk(s.root, "");
    ServerDoc(s.serverName, s.version, s.labelText, tree.methods, tree.middlewares, tree.routers)
  }

  // ---------------------------------------------------------------------------
  // Every registered method is documented at its dotted path
  // ---------------------------------------------------------------------------

  /** A registered method together with the chain of prefixes leading to its router. */
  datatype Registration = Registration(chain: seq<string>, entry: LabelledMethod)

  /** Every method of a tree with its chain, depth first: a node's own methods, then each sub-router's. */
  function Registrations(node: DocRouter, chain: seq<string>): (regs: seq<Registration>)
    decreases node, |node.children| + 1
  {
    seq(|node.methods|, i requires 0 <= i < |node.methods| => Registration(chain, node.methods[i]))
    + ChildRegistrations(node, 0, chain)
  }

  function ChildRegistrations(node: DocRouter, i: nat, chain: seq<string>): (regs: seq<Registration>)
    requires i <= |node.children|
    decreases node, |node.children| - i
  {
    if i == |node.children| then []
    else Registrations(node.children[i], chain + [node.children[i].prefix])
         + ChildRegistrations(node, i + 1, chain)
  }

  /** Every method item of a documented tree, in the same depth-first order. */
  function AllMethods(d: NodeDoc): (items: seq<MethodDoc>)
    decreases d, |d.routers| + 1
  {
    d.methods + ChildMethods(d, 0)
  }

  function ChildMethods(d: NodeDoc, i: nat): (items: seq<MethodDoc>)
    requires i <= |d.routers|
    decreases d, |d.routers| - i
  {
    if i == |d.routers| then [] else AllMethods(d.routers[i].tree) + ChildMethods(d, i + 1)
  }

  /** What documenting each registration on its own gives. */
  function DocsOf(regs: seq<Registration>): (docs: seq<MethodDoc>)
    ensures |docs| == |regs|
    ensures forall k | 0 <= k < |regs| :: docs[k] == MethodDocOf(regs[k].entry, ChainPath(regs[k].chain))
  {
    seq(|regs|, k requires 0 <= k < |regs| => MethodDocOf(regs[k].entry, ChainPath(regs[k].chain)))
  }

  lemma {:induction false} DocsOfAppend(a: seq<Registration>, b: seq<Registration>)
    ensures DocsOf(a + b) == DocsOf(a) + DocsOf(b)
  {
    assert forall k | 0 <= k < |a + b| :: DocsOf(a + b)[k] == (DocsOf(a) + DocsOf(b))[k];
  }

  /**
   * The walk documents every registered method of the tree exactly once and in
   * order, each as the method documented under its chain's dotted name.
   */
  lemma {:induction false} WalkDocumentsAll(node: DocRouter, chain: seq<string>)
    ensures AllMethods(Walk(node, ChainPath(chain))) == DocsOf(Registrations(node, chain))
    decreases node, |node.children| + 1
  {
    var d := Walk(node, ChainPath(chain));
    var own := seq(|node.methods|, i requires 0 <= i < |node.methods| => Registration(chain, node.methods[i]));
    assert d.methods == DocsOf(own);
    WalkDocumentsChildren(node, 0, chain);
    DocsOfAppend(own, ChildRegistrations(node, 0, chain));
  }

  lemma {:induction false} WalkDocumentsChildren(node: DocRouter, i: nat, chain: seq<string>)
    requires i <= |node.children|
    ensures ChildMethods(Walk(node, ChainPath(chain)), i) == DocsOf(ChildRegistrations(node, i, chain))
    decreases node, |node.children| - i
  {
    if i < |node.children| {
      var child := node.children[i];
      var d := Walk(node, ChainPath(chain));
      ChainStep(chain, child.prefix);
      assert d.routers[i].tree == Walk(child, ChainPath(chain + [child.prefix]));
      WalkDocumentsAll(child, chain + [child.prefix]);
      WalkDocumentsChildren(node, i + 1, chain);
      DocsOfAppend(Registrations(child, chain + [child.prefix]), ChildRegistrations(node, i + 1, chain));
    }
  }

  /**
   * In `docs_json`, the k-th documented method is the k-th registered one, and
   * its path is the dotted name of its chain of prefixes followed by its name.
   */
  lemma {:induction false} DocumentedPaths(s: DocServer)
    ensures |AllMethods(Walk(s.root, ""))| == |Registrations(s.root, [])|
    ensures forall k | 0 <= k < |Registrations(s.root, [])| ::
              && AllMethods(Walk(s.root, ""))[k].name == Registrations(s.root, [])[k].entry.name
              && AllMethods(Walk(s.root, ""))[k].path ==
                 ChainPath(Registrations(s.root, [])[k].chain + [Registrations(s.root, [])[k].entry.name])
  {
    assert ChainPath([]) == "";
    WalkDocumentsAll(s.root, []);
    var regs := Registrations(s.root, []);
    forall k | 0 <= k < |regs|
      ensures AllMethods(Walk(s.root, ""))[k].path == ChainPath(regs[k].chain + [regs[k].entry.name])
    {
      ChainStep(regs[k].chain, regs[k].entry.name);
    }
  }

  // ---------------------------------------------------------------------------
  // Markdown: the pieces
  // ---------------------------------------------------------------------------

  /** Concatenation of the lines each element renders to. */
  function FlatMap<T>(xs: seq<T>, f: T -> seq<string>): (lines: seq<string>)
  {
    if xs == [] then [] else f(xs[0]) + FlatMap(xs[1..], f)
  }

  lemma {:induction false} FlatMapAppend<T>(xs: seq<T>, ys: seq<T>, f: T -> seq<string>)
    ensures FlatMap(xs + ys, f) == FlatMap(xs, f) + FlatMap(ys, f)
    decreases |xs|
  {
    if xs == [] {
      assert xs + ys == ys;
    } else {
      assert (xs + ys)[1..] == xs[1..] + ys;
      FlatMapAppend(xs[1..], ys, f);
    }
  }

  lemma {:induction false} FlatMapSnoc<T>(xs: seq<T>, i: nat, f: T -> seq<string>)
    requires i < |xs|
    ensures FlatMap(xs[..i + 1], f) == FlatMap(xs[..i], f) + f(xs[i])
  {
    assert xs[..i + 1] == xs[..i] + [xs[i]];
    FlatMapAppend(xs[..i], [xs[i]], f);
    assert FlatMap([xs[i]], f) == f(xs[i]) + FlatMap([], f);
  }

  /** Regrouping appended lines. */
  lemma {:induction false} Assoc(a: seq<string>, b: seq<string>, c: seq<string>)
    ensures a + b + c == a + (b + c)
  {
  }

  /** A table row: each cell between single spaces, closed by a bar. */
  function Row(cells: seq<string>): (text: string)
  {
    "|" + Cells(cells)
  }

  function Cells(cells: seq<string>): (text: string)
  {
    if cells == [] then "" else " " + cells[0] + " |" + Cells(cells[1..])
  }

  /** The cells with the spaces around them, as they stand between the bars. */
  function Padded(cells: seq<string>): (padded: seq<string>)
    ensures |padded| == |cells|
    ensures forall k | 0 <= k < |cells| :: padded[k] == " " + cells[k] + " "
  {
    seq(|cells|, k requires 0 <= k < |cells| => " " + cells[k] + " ")
  }

  lemma {:induction false} CellsSplit(cells: seq<string>)
    requires forall k | 0 <= k < |cells| :: '|' !in cells[k]
    ensures PyText.Split(Cells(cells), '|') == Padded(cells) + [""]
    decreases |cells|
  {
    if cells != [] {
      var first := " " + cells[0] + " ";
      assert Cells(cells) == first + ['|'] + Cells(cells[1..]);
      PyText.SplitAfterPiece(first, '|', Cells(cells[1..]));
      CellsSplit(cells[1..]);
      assert Padded(cells) == [first] + Padded(cells[1..]);
    }
  }

  /** A row read back by splitting on the bar gives its cells, one per column, when no cell holds a bar. */
  lemma {:induction false} RowSplit(cells: seq<string>)
    requires forall k | 0 <= k < |cells| :: '|' !in cells[k]
    ensures PyText.Split(Row(cells), '|') == [""] + Padded(cells) + [""]
  {
    PyText.SplitAfterPiece("", '|', Cells(cells));
    assert Row(cells) == "" + ['|'] + Cells(cells);
    CellsSplit(cells);
  }

  /** A label shown after a heading or name, only when it is not empty. */
  function LabelSuffix(labelText: string): (suffix: string)
    ensures suffix == "" <==> labelText == ""
  {
    if labelText != "" then " `" + labelText + "`" else ""
  }

  /** `str(doc).strip().splitlines()`. */
  function DocLines(doc: string): (lines: seq<string>)
  {
    PyText.SplitLines(PyText.Strip(doc))
  }

  /** The block a schema adds under its row: a blank line and the pretty-printed JSON fenced as `json`. */
  function SchemaBlock(schema: Option<Schema>): (block: seq<string>)
    ensures block == [] <==> schema.None? || !Truthy(schema.value.value)
    ensures block != [] ==> |block| == 4 && block[2] == schema.value.pretty
  {
    if schema.Some? && Truthy(schema.value.value) then ["", "```json", schema.value.pretty, "```"] else []
  }

  /** The type column: the type's name, or "-" when it is None or empty. */
  function TypeCell(p: ParamDoc): (cell: string)
    ensures p.typeName.Some? && p.typeName.value != "" ==> cell == p.typeName.value
    ensures p.typeName.None? || p.typeName.value == "" ==> cell == "-"
  {
    if p.typeName.Some? && p.typeName.value != "" then p.typeName.value else "-"
  }

  /** The required column: 是 exactly for a required parameter, otherwise 否. */
  function RequiredCell(p: ParamDoc): (cell: string)
    ensures cell == "是" <==> p.required
    ensures cell == "否" <==> !p.required
  {
    if p.required then "是" else "否"
  }

  /** The default column: "-" exactly when the documented default is None, otherwise its text in backticks. */
  function DefaultCell(p: ParamDoc): (cell: string)
    ensures cell == "-" <==> p.default == JNull
    ensures p.default != JNull ==> cell == "`" + p.defaultText + "`"
  {
    if p.default == JNull then "-" else "`" + p.defaultText + "`"
  }

  function ParamCells(p: ParamDoc): (lines: seq<string>)
  {
    ["`" + p.name + "`", TypeCell(p), RequiredCell(p), DefaultCell(p)]
  }

  /** One parameter: its row, then its schema block. */
  function ParamBlock(p: ParamDoc): (block: seq<string>)
    ensures |block| >= 1 && block[0] == Row(ParamCells(p))
  {
    [Row(ParamCells(p))] + SchemaBlock(p.schema)
  }

  const ParamHeader := "| 参数名 | 类型 | 必填 | 默认值 |"
  const ParamRule := "| --- | --- | --- | --- |"
  const ResultHeader := "| 类型 | 说明 |"
  const ResultRule := "| --- | --- |"

  /** `render_params`. */
  function ParamsLines(ps: seq<ParamDoc>): (lines: seq<string>)
  {
    if ps == [] then ["*无参数*"] else [ParamHeader, ParamRule] + FlatMap(ps, ParamBlock) + [""]
  }

  function ResultCells(r: ResultDoc): (lines: seq<string>)
  {
    [r.typeName, if r.doc.Some? && r.doc.value != "" then r.doc.value else "-"]
  }

  function ResultBlock(r: ResultDoc): (lines: seq<string>)
  {
    [Row(ResultCells(r))] + SchemaBlock(r.schema)
  }

  /** `render_results`. */
  function ResultsLines(rs: seq<ResultDoc>): (lines: seq<string>)
  {
    if rs == [] then ["*无返回说明*"]
    else [ResultHeader, ResultRule] + FlatMap(rs, ResultBlock) + [""]
  }

  /** A method's heading line. */
  function MethodHeading(m: MethodDoc, headingPrefix: string): (text: string)
  {
    headingPrefix + " " + m.path + LabelSuffix(m.labelText)
  }

  /** What `render_methods` writes for one method. */
  function MethodLines(m: MethodDoc, headingPrefix: string): (lines: seq<string>)
    ensures |lines| > 0 && lines[0] == MethodHeading(m, headingPrefix)
  {
    MethodIntro(m, headingPrefix) + ParamsLines(m.params) + ["**返回**"] + ResultsLines(m.results)
  }

  /** A method's heading, its doc lines followed by a blank line when it has a docstring, and the parameter title. */
  function MethodIntro(m: MethodDoc, headingPrefix: string): (lines: seq<string>)
    ensures |lines| > 0 && lines[0] == MethodHeading(m, headingPrefix)
  {
    [MethodHeading(m, headingPrefix)] + (if m.doc != "" then DocLines(m.doc) + [""] else []) + ["**参数**"]
  }

  /** `render_methods`: each method's lines in turn. */
  function MethodsLines(ms: seq<MethodDoc>, headingPrefix: string): (lines: seq<string>)
  {
    if ms == [] then [] else MethodLines(ms[0], headingPrefix) + MethodsLines(ms[1..], headingPrefix)
  }

  lemma {:induction false} MethodsLinesAppend(ms: seq<MethodDoc>, ns: seq<MethodDoc>, headingPrefix: string)
    ensures MethodsLines(ms + ns, headingPrefix) == MethodsLines(ms, headingPrefix) + MethodsLines(ns, headingPrefix)
    decreases |ms|
  {
    if ms == [] {
      assert ms + ns == ns;
    } else {
      assert (ms + ns)[1..] == ms[1..] + ns;
      MethodsLinesAppend(ms[1..], ns, headingPrefix);
    }
  }

  lemma {:induction false} MethodsLinesSnoc(ms: seq<MethodDoc>, i: nat, headingPrefix: string)
    requires i < |ms|
    ensures MethodsLines(ms[..i + 1], headingPrefix) == MethodsLines(ms[..i], headingPrefix) + MethodLines(ms[i], headingPrefix)
  {
    assert ms[..i + 1] == ms[..i] + [ms[i]];
    MethodsLinesAppend(ms[..i], [ms[i]], headingPrefix);
  }

  /** Every method's heading opens its block, right after the lines of the methods before it. */
  lemma {:induction false} MethodsLinesHeadingAt(ms: seq<MethodDoc>, headingPrefix: string, i: nat)
    requires i < |ms|
    ensures |MethodsLines(ms[..i], headingPrefix)| < |MethodsLines(ms, headingPrefix)|
    ensures MethodsLines(ms, headingPrefix)[|MethodsLines(ms[..i], headingPrefix)|] == MethodHeading(ms[i], headingPrefix)
  {
    assert ms == ms[..i] + ms[i..];
    MethodsLinesAppend(ms[..i], ms[i..], headingPrefix);
    var block := MethodLines(ms[i], headingPrefix);
    assert MethodsLines(ms[i..], headingPrefix) == block + MethodsLines(ms[i + 1..], headingPrefix) by {
      assert ms[i..][0] == ms[i] && ms[i..][1..] == ms[i + 1..];
    }
  }

  /** The line list holds the line somewhere. */
  predicate HasLine(lines: seq<string>, line: string)
  {
    exists k | 0 <= k < |lines| :: lines[k] == line
  }

  lemma {:induction false} HasLineLeft(a: seq<string>, b: seq<string>, line: string)
    requires HasLine(a, line)
    ensures HasLine(a + b, line)
  {
    var k :| 0 <= k < |a| && a[k] == line;
    assert (a + b)[k] == line;
  }

  lemma {:induction false} HasLineRight(a: seq<string>, b: seq<string>, line: string)
    requires HasLine(b, line)
    ensures HasLine(a + b, line)
  {
    var k :| 0 <= k < |b| && b[k] == line;
    assert (a + b)[|a| + k] == line;
  }

  /** Every method gets its heading among the lines `render_methods` writes. */
  lemma {:induction false} MethodsLinesContain(ms: seq<MethodDoc>, headingPrefix: string, i: nat)
    requires i < |ms|
    ensures HasLine(MethodsLines(ms, headingPrefix), MethodHeading(ms[i], headingPrefix))
  {
    MethodsLinesHeadingAt(ms, headingPrefix, i);
  }

  /** A middleware's doc lines, none when it has no docstring. */
  function MiddlewareDocLines(mw: MiddlewareDoc): (lines: seq<string>)
  {
    if mw.doc != "" then DocLines(mw.doc) else []
  }

  /** Doc lines, the first behind one lead and every later one behind another. */
  function Indented(docLines: seq<string>, first: string, rest: string): (lines: seq<string>)
    ensures |lines| == |docLines|
    ensures forall i | 0 <= i < |docLines| :: lines[i] == (if i == 0 then first else rest) + docLines[i]
  {
    seq(|docLines|, i requires 0 <= i < |docLines| => (if i == 0 then first else rest) + docLines[i])
  }

  /** A server-wide middleware: a bold name, its first doc line as an indented item, the rest further in. */
  function GlobalMiddlewareLines(mw: MiddlewareDoc): (lines: seq<string>)
  {
    ["- **" + mw.name + "**" + LabelSuffix(mw.labelText)] + Indented(MiddlewareDocLines(mw), "\n\t- ", "\t\t") + [""]
  }

  /** A router's middleware: the name in backticks and its doc lines indented by two spaces. */
  function RouterMiddlewareLines(mw: MiddlewareDoc): (lines: seq<string>)
  {
    ["- `" + mw.name + "`" + LabelSuffix(mw.labelText)] + Indented(MiddlewareDocLines(mw), "  ", "  ")
  }

  /** The name a router's heading shows: the parent's full name, a dot and its own, or its own at the top. */
  function HeadingName(prefix: string, name: string): (full: string)
    ensures prefix == "" ==> full == name
    ensures prefix != "" ==> full == prefix + "." + name
  {
    if prefix != "" then prefix + "." + name else name
  }

  /** For non-empty prefixes, a heading names a router as the walk's dotted join names it. */
  lemma {:induction false} HeadingMatchesPath(parts: seq<string>, name: string)
    requires name != ""
    ensures HeadingName(ChainPath(parts), name) == DottedJoin(ChainPath(parts), name) == ChainPath(parts + [name])
  {
    ChainStep(parts, name);
  }

  /** The opening lines of a router section: heading, methods and middlewares. */
  function RouterHead(name: string, r: NodeDoc, prefix: string): (lines: seq<string>)
  {
    ["## 路由 " + HeadingName(prefix, name) + LabelSuffix(r.labelText)]
    + RouterMethodSection(r.methods) + RouterMiddlewareSection(r.middlewares)
  }

  function RouterMethodSection(ms: seq<MethodDoc>): (lines: seq<string>)
  {
    if ms != [] then MethodsLines(ms, "###") else []
  }

  function RouterMiddlewareSection(mws: seq<MiddlewareDoc>): (lines: seq<string>)
  {
    if mws != [] then ["**中间件**"] + FlatMap(mws, RouterMiddlewareLines) + [""] else []
  }

  /** `render_router`: its own section, then each sub-router's under the full name. */
  function RouterLines(name: string, r: NodeDoc, prefix: string): (lines: seq<string>)
    decreases r, |r.routers| + 1
  {
    RouterHead(name, r, prefix) + ChildrenLines(r, 0, HeadingName(prefix, name))
  }

  function ChildrenLines(r: NodeDoc, i: nat, fullName: string): (lines: seq<string>)
    requires i <= |r.routers|
    decreases r, |r.routers| - i
  {
    if i == |r.routers| then []
    else RouterLines(r.routers[i].prefix, r.routers[i].tree, fullName) + ChildrenLines(r, i + 1, fullName)
  }

  /** The documented tree as the top-level router section sees it: the server's label, its methods, middlewares and routers. */
  function TopNode(doc: ServerDoc): (node: NodeDoc)
    ensures node.methods == doc.methods && node.routers == doc.routers
  {
    NodeDoc(doc.labelText, doc.methods, doc.middlewares, doc.routers)
  }

  /** The title block: server name in upper case, version, and the label when there is one. */
  function TitleLines(doc: ServerDoc): (lines: seq<string>)
  {
    ["# " + PyText.Upper(doc.serverName) + " API 文档", "", "- 版本: `" + doc.version + "`"]
    + (if doc.labelText != "" then ["- 描述: " + doc.labelText] else [])
    + [""]
  }

  /** The server-wide middleware section, present only when there are middlewares. */
  function GlobalMiddlewareSection(mws: seq<MiddlewareDoc>): (lines: seq<string>)
  {
    if mws != [] then ["## 全局中间件"] + FlatMap(mws, GlobalMiddlewareLines) + [""] else []
  }

  /** The top-level method section, present only when there are top-level methods. */
  function TopMethodSection(ms: seq<MethodDoc>): (lines: seq<string>)
  {
    if ms != [] then ["## 顶层方法"] + MethodsLines(ms, "###") else []
  }

  /** Every line `docs_markdown` collects before joining. */
  function MarkdownLines(doc: ServerDoc): (lines: seq<string>)
    ensures TitleLines(doc) <= lines
    ensures lines[0] == "# " + PyText.Upper(doc.serverName) + " API 文档"
    ensures doc.middlewares != [] ==> "## 全局中间件" in lines
    ensures doc.methods != [] ==> "## 顶层方法" in lines
  {
    TitleLines(doc) + GlobalMiddlewareSection(doc.middlewares) + TopMethodSection(doc.methods)
    + ChildrenLines(TopNode(doc), 0, "")
  }

  // ---------------------------------------------------------------------------
  // Markdown: what the rendering promises
  // ---------------------------------------------------------------------------

  function SchemaCount(ps: seq<ParamDoc>): (count: nat)
  {
    if ps == [] then 0 else (if SchemaBlock(ps[0].schema) == [] then 0 else 1) + SchemaCount(ps[1..])
  }

  lemma {:induction false} ParamBlocksLength(ps: seq<ParamDoc>)
    ensures |FlatMap(ps, ParamBlock)| == |ps| + 4 * SchemaCount(ps)
    decreases |ps|
  {
    if ps != [] {
      ParamBlocksLength(ps[1..]);
    }
  }

  /**
   * `render_params` on an empty list writes only the no-parameter marker;
   * otherwise the header, the rule, a row per parameter (each followed by
   * its schema block) and a blank line.
   */
  lemma {:induction false} ParamsLinesShape(ps: seq<ParamDoc>)
    ensures ps == [] ==> ParamsLines(ps) == ["*无参数*"]
    ensures ps != [] ==> |ParamsLines(ps)| == 3 + |ps| + 4 * SchemaCount(ps)
    ensures ps != [] ==> ParamsLines(ps)[0] == ParamHeader && ParamsLines(ps)[|ParamsLines(ps)| - 1] == ""
  {
    ParamBlocksLength(ps);
  }

  /** The row of the i-th parameter stands after the header, the rule, the rows before it and their schema blocks. */
  lemma {:induction false} ParamRowAt(ps: seq<ParamDoc>, i: nat)
    requires i < |ps|
    ensures 2 + i + 4 * SchemaCount(ps[..i]) < |ParamsLines(ps)|
    ensures ParamsLines(ps)[2 + i + 4 * SchemaCount(ps[..i])] == Row(ParamCells(ps[i]))
  {
    assert ps == ps[..i] + ps[i..];
    FlatMapAppend(ps[..i], ps[i..], ParamBlock);
    ParamBlocksLength(ps[..i]);
    assert FlatMap(ps[i..], ParamBlock) == ParamBlock(ps[i]) + FlatMap(ps[i + 1..], ParamBlock) by {
      assert ps[i..][0] == ps[i] && ps[i..][1..] == ps[i + 1..];
    }
  }

  /** Every method of a router section, and of the sections below it, gets a heading with its path. */
  lemma {:induction false} RouterHeadings(name: string, r: NodeDoc, prefix: string)
    ensures forall m | m in AllMethods(r) :: HasLine(RouterLines(name, r, prefix), MethodHeading(m, "###"))
    decreases r, |r.routers| + 1
  {
    var head, children := RouterHead(name, r, prefix), ChildrenLines(r, 0, HeadingName(prefix, name));
    assert RouterLines(name, r, prefix) == head + children;
    forall m | m in AllMethods(r)
      ensures HasLine(head + children, MethodHeading(m, "###"))
    {
      if m in r.methods {
        var i :| 0 <= i < |r.methods| && r.methods[i] == m;
        MethodsLinesContain(r.methods, "###", i);
        var heading := ["## 路由 " + HeadingName(prefix, name) + LabelSuffix(r.labelText)];
        assert head == heading + MethodsLines(r.methods, "###") + RouterMiddlewareSection(r.middlewares);
        HasLineRight(heading, MethodsLines(r.methods, "###"), MethodHeading(m, "###"));
        HasLineLeft(heading + MethodsLines(r.methods, "###"), RouterMiddlewareSection(r.middlewares), MethodHeading(m, "###"));
        HasLineLeft(head, children, MethodHeading(m, "###"));
      } else {
        assert m in ChildMethods(r, 0);
        ChildHeadings(r, 0, HeadingName(prefix, name));
        HasLineRight(head, children, MethodHeading(m, "###"));
      }
    }
  }

  lemma {:induction false} ChildHeadings(r: NodeDoc, i: nat, fullName: string)
    requires i <= |r.routers|
    ensures forall m | m in ChildMethods(r, i) :: HasLine(ChildrenLines(r, i, fullName), MethodHeading(m, "###"))
    decreases r, |r.routers| - i
  {
    if i < |r.routers| {
      var child := r.routers[i];
      var first, rest := RouterLines(child.prefix, child.tree, fullName), ChildrenLines(r, i + 1, fullName);
      assert ChildrenLines(r, i, fullName) == first + rest;
      assert ChildMethods(r, i) == AllMethods(child.tree) + ChildMethods(r, i + 1);
      RouterHeadings(child.prefix, child.tree, fullName);
      ChildHeadings(r, i + 1, fullName);
      forall m | m in ChildMethods(r, i)
        ensures HasLine(first + rest, MethodHeading(m, "###"))
      {
        if m in AllMethods(child.tree) {
          HasLineLeft(first, rest, MethodHeading(m, "###"));
        } else {
          HasLineRight(first, rest, MethodHeading(m, "###"));
        }
      }
    }
  }

  /** Every method of the documented tree, at any depth, gets a heading with its path in the Markdown. */
  lemma {:induction false} MarkdownHeadings(doc: ServerDoc)
    ensures forall m | m in AllMethods(TopNode(doc)) :: HasLine(MarkdownLines(doc), MethodHeading(m, "###"))
  {
    var front := TitleLines(doc) + GlobalMiddlewareSection(doc.middlewares);
    var top, routers := TopMethodSection(doc.methods), ChildrenLines(TopNode(doc), 0, "");
    assert MarkdownLines(doc) == front + top + routers;
    ChildHeadings(TopNode(doc), 0, "");
    forall m | m in AllMethods(TopNode(doc))
      ensures HasLine(front + top + routers, MethodHeading(m, "###"))
    {
      if m in doc.methods {
        var i :| 0 <= i < |doc.methods| && doc.methods[i] == m;
        MethodsLinesContain(doc.methods, "###", i);
        assert top == ["## 顶层方法"] + MethodsLines(doc.methods, "###");
        HasLineRight(["## 顶层方法"], MethodsLines(doc.methods, "###"), MethodHeading(m, "###"));
        HasLineRight(front, top, MethodHeading(m, "###"));
        HasLineLeft(front + top, routers, MethodHeading(m, "###"));
      } else {
        HasLineRight(front + top, routers, MethodHeading(m, "###"));
      }
    }
  }

  /** Method items depend only on a node's own methods and its sub-routers. */
  lemma {:induction false} ChildMethodsOfRouters(d: NodeDoc, e: NodeDoc, i: nat)
    requires d.routers == e.routers && i <= |d.routers|
    ensures ChildMethods(d, i) == ChildMethods(e, i)
    decreases |d.routers| - i
  {
    if i < |d.routers| {
      ChildMethodsOfRouters(d, e, i + 1);
    }
  }

  /** The method items `docs_markdown` renders are the registered methods, each headed by its dotted path. */
  lemma {:induction false} RegisteredMethodItems(s: DocServer)
    ensures |AllMethods(TopNode(DocsJson(s)))| == |Registrations(s.root, [])|
    ensures forall k | 0 <= k < |Registrations(s.root, [])| ::
              MethodHeading(AllMethods(TopNode(DocsJson(s)))[k], "###")
              == "### " + ChainPath(Registrations(s.root, [])[k].chain + [Registrations(s.root, [])[k].entry.name])
                 + LabelSuffix(Registrations(s.root, [])[k].entry.labelText)
  {
    var tree, regs := Walk(s.root, ""), Registrations(s.root, []);
    var all := AllMethods(TopNode(DocsJson(s)));
    DocumentedPaths(s);
    assert ChainPath([]) == "";
    WalkDocumentsAll(s.root, []);
    ChildMethodsOfRouters(tree, TopNode(DocsJson(s)), 0);
    assert all == AllMethods(tree);
    forall k | 0 <= k < |regs|
      ensures MethodHeading(all[k], "###")
              == "### " + ChainPath(regs[k].chain + [regs[k].entry.name]) + LabelSuffix(regs[k].entry.labelText)
    {
      assert all[k] == MethodDocOf(regs[k].entry, ChainPath(regs[k].chain));
    }
  }

  /**
   * `docs_markdown` over `docs_json`: every registered method, at any depth,
   * gets a heading line naming the dotted path of its chain and its name.
   */
  lemma {:induction false} RegisteredMethodsHeaded(s: DocServer)
    ensures forall k | 0 <= k < |Registrations(s.root, [])| ::
              HasLine(MarkdownLines(DocsJson(s)),
                      "### " + ChainPath(Registrations(s.root, [])[k].chain + [Registrations(s.root, [])[k].entry.name])
                      + LabelSuffix(Registrations(s.root, [])[k].entry.labelText))
  {
    var doc, regs := DocsJson(s), Registrations(s.root, []);
    RegisteredMethodItems(s);
    MarkdownHeadings(doc);
    forall k | 0 <= k < |regs|
      ensures HasLine(MarkdownLines(doc), "### " + ChainPath(regs[k].chain + [regs[k].entry.name])
                                          + LabelSuffix(regs[k].entry.labelText))
    {
      var m := AllMethods(TopNode(doc))[k];
      assert m in AllMethods(TopNode(doc));
    }
  }

  // ---------------------------------------------------------------------------
  // Markdown: the renderer appending to its line list
  // ---------------------------------------------------------------------------

  /** The shared `lines` list the `render_*` helpers append to. */
  class MarkdownWriter {
    var lines: seq<string>

    constructor ()
      ensures lines == []
    {
      lines := [];
    }

    method RenderParams(ps: seq<ParamDoc>)
      modifies this
      ensures lines == old(lines) + ParamsLines(ps)
    {
      if ps == [] {
        lines := lines + ["*无参数*"];
        return;
      }
      lines := lines + [ParamHeader, ParamRule];
      ghost var start := lines;
      var i := 0;
      while i < |ps|
        invariant 0 <= i <= |ps|
        invariant lines == start + FlatMap(ps[..i], ParamBlock)
      {
        var p := ps[i];
        FlatMapSnoc(ps, i, ParamBlock);
        Assoc(start, FlatMap(ps[..i], ParamBlock), ParamBlock(p));
        ghost var before := lines;
        lines := lines + [Row(ParamCells(p))];
        if SchemaBlock(p.schema) != [] {
          Assoc(before, [Row(ParamCells(p))], SchemaBlock(p.schema));
          lines := lines + ["", "```json", p.schema.value.pretty, "```"];
        }
        i := i + 1;
      }
      assert ps[..i] == ps;
      lines := lines + [""];
      Assoc(old(lines), [ParamHeader, ParamRule], FlatMap(ps, ParamBlock));
      Assoc(old(lines), [ParamHeader, ParamRule] + FlatMap(ps, ParamBlock), [""]);
    }

    method RenderResults(rs: seq<ResultDoc>)
      modifies this
      ensures lines == old(lines) + ResultsLines(rs)
    {
      if rs == [] {
        lines := lines + ["*无返回说明*"];
        return;
      }
      lines := lines + [ResultHeader, ResultRule];
      ghost var start := lines;
      var i := 0;
      while i < |rs|
        invariant 0 <= i <= |rs|
        invariant lines == start + FlatMap(rs[..i], ResultBlock)
      {
        var r := rs[i];
        FlatMapSnoc(rs, i, ResultBlock);
        Assoc(start, FlatMap(rs[..i], ResultBlock), ResultBlock(r));
        ghost var before := lines;
        lines := lines + [Row(ResultCells(r))];
        if SchemaBlock(r.schema) != [] {
          Assoc(before, [Row(ResultCells(r))], SchemaBlock(r.schema));
          lines := lines + ["", "```json", r.schema.value.pretty, "```"];
        }
        i := i + 1;
      }
      assert rs[..i] == rs;
      lines := lines + [""];
      Assoc(old(lines), [ResultHeader, ResultRule], FlatMap(rs, ResultBlock));
      Assoc(old(lines), [ResultHeader, ResultRule] + FlatMap(rs, ResultBlock), [""]);
    }

    /** The lines of one method, written piece by piece. */
    method RenderMethod(m: MethodDoc, headingPrefix: string)
      modifies this
      ensures lines == old(lines) + MethodLines(m, headingPrefix)
    {
      lines := lines + [MethodHeading(m, headingPrefix)];
      if m.doc != "" {
        lines := lines + DocLines(m.doc);
        lines := lines + [""];
      }
      lines := lines + ["**参数**"];
      ghost var intro := MethodIntro(m, headingPrefix);
      assert lines == old(lines) + intro;
      RenderParams(m.params);
      Assoc(old(lines), intro, ParamsLines(m.params));
      lines := lines + ["**返回**"];
      Assoc(old(lines), intro + ParamsLines(m.params), ["**返回**"]);
      RenderResults(m.results);
      Assoc(old(lines), intro + ParamsLines(m.params) + ["**返回**"], ResultsLines(m.results));
    }

    method RenderMethods(ms: seq<MethodDoc>, headingPrefix: string)
      modifies this
      ensures lines == old(lines) + MethodsLines(ms, headingPrefix)
    {
      var i := 0;
      while i < |ms|
        invariant 0 <= i <= |ms|
        invariant lines == old(lines) + MethodsLines(ms[..i], headingPrefix)
      {
        MethodsLinesSnoc(ms, i, headingPrefix);
        Assoc(old(lines), MethodsLines(ms[..i], headingPrefix), MethodLines(ms[i], headingPrefix));
        RenderMethod(ms[i], headingPrefix);
        i := i + 1;
      }
      assert ms[..i] == ms;
    }

    /** Doc lines appended one at a time, the first behind `first` and the others behind `rest`. */
    method RenderIndented(docLines: seq<string>, first: string, rest: string)
      modifies this
      ensures lines == old(lines) + Indented(docLines, first, rest)
    {
      var k := 0;
      while k < |docLines|
        invariant 0 <= k <= |docLines|
        invariant lines == old(lines) + Indented(docLines[..k], first, rest)
      {
        lines := lines + [(if k == 0 then first else rest) + docLines[k]];
        assert Indented(docLines[..k + 1], first, rest) == Indented(docLines[..k], first, rest) + [(if k == 0 then first else rest) + docLines[k]];
        k := k + 1;
      }
      assert docLines[..k] == docLines;
    }

    method RenderGlobalMiddleware(mw: MiddlewareDoc)
      modifies this
      ensures lines == old(lines) + GlobalMiddlewareLines(mw)
    {
      var header := ["- **" + mw.name + "**" + LabelSuffix(mw.labelText)];
      lines := lines + header;
      if mw.doc != "" {
        RenderIndented(DocLines(mw.doc), "\n\t- ", "\t\t");
      }
      Assoc(old(lines), header, Indented(MiddlewareDocLines(mw), "\n\t- ", "\t\t"));
      lines := lines + [""];
    }

    /** The server-wide middleware section. */
    method RenderGlobalMiddlewares(mws: seq<MiddlewareDoc>)
      modifies this
      ensures lines == old(lines) + GlobalMiddlewareSection(mws)
    {
      if mws == [] {
        return;
      }
      lines := lines + ["## 全局中间件"];
      ghost var start := lines;
      var j := 0;
      while j < |mws|
        invariant 0 <= j <= |mws|
        invariant lines == start + FlatMap(mws[..j], GlobalMiddlewareLines)
      {
        FlatMapSnoc(mws, j, GlobalMiddlewareLines);
        Assoc(start, FlatMap(mws[..j], GlobalMiddlewareLines), GlobalMiddlewareLines(mws[j]));
        RenderGlobalMiddleware(mws[j]);
        j := j + 1;
      }
      assert mws[..j] == mws;
      lines := lines + [""];
      Assoc(old(lines), ["## 全局中间件"], FlatMap(mws, GlobalMiddlewareLines));
      Assoc(old(lines), ["## 全局中间件"] + FlatMap(mws, GlobalMiddlewareLines), [""]);
    }

    method RenderRouterMiddleware(mw: MiddlewareDoc)
      modifies this
      ensures lines == old(lines) + RouterMiddlewareLines(mw)
    {
      var header := ["- `" + mw.name + "`" + LabelSuffix(mw.labelText)];
      lines := lines + header;
      if mw.doc != "" {
        RenderIndented(DocLines(mw.doc), "  ", "  ");
      }
      Assoc(old(lines), header, Indented(MiddlewareDocLines(mw), "  ", "  "));
    }

    /** The middleware section of a router. */
    method RenderRouterMiddlewares(mws: seq<MiddlewareDoc>)
      modifies this
      ensures lines == old(lines) + RouterMiddlewareSection(mws)
    {
      if mws == [] {
        return;
      }
      lines := lines + ["**中间件**"];
      ghost var start := lines;
      var j := 0;
      while j < |mws|
        invariant 0 <= j <= |mws|
        invariant lines == start + FlatMap(mws[..j], RouterMiddlewareLines)
      {
        FlatMapSnoc(mws, j, RouterMiddlewareLines);
        Assoc(start, FlatMap(mws[..j], RouterMiddlewareLines), RouterMiddlewareLines(mws[j]));
        RenderRouterMiddleware(mws[j]);
        j := j + 1;
      }
      assert mws[..j] == mws;
      lines := lines + [""];
      Assoc(old(lines), ["**中间件**"], FlatMap(mws, RouterMiddlewareLines));
      Assoc(old(lines), ["**中间件**"] + FlatMap(mws, RouterMiddlewareLines), [""]);
    }

    /** A router's own section: heading, methods and middlewares. */
    method RenderRouterHead(name: string, r: NodeDoc, prefix: string)
      modifies this
      ensures lines == old(lines) + RouterHead(name, r, prefix)
    {
      var heading := ["## 路由 " + HeadingName(prefix, name) + LabelSuffix(r.labelText)];
      lines := lines + heading;
      if r.methods != [] {
        RenderMethods(r.methods, "###");
      } else {
        assert lines + [] == lines;
      }
      Assoc(old(lines), heading, RouterMethodSection(r.methods));
      assert lines == old(lines) + (heading + RouterMethodSection(r.methods));
      RenderRouterMiddlewares(r.middlewares);
      Assoc(old(lines), heading + RouterMethodSection(r.methods), RouterMiddlewareSection(r.middlewares));
    }

    method RenderRouter(name: string, r: NodeDoc, prefix: string)
      modifies this
      ensures lines == old(lines) + RouterLines(name, r, prefix)
      decreases r, |r.routers| + 1
    {
      var fullName := HeadingName(prefix, name);
      RenderRouterHead(name, r, prefix);
      RenderChildren(r, 0, fullName);
      Assoc(old(lines), RouterHead(name, r, prefix), ChildrenLines(r, 0, fullName));
    }

    method RenderChildren(r: NodeDoc, i: nat, fullName: string)
      requires i <= |r.routers|
      modifies this
      ensures lines == old(lines) + ChildrenLines(r, i, fullName)
      decreases r, |r.routers| - i
    {
      if i == |r.routers| {
        assert lines + [] == lines;
      } else {
        var sub := r.routers[i];
        assert sub.tree < r by {
          assert sub in r.routers;
        }
        RenderRouter(sub.prefix, sub.tree, fullName);
        RenderChildren(r, i + 1, fullName);
        Assoc(old(lines), RouterLines(sub.prefix, sub.tree, fullName), ChildrenLines(r, i + 1, fullName));
      }
    }

    /** The title block. */
    method RenderTitle(doc: ServerDoc)
      modifies this
      ensures lines == old(lines) + TitleLines(doc)
    {
      var top := ["# " + PyText.Upper(doc.serverName) + " API 文档", "", "- 版本: `" + doc.version + "`"];
      lines := lines + top;
      var described := if doc.labelText != "" then ["- 描述: " + doc.labelText] else [];
      if doc.labelText != "" {
        lines := lines + ["- 描述: " + doc.labelText];
      }
      Assoc(old(lines), top, described);
      lines := lines + [""];
      Assoc(old(lines), top + described, [""]);
    }

    /** The top-level method section. */
    method RenderTopMethods(ms: seq<MethodDoc>)
      modifies this
      ensures lines == old(lines) + TopMethodSection(ms)
    {
      if ms != [] {
        lines := lines + ["## 顶层方法"];
        RenderMethods(ms, "###");
        Assoc(old(lines), ["## 顶层方法"], MethodsLines(ms, "###"));
      }
    }
  }

  /**
   * `docs_markdown`: the lines of the description, joined by newlines and
   * stripped, for the file named after the server.
   */
  method DocsMarkdown(s: DocServer) returns (fileName: string, text: string)
    ensures fileName == s.serverName + ".md"
    ensures text == PyText.Strip(PyText.Join(MarkdownLines(DocsJson(s)), '\n'))
  {
    var doc := DocsJson(s);
    var w := new MarkdownWriter();
    w.RenderTitle(doc);
    assert w.lines == TitleLines(doc);
    w.RenderGlobalMiddlewares(doc.middlewares);
    w.RenderTopMethods(doc.methods);
    w.RenderChildren(TopNode(doc), 0, "");
    fileName := s.serverName + ".md";
    text := PyText.Strip(PyText.Join(w.lines, '\n'));
  }
}

/** The workflow determinism checker. It visits every syntax node in preorder;
    a function declaration is looked into only when its signature makes it a
    workflow, and inside workflows it reports map and channel ranges, `select`
    and `go` statements, `time.Now` and `time.Sleep` calls, wrong return
    shapes, and channel or `sync.WaitGroup` variables. */
module Analyzer {
  import opened Wrappers
  import opened GoSyntax

  datatype Finding =
    | NoReturnValue(workflow: string)
    | TooManyReturnValues(workflow: string)
    | LastReturnNotError(workflow: string)
    | MapIteration
    | NativeChannel
    | SelectStatement
    | GoStatement
    | TimeNow
    | TimeSleep
    | WaitGroup

  /** How a signature message refers to its workflow. */
  function Subject(workflow: string): string {
    "workflow `" + workflow + "`"
  }

  /** The text reported for each finding. */
  function Message(f: Finding): string {
    match f
    case NoReturnValue(w) => Subject(w) + " doesn't return anything. needs to return at least `error`"
    case TooManyReturnValues(w) => Subject(w) + " returns more than two values"
    case LastReturnNotError(w) => Subject(w) + " doesn't return `error` as last return value"
    case MapIteration => "iterating over a `map` is not deterministic and not allowed in workflows"
    case NativeChannel => "using native channels is not allowed in workflows, use `workflow.Channel` instead"
    case SelectStatement => "`select` statements are not allowed in workflows, use `workflow.Select` instead"
    case GoStatement => "use `workflow.Go` instead of `go` in workflows"
    case TimeNow => "`time.Now` is not allowed in workflows, use `workflow.Now` instead"
    case TimeSleep => "`time.Sleep` is not allowed in workflows, use `workflow.Sleep` instead"
    case WaitGroup => "using `sync.WaitGroup` is not allowed in workflows, use `workflow.WaitGroup` instead"
  }

  /** Each signature message opens by naming the workflow it is about. */
  lemma SignatureMessagesNameWorkflow(f: Finding)
    requires f.NoReturnValue? || f.TooManyReturnValues? || f.LastReturnNotError?
    ensures Subject(f.workflow) <= Message(f)
  {
    var rest := Message(f)[|Subject(f.workflow)|..];
    assert Message(f) == Subject(f.workflow) + rest;
  }

  datatype Diagnostic = Diagnostic(pos: Pos, finding: Finding)

  // ---------------------------------------------------------------------------
  // Classifying workflows

  /** A function is a workflow when its first parameter's type is written as
      the selector `workflow.Context`. */
  predicate IsWorkflow(decl: FuncDecl) {
    if |decl.params| < 1 then false
    else
      match decl.params[0].typ
      case SelectorExpr(Ident(xname), selname) => xname + "." + selname == "workflow.Context"
      case _ => false
  }

  /** The textual test splits only one way: qualifier `workflow`, selector `Context`. */
  lemma IsWorkflowIff(decl: FuncDecl)
    ensures IsWorkflow(decl) <==> |decl.params| > 0 && decl.params[0].typ == SelectorExpr(Ident("workflow"), "Context")
  {
    if IsWorkflow(decl) {
      var SelectorExpr(Ident(xname), selname) := decl.params[0].typ;
      var s := xname + "." + selname;
      assert s == "workflow.Context";
      assert s[|xname|] == '.';
      assert forall k :: 0 <= k < |s| && s[k] == '.' ==> k == 8;
      assert xname == s[..8];
      assert selname == s[9..];
    }
  }

  // ---------------------------------------------------------------------------
  // Scope variables

  /** The named type `sync.WaitGroup`. */
  predicate IsWaitGroup(obj: Option<TypeName>) {
    obj == Some(TypeName(Some("sync"), "WaitGroup"))
  }

  /** `checkNamed`: a reference to `sync.WaitGroup` is reported at the referring object. */
  function NamedFindings(ref: Object, obj: Option<TypeName>): (r: seq<Diagnostic>)
    ensures r == [] || r == [Diagnostic(ref.pos, WaitGroup)]
    ensures r != [] <==> IsWaitGroup(obj)
  {
    match obj
    case Some(TypeName(Some(path), name)) =>
      if path == "sync" && name == "WaitGroup" then [Diagnostic(ref.pos, WaitGroup)] else []
    case _ => []
  }

  /** A variable whose type is forbidden in workflows. */
  predicate IsForbiddenVar(o: Object) {
    || o.typ.Chan?
    || (o.typ.Named? && IsWaitGroup(o.typ.obj))
    || (o.typ.Pointer? && o.typ.elem.Named? && IsWaitGroup(o.typ.elem.obj))
  }

  /** What checking one object of a scope reports. */
  function ObjectFindings(o: Object): (r: seq<Diagnostic>)
    ensures |r| <= 1
    ensures r != [] <==> IsForbiddenVar(o)
    ensures r != [] ==> r[0].pos == o.pos && r[0].finding == (if o.typ.Chan? then NativeChannel else WaitGroup)
  {
    match o.typ
    case Chan(_) => [Diagnostic(o.pos, NativeChannel)]
    case Named(obj) => NamedFindings(o, obj)
    case Pointer(Named(obj)) => NamedFindings(o, obj)
    case _ => []
  }

  /** What checking a list of objects in order reports. */
  function ObjectsFindings(objs: seq<Object>): seq<Diagnostic>
    decreases |objs|
  {
    if objs == [] then [] else ObjectsFindings(objs[..|objs| - 1]) + ObjectFindings(objs[|objs| - 1])
  }

  /** `checkVarsInScope`: the scope's own objects, then each child scope in index order. */
  function ScopeFindings(s: Scope): seq<Diagnostic>
    decreases s
  {
    ObjectsFindings(s.objects) + ChildrenFindings(s.children)
  }

  function ChildrenFindings(cs: seq<Scope>): seq<Diagnostic>
    decreases cs
  {
    if cs == [] then [] else ChildrenFindings(cs[..|cs| - 1]) + ScopeFindings(cs[|cs| - 1])
  }

  /** Every object of a scope tree, the scope's own first, then its children's in order. */
  function AllObjects(s: Scope): seq<Object>
    decreases s
  {
    s.objects + AllChildrenObjects(s.children)
  }

  function AllChildrenObjects(cs: seq<Scope>): seq<Object>
    decreases cs
  {
    if cs == [] then [] else AllChildrenObjects(cs[..|cs| - 1]) + AllObjects(cs[|cs| - 1])
  }

  lemma {:induction false} ObjectsFindingsAppend(a: seq<Object>, b: seq<Object>)
    ensures ObjectsFindings(a + b) == ObjectsFindings(a) + ObjectsFindings(b)
    decreases |b|
  {
    if b == [] {
      assert a + b == a;
    } else {
      var b' := b[..|b| - 1];
      assert (a + b)[..|a + b| - 1] == a + b';
      ObjectsFindingsAppend(a, b');
    }
  }

  /** Checking a scope tree checks every object in it exactly once, in
      preorder: the result is what checking the flattened object list gives. */
  lemma {:induction false} ScopeFindingsFlatten(s: Scope)
    ensures ScopeFindings(s) == ObjectsFindings(AllObjects(s))
    decreases s
  {
    ChildrenFindingsFlatten(s.children);
    ObjectsFindingsAppend(s.objects, AllChildrenObjects(s.children));
  }

  lemma {:induction false} ChildrenFindingsFlatten(cs: seq<Scope>)
    ensures ChildrenFindings(cs) == ObjectsFindings(AllChildrenObjects(cs))
    decreases cs
  {
    if cs != [] {
      var init := cs[..|cs| - 1];
      ChildrenFindingsFlatten(init);
      ScopeFindingsFlatten(cs[|cs| - 1]);
      ObjectsFindingsAppend(AllChildrenObjects(init), AllObjects(cs[|cs| - 1]));
    }
  }

  /** The number of forbidden variables in a list of objects. */
  function CountForbidden(objs: seq<Object>): nat
    decreases |objs|
  {
    if objs == [] then 0
    else CountForbidden(objs[..|objs| - 1]) + (if IsForbiddenVar(objs[|objs| - 1]) then 1 else 0)
  }

  /** One diagnostic per forbidden variable, each at that variable. */
  lemma {:induction false} ObjectsFindingsCount(objs: seq<Object>)
    ensures |ObjectsFindings(objs)| == CountForbidden(objs)
    ensures forall d :: d in ObjectsFindings(objs) ==> exists o :: o in objs && IsForbiddenVar(o) && d.pos == o.pos
    decreases |objs|
  {
    if objs != [] {
      var init, last := objs[..|objs| - 1], objs[|objs| - 1];
      ObjectsFindingsCount(init);
      forall d | d in ObjectsFindings(objs)
        ensures exists o :: o in objs && IsForbiddenVar(o) && d.pos == o.pos
      {
        if d in ObjectsFindings(init) {
          var o :| o in init && IsForbiddenVar(o) && d.pos == o.pos;
          assert o in objs;
        } else {
          assert d in ObjectFindings(last);
          assert last in objs;
        }
      }
    }
  }

  /** A scope tree gets as many diagnostics as it holds forbidden variables, at any depth. */
  lemma ScopeFindingsCount(s: Scope)
    ensures |ScopeFindings(s)| == CountForbidden(AllObjects(s))
  {
    ScopeFindingsFlatten(s);
    ObjectsFindingsCount(AllObjects(s));
  }

  // ---------------------------------------------------------------------------
  // The node callback

  /** What the callback reports for a workflow declaration: a signature
      problem, then (unless there are more than two results) its variables. */
  function WorkflowFindings(decl: FuncDecl): seq<Diagnostic> {
    var vars := if decl.scope.Some? then ScopeFindings(decl.scope.value) else [];
    if |decl.results| == 0 then
      [Diagnostic(decl.pos, NoReturnValue(decl.name))] + vars
    else if |decl.results| > 2 then
      [Diagnostic(decl.pos, TooManyReturnValues(decl.name))]
    else if ExprString(decl.results[|decl.results| - 1].typ) != "error" then
      [Diagnostic(decl.pos, LastReturnNotError(decl.name))] + vars
    else
      vars
  }

  /** A range over a map or a channel is reported; an unknown operand type is not. */
  function RangeFindings(pos: Pos, operandType: Option<Type>): (r: seq<Diagnostic>)
    ensures |r| <= 1
    ensures r != [] <==> operandType.Some? && (operandType.value.Map? || operandType.value.Chan?)
    ensures r != [] ==> r[0] == Diagnostic(pos, if operandType.value.Map? then MapIteration else NativeChannel)
  {
    match operandType
    case None => []
    case Some(Map(_, _)) => [Diagnostic(pos, MapIteration)]
    case Some(Chan(_)) => [Diagnostic(pos, NativeChannel)]
    case Some(_) => []
  }

  /** The call's function is `pkg.name` with `pkg` naming the imported package "time". */
  predicate CallsTime(fun: Callee, name: string) {
    fun.SelectorCallee? && fun.x.IdentOperand? && fun.x.use == PackageName("time") && fun.sel == name
  }

  /** A call is reported only when it is `pkg.Now` or `pkg.Sleep` with `pkg`
      naming the imported package "time". */
  function CallFindings(pos: Pos, fun: Callee): (r: seq<Diagnostic>)
    ensures |r| <= 1
    ensures r != [] <==> CallsTime(fun, "Now") || CallsTime(fun, "Sleep")
    ensures r != [] ==> r[0] == Diagnostic(pos, if fun.sel == "Now" then TimeNow else TimeSleep)
  {
    match fun
    case SelectorCallee(IdentOperand(_, PackageName(path)), name) =>
      if path == "time" then
        (if name == "Now" then [Diagnostic(pos, TimeNow)]
         else if name == "Sleep" then [Diagnostic(pos, TimeSleep)]
         else [])
      else []
    case _ => []
  }

  /** What the callback does on entering a node: what it reports, and whether
      the traversal goes on into the node's children. */
  datatype Step = Step(reported: seq<Diagnostic>, descend: bool)

  function Callback(k: NodeKind): (r: Step)
    ensures !r.descend <==> k.FuncDeclNode? && !IsWorkflow(k.decl)
    ensures !r.descend ==> r.reported == []
    ensures k.SelectStmt? ==> r.reported == [Diagnostic(k.pos, SelectStatement)]
    ensures k.GoStmt? ==> r.reported == [Diagnostic(k.pos, GoStatement)]
    ensures k.RangeStmt? ==> r.reported == RangeFindings(k.pos, k.operandType)
    ensures k.CallExpr? ==> r.reported == CallFindings(k.pos, k.fun)
    ensures k.OtherNode? ==> r.reported == []
  {
    match k
    case FuncDeclNode(decl) => if IsWorkflow(decl) then Step(WorkflowFindings(decl), true) else Step([], false)
    case RangeStmt(pos, t) => Step(RangeFindings(pos, t), true)
    case SelectStmt(pos) => Step([Diagnostic(pos, SelectStatement)], true)
    case GoStmt(pos) => Step([Diagnostic(pos, GoStatement)], true)
    case CallExpr(pos, fun) => Step(CallFindings(pos, fun), true)
    case OtherNode => Step([], true)
  }

  /** The signature rule for workflows, stated on the syntax of the last result. */
  lemma SignatureRule(decl: FuncDecl)
    requires IsWorkflow(decl)
    ensures var reported := Callback(FuncDeclNode(decl)).reported;
            var vars := if decl.scope.Some? then ScopeFindings(decl.scope.value) else [];
            var n := |decl.results|;
            && (n == 0 ==> reported == [Diagnostic(decl.pos, NoReturnValue(decl.name))] + vars)
            && (n > 2 ==> reported == [Diagnostic(decl.pos, TooManyReturnValues(decl.name))])
            && (1 <= n <= 2 && decl.results[n - 1].typ != Ident("error") ==>
                  reported == [Diagnostic(decl.pos, LastReturnNotError(decl.name))] + vars)
            && (1 <= n <= 2 && decl.results[n - 1].typ == Ident("error") ==> reported == vars)
  {
    if 1 <= |decl.results| <= 2 {
      ExprStringIsError(decl.results[|decl.results| - 1].typ);
    }
  }

  // ---------------------------------------------------------------------------
  // The traversal

  /** The diagnostics of visiting `n`: the callback's, then, if it lets the
      traversal descend, those of its children in order. */
  function Walk(n: Node): seq<Diagnostic>
    decreases n
  {
    var step := Callback(n.kind);
    step.reported + (if step.descend then WalkAll(n.children) else [])
  }

  function WalkAll(ns: seq<Node>): seq<Diagnostic>
    decreases ns
  {
    if ns == [] then [] else Walk(ns[0]) + WalkAll(ns[1..])
  }

  /** Analysing two lists of nodes one after the other is analysing their concatenation. */
  lemma {:induction false} WalkAllAppend(a: seq<Node>, b: seq<Node>)
    ensures WalkAll(a + b) == WalkAll(a) + WalkAll(b)
    decreases |a|
  {
    if a == [] {
      assert a + b == b;
    } else {
      assert (a + b)[0] == a[0] && (a + b)[1..] == a[1..] + b;
      WalkAllAppend(a[1..], b);
    }
  }

  lemma WalkAllSnoc(a: seq<Node>, n: Node)
    ensures WalkAll(a + [n]) == WalkAll(a) + Walk(n)
  {
    WalkAllAppend(a, [n]);
    assert WalkAll([n]) == Walk(n) + WalkAll([]);
  }

  /** Results are counted per field as written: `(a, b, c error)` is one
      result field of type `error`, so it draws no signature diagnostic. */
  lemma GroupedResultsCountOnce(decl: FuncDecl, names: seq<string>)
    requires IsWorkflow(decl) && decl.scope.None?
    requires decl.results == [Field(names, Ident("error"))]
    ensures Callback(FuncDeclNode(decl)).reported == []
  {
  }

  /** The traversal starts at every file, so a call outside every function
      (a package-level initialiser, say) is checked like one inside a workflow. */
  lemma CallsOutsideFunctionsChecked(pos: Pos, name: string, children: seq<Node>)
    ensures Walk(Node(OtherNode, [Node(CallExpr(pos, SelectorCallee(IdentOperand(name, PackageName("time")), "Now")), children)]))
            == [Diagnostic(pos, TimeNow)] + WalkAll(children)
  {
    var call := Node(CallExpr(pos, SelectorCallee(IdentOperand(name, PackageName("time")), "Now")), children);
    assert Walk(call) == [Diagnostic(pos, TimeNow)] + WalkAll(children);
    assert WalkAll([call]) == Walk(call) + WalkAll([]);
  }

  /** A function that is not a workflow contributes nothing, whatever it contains. */
  lemma NonWorkflowSilent(decl: FuncDecl, children: seq<Node>)
    requires !IsWorkflow(decl)
    ensures Walk(Node(FuncDeclNode(decl), children)) == []
  {
  }

  /** `m` is a node the callback is called on when the traversal starts at `n`. */
  predicate Visits(n: Node, m: Node)
    decreases n
  {
    n == m || (Callback(n.kind).descend && exists i :: 0 <= i < |n.children| && Visits(n.children[i], m))
  }

  /** The traversal that starts at a function which is not a workflow visits only that function. */
  lemma NonWorkflowChildrenUnvisited(decl: FuncDecl, children: seq<Node>, m: Node)
    requires !IsWorkflow(decl)
    ensures Visits(Node(FuncDeclNode(decl), children), m) <==> m == Node(FuncDeclNode(decl), children)
  {
  }

  lemma {:induction false} WalkAllContainsChild(ns: seq<Node>, i: nat)
    requires i < |ns|
    ensures forall d :: d in Walk(ns[i]) ==> d in WalkAll(ns)
    decreases ns
  {
    if i > 0 {
      WalkAllContainsChild(ns[1..], i - 1);
    }
  }

  /** Completeness: whatever the callback reports at a visited node is in the result. */
  lemma {:induction false} VisitedReportsAppear(n: Node, m: Node)
    requires Visits(n, m)
    ensures forall d :: d in Callback(m.kind).reported ==> d in Walk(n)
    decreases n
  {
    if n != m {
      var i :| 0 <= i < |n.children| && Visits(n.children[i], m);
      VisitedReportsAppear(n.children[i], m);
      WalkAllContainsChild(n.children, i);
    }
  }

  /** Every visited `select` or `go` statement, every visited range over a map
      or a channel, and every visited `time.Now` or `time.Sleep` call is reported. */
  lemma ForbiddenConstructsReported(n: Node, m: Node)
    requires Visits(n, m)
    ensures m.kind.SelectStmt? ==> Diagnostic(m.kind.pos, SelectStatement) in Walk(n)
    ensures m.kind.GoStmt? ==> Diagnostic(m.kind.pos, GoStatement) in Walk(n)
    ensures m.kind.RangeStmt? && m.kind.operandType.Some? && m.kind.operandType.value.Map? ==>
              Diagnostic(m.kind.pos, MapIteration) in Walk(n)
    ensures m.kind.RangeStmt? && m.kind.operandType.Some? && m.kind.operandType.value.Chan? ==>
              Diagnostic(m.kind.pos, NativeChannel) in Walk(n)
    ensures m.kind.CallExpr? && CallsTime(m.kind.fun, "Now") ==>
              Diagnostic(m.kind.pos, TimeNow) in Walk(n)
    ensures m.kind.CallExpr? && CallsTime(m.kind.fun, "Sleep") ==>
              Diagnostic(m.kind.pos, TimeSleep) in Walk(n)
  {
    VisitedReportsAppear(n, m);
    var reported := Callback(m.kind).reported;
    if reported != [] {
      assert reported[0] in reported;
    }
  }

  /** Every child of a workflow is visited. */
  lemma WorkflowChildrenVisited(decl: FuncDecl, children: seq<Node>, i: nat)
    requires IsWorkflow(decl) && i < |children|
    ensures Visits(Node(FuncDeclNode(decl), children), children[i])
  {
    assert Visits(children[i], children[i]);
  }

  lemma {:induction false} WalkAllSource(ns: seq<Node>, d: Diagnostic)
    requires d in WalkAll(ns)
    ensures exists i, m :: 0 <= i < |ns| && Visits(ns[i], m) && d in Callback(m.kind).reported
    decreases ns
  {
    if d in Walk(ns[0]) {
      var m := VisitedSource(ns[0], d);
      assert Visits(ns[0], m);
    } else {
      WalkAllSource(ns[1..], d);
      var i, m :| 0 <= i < |ns[1..]| && Visits(ns[1..][i], m) && d in Callback(m.kind).reported;
      assert ns[1..][i] == ns[i + 1];
    }
  }

  /** Soundness: every diagnostic comes from the callback at a visited node. */
  lemma {:induction false} VisitedSource(n: Node, d: Diagnostic) returns (m: Node)
    requires d in Walk(n)
    ensures Visits(n, m) && d in Callback(m.kind).reported
    decreases n
  {
    if d in Callback(n.kind).reported {
      m := n;
    } else {
      WalkAllSource(n.children, d);
      var i, m' :| 0 <= i < |n.children| && Visits(n.children[i], m') && d in Callback(m'.kind).reported;
      m := m';
    }
  }

  // ---------------------------------------------------------------------------
  // The imperative checker

  lemma AppendAssoc<X>(a: seq<X>, b: seq<X>, c: seq<X>)
    ensures (a + b) + c == a + (b + c)
  {
  }

  lemma PrefixIsWhole<X>(s: seq<X>)
    ensures s[..|s|] == s
  {
  }

  lemma ObjectsFindingsPrefix(objs: seq<Object>, k: nat)
    requires k < |objs|
    ensures ObjectsFindings(objs[..k + 1]) == ObjectsFindings(objs[..k]) + ObjectFindings(objs[k])
  {
    assert objs[..k + 1][..k] == objs[..k];
  }

  lemma ChildrenFindingsPrefix(cs: seq<Scope>, i: nat)
    requires i < |cs|
    ensures ChildrenFindings(cs[..i + 1]) == ChildrenFindings(cs[..i]) + ScopeFindings(cs[i])
  {
    assert cs[..i + 1][..i] == cs[..i];
  }

  lemma WalkAllPrefix(ns: seq<Node>, i: nat)
    requires i < |ns|
    ensures WalkAll(ns[..i + 1]) == WalkAll(ns[..i]) + Walk(ns[i])
  {
    assert ns[..i + 1] == ns[..i] + [ns[i]];
    WalkAllSnoc(ns[..i], ns[i]);
  }

  /** The analysis pass: it accumulates the diagnostics reported so far. */
  class Pass {
    var diagnostics: seq<Diagnostic>

    constructor ()
      ensures diagnostics == []
    {
      diagnostics := [];
    }

    method Reportf(pos: Pos, finding: Finding)
      modifies this
      ensures diagnostics == old(diagnostics) + [Diagnostic(pos, finding)]
    {
      diagnostics := diagnostics + [Diagnostic(pos, finding)];
    }

    method CheckNamed(ref: Object, obj: Option<TypeName>)
      modifies this
      ensures diagnostics == old(diagnostics) + NamedFindings(ref, obj)
    {
      if obj.Some? {
        var pkg := obj.value.pkg;
        if pkg.Some? {
          if pkg.value == "sync" {
            if obj.value.name == "WaitGroup" {
              Reportf(ref.pos, WaitGroup);
            }
          }
        }
      }
    }

    /** The type switch `checkVarsInScope` applies to one object. */
    method CheckObject(obj: Object)
      modifies this
      ensures diagnostics == old(diagnostics) + ObjectFindings(obj)
    {
      match obj.typ {
        case Chan(_) =>
          Reportf(obj.pos, NativeChannel);
        case Named(named) =>
          CheckNamed(obj, named);
        case Pointer(elem) =>
          if elem.Named? {
            CheckNamed(obj, elem.obj);
          }
        case _ =>
      }
    }

    method CheckVarsInScope(scope: Scope)
      modifies this
      ensures diagnostics == old(diagnostics) + ScopeFindings(scope)
      decreases scope
    {
      var names := scope.objects;
      for k := 0 to |names|
        invariant diagnostics == old(diagnostics) + ObjectsFindings(names[..k])
      {
        CheckObject(names[k]);
        ObjectsFindingsPrefix(names, k);
        AppendAssoc(old(diagnostics), ObjectsFindings(names[..k]), ObjectFindings(names[k]));
      }
      PrefixIsWhole(names);
      ghost var afterNames := diagnostics;
      for i := 0 to |scope.children|
        invariant diagnostics == afterNames + ChildrenFindings(scope.children[..i])
      {
        CheckVarsInScope(scope.children[i]);
        ChildrenFindingsPrefix(scope.children, i);
        AppendAssoc(afterNames, ChildrenFindings(scope.children[..i]), ScopeFindings(scope.children[i]));
      }
      PrefixIsWhole(scope.children);
      AppendAssoc(old(diagnostics), ObjectsFindings(names), ChildrenFindings(scope.children));
    }

    /** The callback on entering a node. */
    method Visit(node: Node) returns (descend: bool)
      modifies this
      ensures descend == Callback(node.kind).descend
      ensures diagnostics == old(diagnostics) + Callback(node.kind).reported
    {
      match node.kind {
        case FuncDeclNode(n) =>
          if !IsWorkflow(n) {
            return false;
          }
          if |n.results| == 0 {
            Reportf(n.pos, NoReturnValue(n.name));
          } else {
            if |n.results| > 2 {
              Reportf(n.pos, TooManyReturnValues(n.name));
              return true;
            }
            var lastResult := n.results[|n.results| - 1];
            if ExprString(lastResult.typ) != "error" {
              Reportf(n.pos, LastReturnNotError(n.name));
            }
          }
          if n.scope.Some? {
            CheckVarsInScope(n.scope.value);
          }
          return true;
        case RangeStmt(pos, t) =>
          if t.Some? {
            match t.value {
              case Map(_, _) => Reportf(pos, MapIteration);
              case Chan(_) => Reportf(pos, NativeChannel);
              case _ =>
            }
          }
        case SelectStmt(pos) =>
          Reportf(pos, SelectStatement);
        case GoStmt(pos) =>
          Reportf(pos, GoStatement);
        case CallExpr(pos, fun) =>
          if fun.SelectorCallee? && fun.x.IdentOperand? && fun.x.use.PackageName? {
            if fun.x.use.importPath == "time" {
              if fun.sel == "Now" {
                Reportf(pos, TimeNow);
              } else if fun.sel == "Sleep" {
                Reportf(pos, TimeSleep);
              }
            }
          }
        case OtherNode =>
      }
      return true;
    }

    /** The preorder traversal of one node: the callback, then, if it says so,
        the node's children. */
    method Inspect(node: Node)
      modifies this
      ensures diagnostics == old(diagnostics) + Walk(node)
      decreases node
    {
      var descend := Visit(node);
      if descend {
        InspectAll(node.children);
      }
    }

    /** The preorder traversal of a list of nodes, one after the other. */
    method InspectAll(nodes: seq<Node>)
      modifies this
      ensures diagnostics == old(diagnostics) + WalkAll(nodes)
      decreases nodes
    {
      for i := 0 to |nodes|
        invariant diagnostics == old(diagnostics) + WalkAll(nodes[..i])
      {
        Inspect(nodes[i]);
        WalkAllPrefix(nodes, i);
        AppendAssoc(old(diagnostics), WalkAll(nodes[..i]), Walk(nodes[i]));
      }
      PrefixIsWhole(nodes);
    }

    /** The analyzer's run: traverse every file of the package in order. */
    method Run(files: seq<Node>)
      modifies this
      ensures diagnostics == old(diagnostics) + WalkAll(files)
    {
      InspectAll(files);
    }
  }
}

/** The parts of a type-checked Go package that the workflow checker looks at:
    syntax nodes with the type checker's answers attached (the type of a range
    operand, what a qualifier identifier refers to, a function's scope), type
    expressions as written, types, and the scope tree. */
module GoSyntax {
  import opened Wrappers

  /** A source position. */
  type Pos = nat

  /** A type as written in the source, for instance in a parameter list. */
  datatype TypeExpr =
    | Ident(name: string)
    | SelectorExpr(x: TypeExpr, sel: string)
    | StarExpr(x: TypeExpr)
    | ParenExpr(x: TypeExpr)
    | ArrayType(elem: TypeExpr)
    | MapType(key: TypeExpr, value: TypeExpr)
    | ChanType(value: TypeExpr)
    | FuncType
    | InterfaceType
    | StructType

  /** A rendering of a type expression that agrees with Go's `types.ExprString`
      on whether the type is written `error`; it is not the full printer (see
      `ExprStringIsError`). */
  function ExprString(t: TypeExpr): string {
    match t
    case Ident(name) => name
    case SelectorExpr(x, sel) => ExprString(x) + "." + sel
    case StarExpr(x) => "*" + ExprString(x)
    case ParenExpr(x) => "(" + ExprString(x) + ")"
    case ArrayType(elem) => "[]" + ExprString(elem)
    case MapType(key, value) => "map[" + ExprString(key) + "]" + ExprString(value)
    case ChanType(value) => "chan " + ExprString(value)
    case FuncType => "func()"
    case InterfaceType => "interface{}"
    case StructType => "struct{}"
  }

  /** Only the plain identifier `error` is rendered as "error". */
  lemma ExprStringIsError(t: TypeExpr)
    ensures ExprString(t) == "error" <==> t == Ident("error")
  {
    var s := ExprString(t);
    match t
    case Ident(_) =>
    case SelectorExpr(x, sel) =>
      assert s[|ExprString(x)|] == '.';
    case StarExpr(_) => assert s[0] == '*';
    case ParenExpr(_) => assert s[0] == '(';
    case ArrayType(_) => assert s[0] == '[';
    case MapType(_, _) => assert s[0] == 'm';
    case ChanType(_) => assert s[0] == 'c';
    case FuncType =>
    case InterfaceType =>
    case StructType =>
  }

  /** One entry of a parameter or result list: `a, b int` is one field with two names. */
  datatype Field = Field(names: seq<string>, typ: TypeExpr)

  /** The declaration of a named type: its package's import path (none for
      predeclared types) and its name. */
  datatype TypeName = TypeName(pkg: Option<string>, name: string)

  /** A type as the type checker sees it. */
  datatype Type =
    | Basic(name: string)
    | Map(key: Type, elem: Type)
    | Chan(elem: Type)
    | Pointer(elem: Type)
    | Slice(elem: Type)
    | Named(obj: Option<TypeName>)
    | OtherType

  /** A declared object: a variable, constant, type or function name. */
  datatype Object = Object(name: string, pos: Pos, typ: Type)

  /** A lexical scope: its objects in the order `Names()` lists them, and its
      nested scopes. */
  datatype Scope = Scope(objects: seq<Object>, children: seq<Scope>)

  /** What an identifier refers to, from the type checker's uses table. */
  datatype IdentUse = PackageName(importPath: string) | OtherObject | NoObject

  /** The operand `X` of a selector `X.Sel`. */
  datatype Operand = IdentOperand(name: string, use: IdentUse) | OtherOperand

  /** The function part of a call expression. */
  datatype Callee = SelectorCallee(x: Operand, sel: string) | OtherCallee

  /** A function declaration: results has no fields both for a missing and for
      an empty result list; scope is the function's scope if it has one. */
  datatype FuncDecl = FuncDecl(pos: Pos, name: string, params: seq<Field>, results: seq<Field>, scope: Option<Scope>)

  /** What the checker distinguishes about a syntax node. */
  datatype NodeKind =
    | FuncDeclNode(decl: FuncDecl)
    | RangeStmt(pos: Pos, operandType: Option<Type>)
    | SelectStmt(pos: Pos)
    | GoStmt(pos: Pos)
    | CallExpr(pos: Pos, fun: Callee)
    | OtherNode

  /** A syntax node and all its child nodes in source order. */
  datatype Node = Node(kind: NodeKind, children: seq<Node>)
}

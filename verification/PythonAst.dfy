/** The Python syntax the taint tracer looks at: statements, expressions, and the
    purely syntactic questions it asks about them. */
module PythonAst {

  import opened Options

  /** What a node without a constructor of its own is, as far as the tracer can tell. */
  datatype NodeKind =
    | TupleOrList
    | NotOperator
    | Comparison(operators: seq<CompareOperator>)
    | OtherNode

  datatype CompareOperator = NotEq | IsNot | NotIn | OtherOperator

  /** `Tree` stands for every node whose children are visited in order and nothing more.
      A keyword argument is a node of its own, as it is in Python's `ast`. */
  datatype Expr =
    | Name(id: string)
    | Attribute(object_: Expr, attr: string)
    | Call(func: Expr, args: seq<Expr>, keywords: seq<Expr>, line: nat, column: nat)
    | KeywordArgument(arg: Option<string>, keywordValue: Expr)
    | Constant
    | Tree(kind: NodeKind, children: seq<Expr>)

  /** An augmented assignment updates one place; Python has no tuple targets here. */
  type SingleTarget = e: Expr | e.Tree? ==> e.kind != TupleOrList witness Constant

  datatype Stmt =
    | Assign(targets: seq<Expr>, value: Expr, line: nat)
    | AugAssign(place: SingleTarget, value: Expr, line: nat)
    | If(test: Expr, body: seq<Stmt>, orelse: seq<Stmt>, line: nat)
    | For(target: Expr, iter: Expr, body: seq<Stmt>, line: nat)
    | While(test: Expr, body: seq<Stmt>, line: nat)
    | With(items: seq<Expr>, body: seq<Stmt>, line: nat)
    | ExprStmt(value: Expr, line: nat)
    | Return(result: Option<Expr>, line: nat)
    | Raise(exception: Option<Expr>, line: nat)
    | Assert(test: Expr, line: nat)
    | OtherStmt(line: nat)

  predicate Stops(s: Stmt) {
    s.Return? || s.Raise?
  }

  /** The expressions a simple statement evaluates. */
  function StatementExpressions(s: Stmt): (es: seq<Expr>)
    ensures forall e :: e in es ==> e < s
  {
    match s
    case ExprStmt(value, _) => [value]
    case Return(Some(e), _) => [e]
    case Raise(Some(e), _) => [e]
    case Assert(test, _) => [test]
    case _ => []
  }

  /** The child nodes of an expression, in the order they are visited. */
  function Children(e: Expr): (es: seq<Expr>)
    ensures forall c :: c in es ==> c < e
  {
    match e
    case Attribute(v, _) => [v]
    case Call(f, args, keywords, _, _) => [f] + args + keywords
    case KeywordArgument(_, v) => [v]
    case Tree(_, children) => children
    case _ => []
  }

  /** The names a target binds: a plain name, or the names inside a tuple or list. */
  function AssignedNames(target: Expr): seq<string> {
    match target
    case Name(id) => [id]
    case Tree(TupleOrList, elements) => AssignedNamesOfAll(elements)
    case _ => []
  }

  function AssignedNamesOfAll(targets: seq<Expr>): seq<string> {
    if targets == [] then [] else AssignedNames(targets[0]) + AssignedNamesOfAll(targets[1..])
  }

  function Dotted(e: Expr): string {
    match e
    case Name(id) => id
    case Attribute(v, attr) =>
      var prefix := Dotted(v);
      if prefix != "" then prefix + "." + attr else attr
    case Call(f, _, _, _, _) => Dotted(f)
    case _ => ""
  }

  /** `first.second.third`, as nested attributes. */
  function AttributePath(names: seq<string>): Expr
    requires names != []
  {
    var last := |names| - 1;
    if last == 0 then Name(names[0]) else Attribute(AttributePath(names[..last]), names[last])
  }

  function Dots(names: seq<string>): string
    requires names != []
  {
    if |names| == 1 then names[0] else names[0] + "." + Dots(names[1..])
  }

  lemma {:induction false} DotsAppend(names: seq<string>, last: string)
    requires names != []
    ensures Dots(names + [last]) == Dots(names) + "." + last
  {
    if |names| > 1 {
      assert (names + [last])[1..] == names[1..] + [last];
      DotsAppend(names[1..], last);
    } else {
      assert (names + [last])[1..] == [last];
    }
  }

  /** A path of attributes reads as its names with dots between them, and a call as what it calls. */
  lemma {:induction false} DottedReadsPaths(names: seq<string>)
    requires names != [] && names[0] != ""
    ensures Dotted(AttributePath(names)) == Dots(names) != ""
    ensures forall args, keywords, line, column ::
              Dotted(Call(AttributePath(names), args, keywords, line, column)) == Dots(names)
    decreases |names|
  {
    if |names| > 1 {
      var last := |names| - 1;
      DottedReadsPaths(names[..last]);
      DotsAppend(names[..last], names[last]);
      assert names[..last] + [names[last]] == names;
    }
  }

  /** What hangs off anything else reads as its own names only. */
  lemma DottedStartsAnew(e: Expr, attr: string)
    requires e.Constant? || e.Tree? || e.KeywordArgument?
    ensures Dotted(Attribute(e, attr)) == attr
  {
  }

  predicate SameLetter(a: char, b: char) {
    a == b || ('A' <= a <= 'Z' && b == a - 'A' + 'a') || ('A' <= b <= 'Z' && a == b - 'A' + 'a')
  }

  /** Two names fold to the same exactly if they differ in case only, and folding leaves no capital. */
  lemma FoldsCaseOnly(s: string, t: string)
    ensures CaseFold(s) == CaseFold(t) <==> |s| == |t| && forall i :: 0 <= i < |s| ==> SameLetter(s[i], t[i])
    ensures forall c :: c in CaseFold(s) ==> !('A' <= c <= 'Z')
    ensures CaseFold(CaseFold(s)) == CaseFold(s)
  {
    if CaseFold(s) == CaseFold(t) {
      forall i | 0 <= i < |s| ensures SameLetter(s[i], t[i]) {
        assert CaseFold(s)[i] == CaseFold(t)[i];
      }
    }
  }

  /** Case folding, on the ASCII letters. */
  function CaseFold(s: string): (r: string)
    ensures |r| == |s|
  {
    seq(|s|, i requires 0 <= i < |s| => if 'A' <= s[i] <= 'Z' then s[i] - 'A' + 'a' else s[i])
  }

  /** `if not x: raise` and `if a != b: return` deny what follows them; `if ok: return` does not. */
  predicate DenialBranchGuardsFollowingCode(s: Stmt)
    requires s.If?
  {
    && s.orelse == []
    && s.body != []
    && Stops(s.body[|s.body| - 1])
    && s.test.Tree?
    && (s.test.kind.NotOperator?
        || (s.test.kind.Comparison?
            && exists op :: op in s.test.kind.operators && op in [NotEq, IsNot, NotIn]))
  }

  /******* Where a Return or a Raise may stand *******/

  /** The block binds no name before it ends or stops. */
  predicate KeepsNames(stmts: seq<Stmt>) {
    stmts == [] || (KeepsNamesStmt(stmts[0]) && (Stops(stmts[0]) || KeepsNames(stmts[1..])))
  }

  predicate KeepsNamesStmt(s: Stmt) {
    match s
    case Assign(targets, _, _) => AssignedNamesOfAll(targets) == []
    case AugAssign(place, _, _) => AssignedNames(place) == []
    case If(_, body, orelse, _) => KeepsNames(body) && KeepsNames(orelse)
    case For(target, _, body, _) => AssignedNames(target) == [] && KeepsNames(body)
    case While(_, body, _) => KeepsNames(body)
    case With(_, body, _) => KeepsNames(body)
    case _ => true
  }

  /** Where the tracer goes on after the statement, so does a run: what stops inside it is a branch that binds
      no name, beside one that binds none either and goes on. */
  predicate PassesStmt(s: Stmt) {
    match s
    case Return(_, _) => false
    case Raise(_, _) => false
    case If(_, body, orelse, _) =>
      if KeepsNames(body) && KeepsNames(orelse) then Passes(body) || Passes(orelse)
      else Passes(body) && Passes(orelse)
    case For(target, _, body, _) => Passes(body) || (AssignedNames(target) == [] && KeepsNames(body))
    case While(_, body, _) => Passes(body) || KeepsNames(body)
    case With(_, body, _) => Passes(body)
    case _ => true
  }

  predicate Passes(stmts: seq<Stmt>) {
    stmts == [] || (PassesStmt(stmts[0]) && Passes(stmts[1..]))
  }

  /** Every Return or Raise stands where nothing follows, or where what follows cannot tell: in a branch as
      `PassesStmt` allows it. */
  predicate Leaves(stmts: seq<Stmt>) {
    || stmts == []
    || (&& LeavesStmt(stmts[0])
        && (stmts[1..] == [] || Stops(stmts[0]) || (PassesStmt(stmts[0]) && Leaves(stmts[1..]))))
  }

  predicate LeavesStmt(s: Stmt) {
    match s
    case If(_, body, orelse, _) => Leaves(body) && Leaves(orelse)
    case For(_, _, body, _) => Leaves(body)
    case While(_, body, _) => Leaves(body)
    case With(_, body, _) => Leaves(body)
    case _ => true
  }
}

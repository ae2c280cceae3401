/** Dependency environments: which input names each local may carry, how statements
    change them, and what joining them at a branch loses (nothing). */
module Dependencies {
  import opened Options
  import opened PythonAst
  import opened ValueFlow

  function Get(env: Env, name: string): set<string> {
    if name in env then env[name] else {}
  }

  function ExprDependencies(e: Expr, env: Env): set<string> {
    match e
    case Name(id) => if id == "request" then {"request"} else Get(env, id)
    case Attribute(v, _) =>
      var dotted := CaseFold(Dotted(e));
      if "request." <= dotted then {dotted} else ExprDependencies(v, env)
    case Call(f, args, keywords, _, _) =>
      var dotted := CaseFold(Dotted(f));
      var passed := AllDependencies(args, env) + AllDependencies(keywords, env);
      if "request." <= dotted then passed + {dotted} else passed
    case KeywordArgument(_, v) => ExprDependencies(v, env)
    case Constant => {}
    case Tree(_, children) => AllDependencies(children, env)
  }

  function AllDependencies(es: seq<Expr>, env: Env): set<string> {
    if es == [] then {} else ExprDependencies(es[0], env) + AllDependencies(es[1..], env)
  }

  function Merge(left: Env, right: Env): Env {
    map name | name in left.Keys + right.Keys :: Get(left, name) + Get(right, name)
  }

  function Bind(env: Env, names: seq<string>, deps: set<string>): Env
    decreases names
  {
    if names == [] then env else Bind(env[names[0] := deps], names[1..], deps)
  }

  function BindTargets(env: Env, targets: seq<Expr>, deps: set<string>): Env
    decreases targets
  {
    if targets == [] then env
    else BindTargets(Bind(env, AssignedNames(targets[0]), deps), targets[1..], deps)
  }

  /** The environment in a loop's body: its targets carry what it iterates over. */
  function BoundEnv(target: Expr, iter: Expr, env: Env): Env {
    Bind(env, AssignedNames(target), ExprDependencies(iter, env))
  }

  /** The environment after one statement, every branch taken into account. */
  function EnvStmt(s: Stmt, env: Env): Env
    decreases s
  {
    match s
    case Assign(targets, value, _) => BindTargets(env, targets, ExprDependencies(value, env))
    case AugAssign(target, value, _) =>
      Bind(env, AssignedNames(target), Get(env, Dotted(target)) + ExprDependencies(value, env))
    case If(_, body, orelse, _) => Merge(EnvBlock(body, env), EnvBlock(orelse, env))
    case For(target, iter, body, _) => Merge(env, EnvBlock(body, BoundEnv(target, iter, env)))
    case While(_, body, _) => Merge(env, EnvBlock(body, env))
    case With(_, body, _) => EnvBlock(body, env)
    case _ => env
  }

  function EnvBlock(stmts: seq<Stmt>, env: Env): Env
    decreases stmts
  {
    if stmts == [] then env
    else
      var after := EnvStmt(stmts[0], env);
      if Stops(stmts[0]) then after else EnvBlock(stmts[1..], after)
  }

  /******* One path at a time *******/

  /** How a path reads a body: as Python runs it, or as the tracer walks it, where a Return or Raise ends only
      the block it stands in, and an augmented assignment is bound before its value is evaluated. */
  datatype Reading = AsRun | AsTraced

  /** Where a path has got to: its environment, the branch decisions it has left,
      and whether it has met a Return or a Raise. */
  datatype PathState = PathState(env: Env, decisions: seq<bool>, stopped: bool)

  function Decide(decisions: seq<bool>): bool {
    decisions != [] && decisions[0]
  }

  function Rest(decisions: seq<bool>): seq<bool> {
    if decisions == [] then [] else decisions[1..]
  }

  /** What the end of a block is to the statement it is a branch of. */
  function Leave(r: Reading, end: PathState): PathState {
    if r.AsRun? then end else end.(stopped := false)
  }

  /******* What the analysis of one step is: what a run of it passes on *******/

  lemma FeedsUnfolds(e: Expr, env: Env, source: string)
    ensures Feeds(e, env, source) <==>
              Contributes(e, env, source) || exists part :: PassesOn(e, part) && Feeds(part, env, source)
  {
    if leaf :| FlowsOut(e, leaf) && Contributes(leaf, env, source) {
      if leaf != e {
        var part :| PassesOn(e, part) && FlowsOut(part, leaf);
        assert Feeds(part, env, source);
      }
    }
    if Contributes(e, env, source) {
      assert FlowsOut(e, e);
    }
    if part :| PassesOn(e, part) && Feeds(part, env, source) {
      var leaf :| FlowsOut(part, leaf) && Contributes(leaf, env, source);
      assert FlowsOut(e, leaf);
    }
  }

  /** `_expr_dependencies` finds exactly the sources that reach the value. */
  lemma {:induction false} DependsExactlyWhen(e: Expr, env: Env, source: string)
    ensures source in ExprDependencies(e, env) <==> Feeds(e, env, source)
    decreases e
  {
    hide Feeds, FlowsOut;
    FeedsUnfolds(e, env, source);
    match e
    case Name(_) => assert CaseFold("request") == "request";
    case Attribute(v, _) => DependsExactlyWhen(v, env, source);
    case Call(_, args, keywords, _, _) =>
      AllDependsExactlyWhen(args, env, source);
      AllDependsExactlyWhen(keywords, env, source);
    case KeywordArgument(_, v) => DependsExactlyWhen(v, env, source);
    case Constant =>
    case Tree(_, children) => AllDependsExactlyWhen(children, env, source);
  }

  lemma {:induction false} AllDependsExactlyWhen(es: seq<Expr>, env: Env, source: string)
    ensures source in AllDependencies(es, env) <==> exists e :: e in es && Feeds(e, env, source)
    decreases es
  {
    hide Feeds;
    if es != [] {
      DependsExactlyWhen(es[0], env, source);
      AllDependsExactlyWhen(es[1..], env, source);
    }
  }

  lemma DependenciesAreSources(e: Expr, env: Env)
    ensures ExprDependencies(e, env) == Sources(e, env)
  {
    forall source ensures source in ExprDependencies(e, env) <==> source in Sources(e, env) {
      DependsExactlyWhen(e, env, source);
    }
  }

  lemma AllDependenciesAreSources(es: seq<Expr>, env: Env)
    ensures AllDependencies(es, env) == SourcesOfAny(es, env)
  {
    forall source ensures source in AllDependencies(es, env) <==> source in SourcesOfAny(es, env) {
      AllDependsExactlyWhen(es, env, source);
      if e :| e in es && Feeds(e, env, source) {
        assert source in Sources(e, env);
      }
    }
  }

  lemma {:induction false} AssignedNamesAreBound(target: Expr, name: string)
    ensures name in AssignedNames(target) <==> Binds(target, name)
    decreases target
  {
    if target.Tree? && target.kind.TupleOrList? {
      AllAssignedNamesAreBound(target.children, name);
    }
  }

  lemma {:induction false} AllAssignedNamesAreBound(targets: seq<Expr>, name: string)
    ensures name in AssignedNamesOfAll(targets) <==> BindsAny(targets, name)
    decreases targets
  {
    if targets != [] {
      AssignedNamesAreBound(targets[0], name);
      AllAssignedNamesAreBound(targets[1..], name);
      if target :| target in targets && Binds(target, name) {
        assert target == targets[0] || target in targets[1..];
      }
    }
  }

  lemma {:induction false} BindIsPointwise(env: Env, names: seq<string>, deps: set<string>, name: string)
    ensures var after := Bind(env, names, deps);
            && (name in after <==> name in env || name in names)
            && (name in after ==> after[name] == if name in names then deps else env[name])
    decreases names
  {
    if names != [] {
      BindIsPointwise(env[names[0] := deps], names[1..], deps, name);
    }
  }

  lemma {:induction false} BindTargetsIsPointwise(env: Env, targets: seq<Expr>, deps: set<string>, name: string)
    ensures var after := BindTargets(env, targets, deps);
            && (name in after <==> name in env || BindsAny(targets, name))
            && (name in after ==> after[name] == if BindsAny(targets, name) then deps else env[name])
    decreases targets
  {
    if targets != [] {
      var names := AssignedNames(targets[0]);
      BindIsPointwise(env, names, deps, name);
      AssignedNamesAreBound(targets[0], name);
      BindTargetsIsPointwise(Bind(env, names, deps), targets[1..], deps, name);
      assert BindsAny(targets, name) <==> Binds(targets[0], name) || BindsAny(targets[1..], name);
    }
  }

  lemma BindingIsAssigning(env: Env, targets: seq<Expr>, deps: set<string>)
    ensures BindTargets(env, targets, deps) == Assigned(env, targets, deps)
  {
    hide BindsAny;
    forall name {
      BindTargetsIsPointwise(env, targets, deps, name);
    }
  }

  lemma BindOne(env: Env, name: string, deps: set<string>)
    ensures Bind(env, [name], deps) == env[name := deps]
  {
  }

  /** One run of a statement without branches. */
  ghost function Step(s: Stmt, env: Env): (after: Env)
    requires !s.If? && !s.For? && !s.While? && !s.With?
    ensures after == EnvStmt(s, env)
  {
    match s
    case Assign(targets, value, _) =>
      DependenciesAreSources(value, env);
      BindingIsAssigning(env, targets, Sources(value, env));
      Assigned(env, targets, Sources(value, env))
    case AugAssign(Name(id), value, _) =>
      DependenciesAreSources(value, env);
      BindOne(env, id, Get(env, id) + ExprDependencies(value, env));
      env[id := (if id in env then env[id] else {}) + Sources(value, env)]
    case _ => env
  }

  /** The start of a run of a loop's body. */
  ghost function Iterated(target: Expr, iter: Expr, env: Env): (start: Env)
    ensures start == BoundEnv(target, iter, env)
  {
    DependenciesAreSources(iter, env);
    BindingIsAssigning(env, [target], Sources(iter, env));
    assert [target][1..] == [];
    assert BindTargets(env, [target], Sources(iter, env)) == Bind(env, AssignedNames(target), Sources(iter, env));
    Assigned(env, [target], Sources(iter, env))
  }

  /** One path through a statement: an If takes one branch, a loop body runs once or
      not at all, as the next decision says. */
  ghost function PathStmt(r: Reading, s: Stmt, env: Env, decisions: seq<bool>): PathState
    decreases s
  {
    match s
    case If(_, body, orelse, _) =>
      Leave(r, PathBlock(r, if Decide(decisions) then body else orelse, env, Rest(decisions)))
    case For(target, iter, body, _) =>
      if Decide(decisions) then Leave(r, PathBlock(r, body, Iterated(target, iter, env), Rest(decisions)))
      else PathState(env, Rest(decisions), false)
    case While(_, body, _) =>
      if Decide(decisions) then Leave(r, PathBlock(r, body, env, Rest(decisions)))
      else PathState(env, Rest(decisions), false)
    case With(_, body, _) => Leave(r, PathBlock(r, body, env, decisions))
    case _ => PathState(Step(s, env), decisions, s.Return? || s.Raise?)
  }

  ghost function PathBlock(r: Reading, stmts: seq<Stmt>, env: Env, decisions: seq<bool>): PathState
    decreases stmts
  {
    if stmts == [] then PathState(env, decisions, false)
    else
      var after := PathStmt(r, stmts[0], env, decisions);
      if after.stopped then after else PathBlock(r, stmts[1..], after.env, after.decisions)
  }

  /******* The order on environments *******/

  ghost predicate Below(lower: Env, upper: Env) {
    forall name :: Get(lower, name) <= Get(upper, name)
  }

  ghost predicate IsJoin(joined: Env, left: Env, right: Env) {
    forall name :: Get(joined, name) == Get(left, name) + Get(right, name)
  }

  lemma MergeIsJoin(left: Env, right: Env)
    ensures IsJoin(Merge(left, right), left, right)
  {
  }

  /** `_expr_dependencies` distributes over joins. */
  lemma {:induction false} ExprDependenciesJoin(e: Expr, joined: Env, left: Env, right: Env)
    requires IsJoin(joined, left, right)
    ensures ExprDependencies(e, joined) == ExprDependencies(e, left) + ExprDependencies(e, right)
  {
    match e
    case Name(_) =>
    case Attribute(v, _) => ExprDependenciesJoin(v, joined, left, right);
    case Call(_, args, keywords, _, _) =>
      AllDependenciesJoin(args, joined, left, right);
      AllDependenciesJoin(keywords, joined, left, right);
    case KeywordArgument(_, v) => ExprDependenciesJoin(v, joined, left, right);
    case Constant =>
    case Tree(_, children) => AllDependenciesJoin(children, joined, left, right);
  }

  lemma {:induction false} AllDependenciesJoin(es: seq<Expr>, joined: Env, left: Env, right: Env)
    requires IsJoin(joined, left, right)
    ensures AllDependencies(es, joined) == AllDependencies(es, left) + AllDependencies(es, right)
  {
    if es != [] {
      ExprDependenciesJoin(es[0], joined, left, right);
      AllDependenciesJoin(es[1..], joined, left, right);
    }
  }

  lemma {:induction false} BindJoin(names: seq<string>, joined: Env, left: Env, right: Env,
                                    deps: set<string>, leftDeps: set<string>, rightDeps: set<string>)
    requires IsJoin(joined, left, right) && deps == leftDeps + rightDeps
    ensures IsJoin(Bind(joined, names, deps), Bind(left, names, leftDeps), Bind(right, names, rightDeps))
    decreases names
  {
    if names != [] {
      var j, l, r := joined[names[0] := deps], left[names[0] := leftDeps], right[names[0] := rightDeps];
      assert IsJoin(j, l, r) by {
        forall name ensures Get(j, name) == Get(l, name) + Get(r, name) {
          assert Get(joined, name) == Get(left, name) + Get(right, name);
        }
      }
      BindJoin(names[1..], j, l, r, deps, leftDeps, rightDeps);
    }
  }

  lemma {:induction false} BindTargetsJoin(targets: seq<Expr>, joined: Env, left: Env, right: Env,
                                           deps: set<string>, leftDeps: set<string>, rightDeps: set<string>)
    requires IsJoin(joined, left, right) && deps == leftDeps + rightDeps
    ensures IsJoin(BindTargets(joined, targets, deps), BindTargets(left, targets, leftDeps),
                   BindTargets(right, targets, rightDeps))
    decreases targets
  {
    if targets != [] {
      var names := AssignedNames(targets[0]);
      BindJoin(names, joined, left, right, deps, leftDeps, rightDeps);
      BindTargetsJoin(targets[1..], Bind(joined, names, deps), Bind(left, names, leftDeps),
                      Bind(right, names, rightDeps), deps, leftDeps, rightDeps);
    }
  }

  lemma BoundJoin(target: Expr, iter: Expr, joined: Env, left: Env, right: Env)
    requires IsJoin(joined, left, right)
    ensures IsJoin(BoundEnv(target, iter, joined), BoundEnv(target, iter, left), BoundEnv(target, iter, right))
  {
    ExprDependenciesJoin(iter, joined, left, right);
    BindJoin(AssignedNames(target), joined, left, right, ExprDependencies(iter, joined), ExprDependencies(iter, left),
      ExprDependencies(iter, right));
  }

  lemma JoinOfMerges(joined1: Env, joined2: Env, left1: Env, left2: Env, right1: Env, right2: Env)
    requires IsJoin(joined1, left1, right1) && IsJoin(joined2, left2, right2)
    ensures IsJoin(Merge(joined1, joined2), Merge(left1, left2), Merge(right1, right2))
  {
    MergeIsJoin(joined1, joined2);
    MergeIsJoin(left1, left2);
    MergeIsJoin(right1, right2);
  }

  /** Running a statement after a join is joining the two runs. */
  lemma {:induction false} EnvStmtJoin(s: Stmt, joined: Env, left: Env, right: Env)
    requires IsJoin(joined, left, right)
    ensures IsJoin(EnvStmt(s, joined), EnvStmt(s, left), EnvStmt(s, right))
    decreases s
  {
    match s
    case Assign(targets, value, _) =>
      ExprDependenciesJoin(value, joined, left, right);
      BindTargetsJoin(targets, joined, left, right,
        ExprDependencies(value, joined), ExprDependencies(value, left), ExprDependencies(value, right));
    case AugAssign(target, value, _) =>
      ExprDependenciesJoin(value, joined, left, right);
      BindJoin(AssignedNames(target), joined, left, right,
        Get(joined, Dotted(target)) + ExprDependencies(value, joined),
        Get(left, Dotted(target)) + ExprDependencies(value, left),
        Get(right, Dotted(target)) + ExprDependencies(value, right));
    case If(_, body, orelse, _) =>
      EnvBlockJoin(body, joined, left, right);
      EnvBlockJoin(orelse, joined, left, right);
      JoinOfMerges(EnvBlock(body, joined), EnvBlock(orelse, joined), EnvBlock(body, left),
                   EnvBlock(orelse, left), EnvBlock(body, right), EnvBlock(orelse, right));
    case For(target, iter, body, _) =>
      BoundJoin(target, iter, joined, left, right);
      var j, l, r := BoundEnv(target, iter, joined), BoundEnv(target, iter, left), BoundEnv(target, iter, right);
      EnvBlockJoin(body, j, l, r);
      JoinOfMerges(joined, EnvBlock(body, j), left, EnvBlock(body, l), right, EnvBlock(body, r));
    case While(_, body, _) =>
      EnvBlockJoin(body, joined, left, right);
      JoinOfMerges(joined, EnvBlock(body, joined), left, EnvBlock(body, left), right, EnvBlock(body, right));
    case With(_, body, _) => EnvBlockJoin(body, joined, left, right);
    case _ =>
  }

  lemma {:induction false} EnvBlockJoin(stmts: seq<Stmt>, joined: Env, left: Env, right: Env)
    requires IsJoin(joined, left, right)
    ensures IsJoin(EnvBlock(stmts, joined), EnvBlock(stmts, left), EnvBlock(stmts, right))
    decreases stmts
  {
    if stmts != [] {
      EnvStmtJoin(stmts[0], joined, left, right);
      if !Stops(stmts[0]) {
        EnvBlockJoin(stmts[1..], EnvStmt(stmts[0], joined), EnvStmt(stmts[0], left), EnvStmt(stmts[0], right));
      }
    }
  }

  /******* Monotonicity, as the special case where one side is absorbed *******/

  lemma BelowIsJoin(lower: Env, upper: Env)
    ensures Below(lower, upper) <==> IsJoin(upper, lower, upper)
  {
  }

  lemma ExprDependenciesMonotone(e: Expr, lower: Env, upper: Env)
    requires Below(lower, upper)
    ensures ExprDependencies(e, lower) <= ExprDependencies(e, upper)
  {
    BelowIsJoin(lower, upper);
    ExprDependenciesJoin(e, upper, lower, upper);
  }

  lemma AllDependenciesMonotone(es: seq<Expr>, lower: Env, upper: Env)
    requires Below(lower, upper)
    ensures AllDependencies(es, lower) <= AllDependencies(es, upper)
  {
    BelowIsJoin(lower, upper);
    AllDependenciesJoin(es, upper, lower, upper);
  }

  lemma EnvStmtMonotone(s: Stmt, lower: Env, upper: Env)
    requires Below(lower, upper)
    ensures Below(EnvStmt(s, lower), EnvStmt(s, upper))
  {
    BelowIsJoin(lower, upper);
    EnvStmtJoin(s, upper, lower, upper);
    BelowIsJoin(EnvStmt(s, lower), EnvStmt(s, upper));
  }

  lemma BoundMonotone(target: Expr, iter: Expr, lower: Env, upper: Env)
    requires Below(lower, upper)
    ensures Below(BoundEnv(target, iter, lower), BoundEnv(target, iter, upper))
  {
    BelowIsJoin(lower, upper);
    BoundJoin(target, iter, upper, lower, upper);
    BelowIsJoin(BoundEnv(target, iter, lower), BoundEnv(target, iter, upper));
  }

  /** Every path that gets past a statement stays below the joined environment. */
  lemma {:induction false} PathStmtBelow(r: Reading, s: Stmt, lower: Env, upper: Env, decisions: seq<bool>)
    requires Below(lower, upper)
    ensures r.AsTraced? || !PathStmt(r, s, lower, decisions).stopped ==>
              Below(PathStmt(r, s, lower, decisions).env, EnvStmt(s, upper))
    decreases s
  {
    match s
    case If(_, body, orelse, _) =>
      PathBlockBelow(r, body, lower, upper, Rest(decisions));
      PathBlockBelow(r, orelse, lower, upper, Rest(decisions));
      MergeIsJoin(EnvBlock(body, upper), EnvBlock(orelse, upper));
    case For(target, iter, body, _) =>
      BoundMonotone(target, iter, lower, upper);
      var up := BoundEnv(target, iter, upper);
      PathBlockBelow(r, body, BoundEnv(target, iter, lower), up, Rest(decisions));
      MergeIsJoin(upper, EnvBlock(body, up));
    case While(_, body, _) =>
      PathBlockBelow(r, body, lower, upper, Rest(decisions));
      MergeIsJoin(upper, EnvBlock(body, upper));
    case With(_, body, _) => PathBlockBelow(r, body, lower, upper, decisions);
    case _ => EnvStmtMonotone(s, lower, upper);
  }

  lemma {:induction false} PathBlockBelow(r: Reading, stmts: seq<Stmt>, lower: Env, upper: Env, decisions: seq<bool>)
    requires Below(lower, upper)
    ensures r.AsTraced? || !PathBlock(r, stmts, lower, decisions).stopped ==>
              Below(PathBlock(r, stmts, lower, decisions).env, EnvBlock(stmts, upper))
    decreases stmts
  {
    if stmts != [] {
      PathStmtBelow(r, stmts[0], lower, upper, decisions);
      var after := PathStmt(r, stmts[0], lower, decisions);
      if !after.stopped {
        PathBlockBelow(r, stmts[1..], after.env, EnvStmt(stmts[0], upper), after.decisions);
      }
    }
  }

  /******* A path under a join is a path under one of its sides *******/

  lemma {:induction false} PathStmtJoin(r: Reading, s: Stmt, joined: Env, left: Env, right: Env, decisions: seq<bool>)
    requires IsJoin(joined, left, right)
    ensures IsJoin(PathStmt(r, s, joined, decisions).env, PathStmt(r, s, left, decisions).env,
                   PathStmt(r, s, right, decisions).env)
    decreases s
  {
    match s
    case If(_, body, orelse, _) =>
      PathBlockJoin(r, if Decide(decisions) then body else orelse, joined, left, right, Rest(decisions));
    case For(target, iter, body, _) =>
      BoundJoin(target, iter, joined, left, right);
      PathBlockJoin(r, body, BoundEnv(target, iter, joined), BoundEnv(target, iter, left), BoundEnv(target, iter, right),
                    Rest(decisions));
    case While(_, body, _) => PathBlockJoin(r, body, joined, left, right, Rest(decisions));
    case With(_, body, _) => PathBlockJoin(r, body, joined, left, right, decisions);
    case _ => EnvStmtJoin(s, joined, left, right);
  }

  lemma {:induction false} PathBlockJoin(r: Reading, stmts: seq<Stmt>, joined: Env, left: Env, right: Env, decisions: seq<bool>)
    requires IsJoin(joined, left, right)
    ensures IsJoin(PathBlock(r, stmts, joined, decisions).env, PathBlock(r, stmts, left, decisions).env,
                   PathBlock(r, stmts, right, decisions).env)
    decreases stmts
  {
    if stmts != [] {
      PathStmtJoin(r, stmts[0], joined, left, right, decisions);
      SameStmtShape(r, stmts[0], joined, left, decisions);
      SameStmtShape(r, stmts[0], joined, right, decisions);
      var j := PathStmt(r, stmts[0], joined, decisions);
      if !j.stopped {
        PathBlockJoin(r, stmts[1..], j.env, PathStmt(r, stmts[0], left, decisions).env,
                      PathStmt(r, stmts[0], right, decisions).env, j.decisions);
      }
    }
  }

  /** Where a path goes does not depend on its environment. */
  lemma {:induction false} SameStmtShape(r: Reading, s: Stmt, env: Env, other: Env, decisions: seq<bool>)
    ensures var p, q := PathStmt(r, s, env, decisions), PathStmt(r, s, other, decisions);
            p.stopped == q.stopped && p.decisions == q.decisions
    decreases s
  {
    match s
    case If(_, body, orelse, _) =>
      SameBlockShape(r, if Decide(decisions) then body else orelse, env, other, Rest(decisions));
    case For(target, iter, body, _) =>
      SameBlockShape(r, body, BoundEnv(target, iter, env), BoundEnv(target, iter, other), Rest(decisions));
    case While(_, body, _) => SameBlockShape(r, body, env, other, Rest(decisions));
    case With(_, body, _) => SameBlockShape(r, body, env, other, decisions);
    case _ =>
  }

  lemma {:induction false} SameBlockShape(r: Reading, stmts: seq<Stmt>, env: Env, other: Env, decisions: seq<bool>)
    ensures var p, q := PathBlock(r, stmts, env, decisions), PathBlock(r, stmts, other, decisions);
            p.stopped == q.stopped && p.decisions == q.decisions
    decreases stmts
  {
    if stmts != [] {
      SameStmtShape(r, stmts[0], env, other, decisions);
      var p, q := PathStmt(r, stmts[0], env, decisions), PathStmt(r, stmts[0], other, decisions);
      SameBlockShape(r, stmts[1..], p.env, q.env, p.decisions);
    }
  }

  /******* From the joined environment back to a path *******/

  /** What holds of a join holds of one of its sides. */
  ghost predicate Distributes(k: Env -> bool) {
    forall joined, left, right :: IsJoin(joined, left, right) && k(joined) ==> k(left) || k(right)
  }

  lemma JoinedEither(k: Env -> bool, joined: Env, left: Env, right: Env)
    requires Distributes(k) && IsJoin(joined, left, right) && k(joined)
    ensures k(left) || k(right)
  {
  }

  /** The reading goes on after the statement wherever the tracer does. */
  predicate GoesPast(r: Reading, s: Stmt) {
    if r.AsTraced? then !Stops(s) else PassesStmt(s)
  }

  predicate GoesThrough(r: Reading, stmts: seq<Stmt>) {
    r.AsTraced? || Passes(stmts)
  }

  /** What holds after a statement and distributes over joins holds at the end of some path through it, which
      can leave any decisions to what follows. */
  lemma {:induction false} WayPast(r: Reading, s: Stmt, env: Env, k: Env -> bool, rest: seq<bool>) returns (path: seq<bool>)
    requires GoesPast(r, s) && Distributes(k) && k(EnvStmt(s, env))
    ensures var end := PathStmt(r, s, env, path); k(end.env) && end.decisions == rest && !end.stopped
    decreases s
  {
    match s
    case If(_, body, orelse, _) =>
      MergeIsJoin(EnvBlock(body, env), EnvBlock(orelse, env));
      JoinedEither(k, EnvStmt(s, env), EnvBlock(body, env), EnvBlock(orelse, env));
      if r.AsRun? && KeepsNames(body) && KeepsNames(orelse) {
        BothKeep(body, orelse, env, k);
      }
      if k(EnvBlock(body, env)) && GoesThrough(r, body) {
        path := WayThrough(r, body, env, k, rest);
        path := [true] + path;
      } else {
        path := WayThrough(r, orelse, env, k, rest);
        path := [false] + path;
      }
    case For(target, iter, body, _) => path := WayPastLoop(r, body, env, BoundEnv(target, iter, env), k, rest);
    case While(_, body, _) => path := WayPastLoop(r, body, env, env, k, rest);
    case With(_, body, _) => path := WayThrough(r, body, env, k, rest);
    case _ => path := rest;
  }

  lemma {:induction false} WayPastLoop(r: Reading, body: seq<Stmt>, env: Env, bound: Env, k: Env -> bool, rest: seq<bool>)
      returns (path: seq<bool>)
    requires Distributes(k) && k(Merge(env, EnvBlock(body, bound)))
    requires GoesThrough(r, body) || (env == bound && KeepsNames(body))
    ensures path != []
    ensures var end := if path[0] then Leave(r, PathBlock(r, body, bound, path[1..])) else PathState(env, path[1..], false);
            k(end.env) && end.decisions == rest && !end.stopped
    decreases body, 1
  {
    MergeIsJoin(env, EnvBlock(body, bound));
    JoinedEither(k, Merge(env, EnvBlock(body, bound)), env, EnvBlock(body, bound));
    if !GoesThrough(r, body) {
      KeptBlock(body, bound);
      if !k(env) {
        JoinedEither(k, EnvBlock(body, bound), env, env);
      }
    }
    if k(env) {
      path := [false] + rest;
    } else {
      path := WayThrough(r, body, bound, k, rest);
      path := [true] + path;
    }
  }

  lemma {:induction false} WayThrough(r: Reading, stmts: seq<Stmt>, env: Env, k: Env -> bool, rest: seq<bool>)
      returns (path: seq<bool>)
    requires GoesThrough(r, stmts) && Distributes(k) && k(EnvBlock(stmts, env))
    ensures var end := PathBlock(r, stmts, env, path); k(end.env) && end.decisions == rest && (r.AsRun? ==> !end.stopped)
    decreases stmts, 0
  {
    assert r.AsRun? && stmts != [] ==> PassesStmt(stmts[0]);
    if stmts == [] || Stops(stmts[0]) {
      path := rest;
    } else {
      var s, tail := stmts[0], stmts[1..];
      var onward := WayThrough(r, tail, EnvStmt(s, env), k, rest);
      path := WayPast(r, s, env, AfterPath(r, tail, onward, k), onward);
      assert PathBlock(r, stmts, env, path) == PathBlock(r, tail, PathStmt(r, s, env, path).env, onward);
      SameBlockShape(r, tail, EnvStmt(s, env), PathStmt(r, s, env, path).env, onward);
    }
  }

  /** What holds at the end of a fixed path distributes as well. */
  ghost function AfterPath(r: Reading, stmts: seq<Stmt>, path: seq<bool>, k: Env -> bool): (after: Env -> bool)
    ensures Distributes(k) ==> Distributes(after)
  {
    var after := (env: Env) => k(PathBlock(r, stmts, env, path).env);
    assert Distributes(k) ==> Distributes(after) by {
      if Distributes(k) {
        forall joined, left, right | IsJoin(joined, left, right) && after(joined) ensures after(left) || after(right) {
          PathBlockJoin(r, stmts, joined, left, right, path);
        }
      }
    }
    after
  }

  /** A block that binds no name leaves every name as it was. */
  lemma {:induction false} KeptBlock(stmts: seq<Stmt>, env: Env)
    requires KeepsNames(stmts)
    ensures IsJoin(EnvBlock(stmts, env), env, env) && IsJoin(env, EnvBlock(stmts, env), EnvBlock(stmts, env))
    decreases stmts
  {
    if stmts != [] {
      KeptStmt(stmts[0], env);
      if !Stops(stmts[0]) {
        KeptBlock(stmts[1..], EnvStmt(stmts[0], env));
      }
    }
  }

  lemma {:induction false} KeptStmt(s: Stmt, env: Env)
    requires KeepsNamesStmt(s)
    ensures IsJoin(EnvStmt(s, env), env, env) && IsJoin(env, EnvStmt(s, env), EnvStmt(s, env))
    decreases s
  {
    match s
    case Assign(targets, value, _) => BindNoTargets(env, targets, ExprDependencies(value, env));
    case If(_, body, orelse, _) =>
      KeptBlock(body, env);
      KeptBlock(orelse, env);
      MergeIsJoin(EnvBlock(body, env), EnvBlock(orelse, env));
    case For(target, iter, body, _) =>
      KeptBlock(body, env);
      MergeIsJoin(env, EnvBlock(body, env));
    case While(_, body, _) =>
      KeptBlock(body, env);
      MergeIsJoin(env, EnvBlock(body, env));
    case With(_, body, _) => KeptBlock(body, env);
    case _ =>
  }

  lemma {:induction false} BindNoTargets(env: Env, targets: seq<Expr>, deps: set<string>)
    requires AssignedNamesOfAll(targets) == []
    ensures BindTargets(env, targets, deps) == env
  {
    if targets != [] {
      assert AssignedNames(targets[0]) == [];
      BindNoTargets(env, targets[1..], deps);
    }
  }

  lemma BothKeep(body: seq<Stmt>, orelse: seq<Stmt>, env: Env, k: Env -> bool)
    requires KeepsNames(body) && KeepsNames(orelse) && Distributes(k)
    requires k(EnvBlock(body, env)) || k(EnvBlock(orelse, env))
    ensures k(EnvBlock(body, env)) && k(EnvBlock(orelse, env))
  {
    KeptBlock(body, env);
    KeptBlock(orelse, env);
    if k(EnvBlock(body, env)) {
      JoinedEither(k, EnvBlock(body, env), EnvBlock(orelse, env), EnvBlock(orelse, env));
    } else {
      JoinedEither(k, EnvBlock(orelse, env), EnvBlock(body, env), EnvBlock(body, env));
    }
  }

  /******* Exactness *******/

  ghost function HasSource(name: string, source: string): (k: Env -> bool)
    ensures Distributes(k)
  {
    (env: Env) => source in Get(env, name)
  }

  /** A dependency the analysis reports at the end of a block is carried by some path of the reading. */
  lemma SomePathCarries(r: Reading, stmts: seq<Stmt>, env: Env, name: string, source: string) returns (decisions: seq<bool>)
    requires GoesThrough(r, stmts) && source in Get(EnvBlock(stmts, env), name)
    ensures var end := PathBlock(r, stmts, env, decisions);
            source in Get(end.env, name) && (r.AsRun? ==> !end.stopped)
  {
    decisions := WayThrough(r, stmts, env, HasSource(name, source), []);
  }

  /** Exactness of the join, for every block: name by name, the environment the analysis computes is the union
      over all paths of walking that path alone. */
  lemma JoinIsExact(stmts: seq<Stmt>, env: Env, name: string, source: string)
    ensures source in Get(EnvBlock(stmts, env), name)
      <==> exists decisions :: source in Get(PathBlock(AsTraced, stmts, env, decisions).env, name)
  {
    if source in Get(EnvBlock(stmts, env), name) {
      var decisions := SomePathCarries(AsTraced, stmts, env, name, source);
    }
    forall decisions | source in Get(PathBlock(AsTraced, stmts, env, decisions).env, name)
      ensures source in Get(EnvBlock(stmts, env), name)
    {
      PathBlockBelow(AsTraced, stmts, env, env, decisions);
    }
  }

  /** Along these decisions no Return or Raise cuts anything short: whatever the environment, the run ends with
      what the tracer's walk ends with. */
  ghost predicate RunsOut(stmts: seq<Stmt>, decisions: seq<bool>) {
    forall env :: PathBlock(AsRun, stmts, env, decisions).env == PathBlock(AsTraced, stmts, env, decisions).env
  }

  ghost predicate RunsOutStmt(s: Stmt, decisions: seq<bool>) {
    forall env :: PathStmt(AsRun, s, env, decisions).env == PathStmt(AsTraced, s, env, decisions).env
  }

  /** A run that does not stop is what the tracer walks. */
  lemma {:induction false} UnstoppedStmt(s: Stmt, env: Env, decisions: seq<bool>)
    requires !PathStmt(AsRun, s, env, decisions).stopped
    ensures PathStmt(AsRun, s, env, decisions) == PathStmt(AsTraced, s, env, decisions)
    decreases s
  {
    match s
    case If(_, body, orelse, _) => UnstoppedBlock(if Decide(decisions) then body else orelse, env, Rest(decisions));
    case For(target, iter, body, _) =>
      if Decide(decisions) {
        UnstoppedBlock(body, BoundEnv(target, iter, env), Rest(decisions));
      }
    case While(_, body, _) =>
      if Decide(decisions) {
        UnstoppedBlock(body, env, Rest(decisions));
      }
    case With(_, body, _) => UnstoppedBlock(body, env, decisions);
    case _ =>
  }

  lemma {:induction false} UnstoppedBlock(stmts: seq<Stmt>, env: Env, decisions: seq<bool>)
    requires !PathBlock(AsRun, stmts, env, decisions).stopped
    ensures PathBlock(AsRun, stmts, env, decisions) == PathBlock(AsTraced, stmts, env, decisions)
    decreases stmts
  {
    if stmts != [] {
      UnstoppedStmt(stmts[0], env, decisions);
      var after := PathStmt(AsRun, stmts[0], env, decisions);
      UnstoppedBlock(stmts[1..], after.env, after.decisions);
    }
  }

  /** Of a block whose stops all leave what follows alone, some run goes to its end. */
  lemma {:induction false} WayToEnd(stmts: seq<Stmt>, env: Env, k: Env -> bool) returns (path: seq<bool>)
    requires Leaves(stmts) && Distributes(k) && k(EnvBlock(stmts, env))
    ensures k(PathBlock(AsRun, stmts, env, path).env) && RunsOut(stmts, path)
    decreases stmts, 0
  {
    if stmts == [] || Stops(stmts[0]) {
      path := [];
    } else if stmts[1..] == [] {
      path := WayToEndOf(stmts[0], env, k);
      assert forall e, r :: PathBlock(r, stmts, e, path).env == PathStmt(r, stmts[0], e, path).env;
    } else {
      var s, tail := stmts[0], stmts[1..];
      var onward := WayToEnd(tail, EnvStmt(s, env), k);
      path := WayPast(AsRun, s, env, AfterPath(AsRun, tail, onward, k), onward);
      forall e ensures PathBlock(AsRun, stmts, e, path).env == PathBlock(AsTraced, stmts, e, path).env {
        SameStmtShape(AsRun, s, env, e, path);
        UnstoppedStmt(s, e, path);
      }
    }
  }

  lemma {:induction false} WayToEndOf(s: Stmt, env: Env, k: Env -> bool) returns (path: seq<bool>)
    requires LeavesStmt(s) && Distributes(k) && k(EnvStmt(s, env))
    ensures k(PathStmt(AsRun, s, env, path).env) && RunsOutStmt(s, path)
    decreases s
  {
    match s
    case If(_, body, orelse, _) =>
      MergeIsJoin(EnvBlock(body, env), EnvBlock(orelse, env));
      JoinedEither(k, EnvStmt(s, env), EnvBlock(body, env), EnvBlock(orelse, env));
      if k(EnvBlock(body, env)) {
        path := WayToEnd(body, env, k);
        path := [true] + path;
      } else {
        path := WayToEnd(orelse, env, k);
        path := [false] + path;
      }
    case For(target, iter, body, _) => path := WayToEndOfLoop(body, env, BoundEnv(target, iter, env), k);
    case While(_, body, _) => path := WayToEndOfLoop(body, env, env, k);
    case With(_, body, _) => path := WayToEnd(body, env, k);
    case _ => path := [];
  }

  lemma {:induction false} WayToEndOfLoop(body: seq<Stmt>, env: Env, bound: Env, k: Env -> bool) returns (path: seq<bool>)
    requires Leaves(body) && Distributes(k) && k(Merge(env, EnvBlock(body, bound)))
    ensures path != [] && if path[0] then k(PathBlock(AsRun, body, bound, path[1..]).env) && RunsOut(body, path[1..]) else k(env)
    decreases body, 1
  {
    MergeIsJoin(env, EnvBlock(body, bound));
    JoinedEither(k, Merge(env, EnvBlock(body, bound)), env, EnvBlock(body, bound));
    if k(env) {
      path := [false];
    } else {
      path := WayToEnd(body, bound, k);
      path := [true] + path;
    }
  }

  /** The same for runs, where stops leave what follows alone: the environment is the union over all runs that no
      Return or Raise cuts short. */
  lemma JoinIsExactForRuns(stmts: seq<Stmt>, env: Env, name: string, source: string)
    requires Leaves(stmts)
    ensures source in Get(EnvBlock(stmts, env), name)
      <==> exists decisions :: RunsOut(stmts, decisions) && source in Get(PathBlock(AsRun, stmts, env, decisions).env, name)
  {
    if source in Get(EnvBlock(stmts, env), name) {
      var decisions := WayToEnd(stmts, env, HasSource(name, source));
    }
    forall decisions | RunsOut(stmts, decisions) && source in Get(PathBlock(AsRun, stmts, env, decisions).env, name)
      ensures source in Get(EnvBlock(stmts, env), name)
    {
      PathBlockBelow(AsTraced, stmts, env, env, decisions);
    }
  }

  lemma EnvBlockUnfolds(s: Stmt, rest: seq<Stmt>, env: Env)
    ensures EnvBlock([s] + rest, env) == if Stops(s) then EnvStmt(s, env) else EnvBlock(rest, EnvStmt(s, env))
  {
    assert ([s] + rest)[1..] == rest;
  }

  /** With an early Return the join is above every path: a branch that returns still counts for what follows. */
  lemma EarlyReturnOverreaches()
    ensures var stmts := [If(Constant, [Assign([Name("x")], Name("a"), 1), Return(None, 2)], [], 1)];
            var env: Env := map["a" := {"a"}];
            && "a" in Get(EnvBlock(stmts, env), "x")
            && forall decisions :: !PathBlock(AsRun, stmts, env, decisions).stopped ==>
                 "a" !in Get(PathBlock(AsRun, stmts, env, decisions).env, "x")
  {
    var bind, leave := Assign([Name("x")], Name("a"), 1), Return(None, 2);
    var branch := If(Constant, [bind, leave], [], 1);
    var env: Env := map["a" := {"a"}];
    var bound := env["x" := {"a"}];
    assert EnvStmt(bind, env) == BindTargets(env, [Name("x")], {"a"}) == Bind(env, ["x"], {"a"}) == bound;
    EnvBlockUnfolds(bind, [leave], env);
    EnvBlockUnfolds(leave, [], bound);
    EnvBlockUnfolds(branch, [], env);
    assert [leave] + [] == [leave] && [bind] + [leave] == [bind, leave] && [branch] + [] == [branch];
    assert EnvBlock([], env) == env;
    assert EnvBlock([branch], env) == Merge(bound, env);
    assert [bind, leave][1..] == [leave] && [branch][1..] == [];
    forall decisions | !PathBlock(AsRun, [branch], env, decisions).stopped
      ensures "a" !in Get(PathBlock(AsRun, [branch], env, decisions).env, "x")
    {
      var after := PathStmt(AsRun, branch, env, decisions);
      assert PathBlock(AsRun, [bind, leave], env, Rest(decisions)) == PathBlock(AsRun, [leave], bound, Rest(decisions));
      assert PathBlock(AsRun, [leave], bound, Rest(decisions)).stopped;
      assert PathBlock(AsRun, branch.orelse, env, Rest(decisions)) == PathState(env, Rest(decisions), false);
      assert branch.body == [bind, leave];
      assert PathBlock(AsRun, [branch], env, decisions) == if after.stopped then after else PathBlock(AsRun, [], after.env, after.decisions);
    }
  }
}

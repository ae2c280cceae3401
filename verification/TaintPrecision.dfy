/** Taint precision: in code that never stops early, every source of every flow is on some path. */
module TaintPrecision {
  import opened PythonAst
  import opened ValueFlow
  import opened Dependencies
  import opened SourceIndex
  import opened TaintFlows
  import opened TaintGuarantees
  import opened TaintPaths
  import opened TaintSoundness

  /******* The code this is about *******/

  /** No call anywhere in the expression. */
  ghost predicate CallFree(e: Expr) {
    !e.Call? && forall c :: c in Children(e) ==> CallFree(c)
  }

  /** The expression looks at the name. */
  ghost predicate Mentions(e: Expr, name: string) {
    e == Name(name) || exists c :: c in Children(e) && Mentions(c, name)
  }

  /** The value is walked after the name is bound: no call in it, or nothing in it looks at that name. */
  ghost predicate CalmStmt(s: Stmt) {
    match s
    case AugAssign(place, value, _) => CallFree(value) || forall name :: name in AssignedNames(place) ==> !Mentions(value, name)
    case If(_, body, orelse, _) => Calm(body) && Calm(orelse)
    case For(_, _, body, _) => Calm(body)
    case While(_, body, _) => Calm(body)
    case With(_, body, _) => Calm(body)
    case _ => true
  }

  ghost predicate Calm(stmts: seq<Stmt>) {
    stmts == [] || (CalmStmt(stmts[0]) && Calm(stmts[1..]))
  }

  /** Nothing along the chain that a run reads otherwise than the tracer. */
  ghost predicate Plain(r: Reading, ix: Index, chain: seq<Symbol>) {
    r.AsTraced? || forall symbol :: symbol in chain && symbol in ix.functions ==>
                     Leaves(ix.functions[symbol].body) && Calm(ix.functions[symbol].body)
  }

  ghost predicate PlainBlock(r: Reading, stmts: seq<Stmt>) {
    r.AsTraced? || (Leaves(stmts) && Calm(stmts))
  }

  ghost predicate PlainStmt(r: Reading, s: Stmt) {
    r.AsTraced? || (LeavesStmt(s) && CalmStmt(s))
  }

  /******* An event under a join is an event under one of its sides *******/

  /** The same sink call, reached the same way, with this source. */
  ghost predicate Carries(ev: Event, chain: seq<Symbol>, sink: SinkId, source: string) {
    ev.chain == chain && ev.sink == sink && source in ev.sources
  }

  ghost predicate Same(ev: Event, like: Event, source: string) {
    Carries(ev, like.chain, like.sink, source) && ev.met == like.met
  }

  lemma {:induction false} ExprEventJoin(r: Reading, ix: Index, p: Place, e: Expr, joined: Env, left: Env, right: Env, ev: Event, source: string)
      returns (one: Event)
    requires p.InDepth(ix) && IsJoin(joined, left, right)
    requires EventInExpr(r, ix, p, e, joined, ev) && source in ev.sources
    ensures Same(one, ev, source)
    ensures EventInExpr(r, ix, p, e, left, one) || EventInExpr(r, ix, p, e, right, one)
    decreases Fuel(ix, p.chain), e, 1
  {
    if e.Call? && EventOfCall(r, ix, p, e, joined, ev) {
      one := CallEventJoin(r, ix, p, e, joined, left, right, ev, source);
    } else {
      var child :| child in Children(e) && EventInExpr(r, ix, p, child, joined, ev);
      one := ExprEventJoin(r, ix, p, child, joined, left, right, ev, source);
    }
  }

  lemma {:induction false} CallEventJoin(r: Reading, ix: Index, p: Place, call: Expr, joined: Env, left: Env, right: Env, ev: Event, source: string)
      returns (one: Event)
    requires call.Call? && p.InDepth(ix) && IsJoin(joined, left, right)
    requires EventOfCall(r, ix, p, call, joined, ev) && source in ev.sources
    ensures Same(one, ev, source)
    ensures EventOfCall(r, ix, p, call, left, one) || EventOfCall(r, ix, p, call, right, one)
    decreases Fuel(ix, p.chain), call, 0
  {
    if OwnEvent(ix, p, call, joined, ev) {
      CallSources(call, joined);
      CallSources(call, left);
      CallSources(call, right);
      AllDependenciesJoin(call.args, joined, left, right);
      AllDependenciesJoin(call.keywords, joined, left, right);
      if source in CallDependencies(call, left) {
        one := ev.(sources := CallDependencies(call, left));
        assert OwnEvent(ix, p, call, left, one);
      } else {
        one := ev.(sources := CallDependencies(call, right));
        assert OwnEvent(ix, p, call, right, one);
      }
    } else {
      var callee := ix.Callee(p.info, call).value;
      var start, decisions :| Starts(callee.parameters, call.args, call.keywords, joined, start)
                              && EventInFunction(r, ix, p.Enter(callee), start, decisions, ev);
      StartsWithItsArguments(callee.parameters, call.args, call.keywords, joined, start);
      var inLeft := ChildEnv(callee.parameters, call.args, call.keywords, left);
      var inRight := ChildEnv(callee.parameters, call.args, call.keywords, right);
      StartsWithItsArguments(callee.parameters, call.args, call.keywords, left, inLeft);
      StartsWithItsArguments(callee.parameters, call.args, call.keywords, right, inRight);
      ChildEnvJoin(callee.parameters, call.args, call.keywords, joined, left, right);
      one := FunctionEventJoin(r, ix, p.Enter(callee), start, inLeft, inRight, decisions, ev, source);
    }
  }

  lemma {:induction false} FunctionEventJoin(r: Reading, ix: Index, p: Place, joined: Env, left: Env, right: Env, decisions: seq<bool>,
                                             ev: Event, source: string) returns (one: Event)
    requires IsJoin(joined, left, right)
    requires EventInFunction(r, ix, p, joined, decisions, ev) && source in ev.sources
    ensures Same(one, ev, source)
    ensures EventInFunction(r, ix, p, left, decisions, one) || EventInFunction(r, ix, p, right, decisions, one)
    decreases Fuel(ix, p.chain)
  {
    one := BlockEventJoin(r, ix, p.Body(ix), p.info.body, joined, left, right, true, decisions, ev, source);
  }

  lemma {:induction false} BlockEventJoin(r: Reading, ix: Index, p: Place, stmts: seq<Stmt>, joined: Env, left: Env, right: Env,
                                          top: bool, decisions: seq<bool>, ev: Event, source: string) returns (one: Event)
    requires p.InDepth(ix) && IsJoin(joined, left, right)
    requires EventInBlock(r, ix, p, stmts, joined, top, decisions, ev) && source in ev.sources
    ensures Same(one, ev, source)
    ensures EventInBlock(r, ix, p, stmts, left, top, decisions, one) || EventInBlock(r, ix, p, stmts, right, top, decisions, one)
    decreases Fuel(ix, p.chain), stmts, 1
  {
    if EventInStmt(r, ix, p, stmts[0], joined, decisions, ev) {
      one := StmtEventJoin(r, ix, p, stmts[0], joined, left, right, decisions, ev, source);
    } else {
      PathStmtJoin(r, stmts[0], joined, left, right, decisions);
      SameStmtShape(r, stmts[0], joined, left, decisions);
      SameStmtShape(r, stmts[0], joined, right, decisions);
      var j := PathStmt(r, stmts[0], joined, decisions);
      one := BlockEventJoin(r, ix, p.Past(ix, stmts[0], top), stmts[1..], j.env, PathStmt(r, stmts[0], left, decisions).env,
                            PathStmt(r, stmts[0], right, decisions).env, top, j.decisions, ev, source);
    }
  }

  lemma {:induction false} StmtEventJoin(r: Reading, ix: Index, p: Place, s: Stmt, joined: Env, left: Env, right: Env,
                                         decisions: seq<bool>, ev: Event, source: string) returns (one: Event)
    requires p.InDepth(ix) && IsJoin(joined, left, right)
    requires EventInStmt(r, ix, p, s, joined, decisions, ev) && source in ev.sources
    ensures Same(one, ev, source)
    ensures EventInStmt(r, ix, p, s, left, decisions, one) || EventInStmt(r, ix, p, s, right, decisions, one)
    decreases Fuel(ix, p.chain), s, 1
  {
    match s
    case Assign(_, value, _) => one := ExprEventJoin(r, ix, p, value, joined, left, right, ev, source);
    case AugAssign(_, value, _) =>
      if r.AsRun? {
        one := ExprEventJoin(r, ix, p, value, joined, left, right, ev, source);
      } else {
        EnvStmtJoin(s, joined, left, right);
        one := ExprEventJoin(r, ix, p, value, EnvStmt(s, joined), EnvStmt(s, left), EnvStmt(s, right), ev, source);
      }
    case If(test, body, orelse, _) =>
      if EventInExpr(r, ix, p, test, joined, ev) {
        one := ExprEventJoin(r, ix, p, test, joined, left, right, ev, source);
      } else {
        one := BlockEventJoin(r, ix, if Decide(decisions) then p.Inside(ix, s.line) else p,
                              if Decide(decisions) then body else orelse, joined, left, right, false, Rest(decisions), ev, source);
      }
    case For(target, iter, body, _) =>
      if EventInExpr(r, ix, p, iter, joined, ev) {
        one := ExprEventJoin(r, ix, p, iter, joined, left, right, ev, source);
      } else {
        BoundJoin(target, iter, joined, left, right);
        one := BlockEventJoin(r, ix, p, body, BoundEnv(target, iter, joined), BoundEnv(target, iter, left),
                              BoundEnv(target, iter, right), false, Rest(decisions), ev, source);
      }
    case While(test, body, _) =>
      if EventInExpr(r, ix, p, test, joined, ev) {
        one := ExprEventJoin(r, ix, p, test, joined, left, right, ev, source);
      } else {
        one := BlockEventJoin(r, ix, p, body, joined, left, right, false, Rest(decisions), ev, source);
      }
    case With(items, body, _) =>
      if item :| item in items && EventInExpr(r, ix, p, item, joined, ev) {
        one := ExprEventJoin(r, ix, p, item, joined, left, right, ev, source);
      } else {
        one := BlockEventJoin(r, ix, p, body, joined, left, right, false, decisions, ev, source);
      }
    case ExprStmt(value, _) => one := ExprEventJoin(r, ix, p, value, joined, left, right, ev, source);
    case Return(Some(value), _) => one := ExprEventJoin(r, ix, p, value, joined, left, right, ev, source);
    case Raise(Some(value), _) => one := ExprEventJoin(r, ix, p, value, joined, left, right, ev, source);
    case Assert(test, _) => one := ExprEventJoin(r, ix, p, test, joined, left, right, ev, source);
    case _ => assert false;
  }

  /** The event, or one like it from a smaller environment, lies on this path. */
  ghost predicate Carried(r: Reading, ix: Index, p: Place, stmts: seq<Stmt>, env: Env, top: bool, decisions: seq<bool>,
                          ev: Event, source: string)
    requires p.InDepth(ix)
  {
    exists one :: Same(one, ev, source) && EventInBlock(r, ix, p, stmts, env, top, decisions, one)
  }

  lemma CarriedJoin(r: Reading, ix: Index, p: Place, stmts: seq<Stmt>, joined: Env, left: Env, right: Env, top: bool,
                    decisions: seq<bool>, ev: Event, source: string)
    requires p.InDepth(ix) && IsJoin(joined, left, right) && Carried(r, ix, p, stmts, joined, top, decisions, ev, source)
    ensures Carried(r, ix, p, stmts, left, top, decisions, ev, source) || Carried(r, ix, p, stmts, right, top, decisions, ev, source)
  {
    var one :| Same(one, ev, source) && EventInBlock(r, ix, p, stmts, joined, top, decisions, one);
    one := BlockEventJoin(r, ix, p, stmts, joined, left, right, top, decisions, one, source);
  }

  /** An event that starts from the joined environment after a statement lies on a path through that statement. */
  lemma ReachPast(r: Reading, ix: Index, p: Place, s: Stmt, rest: seq<Stmt>, env: Env, top: bool, decisions: seq<bool>,
                  ev: Event, source: string) returns (path: seq<bool>, one: Event)
    requires p.InDepth(ix) && GoesPast(r, s)
    requires EventInBlock(r, ix, p.Past(ix, s, top), rest, EnvStmt(s, env), top, decisions, ev) && source in ev.sources
    ensures Same(one, ev, source) && EventInBlock(r, ix, p, [s] + rest, env, top, path, one)
  {
    var q := p.Past(ix, s, top);
    var k := (e: Env) => Carried(r, ix, q, rest, e, top, decisions, ev, source);
    forall joined, left, right | IsJoin(joined, left, right) && k(joined) ensures k(left) || k(right) {
      CarriedJoin(r, ix, q, rest, joined, left, right, top, decisions, ev, source);
    }
    assert Same(ev, ev, source);
    path := WayPast(r, s, env, k, decisions);
    one :| Same(one, ev, source) && EventInBlock(r, ix, q, rest, PathStmt(r, s, env, path).env, top, decisions, one);
    assert ([s] + rest)[1..] == rest;
  }

  /******* A value that does not look at the name just bound *******/

  /** The environments agree on all the expression looks at. */
  ghost predicate Agree(e: Expr, env: Env, other: Env) {
    forall name :: Mentions(e, name) ==> Get(env, name) == Get(other, name)
  }

  lemma ChildrenAgree(e: Expr, env: Env, other: Env)
    requires Agree(e, env, other)
    ensures forall c :: c in Children(e) ==> Agree(c, env, other)
  {
  }

  lemma {:induction false} SameDependencies(e: Expr, env: Env, other: Env)
    requires Agree(e, env, other)
    ensures ExprDependencies(e, env) == ExprDependencies(e, other)
  {
    ChildrenAgree(e, env, other);
    match e
    case Name(id) => assert Mentions(e, id);
    case Attribute(v, _) => SameDependencies(v, env, other);
    case Call(_, args, keywords, _, _) =>
      AllSameDependencies(args, env, other);
      AllSameDependencies(keywords, env, other);
    case KeywordArgument(_, v) => SameDependencies(v, env, other);
    case Constant =>
    case Tree(_, children) => AllSameDependencies(children, env, other);
  }

  lemma {:induction false} AllSameDependencies(es: seq<Expr>, env: Env, other: Env)
    requires forall e :: e in es ==> Agree(e, env, other)
    ensures AllDependencies(es, env) == AllDependencies(es, other)
  {
    if es != [] {
      SameDependencies(es[0], env, other);
      AllSameDependencies(es[1..], env, other);
    }
  }

  lemma {:induction false} SamePositionalEnv(parameters: seq<string>, args: seq<Expr>, count: nat, env: Env, other: Env)
    requires count <= |args| && forall e :: e in args ==> Agree(e, env, other)
    ensures PositionalEnv(parameters, args, count, env) == PositionalEnv(parameters, args, count, other)
  {
    if count > 0 {
      SamePositionalEnv(parameters, args, count - 1, env, other);
      SameDependencies(args[count - 1], env, other);
    }
  }

  lemma {:induction false} SameKeywordEnv(parameters: seq<string>, keywords: seq<Expr>, count: nat, env: Env, other: Env, base: Env)
    requires count <= |keywords| && forall e :: e in keywords ==> Agree(e, env, other)
    ensures KeywordEnv(parameters, keywords, count, env, base) == KeywordEnv(parameters, keywords, count, other, base)
  {
    if count > 0 {
      SameKeywordEnv(parameters, keywords, count - 1, env, other, base);
      var k := keywords[count - 1];
      if k.KeywordArgument? {
        ChildrenAgree(k, env, other);
        SameDependencies(k.keywordValue, env, other);
      }
    }
  }

  /** The call passes on the same, whether before or after the binding. */
  lemma SameCall(r: Reading, ix: Index, p: Place, call: Expr, env: Env, other: Env, ev: Event)
    requires p.InDepth(ix) && call.Call? && Agree(call, env, other) && EventOfCall(r, ix, p, call, env, ev)
    ensures EventOfCall(r, ix, p, call, other, ev)
  {
    ChildrenAgree(call, env, other);
    AllSameDependencies(call.args, env, other);
    AllSameDependencies(call.keywords, env, other);
    CallSources(call, env);
    CallSources(call, other);
    if !OwnEvent(ix, p, call, env, ev) {
      var callee := ix.Callee(p.info, call).value;
      var start, decisions :| Starts(callee.parameters, call.args, call.keywords, env, start)
                              && EventInFunction(r, ix, p.Enter(callee), start, decisions, ev);
      StartsWithItsArguments(callee.parameters, call.args, call.keywords, env, start);
      StartsWithItsArguments(callee.parameters, call.args, call.keywords, other, start);
      SamePositionalEnv(callee.parameters, call.args, |call.args|, env, other);
      SameKeywordEnv(callee.parameters, call.keywords, |call.keywords|, env, other,
        PositionalEnv(callee.parameters, call.args, |call.args|, other));
      assert ChildEnv(callee.parameters, call.args, call.keywords, env) == ChildEnv(callee.parameters, call.args, call.keywords, other);
    }
  }

  lemma {:induction false} SameEvents(r: Reading, ix: Index, p: Place, e: Expr, env: Env, other: Env, ev: Event)
    requires p.InDepth(ix) && Agree(e, env, other) && EventInExpr(r, ix, p, e, env, ev)
    ensures EventInExpr(r, ix, p, e, other, ev)
    decreases e
  {
    if e.Call? && EventOfCall(r, ix, p, e, env, ev) {
      SameCall(r, ix, p, e, env, other, ev);
    } else {
      ChildrenAgree(e, env, other);
      var child :| child in Children(e) && EventInExpr(r, ix, p, child, env, ev);
      SameEvents(r, ix, p, child, env, other, ev);
    }
  }

  lemma BoundAlone(env: Env, place: SingleTarget, deps: set<string>, name: string)
    requires name !in AssignedNames(place)
    ensures Get(Bind(env, AssignedNames(place), deps), name) == Get(env, name)
  {
    if place.Name? {
      BindOne(env, place.id, deps);
    }
  }

  /** What a call in an unrelated value meets, it meets before the binding too. */
  lemma BindingUnseen(r: Reading, ix: Index, p: Place, s: Stmt, env: Env, ev: Event)
    requires p.InDepth(ix) && s.AugAssign? && forall name :: name in AssignedNames(s.place) ==> !Mentions(s.value, name)
    requires EventInExpr(r, ix, p, s.value, EnvStmt(s, env), ev)
    ensures EventInExpr(r, ix, p, s.value, env, ev)
  {
    forall name | Mentions(s.value, name) ensures Get(EnvStmt(s, env), name) == Get(env, name) {
      BoundAlone(env, s.place, Get(env, Dotted(s.place)) + ExprDependencies(s.value, env), name);
    }
    SameEvents(r, ix, p, s.value, EnvStmt(s, env), env, ev);
  }

  /******* Every flow the tracer adds was met on a path, and every guard it carries as well *******/

  /** The flow may have come from this one: what it has gained was met at denials of functions on its chain. */
  ghost predicate Gained(ix: Index, earlier: FlowId, id: FlowId) {
    && Subject(earlier) == Subject(id) && earlier.guards <= id.guards
    && forall guard :: guard in id.guards && guard !in earlier.guards ==> Granted(ix, id.chain, guard)
  }

  ghost predicate Recorded(ix: Index, flows: set<FlowId>, id: FlowId) {
    exists earlier :: earlier in flows && Gained(ix, earlier, id)
  }

  ghost predicate Adds(ix: Index, before: set<FlowId>, after: set<FlowId>, id: FlowId) {
    !Recorded(ix, before, id) && Recorded(ix, after, id)
  }

  lemma GuardsAddNothing(ix: Index, flows: set<FlowId>, chain: seq<Symbol>, guards: set<GuardId>, id: FlowId)
    requires forall guard :: guard in guards && chain <= id.chain ==> Granted(ix, id.chain, guard)
    ensures Recorded(ix, AddGuards(flows, chain, guards), id) ==> Recorded(ix, flows, id)
  {
    hide Granted;
    if e :| e in AddGuards(flows, chain, guards) && Gained(ix, e, id) {
      var earlier :| earlier in flows && AddGuard(earlier, chain, guards) == e;
      assert Gained(ix, earlier, id);
    }
  }

  lemma {:induction false} CallFreeAddsNothing(ix: Index, f: Frame, e: Expr, env: Env, flows: set<FlowId>)
    requires f.InDepth(ix) && CallFree(e)
    ensures FlowsExpr(ix, f, e, env, flows) == flows
    decreases e
  {
    match e
    case Attribute(v, _) => CallFreeAddsNothing(ix, f, v, env, flows);
    case KeywordArgument(_, v) => CallFreeAddsNothing(ix, f, v, env, flows);
    case Tree(_, children) => AllCallFreeAddNothing(ix, f, children, env, flows);
    case _ =>
  }

  lemma {:induction false} AllCallFreeAddNothing(ix: Index, f: Frame, es: seq<Expr>, env: Env, flows: set<FlowId>)
    requires f.InDepth(ix) && forall e :: e in es ==> CallFree(e)
    ensures FlowsAll(ix, f, es, env, flows) == flows
    decreases es
  {
    if es != [] {
      CallFreeAddsNothing(ix, f, es[0], env, flows);
      AllCallFreeAddNothing(ix, f, es[1..], env, flows);
    }
  }

  ghost predicate Placed(r: Reading, ix: Index, p: Place, f: Frame, chain: seq<Symbol>) {
    GoodBody(ix, f) && SamePlace(p, f) && Plain(r, ix, chain)
  }

  /** The path passes the source to the sink, and accounts for every guard of the flow. */
  ghost predicate Explains(ix: Index, ev: Event, id: FlowId, source: string) {
    && Carries(ev, id.chain, id.sink, source) && ev.met <= id.guards
    && forall guard :: guard in id.guards && guard !in ev.met ==> Granted(ix, id.chain, guard)
  }

  /** A denial met from here is met on a path from some route. */
  ghost predicate Grants(ix: Index, d: Denial) {
    exists route, p :: Begins(ix, route, p) && DenialInFunction(ix, p, d)
  }

  /** What a function adds lies under the chain it was entered by. */
  lemma AddedUnder(ix: Index, f: Frame, env: Env, flows: set<FlowId>, id: FlowId)
    requires GoodEntry(ix, f) && Adds(ix, flows, FlowsFunction(ix, f, env, flows), id)
    ensures f.chain <= id.chain
  {
    hide Granted;
    GrowsFunction(ix, f, f.chain[..|f.chain| - 1], env, flows);
    var e :| e in FlowsFunction(ix, f, env, flows) && Gained(ix, e, id);
    assert e !in flows;
  }

  lemma {:induction false} TracesExpr(r: Reading, ix: Index, p: Place, f: Frame, e: Expr, env: Env,
                                      flows: set<FlowId>, id: FlowId, source: string) returns (ev: Event)
    requires Placed(r, ix, p, f, id.chain) && CalleesExpr(ix, f.info, e) <= OwnCallees(ix, f)
    requires source in id.sources && Adds(ix, flows, FlowsExpr(ix, f, e, env, flows), id)
    requires forall d :: DenialInExpr(ix, p, e, d) ==> Grants(ix, d)
    ensures EventInExpr(r, ix, p, e, env, ev) && Explains(ix, ev, id, source) && id.route == f.route
    decreases Fuel(ix, f.chain), e, 1
  {
    match e
    case Attribute(v, _) => ev := TracesExpr(r, ix, p, f, v, env, flows, id, source);
    case KeywordArgument(_, v) => ev := TracesExpr(r, ix, p, f, v, env, flows, id, source);
    case Tree(_, children) => ev := TracesAll(r, ix, p, f, children, env, flows, id, source);
    case Call(func, args, keywords, _, _) =>
      var inFunc := FlowsExpr(ix, f, func, env, flows);
      var inArgs := FlowsAll(ix, f, args, env, inFunc);
      var inKeywords := FlowsAll(ix, f, keywords, env, inArgs);
      if Recorded(ix, inFunc, id) {
        ev := TracesExpr(r, ix, p, f, func, env, flows, id, source);
      } else if Recorded(ix, inArgs, id) {
        ev := TracesAll(r, ix, p, f, args, env, inFunc, id, source);
      } else if Recorded(ix, inKeywords, id) {
        ev := TracesAll(r, ix, p, f, keywords, env, inArgs, id, source);
      } else {
        ev := TracesCall(r, ix, p, f, e, env, inKeywords, id, source);
      }
    case Name(_) => assert false;
    case Constant => assert false;
  }

  lemma {:induction false} TracesAll(r: Reading, ix: Index, p: Place, f: Frame, es: seq<Expr>, env: Env,
                                      flows: set<FlowId>, id: FlowId, source: string) returns (ev: Event)
    requires Placed(r, ix, p, f, id.chain) && CalleesAll(ix, f.info, es) <= OwnCallees(ix, f)
    requires source in id.sources && Adds(ix, flows, FlowsAll(ix, f, es, env, flows), id)
    requires forall e, d :: e in es && DenialInExpr(ix, p, e, d) ==> Grants(ix, d)
    ensures exists e :: e in es && EventInExpr(r, ix, p, e, env, ev)
    ensures Explains(ix, ev, id, source) && id.route == f.route
    decreases Fuel(ix, f.chain), es, 1
  {
    var first := FlowsExpr(ix, f, es[0], env, flows);
    if Recorded(ix, first, id) {
      ev := TracesExpr(r, ix, p, f, es[0], env, flows, id, source);
    } else {
      ev := TracesAll(r, ix, p, f, es[1..], env, first, id, source);
    }
  }

  lemma {:induction false} TracesCall(r: Reading, ix: Index, p: Place, f: Frame, call: Expr, env: Env,
                                      flows: set<FlowId>, id: FlowId, source: string) returns (ev: Event)
    requires Placed(r, ix, p, f, id.chain) && call.Call? && CalleesExpr(ix, f.info, call) <= OwnCallees(ix, f)
    requires source in id.sources && Adds(ix, flows, FlowsCall(ix, f, call, env, flows), id)
    requires forall d :: DenialOfCall(ix, p, call, d) ==> Grants(ix, d)
    ensures EventOfCall(r, ix, p, call, env, ev) && Explains(ix, ev, id, source) && id.route == f.route
    decreases Fuel(ix, f.chain), call, 0
  {
    var recorded := flows + OwnFlow(ix, f, call, env);
    if Recorded(ix, recorded, id) {
      ev := Event(id.chain, id.sink, id.sources, p.met);
      CallSources(call, env);
      assert OwnEvent(ix, p, call, env, ev);
    } else {
      var callee := ix.Callee(f.info, call).value;
      var start := ChildEnv(callee.parameters, call.args, call.keywords, env);
      EnterIsGoodEntry(ix, f, call);
      StartsWithItsArguments(callee.parameters, call.args, call.keywords, env, start);
      var decisions: seq<bool>;
      decisions, ev := TracesFunction(r, ix, p.Enter(callee), f.Enter(callee), start, recorded, id, source);
    }
  }

  lemma {:induction false} TracesFunction(r: Reading, ix: Index, p: Place, f: Frame, env: Env,
                                          flows: set<FlowId>, id: FlowId, source: string)
      returns (decisions: seq<bool>, ev: Event)
    requires GoodEntry(ix, f) && SamePlace(p, f) && Plain(r, ix, id.chain)
    requires source in id.sources && Adds(ix, flows, FlowsFunction(ix, f, env, flows), id)
    requires forall d :: DenialInFunction(ix, p, d) ==> Grants(ix, d)
    ensures EventInFunction(r, ix, p, env, decisions, ev) && Explains(ix, ev, id, source) && id.route == f.route
    decreases Fuel(ix, f.chain)
  {
    AddedUnder(ix, f, env, flows, id);
    SameBody(ix, p, f);
    BodyIsGoodBody(ix, f);
    assert f.info.symbol in id.chain;
    decisions, ev := TracesBlock(r, ix, p.Body(ix), f.Body(ix), f.info.body, env, true, flows, id, source);
  }

  lemma {:induction false} TracesBlock(r: Reading, ix: Index, p: Place, f: Frame, stmts: seq<Stmt>, env: Env, dominant: bool,
                                       flows: set<FlowId>, id: FlowId, source: string)
      returns (decisions: seq<bool>, ev: Event)
    requires Placed(r, ix, p, f, id.chain) && PlainBlock(r, stmts) && CalleesBlock(ix, f.info, stmts) <= OwnCallees(ix, f)
    requires source in id.sources && Adds(ix, flows, FlowsBlock(ix, f, stmts, env, dominant, flows), id)
    requires forall d :: DenialInBlock(ix, p, stmts, dominant, d) ==> Grants(ix, d)
    ensures EventInBlock(r, ix, p, stmts, env, dominant, decisions, ev) && Explains(ix, ev, id, source) && id.route == f.route
    decreases Fuel(ix, f.chain), stmts, 1
  {
    var s, rest := stmts[0], stmts[1..];
    var after := FlowsStmt(ix, f, s, env, dominant, flows);
    if Recorded(ix, after, id) {
      decisions, ev := TracesStmt(r, ix, p, f, s, env, dominant, flows, id, source);
    } else {
      var g := f.(guards := GuardsAfter(ix, f, s, dominant));
      SamePast(ix, p, f, s, dominant);
      decisions, ev := TracesBlock(r, ix, p.Past(ix, s, dominant), g, rest, EnvStmt(s, env), dominant, after, id, source);
      decisions, ev := ReachPast(r, ix, p, s, rest, env, dominant, decisions, ev, source);
      assert stmts == [s] + rest;
    }
  }

  lemma {:induction false} TracesStmt(r: Reading, ix: Index, p: Place, f: Frame, s: Stmt, env: Env, dominant: bool,
                                      flows: set<FlowId>, id: FlowId, source: string)
      returns (decisions: seq<bool>, ev: Event)
    requires Placed(r, ix, p, f, id.chain) && PlainStmt(r, s) && CalleesStmt(ix, f.info, s) <= OwnCallees(ix, f)
    requires source in id.sources && Adds(ix, flows, FlowsStmt(ix, f, s, env, dominant, flows), id)
    requires forall d :: DenialInStmt(ix, p, s, dominant, d) ==> Grants(ix, d)
    ensures EventInStmt(r, ix, p, s, env, decisions, ev) && Explains(ix, ev, id, source) && id.route == f.route
    decreases Fuel(ix, f.chain), s, 1
  {
    decisions := [];
    match s
    case Assign(_, value, _) => ev := TracesExpr(r, ix, p, f, value, env, flows, id, source);
    case AugAssign(_, value, _) =>
      if r.AsRun? && CallFree(value) {
        CallFreeAddsNothing(ix, f, value, EnvStmt(s, env), flows);
        assert false;
      }
      ev := TracesExpr(r, ix, p, f, value, EnvStmt(s, env), flows, id, source);
      if r.AsRun? {
        BindingUnseen(r, ix, p, s, env, ev);
      }
    case If(_, _, _, _) => decisions, ev := TracesIf(r, ix, p, f, s, env, dominant, flows, id, source);
    case For(target, iter, body, _) =>
      var inIter := FlowsExpr(ix, f, iter, env, flows);
      if Recorded(ix, inIter, id) {
        ev := TracesExpr(r, ix, p, f, iter, env, flows, id, source);
      } else {
        decisions, ev := TracesBlock(r, ix, p, f, body, BoundEnv(target, iter, env), false, inIter, id, source);
        decisions := [true] + decisions;
      }
    case While(test, body, _) =>
      var inTest := FlowsExpr(ix, f, test, env, flows);
      if Recorded(ix, inTest, id) {
        ev := TracesExpr(r, ix, p, f, test, env, flows, id, source);
      } else {
        decisions, ev := TracesBlock(r, ix, p, f, body, env, false, inTest, id, source);
        decisions := [true] + decisions;
      }
    case With(items, body, _) =>
      var inItems := FlowsAll(ix, f, items, env, flows);
      if Recorded(ix, inItems, id) {
        ev := TracesAll(r, ix, p, f, items, env, flows, id, source);
      } else {
        decisions, ev := TracesBlock(r, ix, p, f, body, env, false, inItems, id, source);
      }
    case ExprStmt(value, _) => ev := TracesExpr(r, ix, p, f, value, env, flows, id, source);
    case Assert(test, _) => ev := TracesExpr(r, ix, p, f, test, env, flows, id, source);
    case Return(Some(value), _) => ev := TracesExpr(r, ix, p, f, value, env, flows, id, source);
    case Raise(Some(value), _) => ev := TracesExpr(r, ix, p, f, value, env, flows, id, source);
    case _ => assert false;
  }

  lemma {:induction false} TracesIf(r: Reading, ix: Index, p: Place, f: Frame, s: Stmt, env: Env, dominant: bool,
                                    flows: set<FlowId>, id: FlowId, source: string)
      returns (decisions: seq<bool>, ev: Event)
    requires Placed(r, ix, p, f, id.chain) && s.If? && PlainStmt(r, s) && CalleesStmt(ix, f.info, s) <= OwnCallees(ix, f)
    requires source in id.sources && Adds(ix, flows, FlowsStmt(ix, f, s, env, dominant, flows), id)
    requires forall d :: DenialInStmt(ix, p, s, dominant, d) ==> Grants(ix, d)
    ensures EventInStmt(r, ix, p, s, env, decisions, ev) && Explains(ix, ev, id, source) && id.route == f.route
    decreases Fuel(ix, f.chain), s, 0
  {
    var atLine := ix.GuardsAtLine(f.info.symbol, s.line);
    var inTest := FlowsExpr(ix, f, s.test, env, flows);
    var inBody := FlowsBlock(ix, f.Guarded(atLine), s.body, env, false, inTest);
    var inElse := FlowsBlock(ix, f, s.orelse, env, false, inBody);
    SameInside(ix, p, f, s.line);
    if dominant && DenialBranchGuardsFollowingCode(s) {
      DenialsAreRecognized(s);
      var d := Denial(p.chain, p.Inside(ix, s.line).met);
      assert Grants(ix, d);
      GuardsAddNothing(ix, inElse, f.chain, f.guards + atLine, id);
    }
    if Recorded(ix, inTest, id) {
      ev := TracesExpr(r, ix, p, f, s.test, env, flows, id, source);
      decisions := [];
    } else if Recorded(ix, inBody, id) {
      decisions, ev := TracesBlock(r, ix, p.Inside(ix, s.line), f.Guarded(atLine), s.body, env, false, inTest, id, source);
      decisions := [true] + decisions;
    } else {
      decisions, ev := TracesBlock(r, ix, p, f, s.orelse, env, false, inBody, id, source);
      decisions := [false] + decisions;
    }
  }

  /******* The whole trace *******/

  lemma {:induction false} RoutesTrace(r: Reading, ix: Index, routes: seq<Route>, flows: set<FlowId>, id: FlowId, source: string)
      returns (route: Route, decisions: seq<bool>, ev: Event)
    requires ix.Valid() && Plain(r, ix, id.chain) && source in id.sources && Adds(ix, flows, FlowsRoutes(ix, routes, flows), id)
    requires forall other :: other in routes ==> other in ix.routes
    ensures route.routeId == id.route && OnPath(r, ix, route, decisions, ev) && Explains(ix, ev, id, source)
    decreases routes
  {
    var next := FlowsRoute(ix, routes[0], flows);
    if Recorded(ix, next, id) {
      route := routes[0];
      var f := RouteFrame(route, ix.functions[route.handler]);
      var p := Place(f.info, f.chain, {});
      var env := InputEnv(route.inputNames);
      assert Begins(ix, route, p);
      InputsAreTheEnvironment(route, env);
      decisions, ev := TracesFunction(r, ix, p, f, env, flows, id, source);
    } else {
      route, decisions, ev := RoutesTrace(r, ix, routes[1..], next, id, source);
    }
  }

  /** A sink call on some path of some route of this name, with this source. */
  ghost predicate OnSomePath(r: Reading, ix: Index, routeId: string, chain: seq<Symbol>, sink: SinkId, source: string) {
    exists route: Route, decisions, ev ::
      route.routeId == routeId && OnPath(r, ix, route, decisions, ev) && Carries(ev, chain, sink, source)
  }

  ghost predicate Reported(ix: Index, routeId: string, chain: seq<Symbol>, sink: SinkId, source: string) {
    exists id :: id in Trace(ix) && id.route == routeId && id.chain == chain && id.sink == sink && source in id.sources
  }

  /** Where a flow's guards come from. Each source of each flow has a path that passes it to the sink along the
      chain. The flow carries every guard that path has met, and every other guard it carries was met on a path
      to a denial in a function of the chain. */
  lemma GuardsAreMet(r: Reading, ix: Index, id: FlowId, source: string) returns (route: Route, decisions: seq<bool>, ev: Event)
    requires ix.Valid() && Plain(r, ix, id.chain) && id in Trace(ix) && source in id.sources
    ensures route.routeId == id.route && OnPath(r, ix, route, decisions, ev) && Carries(ev, id.chain, id.sink, source)
    ensures ev.met <= id.guards
    ensures forall guard :: guard in id.guards && guard !in ev.met ==> Granted(ix, id.chain, guard)
  {
    assert Gained(ix, id, id);
    route, decisions, ev := RoutesTrace(r, ix, ix.routes, {}, id, source);
  }

  lemma ExactFor(r: Reading, ix: Index, routeId: string, chain: seq<Symbol>, sink: SinkId, source: string)
    requires ix.Valid() && Plain(r, ix, chain)
    ensures Reported(ix, routeId, chain, sink, source) <==> OnSomePath(r, ix, routeId, chain, sink, source)
  {
    if Reported(ix, routeId, chain, sink, source) {
      var id :| id in Trace(ix) && id.route == routeId && id.chain == chain && id.sink == sink && source in id.sources;
      var route, decisions, ev := GuardsAreMet(r, ix, id, source);
    }
    if OnSomePath(r, ix, routeId, chain, sink, source) {
      var route: Route, decisions, ev :|
        route.routeId == routeId && OnPath(r, ix, route, decisions, ev) && Carries(ev, chain, sink, source);
      TaintIsSound(r, ix, route, decisions, ev);
    }
  }

  /** Exactness of the whole trace, for every index: a source is reported for a route, chain and sink exactly if
      some path the tracer's way through the route's handler and the functions it calls passes it there. If nothing
      along the chain reads otherwise when run, that is exactly if some run does. */
  lemma TraceIsExact(ix: Index, routeId: string, chain: seq<Symbol>, sink: SinkId, source: string)
    requires ix.Valid()
    ensures Reported(ix, routeId, chain, sink, source) <==> OnSomePath(AsTraced, ix, routeId, chain, sink, source)
    ensures Plain(AsRun, ix, chain) ==>
              (Reported(ix, routeId, chain, sink, source) <==> OnSomePath(AsRun, ix, routeId, chain, sink, source))
  {
    ExactFor(AsTraced, ix, routeId, chain, sink, source);
    if Plain(AsRun, ix, chain) {
      ExactFor(AsRun, ix, routeId, chain, sink, source);
    }
  }
}

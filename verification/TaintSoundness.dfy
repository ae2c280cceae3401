/** Taint soundness: a sink reached with tainted arguments on any path is in the final table. */
module TaintSoundness {
  import opened PythonAst
  import opened ValueFlow
  import opened Dependencies
  import opened SourceIndex
  import opened TaintFlows
  import opened TaintPaths
  import opened TaintGuarantees

  /******* What the table says about it *******/

  ghost predicate Covered(flows: set<FlowId>, route: string, ev: Event) {
    exists id :: id in flows && id.route == route && id.chain == ev.chain && id.sink == ev.sink
                 && ev.sources <= id.sources && ev.met <= id.guards
  }

  /** A covered event stays covered while the table grows. */
  lemma CoverPersists(ix: Index, f: Frame, before: set<FlowId>, after: set<FlowId>, route: string, ev: Event)
    requires Grows(ix, f, before, after) && Covered(before, route, ev)
    ensures Covered(after, route, ev)
  {
  }

  /** The path and the tracer are in the same function, reached the same way past the same guards. */
  ghost predicate SamePlace(p: Place, f: Frame) {
    p.info == f.info && p.chain == f.chain && p.met == f.guards
  }

  lemma SameInside(ix: Index, p: Place, f: Frame, line: nat)
    requires SamePlace(p, f)
    ensures SamePlace(p.Inside(ix, line), f.Guarded(ix.GuardsAtLine(f.info.symbol, line)))
  {
    assert p.Inside(ix, line).met == f.guards + ix.GuardsAtLine(f.info.symbol, line) by {
      forall g ensures g in ix.GuardsAtLine(f.info.symbol, line) <==> GuardNode(g, f.info.symbol, line) in ix.guards {
      }
    }
  }

  /** The tracer lets an If guard what follows exactly where it denies. */
  lemma DenialsAreRecognized(s: Stmt)
    requires s.If?
    ensures DenialBranchGuardsFollowingCode(s) <==> Denies(s)
  {
  }

  lemma SamePast(ix: Index, p: Place, f: Frame, s: Stmt, top: bool)
    requires SamePlace(p, f)
    ensures SamePlace(p.Past(ix, s, top), f.(guards := GuardsAfter(ix, f, s, top)))
  {
    if s.If? {
      DenialsAreRecognized(s);
      SameInside(ix, p, f, s.line);
    } else {
      SameInside(ix, p, f, if s.line == 0 then 1 else s.line);
    }
  }

  lemma SameBody(ix: Index, p: Place, f: Frame)
    requires GoodEntry(ix, f) && SamePlace(p, f)
    ensures p.Open(ix) <==> !f.Refuses(ix)
    ensures SamePlace(p.Body(ix), f.Body(ix))
  {
    var outer := f.chain[..|f.chain| - 1];
    assert f.info.symbol in f.active <==> exists i :: 0 <= i < |outer| && outer[i] == f.info.symbol;
    assert forall i :: 0 <= i < |outer| ==> outer[i] == f.chain[i];
    assert p.Body(ix).met == f.Body(ix).guards;
  }

  /******* A called function starts with what it is passed *******/

  lemma LastOfLonger(parameters: seq<string>, args: seq<Expr>, last: nat, name: string, k: nat)
    requires last < |args|
    ensures LastPosition(parameters, args[..last + 1], name, k) <==>
      if last < |parameters| && parameters[last] == name then k == last else LastPosition(parameters, args[..last], name, k)
  {
    assert last < k || k < last || k == last;
  }

  lemma {:induction false} PositionsStart(parameters: seq<string>, args: seq<Expr>, count: nat, env: Env, name: string)
    requires count <= |args|
    ensures var start := PositionalEnv(parameters, args, count, env);
            && (name in start <==> exists k: nat :: LastPosition(parameters, args[..count], name, k))
            && (forall k: nat :: LastPosition(parameters, args[..count], name, k) ==> start[name] == Sources(args[k], env))
  {
    hide LastPosition, Sources, ExprDependencies;
    var now := args[..count];
    if count > 0 {
      var last := count - 1;
      var earlier := args[..last];
      PositionsStart(parameters, args, last, env, name);
      DependenciesAreSources(args[last], env);
      assert args[..last + 1] == now;
      forall k: nat
        ensures LastPosition(parameters, now, name, k) <==>
          if last < |parameters| && parameters[last] == name then k == last else LastPosition(parameters, earlier, name, k)
      {
        LastOfLonger(parameters, args, last, name, k);
      }
      assert last < |parameters| && parameters[last] == name ==> LastPosition(parameters, now, name, last);
    } else {
      forall k: nat ensures !LastPosition(parameters, now, name, k) {
        NothingIsLast(parameters, now, name, k);
      }
    }
  }

  lemma NothingIsLast(parameters: seq<string>, args: seq<Expr>, name: string, k: nat)
    requires args == []
    ensures !LastPosition(parameters, args, name, k) && !LastKeyword(args, name, k)
  {
  }

  lemma LastKeywordOfLonger(keywords: seq<Expr>, last: nat, name: string, k: nat)
    requires last < |keywords|
    ensures LastKeyword(keywords[..last + 1], name, k) <==>
      if Names(keywords[last], name) then k == last else LastKeyword(keywords[..last], name, k)
  {
    assert last < k || k < last || k == last;
  }

  lemma {:induction false} KeywordsStart(parameters: seq<string>, keywords: seq<Expr>, count: nat, env: Env, base: Env, name: string)
    requires count <= |keywords|
    ensures var start := KeywordEnv(parameters, keywords, count, env, base);
            if name in parameters && exists k: nat :: LastKeyword(keywords[..count], name, k) then
              name in start
              && forall k: nat :: LastKeyword(keywords[..count], name, k) ==>
                   keywords[k].KeywordArgument? && start[name] == Sources(keywords[k].keywordValue, env)
            else (name in start <==> name in base) && (name in start ==> start[name] == base[name])
  {
    hide LastKeyword, Sources, ExprDependencies;
    var now := keywords[..count];
    if count > 0 {
      var last := count - 1;
      var earlier := keywords[..last];
      KeywordsStart(parameters, keywords, last, env, base, name);
      if keywords[last].KeywordArgument? {
        DependenciesAreSources(keywords[last].keywordValue, env);
      }
      assert keywords[..last + 1] == now;
      forall k: nat
        ensures LastKeyword(now, name, k) <==> if Names(keywords[last], name) then k == last else LastKeyword(earlier, name, k)
      {
        LastKeywordOfLonger(keywords, last, name, k);
      }
      assert Names(keywords[last], name) ==> LastKeyword(now, name, last);
    } else {
      forall k: nat ensures !LastKeyword(now, name, k) {
        NothingIsLast(parameters, now, name, k);
      }
    }
  }

  lemma StartsWithItsArguments(parameters: seq<string>, args: seq<Expr>, keywords: seq<Expr>, env: Env, start: Env)
    ensures Starts(parameters, args, keywords, env, start) <==> start == ChildEnv(parameters, args, keywords, env)
  {
    var child := ChildEnv(parameters, args, keywords, env);
    assert args[..|args|] == args && keywords[..|keywords|] == keywords;
    forall name
      ensures name in child <==> exists argument :: Receives(parameters, args, keywords, name, argument)
      ensures forall argument :: Receives(parameters, args, keywords, name, argument) ==> child[name] == Sources(argument, env)
    {
      ReceivesItsArgument(parameters, args, keywords, env, name);
    }
    if Starts(parameters, args, keywords, env, start) {
      assert start.Keys == child.Keys;
      forall name | name in child ensures start[name] == child[name] {
        var argument :| Receives(parameters, args, keywords, name, argument);
      }
    }
  }

  lemma ReceivesItsArgument(parameters: seq<string>, args: seq<Expr>, keywords: seq<Expr>, env: Env, name: string)
    ensures var child := ChildEnv(parameters, args, keywords, env);
            && (name in child <==> exists argument :: Receives(parameters, args, keywords, name, argument))
            && forall argument :: Receives(parameters, args, keywords, name, argument) ==> child[name] == Sources(argument, env)
  {
    assert args[..|args|] == args && keywords[..|keywords|] == keywords;
    PositionsStart(parameters, args, |args|, env, name);
    KeywordsStart(parameters, keywords, |keywords|, env, PositionalEnv(parameters, args, |args|, env), name);
    if k: nat :| LastKeyword(keywords, name, k) {
      assert name in parameters ==> Receives(parameters, args, keywords, name, keywords[k].keywordValue);
    } else if k: nat :| LastPosition(parameters, args, name, k) {
      assert name in parameters ==> Receives(parameters, args, keywords, name, args[k]);
    }
  }

  lemma InputsAreTheEnvironment(route: Route, env: Env)
    ensures Inputs(route, env) <==> env == InputEnv(route.inputNames)
  {
  }

  lemma CallSources(call: Expr, env: Env)
    requires call.Call?
    ensures SourcesOfAny(call.args + call.keywords, env) == CallDependencies(call, env)
  {
    AllDependenciesAreSources(call.args, env);
    AllDependenciesAreSources(call.keywords, env);
  }

  lemma UpdateJoin(joined: Env, left: Env, right: Env, name: string, leftDeps: set<string>, rightDeps: set<string>)
    requires IsJoin(joined, left, right)
    ensures IsJoin(joined[name := leftDeps + rightDeps], left[name := leftDeps], right[name := rightDeps])
  {
    var j, l, r := joined[name := leftDeps + rightDeps], left[name := leftDeps], right[name := rightDeps];
    forall other ensures Get(j, other) == Get(l, other) + Get(r, other) {
      assert Get(joined, other) == Get(left, other) + Get(right, other);
    }
  }

  lemma {:induction false} PositionalEnvJoin(parameters: seq<string>, args: seq<Expr>, count: nat,
                                             joined: Env, left: Env, right: Env)
    requires count <= |args| && IsJoin(joined, left, right)
    ensures IsJoin(PositionalEnv(parameters, args, count, joined), PositionalEnv(parameters, args, count, left),
                   PositionalEnv(parameters, args, count, right))
  {
    if count > 0 {
      PositionalEnvJoin(parameters, args, count - 1, joined, left, right);
      if count - 1 < |parameters| {
        ExprDependenciesJoin(args[count - 1], joined, left, right);
        UpdateJoin(PositionalEnv(parameters, args, count - 1, joined), PositionalEnv(parameters, args, count - 1, left),
          PositionalEnv(parameters, args, count - 1, right), parameters[count - 1],
          ExprDependencies(args[count - 1], left), ExprDependencies(args[count - 1], right));
      }
    }
  }

  lemma {:induction false} KeywordEnvJoin(parameters: seq<string>, keywords: seq<Expr>, count: nat,
                                          joined: Env, left: Env, right: Env, joinedBase: Env, leftBase: Env, rightBase: Env)
    requires count <= |keywords| && IsJoin(joined, left, right) && IsJoin(joinedBase, leftBase, rightBase)
    ensures IsJoin(KeywordEnv(parameters, keywords, count, joined, joinedBase),
                   KeywordEnv(parameters, keywords, count, left, leftBase),
                   KeywordEnv(parameters, keywords, count, right, rightBase))
  {
    if count > 0 {
      KeywordEnvJoin(parameters, keywords, count - 1, joined, left, right, joinedBase, leftBase, rightBase);
      var k := keywords[count - 1];
      if k.KeywordArgument? && k.arg.Some? && k.arg.value in parameters {
        ExprDependenciesJoin(k.keywordValue, joined, left, right);
        UpdateJoin(KeywordEnv(parameters, keywords, count - 1, joined, joinedBase),
          KeywordEnv(parameters, keywords, count - 1, left, leftBase),
          KeywordEnv(parameters, keywords, count - 1, right, rightBase), k.arg.value,
          ExprDependencies(k.keywordValue, left), ExprDependencies(k.keywordValue, right));
      }
    }
  }

  /** Binding a call's arguments distributes over joins. */
  lemma ChildEnvJoin(parameters: seq<string>, args: seq<Expr>, keywords: seq<Expr>, joined: Env, left: Env, right: Env)
    requires IsJoin(joined, left, right)
    ensures IsJoin(ChildEnv(parameters, args, keywords, joined), ChildEnv(parameters, args, keywords, left),
                   ChildEnv(parameters, args, keywords, right))
  {
    PositionalEnvJoin(parameters, args, |args|, joined, left, right);
    KeywordEnvJoin(parameters, keywords, |keywords|, joined, left, right, PositionalEnv(parameters, args, |args|, joined),
      PositionalEnv(parameters, args, |args|, left), PositionalEnv(parameters, args, |args|, right));
  }

  lemma ChildEnvMonotone(parameters: seq<string>, args: seq<Expr>, keywords: seq<Expr>, lower: Env, upper: Env)
    requires Below(lower, upper)
    ensures Below(ChildEnv(parameters, args, keywords, lower), ChildEnv(parameters, args, keywords, upper))
  {
    BelowIsJoin(lower, upper);
    ChildEnvJoin(parameters, args, keywords, upper, lower, upper);
    BelowIsJoin(ChildEnv(parameters, args, keywords, lower), ChildEnv(parameters, args, keywords, upper));
  }

  /** An augmented assignment keeps what the place held, so its value may be walked afterwards. */
  lemma AugAssignGrowsEnv(s: Stmt, lower: Env, upper: Env)
    requires s.AugAssign? && Below(lower, upper)
    ensures Below(lower, EnvStmt(s, upper))
  {
    if s.place.Name? {
      var deps := Get(upper, s.place.id) + ExprDependencies(s.value, upper);
      var after := upper[s.place.id := deps];
      assert EnvStmt(s, upper) == Bind(upper, [s.place.id], deps);
      BindOne(upper, s.place.id, deps);
      forall name ensures Get(lower, name) <= Get(after, name) {
        assert Get(lower, name) <= Get(upper, name);
      }
    }
  }

  lemma {:induction false} FindsInExpr(r: Reading, ix: Index, p: Place, f: Frame, e: Expr, lower: Env, upper: Env,
                                       flows: set<FlowId>, ev: Event)
    requires GoodBody(ix, f) && SamePlace(p, f) && CalleesExpr(ix, f.info, e) <= OwnCallees(ix, f)
    requires Below(lower, upper) && EventInExpr(r, ix, p, e, lower, ev)
    ensures Covered(FlowsExpr(ix, f, e, upper, flows), f.route, ev)
    decreases Fuel(ix, f.chain), e, 1
  {
    match e
    case Attribute(v, _) => FindsInExpr(r, ix, p, f, v, lower, upper, flows, ev);
    case KeywordArgument(_, v) => FindsInExpr(r, ix, p, f, v, lower, upper, flows, ev);
    case Tree(_, children) => FindsInAll(r, ix, p, f, children, lower, upper, flows, ev);
    case Call(func, args, keywords, _, _) =>
      var inFunc := FlowsExpr(ix, f, func, upper, flows);
      var inArgs := FlowsAll(ix, f, args, upper, inFunc);
      var inKeywords := FlowsAll(ix, f, keywords, upper, inArgs);
      if EventOfCall(r, ix, p, e, lower, ev) {
        FindsInCall(r, ix, p, f, e, lower, upper, inKeywords, ev);
        return;
      }
      var child :| child in Children(e) && EventInExpr(r, ix, p, child, lower, ev);
      if child == func {
        FindsInExpr(r, ix, p, f, func, lower, upper, flows, ev);
        GrowsAll(ix, f, args, upper, inFunc);
        CoverPersists(ix, f, inFunc, inArgs, f.route, ev);
      } else if child in args {
        FindsInAll(r, ix, p, f, args, lower, upper, inFunc, ev);
      }
      if child == func || child in args {
        GrowsAll(ix, f, keywords, upper, inArgs);
        CoverPersists(ix, f, inArgs, inKeywords, f.route, ev);
      } else {
        FindsInAll(r, ix, p, f, keywords, lower, upper, inArgs, ev);
      }
      GrowsCall(ix, f, e, upper, inKeywords);
      CoverPersists(ix, f, inKeywords, FlowsCall(ix, f, e, upper, inKeywords), f.route, ev);
    case Name(_) => assert false;
    case Constant => assert false;
  }

  lemma {:induction false} FindsInAll(r: Reading, ix: Index, p: Place, f: Frame, es: seq<Expr>, lower: Env, upper: Env,
                                      flows: set<FlowId>, ev: Event)
    requires GoodBody(ix, f) && SamePlace(p, f) && CalleesAll(ix, f.info, es) <= OwnCallees(ix, f)
    requires Below(lower, upper) && exists e :: e in es && EventInExpr(r, ix, p, e, lower, ev)
    ensures Covered(FlowsAll(ix, f, es, upper, flows), f.route, ev)
    decreases Fuel(ix, f.chain), es, 1
  {
    var first := FlowsExpr(ix, f, es[0], upper, flows);
    if EventInExpr(r, ix, p, es[0], lower, ev) {
      FindsInExpr(r, ix, p, f, es[0], lower, upper, flows, ev);
      GrowsAll(ix, f, es[1..], upper, first);
      CoverPersists(ix, f, first, FlowsAll(ix, f, es[1..], upper, first), f.route, ev);
    } else {
      var e :| e in es && EventInExpr(r, ix, p, e, lower, ev);
      assert e in es[1..];
      FindsInAll(r, ix, p, f, es[1..], lower, upper, first, ev);
    }
  }

  lemma {:induction false} FindsInCall(r: Reading, ix: Index, p: Place, f: Frame, call: Expr, lower: Env, upper: Env,
                                       flows: set<FlowId>, ev: Event)
    requires GoodBody(ix, f) && SamePlace(p, f) && call.Call? && CalleesExpr(ix, f.info, call) <= OwnCallees(ix, f)
    requires Below(lower, upper) && EventOfCall(r, ix, p, call, lower, ev)
    ensures Covered(FlowsCall(ix, f, call, upper, flows), f.route, ev)
    decreases Fuel(ix, f.chain), call, 0
  {
    var recorded := flows + OwnFlow(ix, f, call, upper);
    var callee := ix.Callee(f.info, call);
    EnterIsGoodEntry(ix, f, call);
    if OwnEvent(ix, p, call, lower, ev) {
      FindsOwn(ix, p, f, call, lower, upper, flows, ev);
      if callee.Some? {
        var childEnv := ChildEnv(callee.value.parameters, call.args, call.keywords, upper);
        GrowsFunction(ix, f.Enter(callee.value), f.chain, childEnv, recorded);
        CoverPersists(ix, f.(info := callee.value), recorded, FlowsFunction(ix, f.Enter(callee.value), childEnv, recorded), f.route, ev);
      }
    } else {
      var low := ChildEnv(callee.value.parameters, call.args, call.keywords, lower);
      var up := ChildEnv(callee.value.parameters, call.args, call.keywords, upper);
      ChildEnvMonotone(callee.value.parameters, call.args, call.keywords, lower, upper);
      var start, decisions :| Starts(callee.value.parameters, call.args, call.keywords, lower, start)
                              && EventInFunction(r, ix, p.Enter(callee.value), start, decisions, ev);
      StartsWithItsArguments(callee.value.parameters, call.args, call.keywords, lower, start);
      FindsInFunction(r, ix, p.Enter(callee.value), f.Enter(callee.value), low, up, decisions, recorded, ev);
    }
  }

  lemma FindsOwn(ix: Index, p: Place, f: Frame, call: Expr, lower: Env, upper: Env, flows: set<FlowId>, ev: Event)
    requires SamePlace(p, f) && call.Call? && Below(lower, upper) && OwnEvent(ix, p, call, lower, ev)
    ensures Covered(flows + OwnFlow(ix, f, call, upper), f.route, ev)
  {
    CallSources(call, lower);
    AllDependenciesMonotone(call.args, lower, upper);
    AllDependenciesMonotone(call.keywords, lower, upper);
    var id := FlowId(f.route, CallDependencies(call, upper), f.chain, ev.sink, f.guards);
    assert id in OwnFlow(ix, f, call, upper);
  }

  lemma {:induction false} FindsInFunction(r: Reading, ix: Index, p: Place, f: Frame, lower: Env, upper: Env,
                                           decisions: seq<bool>, flows: set<FlowId>, ev: Event)
    requires GoodEntry(ix, f) && SamePlace(p, f)
    requires Below(lower, upper) && EventInFunction(r, ix, p, lower, decisions, ev)
    ensures Covered(FlowsFunction(ix, f, upper, flows), f.route, ev)
    decreases Fuel(ix, f.chain)
  {
    SameBody(ix, p, f);
    BodyIsGoodBody(ix, f);
    FindsInBlock(r, ix, p.Body(ix), f.Body(ix), f.info.body, lower, upper, true, decisions, flows, ev);
  }

  lemma {:induction false} FindsInBlock(r: Reading, ix: Index, p: Place, f: Frame, stmts: seq<Stmt>, lower: Env, upper: Env,
                                        dominant: bool, decisions: seq<bool>, flows: set<FlowId>, ev: Event)
    requires GoodBody(ix, f) && SamePlace(p, f) && CalleesBlock(ix, f.info, stmts) <= OwnCallees(ix, f)
    requires Below(lower, upper) && EventInBlock(r, ix, p, stmts, lower, dominant, decisions, ev)
    ensures Covered(FlowsBlock(ix, f, stmts, upper, dominant, flows), f.route, ev)
    decreases Fuel(ix, f.chain), stmts, 1
  {
    var s, rest := stmts[0], stmts[1..];
    var after := FlowsStmt(ix, f, s, upper, dominant, flows);
    var g := f.(guards := GuardsAfter(ix, f, s, dominant));
    if EventInStmt(r, ix, p, s, lower, decisions, ev) {
      FindsInStmt(r, ix, p, f, s, lower, upper, dominant, decisions, flows, ev);
      if !Stops(s) {
        GrowsBlock(ix, g, rest, EnvStmt(s, upper), dominant, after);
        CoverPersists(ix, g, after, FlowsBlock(ix, g, rest, EnvStmt(s, upper), dominant, after), f.route, ev);
      }
    } else {
      PathStmtBelow(r, s, lower, upper, decisions);
      var step := PathStmt(r, s, lower, decisions);
      SamePast(ix, p, f, s, dominant);
      FindsInBlock(r, ix, p.Past(ix, s, dominant), g, rest, step.env, EnvStmt(s, upper), dominant, step.decisions, after, ev);
    }
  }

  lemma {:induction false} FindsInStmt(r: Reading, ix: Index, p: Place, f: Frame, s: Stmt, lower: Env, upper: Env,
                                       dominant: bool, decisions: seq<bool>, flows: set<FlowId>, ev: Event)
    requires GoodBody(ix, f) && SamePlace(p, f) && CalleesStmt(ix, f.info, s) <= OwnCallees(ix, f)
    requires Below(lower, upper) && EventInStmt(r, ix, p, s, lower, decisions, ev)
    ensures Covered(FlowsStmt(ix, f, s, upper, dominant, flows), f.route, ev)
    decreases Fuel(ix, f.chain), s, 1
  {
    match s
    case Assign(_, value, _) => FindsInExpr(r, ix, p, f, value, lower, upper, flows, ev);
    case AugAssign(_, value, _) =>
      AugAssignGrowsEnv(s, lower, upper);
      EnvStmtMonotone(s, lower, upper);
      FindsInExpr(r, ix, p, f, value, if r.AsRun? then lower else EnvStmt(s, lower), EnvStmt(s, upper), flows, ev);
    case If(_, _, _, _) => FindsInIf(r, ix, p, f, s, lower, upper, dominant, decisions, flows, ev);
    case For(target, iter, body, _) =>
      var low, up := BoundEnv(target, iter, lower), BoundEnv(target, iter, upper);
      var inIter := FlowsExpr(ix, f, iter, upper, flows);
      if EventInExpr(r, ix, p, iter, lower, ev) {
        FindsInExpr(r, ix, p, f, iter, lower, upper, flows, ev);
        GrowsBlock(ix, f, body, up, false, inIter);
        CoverPersists(ix, f, inIter, FlowsBlock(ix, f, body, up, false, inIter), f.route, ev);
      } else {
        BoundMonotone(target, iter, lower, upper);
        FindsInBlock(r, ix, p, f, body, low, up, false, Rest(decisions), inIter, ev);
      }
    case While(test, body, _) =>
      var inTest := FlowsExpr(ix, f, test, upper, flows);
      if EventInExpr(r, ix, p, test, lower, ev) {
        FindsInExpr(r, ix, p, f, test, lower, upper, flows, ev);
        GrowsBlock(ix, f, body, upper, false, inTest);
        CoverPersists(ix, f, inTest, FlowsBlock(ix, f, body, upper, false, inTest), f.route, ev);
      } else {
        FindsInBlock(r, ix, p, f, body, lower, upper, false, Rest(decisions), inTest, ev);
      }
    case With(items, body, _) =>
      var inItems := FlowsAll(ix, f, items, upper, flows);
      if exists item :: item in items && EventInExpr(r, ix, p, item, lower, ev) {
        FindsInAll(r, ix, p, f, items, lower, upper, flows, ev);
        GrowsBlock(ix, f, body, upper, false, inItems);
        CoverPersists(ix, f, inItems, FlowsBlock(ix, f, body, upper, false, inItems), f.route, ev);
      } else {
        FindsInBlock(r, ix, p, f, body, lower, upper, false, decisions, inItems, ev);
      }
    case ExprStmt(value, _) => FindsInExpr(r, ix, p, f, value, lower, upper, flows, ev);
    case Return(Some(value), _) => FindsInExpr(r, ix, p, f, value, lower, upper, flows, ev);
    case Raise(Some(value), _) => FindsInExpr(r, ix, p, f, value, lower, upper, flows, ev);
    case Assert(test, _) => FindsInExpr(r, ix, p, f, test, lower, upper, flows, ev);
    case _ => assert false;
  }

  lemma {:induction false} FindsInIf(r: Reading, ix: Index, p: Place, f: Frame, s: Stmt, lower: Env, upper: Env,
                                     dominant: bool, decisions: seq<bool>, flows: set<FlowId>, ev: Event)
    requires s.If? && GoodBody(ix, f) && SamePlace(p, f) && CalleesStmt(ix, f.info, s) <= OwnCallees(ix, f)
    requires Below(lower, upper) && EventInStmt(r, ix, p, s, lower, decisions, ev)
    ensures Covered(FlowsStmt(ix, f, s, upper, dominant, flows), f.route, ev)
    decreases Fuel(ix, f.chain), s, 0
  {
    hide Grows, RequiredGuards, AddGuards;
    var atLine := ix.GuardsAtLine(f.info.symbol, s.line);
    var g := f.Guarded(atLine);
    var inTest := FlowsExpr(ix, f, s.test, upper, flows);
    var inBody := FlowsBlock(ix, g, s.body, upper, false, inTest);
    var inElse := FlowsBlock(ix, f, s.orelse, upper, false, inBody);
    if EventInExpr(r, ix, p, s.test, lower, ev) {
      FindsInExpr(r, ix, p, f, s.test, lower, upper, flows, ev);
      GrowsBlock(ix, g, s.body, upper, false, inTest);
      CoverPersists(ix, g, inTest, inBody, f.route, ev);
    } else if Decide(decisions) {
      SameInside(ix, p, f, s.line);
      FindsInBlock(r, ix, p.Inside(ix, s.line), g, s.body, lower, upper, false, Rest(decisions), inTest, ev);
    } else {
      FindsInBlock(r, ix, p, f, s.orelse, lower, upper, false, Rest(decisions), inBody, ev);
    }
    if EventInExpr(r, ix, p, s.test, lower, ev) || Decide(decisions) {
      GrowsBlock(ix, f, s.orelse, upper, false, inBody);
      CoverPersists(ix, f, inBody, inElse, f.route, ev);
    }
    GrowsAddGuards(ix, f, inElse, f.chain, f.guards + atLine);
    CoverPersists(ix, f, inElse, AddGuards(inElse, f.chain, f.guards + atLine), f.route, ev);
  }

  /******* What a denial guards *******/

  /** A denial at the top level of the block itself, past these guards. */
  ghost predicate DeniesWith(ix: Index, p: Place, stmts: seq<Stmt>, met: set<GuardId>)
    decreases stmts
  {
    stmts != [] &&
    (|| (Denies(stmts[0]) && met == p.Inside(ix, stmts[0].line).met)
     || (!Stops(stmts[0]) && DeniesWith(ix, p.Past(ix, stmts[0], true), stmts[1..], met)))
  }

  /** After a visit to a body, every flow through it carries all that was met on the way to each of its denials,
      whether it was recorded before the denial, in it, or after it. */
  lemma {:induction false} DenialsGuardTheirChain(ix: Index, p: Place, f: Frame, stmts: seq<Stmt>, env: Env,
                                                  flows: set<FlowId>, met: set<GuardId>)
    requires GoodBody(ix, f) && SamePlace(p, f) && CalleesBlock(ix, f.info, stmts) <= OwnCallees(ix, f)
    requires DeniesWith(ix, p, stmts, met)
    ensures AllCarry(FlowsBlock(ix, f, stmts, env, true, flows), f.chain, met)
    decreases stmts
  {
    var s, rest := stmts[0], stmts[1..];
    var after := FlowsStmt(ix, f, s, env, true, flows);
    var g := f.(guards := GuardsAfter(ix, f, s, true));
    SamePast(ix, p, f, s, true);
    if Denies(s) && met == p.Inside(ix, s.line).met {
      DenialsAreRecognized(s);
      SameInside(ix, p, f, s.line);
      assert AllCarry(after, f.chain, met);
      GrowsBlock(ix, g, rest, EnvStmt(s, env), true, after);
      CarryPersists(ix, g, after, FlowsBlock(ix, g, rest, EnvStmt(s, env), true, after), met);
    } else {
      DenialsGuardTheirChain(ix, p.Past(ix, s, true), g, rest, EnvStmt(s, env), after, met);
    }
  }

  /******* The whole trace *******/

  lemma {:induction false} RoutesFind(r: Reading, ix: Index, routes: seq<Route>, route: Route,
                                      decisions: seq<bool>, flows: set<FlowId>, ev: Event)
    requires ix.Valid() && (forall other :: other in routes ==> other in ix.routes) && route in routes
    requires forall id :: id in flows ==> GoodFlow(ix, id)
    requires OnPath(r, ix, route, decisions, ev)
    ensures Covered(FlowsRoutes(ix, routes, flows), route.routeId, ev)
    decreases routes
  {
    var next := FlowsRoute(ix, routes[0], flows);
    RouteKeepsGoodFlows(ix, routes[0], flows);
    if routes[0] == route {
      var f := RouteFrame(route, ix.functions[route.handler]);
      var env := InputEnv(route.inputNames);
      var p, start :| Begins(ix, route, p) && Inputs(route, start) && EventInFunction(r, ix, p, start, decisions, ev);
      InputsAreTheEnvironment(route, start);
      FindsInFunction(r, ix, p, f, env, env, decisions, flows, ev);
      RoutesKeepGoodFlows(ix, routes[1..], next);
      var id :| id in next && id.route == route.routeId && id.chain == ev.chain && id.sink == ev.sink
                && ev.sources <= id.sources;
      var later :| later in FlowsRoutes(ix, routes[1..], next) && Descends(id, later);
    } else {
      RoutesFind(r, ix, routes[1..], route, decisions, next, ev);
    }
  }

  /** Take any route and any path through its handler and the functions it calls, each entered
      at most once per chain and within the depth bound. Every tainted sink call on the path is
      in the final table under its route, chain and sink, with at least its sources. */
  lemma TaintIsSound(r: Reading, ix: Index, route: Route, decisions: seq<bool>, ev: Event)
    requires ix.Valid()
    requires OnPath(r, ix, route, decisions, ev)
    ensures Covered(Trace(ix), route.routeId, ev)
  {
    RoutesFind(r, ix, ix.routes, route, decisions, {}, ev);
  }
}

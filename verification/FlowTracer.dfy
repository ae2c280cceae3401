/** The tracer as it runs: a flow table that is extended, and rewritten in place when a
    denial guard turns up after flows were recorded. */
module FlowTracer {
  import opened PythonAst
  import opened ValueFlow
  import opened Dependencies
  import opened SourceIndex
  import opened TaintFlows

  /** Walking a concatenation is walking its parts in order. */
  lemma {:induction false} FlowsAllAppend(ix: Index, f: Frame, first: seq<Expr>, second: seq<Expr>, env: Env, flows: set<FlowId>)
    requires f.InDepth(ix)
    ensures FlowsAll(ix, f, first + second, env, flows)
         == FlowsAll(ix, f, second, env, FlowsAll(ix, f, first, env, flows))
    decreases first
  {
    if first == [] {
      assert first + second == second;
    } else {
      assert (first + second)[1..] == first[1..] + second;
      FlowsAllAppend(ix, f, first[1..], second, env, FlowsExpr(ix, f, first[0], env, flows));
    }
  }

  /** An expression is walked by walking its children and then, if it is a call, the call. */
  lemma FlowsExprByChildren(ix: Index, f: Frame, e: Expr, env: Env, flows: set<FlowId>)
    requires f.InDepth(ix)
    ensures var inChildren := FlowsAll(ix, f, Children(e), env, flows);
            FlowsExpr(ix, f, e, env, flows) == if e.Call? then FlowsCall(ix, f, e, env, inChildren) else inChildren
  {
    match e
    case Attribute(v, _) => assert Children(e)[1..] == [];
    case KeywordArgument(_, v) => assert Children(e)[1..] == [];
    case Call(func, args, keywords, _, _) =>
      assert Children(e) == [func] + (args + keywords);
      assert Children(e)[1..] == args + keywords;
      FlowsAllAppend(ix, f, args, keywords, env, FlowsExpr(ix, f, func, env, flows));
    case _ =>
  }

  class FlowTracer {
    const ix: Index
    var flows: map<FlowId, DataFlowPath>

    /** Every key is the digest of its entry. */
    ghost predicate Valid()
      reads this
    {
      forall id :: id in flows ==> flows[id] == Entry(id)
    }

    constructor (ix: Index)
      ensures Valid() && this.ix == ix && flows == map[]
    {
      this.ix := ix;
      flows := map[];
    }

    /** Rewrites, in place and in any order, every entry whose chain goes through `chain`. */
    method AddGuardsToExistingFlows(chain: seq<Symbol>, guards: set<GuardId>)
      requires Valid()
      modifies this
      ensures Valid()
      ensures flows.Keys == AddGuards(old(flows.Keys), chain, guards)
    {
      hide AddGuards;
      NothingRewritten(chain, guards);
      var snapshot := flows;
      var pending := snapshot.Keys;
      assert snapshot.Keys - pending == {};
      while pending != {}
        invariant pending <= snapshot.Keys
        invariant Valid()
        invariant flows.Keys == pending + AddGuards(snapshot.Keys - pending, chain, guards)
        decreases pending
      {
        ghost var processed := snapshot.Keys - pending;
        var oldId :| oldId in pending;
        RewriteOne(flows.Keys, pending, processed, oldId, chain, guards);
        var flow := snapshot[oldId];
        pending := pending - {oldId};
        assert snapshot.Keys - pending == processed + {oldId};
        if chain <= flow.callChain {
          var combined := flow.guardIds + guards;
          var newId := FlowId(flow.routeId, flow.sourceNames, flow.callChain, flow.sinkId, combined);
          assert oldId in flows;  // the pop never misses
          ghost var before := flows.Keys;
          flows := flows - {oldId};
          flows := flows[newId := flow.(flowId := newId, guardIds := combined)];
          assert flows.Keys == before - {oldId} + {newId};
        }
      }
      assert snapshot.Keys - {} == snapshot.Keys;
    }

    method Expression(f: Frame, e: Expr, env: Env)
      requires Valid() && f.InDepth(ix)
      modifies this
      ensures Valid()
      ensures flows.Keys == FlowsExpr(ix, f, e, env, old(flows.Keys))
      decreases Fuel(ix, f.chain), e, 1
    {
      var children := Children(e);
      FlowsExprByChildren(ix, f, e, env, flows.Keys);
      var i := 0;
      while i < |children|
        invariant i <= |children|
        invariant Valid()
        invariant FlowsAll(ix, f, children, env, old(flows.Keys)) == FlowsAll(ix, f, children[i..], env, flows.Keys)
      {
        assert children[i] in children;
        Expression(f, children[i], env);
        assert children[i..][1..] == children[i + 1..];
        i := i + 1;
      }
      if e.Call? {
        EnterCall(f, e, env);
      }
    }

    /** The sink a call may be, and the function it may enter. */
    method EnterCall(f: Frame, call: Expr, env: Env)
      requires call.Call? && Valid() && f.InDepth(ix)
      modifies this
      ensures Valid()
      ensures flows.Keys == FlowsCall(ix, f, call, env, old(flows.Keys))
      decreases Fuel(ix, f.chain), call, 0
    {
      hide FlowsFunction, ExprDependencies;
      var sources := CallDependencies(call, env);
      var sink := SinkAt(ix, f.info, call);
      if sink.Some? && sources != {} {
        var flowId := FlowId(f.route, sources, f.chain, sink.value, f.guards);
        flows := flows[flowId := DataFlowPath(flowId, f.route, sources, f.chain, sink.value, f.guards,
                                              if |f.chain| == 1 then 0.84 else 0.78)];
      }
      assert flows.Keys == old(flows.Keys) + OwnFlow(ix, f, call, env);
      var callee := ix.Callee(f.info, call);
      if callee.None? {
        return;
      }
      var parameters := callee.value.parameters;
      var childEnvironment: Env := map[];
      for position := 0 to |call.args|
        invariant childEnvironment == PositionalEnv(parameters, call.args, position, env)
      {
        if position < |parameters| {
          childEnvironment := childEnvironment[parameters[position] := ExprDependencies(call.args[position], env)];
        }
      }
      ghost var positional := childEnvironment;
      for k := 0 to |call.keywords|
        invariant childEnvironment == KeywordEnv(parameters, call.keywords, k, env, positional)
      {
        var keyword := call.keywords[k];
        if keyword.KeywordArgument? && keyword.arg.Some? && keyword.arg.value in parameters {
          childEnvironment := childEnvironment[keyword.arg.value := ExprDependencies(keyword.keywordValue, env)];
        }
      }
      Function(f.Enter(callee.value), childEnvironment);
    }

    method Function(f: Frame, env: Env)
      requires Valid()
      modifies this
      ensures Valid()
      ensures flows.Keys == FlowsFunction(ix, f, env, old(flows.Keys))
      decreases Fuel(ix, f.chain)
    {
      if f.Refuses(ix) {
        return;
      }
      var _ := Block(f.Body(ix), f.info.body, env, true);
    }

    method Block(f: Frame, statements: seq<Stmt>, env: Env, dominantSequence: bool) returns (environment: Env)
      requires Valid() && f.InDepth(ix)
      modifies this
      ensures Valid()
      ensures environment == EnvBlock(statements, env)
      ensures flows.Keys == FlowsBlock(ix, f, statements, env, dominantSequence, old(flows.Keys))
      decreases Fuel(ix, f.chain), statements, 1
    {
      environment := env;
      var currentGuards := f.guards;
      var i := 0;
      while i < |statements|
        invariant i <= |statements|
        invariant Valid()
        invariant EnvBlock(statements, env) == EnvBlock(statements[i..], environment)
        invariant FlowsBlock(ix, f, statements, env, dominantSequence, old(flows.Keys))
               == FlowsBlock(ix, f.(guards := currentGuards), statements[i..], environment, dominantSequence, flows.Keys)
      {
        var s := statements[i];
        ghost var remaining := statements[i..];
        assert s == remaining[0] && remaining[1..] == statements[i + 1..];
        var g := f.(guards := currentGuards);
        environment := Statement(g, s, environment, dominantSequence);
        if Stops(s) {
          return;
        }
        currentGuards := GuardsAfter(ix, g, s, dominantSequence);
        i := i + 1;
      }
    }

    /** One turn of the statement loop. */
    method Statement(f: Frame, s: Stmt, env: Env, dominantSequence: bool) returns (environment: Env)
      requires Valid() && f.InDepth(ix)
      modifies this
      ensures Valid()
      ensures environment == EnvStmt(s, env)
      ensures flows.Keys == FlowsStmt(ix, f, s, env, dominantSequence, old(flows.Keys))
      decreases Fuel(ix, f.chain), s, 1
    {
      environment := env;
      if s.Assign? {
        Expression(f, s.value, environment);
        environment := BindTargets(environment, s.targets, ExprDependencies(s.value, environment));
      } else if s.AugAssign? {
        var dependencies := Get(environment, Dotted(s.place)) + ExprDependencies(s.value, environment);
        environment := Bind(environment, AssignedNames(s.place), dependencies);
        Expression(f, s.value, environment);
      } else if s.If? {
        Expression(f, s.test, environment);
        var branchGuards := f.guards + ix.GuardsAtLine(f.info.symbol, s.line);
        var left := Block(f.(guards := branchGuards), s.body, environment, false);
        var right := Block(f, s.orelse, environment, false);
        environment := Merge(left, right);
        if dominantSequence && DenialBranchGuardsFollowingCode(s) {
          AddGuardsToExistingFlows(f.chain, branchGuards);
        }
      } else if s.For? {
        Expression(f, s.iter, environment);
        var loopEnvironment := Bind(environment, AssignedNames(s.target), ExprDependencies(s.iter, environment));
        loopEnvironment := Block(f, s.body, loopEnvironment, false);
        environment := Merge(environment, loopEnvironment);
      } else if s.While? {
        Expression(f, s.test, environment);
        var loopEnvironment := Block(f, s.body, environment, false);
        environment := Merge(environment, loopEnvironment);
      } else if s.With? {
        Expressions(f, s, s.items, environment);
        environment := Block(f, s.body, environment, false);
      } else {
        Expressions(f, s, StatementExpressions(s), environment);
      }
    }

    /** Walks several expressions of one statement in order. */
    method Expressions(f: Frame, ghost s: Stmt, es: seq<Expr>, env: Env)
      requires Valid() && f.InDepth(ix)
      requires forall e :: e in es ==> e < s
      modifies this
      ensures Valid()
      ensures flows.Keys == FlowsAll(ix, f, es, env, old(flows.Keys))
      decreases Fuel(ix, f.chain), s, 0
    {
      var i := 0;
      while i < |es|
        invariant i <= |es|
        invariant Valid()
        invariant FlowsAll(ix, f, es, env, old(flows.Keys)) == FlowsAll(ix, f, es[i..], env, flows.Keys)
      {
        assert es[i] in es;
        Expression(f, es[i], env);
        assert es[i..][1..] == es[i + 1..];
        i := i + 1;
      }
    }

    /** Traces every route whose handler is known; the caller sees the entries sorted by identity. */
    method Trace()
      requires Valid() && flows == map[]
      modifies this
      ensures Valid()
      ensures flows.Keys == TaintFlows.Trace(ix)
    {
      var i := 0;
      assert ix.routes[0..] == ix.routes && flows.Keys == {};
      while i < |ix.routes|
        invariant i <= |ix.routes|
        invariant Valid()
        invariant TaintFlows.Trace(ix) == FlowsRoutes(ix, ix.routes[i..], flows.Keys)
      {
        var route := ix.routes[i];
        assert ix.routes[i..][1..] == ix.routes[i + 1..];
        if route.handler in ix.functions {
          var handler := ix.functions[route.handler];
          Function(RouteFrame(route, handler), InputEnv(route.inputNames));
        }
        i := i + 1;
      }
    }
  }

  /** Taking one pending entry out and putting its rewritten form in. */
  lemma RewriteOne(keys: set<FlowId>, pending: set<FlowId>, processed: set<FlowId>, id: FlowId,
                   chain: seq<Symbol>, guards: set<GuardId>)
    requires keys == pending + AddGuards(processed, chain, guards)
    requires id in pending && id !in processed
    ensures keys - {id} + {AddGuard(id, chain, guards)} == pending - {id} + AddGuards(processed + {id}, chain, guards)
    ensures AddGuard(id, chain, guards) == id ==> keys == pending - {id} + AddGuards(processed + {id}, chain, guards)
  {
  }

  lemma NothingRewritten(chain: seq<Symbol>, guards: set<GuardId>)
    ensures AddGuards({}, chain, guards) == {}
  {
  }
}

/** What the flow table is good for: chains are real, guards dominate, and nothing recorded is lost. */
module TaintGuarantees {
  import opened Options
  import opened PythonAst
  import opened ValueFlow
  import opened Dependencies
  import opened SourceIndex
  import opened TaintFlows

  /******* The call graph a chain follows *******/

  ghost function CalleesExpr(ix: Index, info: FunctionInfo, e: Expr): set<Symbol>
    decreases e
  {
    match e
    case Attribute(v, _) => CalleesExpr(ix, info, v)
    case KeywordArgument(_, v) => CalleesExpr(ix, info, v)
    case Tree(_, children) => CalleesAll(ix, info, children)
    case Call(func, args, keywords, _, _) =>
      CalleesExpr(ix, info, func) + CalleesAll(ix, info, args) + CalleesAll(ix, info, keywords)
      + (var callee := ix.Callee(info, e); if callee.Some? then {callee.value.symbol} else {})
    case _ => {}
  }

  ghost function CalleesAll(ix: Index, info: FunctionInfo, es: seq<Expr>): set<Symbol>
    decreases es
  {
    if es == [] then {} else CalleesExpr(ix, info, es[0]) + CalleesAll(ix, info, es[1..])
  }

  ghost function CalleesBlock(ix: Index, info: FunctionInfo, stmts: seq<Stmt>): set<Symbol>
    decreases stmts
  {
    if stmts == [] then {} else CalleesStmt(ix, info, stmts[0]) + CalleesBlock(ix, info, stmts[1..])
  }

  ghost function CalleesStmt(ix: Index, info: FunctionInfo, s: Stmt): set<Symbol>
    decreases s
  {
    match s
    case Assign(_, value, _) => CalleesExpr(ix, info, value)
    case AugAssign(_, value, _) => CalleesExpr(ix, info, value)
    case If(test, body, orelse, _) =>
      CalleesExpr(ix, info, test) + CalleesBlock(ix, info, body) + CalleesBlock(ix, info, orelse)
    case For(_, iter, body, _) => CalleesExpr(ix, info, iter) + CalleesBlock(ix, info, body)
    case While(test, body, _) => CalleesExpr(ix, info, test) + CalleesBlock(ix, info, body)
    case With(items, body, _) => CalleesAll(ix, info, items) + CalleesBlock(ix, info, body)
    case ExprStmt(value, _) => CalleesExpr(ix, info, value)
    case Return(Some(value), _) => CalleesExpr(ix, info, value)
    case Raise(Some(value), _) => CalleesExpr(ix, info, value)
    case Assert(test, _) => CalleesExpr(ix, info, test)
    case _ => {}
  }

  ghost predicate Calls(ix: Index, caller: Symbol, callee: Symbol) {
    caller in ix.functions && callee in CalleesBlock(ix, ix.functions[caller], ix.functions[caller].body)
  }

  /** A duplicate-free walk over the call graph within the depth bound. */
  ghost predicate GoodChain(ix: Index, chain: seq<Symbol>) {
    && 1 <= |chain| <= ix.maxCallDepth
    && (forall i :: 0 <= i < |chain| ==> chain[i] in ix.functions)
    && (forall i, j :: 0 <= i < j < |chain| ==> chain[i] != chain[j])
    && (forall i :: 1 <= i < |chain| ==> Calls(ix, chain[i - 1], chain[i]))
  }

  ghost function Elements(chain: seq<Symbol>): set<Symbol> {
    set i | 0 <= i < |chain| :: chain[i]
  }

  /******* Dominant guards *******/

  /** The guards of every denial If at the top level of a body that is reached from its start. */
  ghost function DominantGuards(ix: Index, symbol: Symbol, stmts: seq<Stmt>): set<GuardId> {
    if stmts == [] then {}
    else
      (if stmts[0].If? && DenialBranchGuardsFollowingCode(stmts[0]) then ix.GuardsAtLine(symbol, stmts[0].line) else {})
      + if Stops(stmts[0]) then {} else DominantGuards(ix, symbol, stmts[1..])
  }

  /** What a call chain through a function owes to that function. */
  ghost function RequiredGuards(ix: Index, symbol: Symbol): set<GuardId> {
    if symbol in ix.functions then
      ix.DecoratorGuards(symbol) + DominantGuards(ix, symbol, ix.functions[symbol].body)
    else {}
  }

  /** The flow carries the guards of every function it goes through below `open`. */
  ghost predicate SettledBeyond(ix: Index, open: seq<Symbol>, id: FlowId) {
    forall i :: |open| <= i < |id.chain| ==> RequiredGuards(ix, id.chain[i]) <= id.guards
  }

  /******* How a table grows *******/

  /** The same flow, possibly with more guards. */
  ghost predicate Descends(id: FlowId, later: FlowId) {
    later == id.(guards := later.guards) && id.guards <= later.guards
  }

  /** A flow recorded while tracing from `f`. */
  ghost predicate RecordedUnder(ix: Index, f: Frame, id: FlowId) {
    && id.route == f.route
    && f.chain <= id.chain
    && f.guards <= id.guards
    && id.sources != {}
    && GoodChain(ix, id.chain)
    && SettledBeyond(ix, f.chain, id)
  }

  ghost predicate SomeLater(id: FlowId, flows: set<FlowId>) {
    exists later :: later in flows && Descends(id, later)
  }

  ghost predicate SomeEarlier(flows: set<FlowId>, id: FlowId) {
    exists earlier :: earlier in flows && Descends(earlier, id)
  }

  /** Only flows whose chain extends this one have changed. */
  ghost predicate Confined(chain: seq<Symbol>, before: set<FlowId>, after: set<FlowId>) {
    forall id :: id in after ==> id in before || chain <= id.chain
  }

  /** Nothing is lost, and everything new was recorded under `f`. */
  ghost predicate Grows(ix: Index, f: Frame, before: set<FlowId>, after: set<FlowId>) {
    && (forall id :: id in before ==> SomeLater(id, after))
    && (forall id :: id in after ==> SomeEarlier(before, id) || RecordedUnder(ix, f, id))
    && Confined(f.chain, before, after)
  }

  lemma GrowsReflexive(ix: Index, f: Frame, flows: set<FlowId>)
    ensures Grows(ix, f, flows, flows)
  {
    assert forall id :: id in flows ==> Descends(id, id);
  }

  lemma GrowsTransitive(ix: Index, f: Frame, a: set<FlowId>, b: set<FlowId>, c: set<FlowId>)
    requires Grows(ix, f, a, b) && Grows(ix, f, b, c)
    ensures Grows(ix, f, a, c)
  {
  }

  /** A frame that is in the same function with at least as many guards records no less strictly. */
  lemma GrowsWeaken(ix: Index, strict: Frame, f: Frame, a: set<FlowId>, b: set<FlowId>)
    requires Grows(ix, strict, a, b)
    requires strict.route == f.route && strict.chain == f.chain && f.guards <= strict.guards
    ensures Grows(ix, f, a, b)
  {
  }

  lemma GrowsAddGuards(ix: Index, f: Frame, flows: set<FlowId>, chain: seq<Symbol>, guards: set<GuardId>)
    requires f.chain == chain
    ensures Grows(ix, f, flows, AddGuards(flows, chain, guards))
  {
    hide RecordedUnder;
    var after := AddGuards(flows, chain, guards);
    forall id | id in flows ensures SomeLater(id, after) {
      assert AddGuard(id, chain, guards) in after && Descends(id, AddGuard(id, chain, guards));
    }
    forall id | id in after ensures SomeEarlier(flows, id) && (id in flows || chain <= id.chain) {
      var earlier :| earlier in flows && AddGuard(earlier, chain, guards) == id;
      assert Descends(earlier, id);
    }
  }

  /******* Frames the tracer can be in *******/

  /** About to enter a function: the active set is the chain without its last element. */
  ghost predicate GoodEntry(ix: Index, f: Frame) {
    && ix.Valid()
    && f.chain != []
    && (|f.chain| > 1 ==> GoodChain(ix, f.chain[..|f.chain| - 1]))
    && (forall i :: 1 <= i < |f.chain| ==> Calls(ix, f.chain[i - 1], f.chain[i]))
    && f.active == Elements(f.chain[..|f.chain| - 1])
    && f.info.symbol == f.chain[|f.chain| - 1]
    && f.info.symbol in ix.functions && ix.functions[f.info.symbol] == f.info
  }

  /** Inside a function's body. */
  ghost predicate GoodBody(ix: Index, f: Frame) {
    && ix.Valid()
    && GoodChain(ix, f.chain)
    && f.active == Elements(f.chain)
    && f.info.symbol == f.chain[|f.chain| - 1]
    && ix.functions[f.info.symbol] == f.info
  }

  ghost function OwnCallees(ix: Index, f: Frame): set<Symbol> {
    CalleesBlock(ix, f.info, f.info.body)
  }

  lemma EnterIsGoodEntry(ix: Index, f: Frame, call: Expr)
    requires GoodBody(ix, f) && call.Call? && CalleesExpr(ix, f.info, call) <= OwnCallees(ix, f)
    ensures var callee := ix.Callee(f.info, call);
            callee.Some? ==> GoodEntry(ix, f.Enter(callee.value))
  {
  }

  lemma BodyIsGoodBody(ix: Index, f: Frame)
    requires GoodEntry(ix, f) && !f.Refuses(ix)
    ensures GoodBody(ix, f.Body(ix))
  {
  }

  /******* The tracer only grows its table *******/

  lemma {:induction false} GrowsExpr(ix: Index, f: Frame, e: Expr, env: Env, flows: set<FlowId>)
    requires GoodBody(ix, f) && CalleesExpr(ix, f.info, e) <= OwnCallees(ix, f)
    ensures Grows(ix, f, flows, FlowsExpr(ix, f, e, env, flows))
    decreases Fuel(ix, f.chain), e, 1
  {
    match e
    case Attribute(v, _) => GrowsExpr(ix, f, v, env, flows);
    case KeywordArgument(_, v) => GrowsExpr(ix, f, v, env, flows);
    case Tree(_, children) => GrowsAll(ix, f, children, env, flows);
    case Call(func, args, keywords, _, _) =>
      var inFunc := FlowsExpr(ix, f, func, env, flows);
      var inArgs := FlowsAll(ix, f, args, env, inFunc);
      var inKeywords := FlowsAll(ix, f, keywords, env, inArgs);
      GrowsExpr(ix, f, func, env, flows);
      GrowsAll(ix, f, args, env, inFunc);
      GrowsTransitive(ix, f, flows, inFunc, inArgs);
      GrowsAll(ix, f, keywords, env, inArgs);
      GrowsTransitive(ix, f, flows, inArgs, inKeywords);
      GrowsCall(ix, f, e, env, inKeywords);
      GrowsTransitive(ix, f, flows, inKeywords, FlowsCall(ix, f, e, env, inKeywords));
    case Name(_) => GrowsReflexive(ix, f, flows);
    case Constant => GrowsReflexive(ix, f, flows);
  }

  lemma {:induction false} GrowsAll(ix: Index, f: Frame, es: seq<Expr>, env: Env, flows: set<FlowId>)
    requires GoodBody(ix, f) && CalleesAll(ix, f.info, es) <= OwnCallees(ix, f)
    ensures Grows(ix, f, flows, FlowsAll(ix, f, es, env, flows))
    decreases Fuel(ix, f.chain), es, 1
  {
    if es == [] {
      GrowsReflexive(ix, f, flows);
    } else {
      var first := FlowsExpr(ix, f, es[0], env, flows);
      GrowsExpr(ix, f, es[0], env, flows);
      GrowsAll(ix, f, es[1..], env, first);
      GrowsTransitive(ix, f, flows, first, FlowsAll(ix, f, es[1..], env, first));
    }
  }

  lemma GrowsOwnFlow(ix: Index, f: Frame, call: Expr, env: Env, flows: set<FlowId>)
    requires GoodBody(ix, f) && call.Call?
    ensures Grows(ix, f, flows, flows + OwnFlow(ix, f, call, env))
  {
  }

  lemma {:induction false} GrowsCall(ix: Index, f: Frame, call: Expr, env: Env, flows: set<FlowId>)
    requires GoodBody(ix, f) && call.Call? && CalleesExpr(ix, f.info, call) <= OwnCallees(ix, f)
    ensures Grows(ix, f, flows, FlowsCall(ix, f, call, env, flows))
    decreases Fuel(ix, f.chain), call, 0
  {
    var recorded := flows + OwnFlow(ix, f, call, env);
    GrowsOwnFlow(ix, f, call, env, flows);
    var callee := ix.Callee(f.info, call);
    if callee.Some? {
      EnterIsGoodEntry(ix, f, call);
      var g := f.Enter(callee.value);
      var childEnv := ChildEnv(callee.value.parameters, call.args, call.keywords, env);
      GrowsFunction(ix, g, f.chain, childEnv, recorded);
      GrowsTransitive(ix, f, flows, recorded, FlowsFunction(ix, g, childEnv, recorded));
    }
  }

  /** A flow recorded in a function's body that carries the guards the body owes counts as recorded by the
      caller, whose chain is `outer`. */
  lemma SettledForCaller(ix: Index, f: Frame, outer: seq<Symbol>, id: FlowId)
    requires f.chain != [] && outer == f.chain[..|f.chain| - 1]
    requires f.info.symbol == f.chain[|f.chain| - 1] && f.info.symbol in ix.functions && ix.functions[f.info.symbol] == f.info
    requires RecordedUnder(ix, f.Body(ix), id) && DominantGuards(ix, f.info.symbol, f.info.body) <= id.guards
    ensures RecordedUnder(ix, f.(chain := outer), id) && f.chain <= id.chain
  {
    hide GoodChain;
    assert id.chain[|outer|] == f.info.symbol;
    assert RequiredGuards(ix, f.info.symbol) <= id.guards;
  }

  /** If all that is recorded in the body is settled, what the body adds, the caller adds. */
  lemma GrowsForCaller(ix: Index, f: Frame, outer: seq<Symbol>, before: set<FlowId>, after: set<FlowId>)
    requires f.chain != [] && outer == f.chain[..|f.chain| - 1]
    requires f.info.symbol == f.chain[|f.chain| - 1] && f.info.symbol in ix.functions && ix.functions[f.info.symbol] == f.info
    requires Grows(ix, f.Body(ix), before, after)
    requires AllCarry(after, f.chain, DominantGuards(ix, f.info.symbol, f.info.body))
    ensures Grows(ix, f.(chain := outer), before, after)
    ensures Confined(f.chain, before, after)
  {
    hide RecordedUnder, SomeEarlier, SomeLater, DominantGuards;
    forall id | id in after && RecordedUnder(ix, f.Body(ix), id)
      ensures RecordedUnder(ix, f.(chain := outer), id) && f.chain <= id.chain
    {
      RecordedExtends(ix, f.Body(ix), id);
      SettledForCaller(ix, f, outer, id);
    }
  }

  lemma RecordedExtends(ix: Index, f: Frame, id: FlowId)
    requires RecordedUnder(ix, f, id)
    ensures f.chain <= id.chain
  {
    hide GoodChain, SettledBeyond;
  }

  /** A function call settles the function it enters: seen from its caller, whose chain is
      `outer`, everything it records carries the callee's guards too. */
  lemma {:induction false} GrowsFunction(ix: Index, f: Frame, outer: seq<Symbol>, env: Env, flows: set<FlowId>)
    requires GoodEntry(ix, f) && outer == f.chain[..|f.chain| - 1]
    ensures Grows(ix, f.(chain := outer), flows, FlowsFunction(ix, f, env, flows))
    ensures Confined(f.chain, flows, FlowsFunction(ix, f, env, flows))
    decreases Fuel(ix, f.chain)
  {
    hide RecordedUnder, SomeLater, DominantGuards;
    if f.Refuses(ix) {
      GrowsReflexive(ix, f.(chain := outer), flows);
    } else {
      BodyIsGoodBody(ix, f);
      GrowsBlock(ix, f.Body(ix), f.info.body, env, true, flows);
      BlockIsDominated(ix, f.Body(ix), f.info.body, env, flows);
      GrowsForCaller(ix, f, outer, flows, FlowsFunction(ix, f, env, flows));
    }
  }

  lemma {:induction false} GrowsBlock(ix: Index, f: Frame, stmts: seq<Stmt>, env: Env, dominant: bool, flows: set<FlowId>)
    requires GoodBody(ix, f) && CalleesBlock(ix, f.info, stmts) <= OwnCallees(ix, f)
    ensures Grows(ix, f, flows, FlowsBlock(ix, f, stmts, env, dominant, flows))
    decreases Fuel(ix, f.chain), stmts, 1
  {
    if stmts == [] {
      GrowsReflexive(ix, f, flows);
    } else {
      var after := FlowsStmt(ix, f, stmts[0], env, dominant, flows);
      GrowsStmt(ix, f, stmts[0], env, dominant, flows);
      if !Stops(stmts[0]) {
        var g := f.(guards := GuardsAfter(ix, f, stmts[0], dominant));
        var next := EnvStmt(stmts[0], env);
        GrowsBlock(ix, g, stmts[1..], next, dominant, after);
        GrowsWeaken(ix, g, f, after, FlowsBlock(ix, g, stmts[1..], next, dominant, after));
        GrowsTransitive(ix, f, flows, after, FlowsBlock(ix, g, stmts[1..], next, dominant, after));
      }
    }
  }


  lemma {:induction false} GrowsStmt(ix: Index, f: Frame, s: Stmt, env: Env, dominant: bool, flows: set<FlowId>)
    requires GoodBody(ix, f) && CalleesStmt(ix, f.info, s) <= OwnCallees(ix, f)
    ensures Grows(ix, f, flows, FlowsStmt(ix, f, s, env, dominant, flows))
    decreases Fuel(ix, f.chain), s, 1
  {
    match s
    case Assign(_, value, _) => GrowsExpr(ix, f, value, env, flows);
    case AugAssign(_, value, _) => GrowsExpr(ix, f, value, EnvStmt(s, env), flows);
    case If(test, body, orelse, line) =>
      GrowsIf(ix, f, s, env, dominant, flows);
    case For(target, iter, body, _) =>
      var bound := BoundEnv(target, iter, env);
      var inIter := FlowsExpr(ix, f, iter, env, flows);
      GrowsExpr(ix, f, iter, env, flows);
      GrowsBlock(ix, f, body, bound, false, inIter);
      GrowsTransitive(ix, f, flows, inIter, FlowsBlock(ix, f, body, bound, false, inIter));
    case While(test, body, _) =>
      var inTest := FlowsExpr(ix, f, test, env, flows);
      GrowsExpr(ix, f, test, env, flows);
      GrowsBlock(ix, f, body, env, false, inTest);
      GrowsTransitive(ix, f, flows, inTest, FlowsBlock(ix, f, body, env, false, inTest));
    case With(items, body, _) =>
      var inItems := FlowsAll(ix, f, items, env, flows);
      GrowsAll(ix, f, items, env, flows);
      GrowsBlock(ix, f, body, env, false, inItems);
      GrowsTransitive(ix, f, flows, inItems, FlowsBlock(ix, f, body, env, false, inItems));
    case ExprStmt(value, _) => GrowsExpr(ix, f, value, env, flows);
    case Return(Some(value), _) => GrowsExpr(ix, f, value, env, flows);
    case Raise(Some(value), _) => GrowsExpr(ix, f, value, env, flows);
    case Assert(test, _) => GrowsExpr(ix, f, test, env, flows);
    case _ => GrowsReflexive(ix, f, flows);
  }

  lemma {:induction false} GrowsIf(ix: Index, f: Frame, s: Stmt, env: Env, dominant: bool, flows: set<FlowId>)
    requires s.If? && GoodBody(ix, f) && CalleesStmt(ix, f.info, s) <= OwnCallees(ix, f)
    ensures Grows(ix, f, flows, FlowsStmt(ix, f, s, env, dominant, flows))
    decreases Fuel(ix, f.chain), s, 0
  {
    var atLine := ix.GuardsAtLine(f.info.symbol, s.line);
    var g := f.Guarded(atLine);
    var inTest := FlowsExpr(ix, f, s.test, env, flows);
    var inBody := FlowsBlock(ix, g, s.body, env, false, inTest);
    var inElse := FlowsBlock(ix, f, s.orelse, env, false, inBody);
    GrowsExpr(ix, f, s.test, env, flows);
    GrowsBlock(ix, g, s.body, env, false, inTest);
    GrowsWeaken(ix, g, f, inTest, inBody);
    GrowsTransitive(ix, f, flows, inTest, inBody);
    GrowsBlock(ix, f, s.orelse, env, false, inBody);
    GrowsTransitive(ix, f, flows, inBody, inElse);
    if dominant && DenialBranchGuardsFollowingCode(s) {
      GrowsAddGuards(ix, f, inElse, f.chain, f.guards + atLine);
      GrowsTransitive(ix, f, flows, inElse, AddGuards(inElse, f.chain, f.guards + atLine));
    }
  }

  /** Every flow whose chain extends `chain` carries these guards. */
  ghost predicate AllCarry(flows: set<FlowId>, chain: seq<Symbol>, guards: set<GuardId>) {
    forall id :: id in flows && chain <= id.chain ==> guards <= id.guards
  }

  lemma CarryPersists(ix: Index, f: Frame, before: set<FlowId>, after: set<FlowId>, guards: set<GuardId>)
    requires Grows(ix, f, before, after) && AllCarry(before, f.chain, guards) && guards <= f.guards
    ensures AllCarry(after, f.chain, guards)
  {
  }

  /** A denial If reached from the start of a body dominates every flow through the body:
      those recorded before it, in it and after it, by the body or by what it calls. */
  lemma {:induction false} BlockIsDominated(ix: Index, f: Frame, stmts: seq<Stmt>, env: Env, flows: set<FlowId>)
    requires GoodBody(ix, f) && CalleesBlock(ix, f.info, stmts) <= OwnCallees(ix, f)
    ensures AllCarry(FlowsBlock(ix, f, stmts, env, true, flows), f.chain, DominantGuards(ix, f.info.symbol, stmts))
    decreases Fuel(ix, f.chain), stmts, 2
  {
    if stmts != [] && !Stops(stmts[0]) {
      var s, rest := stmts[0], stmts[1..];
      var after := FlowsStmt(ix, f, s, env, true, flows);
      var g := f.(guards := GuardsAfter(ix, f, s, true));
      var next := EnvStmt(s, env);
      BlockIsDominated(ix, g, rest, next, after);
      if s.If? && DenialBranchGuardsFollowingCode(s) {
        var atLine := ix.GuardsAtLine(f.info.symbol, s.line);
        assert AllCarry(after, f.chain, atLine);
        GrowsBlock(ix, g, rest, next, true, after);
        CarryPersists(ix, g, after, FlowsBlock(ix, g, rest, next, true, after), atLine);
      }
    }
  }

  /******* The whole trace *******/

  /** A flow belongs to a route and follows a real, bounded, duplicate-free call chain from its
      handler; it carries the decorator and dominant guards of every function on that chain. */
  ghost predicate GoodFlow(ix: Index, id: FlowId) {
    && GoodChain(ix, id.chain)
    && (exists route :: route in ix.routes && route.routeId == id.route && route.handler == id.chain[0])
    && id.sources != {}
    && forall i :: 0 <= i < |id.chain| ==> RequiredGuards(ix, id.chain[i]) <= id.guards
  }

  lemma GuardsKeepFlowsGood(ix: Index, flows: set<FlowId>, id: FlowId)
    requires (forall earlier :: earlier in flows ==> GoodFlow(ix, earlier)) && SomeEarlier(flows, id)
    ensures GoodFlow(ix, id)
  {
    hide GoodChain, RequiredGuards;
  }

  lemma RecordedFlowsAreGood(ix: Index, route: Route, id: FlowId)
    requires route in ix.routes && route.handler in ix.functions && ix.functions[route.handler].symbol == route.handler
    requires RecordedUnder(ix, RouteFrame(route, ix.functions[route.handler]).(chain := []), id)
    requires [route.handler] <= id.chain
    ensures GoodFlow(ix, id)
  {
    hide GoodChain, RequiredGuards;
    assert id.chain[0] == route.handler;
  }

  lemma EarlierThanItself(flows: set<FlowId>, id: FlowId)
    ensures id in flows ==> SomeEarlier(flows, id)
  {
    assert Descends(id, id);
  }

  lemma RouteKeepsGoodFlows(ix: Index, route: Route, flows: set<FlowId>)
    requires ix.Valid() && route in ix.routes
    requires forall id :: id in flows ==> GoodFlow(ix, id)
    ensures forall id :: id in FlowsRoute(ix, route, flows) ==> GoodFlow(ix, id)
    ensures forall id :: id in flows ==> SomeLater(id, FlowsRoute(ix, route, flows))
  {
    hide GoodFlow, RecordedUnder, SomeEarlier, SomeLater, FlowsFunction;
    if route.handler !in ix.functions {
      GrowsReflexive(ix, Frame(route.routeId, FunctionInfo("", "", None, map[], [], []), [], {}, {}), flows);
      return;
    }
    var f := RouteFrame(route, ix.functions[route.handler]);
    var env := InputEnv(route.inputNames);
    GrowsFunction(ix, f, [], env, flows);
    forall id | id in FlowsFunction(ix, f, env, flows) ensures GoodFlow(ix, id) {
      if SomeEarlier(flows, id) {
        GuardsKeepFlowsGood(ix, flows, id);
      } else {
        EarlierThanItself(flows, id);
        RecordedFlowsAreGood(ix, route, id);
      }
    }
  }

  lemma {:induction false} RoutesKeepGoodFlows(ix: Index, routes: seq<Route>, flows: set<FlowId>)
    requires ix.Valid() && forall route :: route in routes ==> route in ix.routes
    requires forall id :: id in flows ==> GoodFlow(ix, id)
    ensures forall id :: id in FlowsRoutes(ix, routes, flows) ==> GoodFlow(ix, id)
    ensures forall id :: id in flows ==> SomeLater(id, FlowsRoutes(ix, routes, flows))
    decreases routes
  {
    if routes == [] {
      assert forall id :: id in flows ==> Descends(id, id);
    } else {
      var next := FlowsRoute(ix, routes[0], flows);
      RouteKeepsGoodFlows(ix, routes[0], flows);
      RoutesKeepGoodFlows(ix, routes[1..], next);
      forall id | id in flows ensures SomeLater(id, FlowsRoutes(ix, routes, flows)) {
        var mid :| mid in next && Descends(id, mid);
        var last :| last in FlowsRoutes(ix, routes[1..], next) && Descends(mid, last);
        assert Descends(id, last);
      }
    }
  }

  /** Every flow a trace returns is a good flow. */
  lemma TraceHasGoodFlows(ix: Index)
    requires ix.Valid()
    ensures forall id :: id in Trace(ix) ==> GoodFlow(ix, id)
  {
    RoutesKeepGoodFlows(ix, ix.routes, {});
  }

  /******* The in-place rewrite *******/

  datatype FlowSubject = FlowSubject(route: string, sources: set<string>, chain: seq<Symbol>, sink: SinkId)

  function Subject(id: FlowId): FlowSubject {
    FlowSubject(id.route, id.sources, id.chain, id.sink)
  }

  /** Rewriting twice is rewriting once, and no (route, sources, chain, sink) is lost or invented. */
  lemma RewriteIsIdempotentAndLossless(flows: set<FlowId>, chain: seq<Symbol>, guards: set<GuardId>)
    ensures var after := AddGuards(flows, chain, guards);
            && AddGuards(after, chain, guards) == after
            && (set id | id in after :: Subject(id)) == (set id | id in flows :: Subject(id))
            && AllCarry(after, chain, guards)
            && (forall id :: id in flows && !(chain <= id.chain) ==> id in after)
  {
    var after := AddGuards(flows, chain, guards);
    forall id | id in flows
      ensures AddGuard(AddGuard(id, chain, guards), chain, guards) == AddGuard(id, chain, guards)
    {
      assert id.guards + guards + guards == id.guards + guards;
    }
    var subjects := set id | id in flows :: Subject(id);
    var rewritten := set id | id in after :: Subject(id);
    forall id | id in flows ensures Subject(id) in rewritten {
      assert AddGuard(id, chain, guards) in after;
    }
  }
}

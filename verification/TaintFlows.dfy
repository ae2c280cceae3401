/** What the tracer should leave in its flow table, as a function of the table it starts from. */
module TaintFlows {
  import opened Options
  import opened PythonAst
  import opened ValueFlow
  import opened Dependencies
  import opened SourceIndex

  /** The content a flow's identity is the digest of. Content digests are injective, so the
      content itself serves as the identity. */
  datatype FlowId = FlowId(
    route: string, sources: set<string>, chain: seq<Symbol>, sink: SinkId, guards: set<GuardId>)

  datatype DataFlowPath = DataFlowPath(
    flowId: FlowId, routeId: string, sourceNames: set<string>, callChain: seq<Symbol>,
    sinkId: SinkId, guardIds: set<GuardId>, confidence: real)

  /** The table entry an identity stands for. */
  function Entry(id: FlowId): DataFlowPath {
    DataFlowPath(id, id.route, id.sources, id.chain, id.sink, id.guards,
                 if |id.chain| == 1 then 0.84 else 0.78)
  }

  /** Where the tracer is: the route being traced, the function it is in and how it got there. */
  datatype Frame = Frame(
    route: string, info: FunctionInfo, chain: seq<Symbol>, guards: set<GuardId>, active: set<Symbol>)
  {
    /** Blocks are only ever walked within the depth bound. */
    ghost predicate InDepth(ix: Index) {
      |chain| <= ix.maxCallDepth
    }

    function Guarded(more: set<GuardId>): Frame {
      this.(guards := guards + more)
    }

    function Enter(callee: FunctionInfo): Frame {
      this.(info := callee, chain := chain + [callee.symbol])
    }

    /** A function is not entered beyond the depth bound or while it is already being traced. */
    predicate Refuses(ix: Index) {
      |chain| > ix.maxCallDepth || info.symbol in active
    }

    function Body(ix: Index): Frame {
      this.(guards := guards + ix.DecoratorGuards(info.symbol), active := active + {info.symbol})
    }
  }

  function Fuel(ix: Index, chain: seq<Symbol>): nat {
    if |chain| > ix.maxCallDepth then 0 else ix.maxCallDepth + 1 - |chain|
  }

  /** The arguments bound by position, the first `count` of them. */
  function PositionalEnv(parameters: seq<string>, args: seq<Expr>, count: nat, env: Env): Env
    requires count <= |args|
  {
    if count == 0 then map[]
    else
      var before := PositionalEnv(parameters, args, count - 1, env);
      if count - 1 < |parameters| then before[parameters[count - 1] := ExprDependencies(args[count - 1], env)]
      else before
  }

  /** Keyword arguments that name a parameter, bound on top, the first `count` of them. */
  function KeywordEnv(parameters: seq<string>, keywords: seq<Expr>, count: nat, env: Env, positional: Env): Env
    requires count <= |keywords|
  {
    if count == 0 then positional
    else
      var before := KeywordEnv(parameters, keywords, count - 1, env, positional);
      var k := keywords[count - 1];
      if k.KeywordArgument? && k.arg.Some? && k.arg.value in parameters then
        before[k.arg.value := ExprDependencies(k.keywordValue, env)]
      else before
  }

  function ChildEnv(parameters: seq<string>, args: seq<Expr>, keywords: seq<Expr>, env: Env): Env {
    KeywordEnv(parameters, keywords, |keywords|, env, PositionalEnv(parameters, args, |args|, env))
  }

  function CallDependencies(call: Expr, env: Env): set<string>
    requires call.Call?
  {
    AllDependencies(call.args, env) + AllDependencies(call.keywords, env)
  }

  function SinkAt(ix: Index, info: FunctionInfo, call: Expr): Option<SinkId>
    requires call.Call?
  {
    var site := Site(info.symbol, call.line, call.column);
    if site in ix.sinkBySite then Some(ix.sinkBySite[site]) else None
  }

  /** The flow a call records for itself, if it is a sink something reaches. */
  function OwnFlow(ix: Index, f: Frame, call: Expr, env: Env): set<FlowId>
    requires call.Call?
  {
    var sources := CallDependencies(call, env);
    match SinkAt(ix, f.info, call)
    case None => {}
    case Some(sink) => if sources == {} then {} else {FlowId(f.route, sources, f.chain, sink, f.guards)}
  }

  function AddGuard(id: FlowId, chain: seq<Symbol>, guards: set<GuardId>): FlowId {
    if chain <= id.chain then id.(guards := id.guards + guards) else id
  }

  function AddGuards(flows: set<FlowId>, chain: seq<Symbol>, guards: set<GuardId>): set<FlowId> {
    set id | id in flows :: AddGuard(id, chain, guards)
  }

  /** The guards in force after a statement of a function's body. */
  function GuardsAfter(ix: Index, f: Frame, s: Stmt, dominant: bool): set<GuardId> {
    if s.If? then
      if dominant && DenialBranchGuardsFollowingCode(s) then f.guards + ix.GuardsAtLine(f.info.symbol, s.line)
      else f.guards
    else f.guards + ix.GuardsAtLine(f.info.symbol, if s.line < 1 then 1 else s.line)
  }

  function FlowsExpr(ix: Index, f: Frame, e: Expr, env: Env, flows: set<FlowId>): set<FlowId>
    requires f.InDepth(ix)
    decreases Fuel(ix, f.chain), e, 1
  {
    match e
    case Attribute(v, _) => FlowsExpr(ix, f, v, env, flows)
    case KeywordArgument(_, v) => FlowsExpr(ix, f, v, env, flows)
    case Tree(_, children) => FlowsAll(ix, f, children, env, flows)
    case Call(func, args, keywords, _, _) =>
      var inFunc := FlowsExpr(ix, f, func, env, flows);
      var inArgs := FlowsAll(ix, f, args, env, inFunc);
      FlowsCall(ix, f, e, env, FlowsAll(ix, f, keywords, env, inArgs))
    case _ => flows
  }

  function FlowsAll(ix: Index, f: Frame, es: seq<Expr>, env: Env, flows: set<FlowId>): set<FlowId>
    requires f.InDepth(ix)
    decreases Fuel(ix, f.chain), es, 1
  {
    if es == [] then flows
    else FlowsAll(ix, f, es[1..], env, FlowsExpr(ix, f, es[0], env, flows))
  }

  /** The call itself, once its parts have been walked: its own flow, then its callee's. */
  function FlowsCall(ix: Index, f: Frame, call: Expr, env: Env, flows: set<FlowId>): set<FlowId>
    requires call.Call? && f.InDepth(ix)
    decreases Fuel(ix, f.chain), call, 0
  {
    var recorded := flows + OwnFlow(ix, f, call, env);
    match ix.Callee(f.info, call)
    case None => recorded
    case Some(callee) =>
      FlowsFunction(ix, f.Enter(callee), ChildEnv(callee.parameters, call.args, call.keywords, env), recorded)
  }

  function FlowsFunction(ix: Index, f: Frame, env: Env, flows: set<FlowId>): set<FlowId>
    decreases Fuel(ix, f.chain)
  {
    if f.Refuses(ix) then flows else FlowsBlock(ix, f.Body(ix), f.info.body, env, true, flows)
  }

  function FlowsBlock(ix: Index, f: Frame, stmts: seq<Stmt>, env: Env, dominant: bool, flows: set<FlowId>): set<FlowId>
    requires f.InDepth(ix)
    decreases Fuel(ix, f.chain), stmts, 1
  {
    if stmts == [] then flows
    else
      var after := FlowsStmt(ix, f, stmts[0], env, dominant, flows);
      if Stops(stmts[0]) then after
      else
        FlowsBlock(ix, f.(guards := GuardsAfter(ix, f, stmts[0], dominant)), stmts[1..],
                   EnvStmt(stmts[0], env), dominant, after)
  }

  function FlowsStmt(ix: Index, f: Frame, s: Stmt, env: Env, dominant: bool, flows: set<FlowId>): set<FlowId>
    requires f.InDepth(ix)
    decreases Fuel(ix, f.chain), s, 1
  {
    match s
    case Assign(_, value, _) => FlowsExpr(ix, f, value, env, flows)
    case AugAssign(_, value, _) => FlowsExpr(ix, f, value, EnvStmt(s, env), flows)
    case If(test, body, orelse, line) =>
      var atLine := ix.GuardsAtLine(f.info.symbol, line);
      var inTest := FlowsExpr(ix, f, test, env, flows);
      var inBody := FlowsBlock(ix, f.Guarded(atLine), body, env, false, inTest);
      var inElse := FlowsBlock(ix, f, orelse, env, false, inBody);
      if dominant && DenialBranchGuardsFollowingCode(s) then AddGuards(inElse, f.chain, f.guards + atLine)
      else inElse
    case For(target, iter, body, _) =>
      var bound := BoundEnv(target, iter, env);
      FlowsBlock(ix, f, body, bound, false, FlowsExpr(ix, f, iter, env, flows))
    case While(test, body, _) =>
      FlowsBlock(ix, f, body, env, false, FlowsExpr(ix, f, test, env, flows))
    case With(items, body, _) =>
      FlowsBlock(ix, f, body, env, false, FlowsAll(ix, f, items, env, flows))
    case ExprStmt(value, _) => FlowsExpr(ix, f, value, env, flows)
    case Return(Some(value), _) => FlowsExpr(ix, f, value, env, flows)
    case Raise(Some(value), _) => FlowsExpr(ix, f, value, env, flows)
    case Assert(test, _) => FlowsExpr(ix, f, test, env, flows)
    case _ => flows
  }

  /******* Whole runs *******/

  function InputEnv(names: seq<string>): Env {
    map name | name in names :: {name}
  }

  function RouteFrame(route: Route, handler: FunctionInfo): Frame {
    Frame(route.routeId, handler, [handler.symbol], {}, {})
  }

  function FlowsRoute(ix: Index, route: Route, flows: set<FlowId>): set<FlowId> {
    if route.handler in ix.functions then
      var handler := ix.functions[route.handler];
      FlowsFunction(ix, RouteFrame(route, handler), InputEnv(route.inputNames), flows)
    else flows
  }

  function FlowsRoutes(ix: Index, routes: seq<Route>, flows: set<FlowId>): set<FlowId>
    decreases routes
  {
    if routes == [] then flows else FlowsRoutes(ix, routes[1..], FlowsRoute(ix, routes[0], flows))
  }

  function Trace(ix: Index): set<FlowId> {
    FlowsRoutes(ix, ix.routes, {})
  }
}

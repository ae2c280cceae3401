/** What happens on a path through a route: which sinks it reaches with what, which guards it has met by then,
    and where it meets a denial. Every function entered chooses its own branches. */
module TaintPaths {
  import opened PythonAst
  import opened ValueFlow
  import opened Dependencies
  import opened SourceIndex
  import opened TaintFlows

  /** Where a path is: the function, the chain of calls to it, and the guards met on the way. */
  datatype Place = Place(info: FunctionInfo, chain: seq<Symbol>, met: set<GuardId>)
  {
    predicate InDepth(ix: Index) {
      |chain| <= ix.maxCallDepth
    }

    function Enter(callee: FunctionInfo): Place {
      Place(callee, chain + [callee.symbol], met)
    }

    /** Within the depth bound, and no function is entered again further down its own chain. */
    predicate Open(ix: Index) {
      InDepth(ix) && forall i :: 0 <= i < |chain| - 1 ==> chain[i] != info.symbol
    }

    /** A function's decorators guard its whole body. */
    function Body(ix: Index): Place {
      if info.symbol in ix.decoratorGuards then this.(met := met + ix.decoratorGuards[info.symbol]) else this
    }

    /** A body guarded by the test of its If. */
    function Inside(ix: Index, line: nat): Place {
      this.(met := met + set node | node in ix.guards && node == GuardNode(node.guardId, info.symbol, line) :: node.guardId)
    }

    /** Past a statement of this line: an If guards what follows only if it denies at the top level. */
    function Past(ix: Index, s: Stmt, top: bool): Place {
      if !s.If? then Inside(ix, if s.line == 0 then 1 else s.line)
      else if top && Denies(s) then Inside(ix, s.line)
      else this
    }
  }

  /** Whoever fails the test has left: a negated test or an inequality, no else, and a body that ends by leaving. */
  predicate Denies(s: Stmt) {
    && s.If? && s.orelse == [] && s.body != []
    && (s.body[|s.body| - 1].Return? || s.body[|s.body| - 1].Raise?)
    && s.test.Tree? && Negative(s.test.kind)
  }

  predicate Negative(kind: NodeKind) {
    match kind
    case NotOperator => true
    case Comparison(operators) => NotEq in operators || IsNot in operators || NotIn in operators
    case _ => false
  }

  /******* Sinks *******/

  /** A sink call that received something from `sources`, reached through `chain` past the guards `met`. */
  datatype Event = Event(chain: seq<Symbol>, sink: SinkId, sources: set<string>, met: set<GuardId>)

  ghost predicate EventInExpr(r: Reading, ix: Index, p: Place, e: Expr, env: Env, ev: Event)
    requires p.InDepth(ix)
    decreases Fuel(ix, p.chain), e, 1
  {
    || (exists child :: child in Children(e) && EventInExpr(r, ix, p, child, env, ev))
    || (e.Call? && EventOfCall(r, ix, p, e, env, ev))
  }

  /** The call is a sink and something reaches it. */
  ghost predicate OwnEvent(ix: Index, p: Place, call: Expr, env: Env, ev: Event)
    requires call.Call?
  {
    var site := Site(p.info.symbol, call.line, call.column);
    && ev.chain == p.chain && ev.met == p.met
    && site in ix.sinkBySite && ix.sinkBySite[site] == ev.sink
    && ev.sources == SourcesOfAny(call.args + call.keywords, env) != {}
  }

  ghost predicate EventOfCall(r: Reading, ix: Index, p: Place, call: Expr, env: Env, ev: Event)
    requires call.Call? && p.InDepth(ix)
    decreases Fuel(ix, p.chain), call, 0
  {
    || OwnEvent(ix, p, call, env, ev)
    || (var callee := ix.Callee(p.info, call);
        callee.Some? && exists start, decisions ::
          && Starts(callee.value.parameters, call.args, call.keywords, env, start)
          && EventInFunction(r, ix, p.Enter(callee.value), start, decisions, ev))
  }

  ghost predicate EventInFunction(r: Reading, ix: Index, p: Place, env: Env, decisions: seq<bool>, ev: Event)
    decreases Fuel(ix, p.chain)
  {
    p.Open(ix) && EventInBlock(r, ix, p.Body(ix), p.info.body, env, true, decisions, ev)
  }

  ghost predicate EventInBlock(r: Reading, ix: Index, p: Place, stmts: seq<Stmt>, env: Env, top: bool, decisions: seq<bool>,
                               ev: Event)
    requires p.InDepth(ix)
    decreases Fuel(ix, p.chain), stmts, 1
  {
    stmts != [] &&
    (|| EventInStmt(r, ix, p, stmts[0], env, decisions, ev)
     || (var after := PathStmt(r, stmts[0], env, decisions);
         && !after.stopped
         && EventInBlock(r, ix, p.Past(ix, stmts[0], top), stmts[1..], after.env, top, after.decisions, ev)))
  }

  ghost predicate EventInStmt(r: Reading, ix: Index, p: Place, s: Stmt, env: Env, decisions: seq<bool>, ev: Event)
    requires p.InDepth(ix)
    decreases Fuel(ix, p.chain), s, 1
  {
    match s
    case Assign(_, value, _) => EventInExpr(r, ix, p, value, env, ev)
    case AugAssign(_, value, _) => EventInExpr(r, ix, p, value, if r.AsRun? then env else Step(s, env), ev)
    case If(test, body, orelse, line) =>
      || EventInExpr(r, ix, p, test, env, ev)
      || (if Decide(decisions) then EventInBlock(r, ix, p.Inside(ix, line), body, env, false, Rest(decisions), ev)
          else EventInBlock(r, ix, p, orelse, env, false, Rest(decisions), ev))
    case For(target, iter, body, _) =>
      || EventInExpr(r, ix, p, iter, env, ev)
      || (Decide(decisions)
          && EventInBlock(r, ix, p, body, Iterated(target, iter, env), false, Rest(decisions), ev))
    case While(test, body, _) =>
      || EventInExpr(r, ix, p, test, env, ev)
      || (Decide(decisions) && EventInBlock(r, ix, p, body, env, false, Rest(decisions), ev))
    case With(items, body, _) =>
      || (exists item :: item in items && EventInExpr(r, ix, p, item, env, ev))
      || EventInBlock(r, ix, p, body, env, false, decisions, ev)
    case ExprStmt(value, _) => EventInExpr(r, ix, p, value, env, ev)
    case Return(Some(value), _) => EventInExpr(r, ix, p, value, env, ev)
    case Raise(Some(value), _) => EventInExpr(r, ix, p, value, env, ev)
    case Assert(test, _) => EventInExpr(r, ix, p, test, env, ev)
    case _ => false
  }

  /******* Denials *******/

  /** A denial at the top level of the last function of a chain, past these guards and its own. */
  datatype Denial = Denial(chain: seq<Symbol>, met: set<GuardId>)

  ghost predicate DenialInExpr(ix: Index, p: Place, e: Expr, d: Denial)
    requires p.InDepth(ix)
    decreases Fuel(ix, p.chain), e, 1
  {
    || (exists child :: child in Children(e) && DenialInExpr(ix, p, child, d))
    || (e.Call? && DenialOfCall(ix, p, e, d))
  }

  ghost predicate DenialOfCall(ix: Index, p: Place, call: Expr, d: Denial)
    requires call.Call? && p.InDepth(ix)
    decreases Fuel(ix, p.chain), call, 0
  {
    var callee := ix.Callee(p.info, call);
    callee.Some? && DenialInFunction(ix, p.Enter(callee.value), d)
  }

  ghost predicate DenialInFunction(ix: Index, p: Place, d: Denial)
    decreases Fuel(ix, p.chain)
  {
    p.Open(ix) && DenialInBlock(ix, p.Body(ix), p.info.body, true, d)
  }

  ghost predicate DenialInBlock(ix: Index, p: Place, stmts: seq<Stmt>, top: bool, d: Denial)
    requires p.InDepth(ix)
    decreases Fuel(ix, p.chain), stmts, 1
  {
    stmts != [] &&
    (|| DenialInStmt(ix, p, stmts[0], top, d)
     || (!stmts[0].Return? && !stmts[0].Raise? && DenialInBlock(ix, p.Past(ix, stmts[0], top), stmts[1..], top, d)))
  }

  ghost predicate DenialInStmt(ix: Index, p: Place, s: Stmt, top: bool, d: Denial)
    requires p.InDepth(ix)
    decreases Fuel(ix, p.chain), s, 1
  {
    match s
    case Assign(_, value, _) => DenialInExpr(ix, p, value, d)
    case AugAssign(_, value, _) => DenialInExpr(ix, p, value, d)
    case If(test, body, orelse, line) =>
      || DenialInExpr(ix, p, test, d)
      || DenialInBlock(ix, p.Inside(ix, line), body, false, d)
      || DenialInBlock(ix, p, orelse, false, d)
      || (top && Denies(s) && d == Denial(p.chain, p.Inside(ix, line).met))
    case For(_, iter, body, _) => DenialInExpr(ix, p, iter, d) || DenialInBlock(ix, p, body, false, d)
    case While(test, body, _) => DenialInExpr(ix, p, test, d) || DenialInBlock(ix, p, body, false, d)
    case With(items, body, _) =>
      || (exists item :: item in items && DenialInExpr(ix, p, item, d))
      || DenialInBlock(ix, p, body, false, d)
    case ExprStmt(value, _) => DenialInExpr(ix, p, value, d)
    case Return(Some(value), _) => DenialInExpr(ix, p, value, d)
    case Raise(Some(value), _) => DenialInExpr(ix, p, value, d)
    case Assert(test, _) => DenialInExpr(ix, p, test, d)
    case _ => false
  }

  /******* Routes *******/

  /** A path starts in a route's handler. */
  ghost predicate Begins(ix: Index, route: Route, p: Place) {
    && route in ix.routes && route.handler in ix.functions
    && p == Place(ix.functions[route.handler], [route.handler], {})
  }

  /** Every input starts out as its own source. */
  ghost predicate Inputs(route: Route, env: Env) {
    && (forall name :: name in env <==> name in route.inputNames)
    && (forall name :: name in env ==> env[name] == {name})
  }

  ghost predicate OnPath(r: Reading, ix: Index, route: Route, decisions: seq<bool>, ev: Event) {
    exists p, env :: Begins(ix, route, p) && Inputs(route, env) && EventInFunction(r, ix, p, env, decisions, ev)
  }

  /** Some path meets the guard at a denial of a function of this chain. */
  ghost predicate Granted(ix: Index, chain: seq<Symbol>, guard: GuardId) {
    exists route, p, d :: Begins(ix, route, p) && DenialInFunction(ix, p, d) && d.chain <= chain && guard in d.met
  }
}

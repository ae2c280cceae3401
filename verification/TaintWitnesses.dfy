/** Two programs in which the tracer reports a source that no run passes on, and one in which a flow carries a
    guard that no path has met by then. */
module TaintWitnesses {
  import opened Options
  import opened PythonAst
  import opened ValueFlow
  import opened Dependencies
  import opened SourceIndex
  import opened TaintFlows
  import opened TaintPaths
  import opened TaintGuarantees
  import opened TaintSoundness
  import opened TaintPrecision

  const HANDLER := "app.view"
  const SINK := "sql"

  /** A code base of one handler with one input; calls in line 3 are sinks, and none is followed. Lines 4 and 5
      are guards. */
  function Alone(body: seq<Stmt>): Index {
    var info := FunctionInfo(HANDLER, "app", None, map[], ["a"], body);
    Index(map[HANDLER := info], [Route("route", HANDLER, ["a"])],
          {GuardNode("check", HANDLER, 4), GuardNode("owner", HANDLER, 5)}, map[Site(HANDLER, 3, 0) := SINK], map[], 1)
  }

  function SinkCall(name: string): Expr {
    Call(Name("execute"), [Name(name)], [], 3, 0)
  }

  const INPUTS: Env := map["a" := {"a"}]
  const BOUND: Env := map["a" := {"a"}, "x" := {"a"}]

  function InHandler(body: seq<Stmt>): (p: Place)
    ensures p.InDepth(Alone(body))
  {
    Place(Alone(body).functions[HANDLER], [HANDLER], {})
  }

  /** On some path, in the only function there is. */
  ghost predicate Met(r: Reading, body: seq<Stmt>, ev: Event) {
    exists decisions :: EventInBlock(r, Alone(body), InHandler(body), body, INPUTS, true, decisions, ev)
  }

  lemma TraceAlone(body: seq<Stmt>)
    ensures var ix := Alone(body);
            var f := RouteFrame(ix.routes[0], ix.functions[HANDLER]);
            Trace(ix) == FlowsBlock(ix, f.Body(ix), body, INPUTS, true, {})
  {
    var ix := Alone(body);
    var f := RouteFrame(ix.routes[0], ix.functions[HANDLER]);
    assert InputEnv(["a"]) == INPUTS;
    assert ix.routes[1..] == [];
    assert !f.Refuses(ix);
    assert FlowsRoute(ix, ix.routes[0], {}) == FlowsFunction(ix, f, INPUTS, {});
    assert FlowsRoutes(ix, ix.routes, {}) == FlowsRoutes(ix, [], FlowsRoute(ix, ix.routes[0], {}));
  }

  lemma PathAlone(r: Reading, body: seq<Stmt>, route: Route, decisions: seq<bool>, ev: Event)
    requires OnPath(r, Alone(body), route, decisions, ev)
    ensures EventInBlock(r, Alone(body), InHandler(body), body, INPUTS, true, decisions, ev)
  {
    hide EventInBlock;
    var ix, p := Alone(body), InHandler(body);
    assert InputEnv(["a"]) == INPUTS && p.Body(ix) == p;
    var q, env :| Begins(ix, route, q) && Inputs(route, env) && EventInFunction(r, ix, q, env, decisions, ev);
    InputsAreTheEnvironment(route, env);
    assert q == p && env == INPUTS;
    assert EventInBlock(r, ix, p, body, INPUTS, true, decisions, ev);
  }

  lemma OnSomePathAlone(r: Reading, body: seq<Stmt>, source: string)
    ensures OnSomePath(r, Alone(body), "route", [HANDLER], SINK, source) <==>
              exists ev :: Met(r, body, ev) && Carries(ev, [HANDLER], SINK, source)
  {
    hide EventInBlock;
    var ix, p := Alone(body), InHandler(body);
    if OnSomePath(r, ix, "route", [HANDLER], SINK, source) {
      var other: Route, decisions, ev :|
        other.routeId == "route" && OnPath(r, ix, other, decisions, ev) && Carries(ev, [HANDLER], SINK, source);
      PathAlone(r, body, other, decisions, ev);
      assert Met(r, body, ev);
    }
    if ev :| Met(r, body, ev) && Carries(ev, [HANDLER], SINK, source) {
      var decisions :| EventInBlock(r, ix, p, body, INPUTS, true, decisions, ev);
      OnPathAlone(r, body, decisions, ev);
    }
  }

  lemma OnPathAlone(r: Reading, body: seq<Stmt>, decisions: seq<bool>, ev: Event)
    requires EventInBlock(r, Alone(body), InHandler(body), body, INPUTS, true, decisions, ev)
    ensures OnPath(r, Alone(body), Alone(body).routes[0], decisions, ev)
  {
    hide EventInBlock;
    var ix, p := Alone(body), InHandler(body);
    InputsAreTheEnvironment(ix.routes[0], INPUTS);
    assert InputEnv(["a"]) == INPUTS && p.Body(ix) == p && p.Open(ix);
    assert Begins(ix, ix.routes[0], p) && EventInFunction(r, ix, p, INPUTS, decisions, ev);
  }

  lemma NothingIn(r: Reading, ix: Index, p: Place, e: Expr, env: Env, ev: Event)
    requires p.InDepth(ix) && (e.Name? || e.Constant?)
    ensures !EventInExpr(r, ix, p, e, env, ev)
  {
  }

  lemma NoneFollowed(r: Reading, body: seq<Stmt>, call: Expr, env: Env, ev: Event)
    requires call.Call?
    ensures EventOfCall(r, Alone(body), InHandler(body), call, env, ev) <==> OwnEvent(Alone(body), InHandler(body), call, env, ev)
  {
    hide OwnEvent;
    var ix, p := Alone(body), InHandler(body);
    var callee := ix.Callee(p.info, call);
    if callee.Some? {
      assert !p.Enter(callee.value).Open(ix);
    }
  }

  lemma PassedToSink(name: string, env: Env)
    requires name != "request"
    ensures CallDependencies(SinkCall(name), env) == Get(env, name)
  {
    assert [Name(name)][1..] == [];
    assert AllDependencies([Name(name)], env) == ExprDependencies(Name(name), env) + AllDependencies([], env);
  }

  /** A sink call in the handler is met exactly if something reaches it. */
  lemma SinkCallEvents(r: Reading, body: seq<Stmt>, name: string, env: Env, ev: Event)
    requires name != "request"
    ensures EventInExpr(r, Alone(body), InHandler(body), SinkCall(name), env, ev) <==>
              ev == Event([HANDLER], SINK, Get(env, name), {}) && Get(env, name) != {}
  {
    hide EventOfCall, CallDependencies;
    var ix, p := Alone(body), InHandler(body);
    var call := SinkCall(name);
    forall child | child in Children(call) ensures !EventInExpr(r, ix, p, child, env, ev) {
      NothingIn(r, ix, p, child, env, ev);
    }
    NoneFollowed(r, body, call, env, ev);
    PassedToSink(name, env);
    CallSources(call, env);
  }

  /******* An early Return *******/

  /** `if ..: x = a; return` and then `execute(x)`. */
  function EarlyReturn(): seq<Stmt> {
    [If(Constant, [Assign([Name("x")], Name("a"), 1), Return(None, 2)], [], 1), ExprStmt(SinkCall("x"), 3)]
  }

  lemma BranchEnds(r: Reading, decisions: seq<bool>)
    ensures PathStmt(r, EarlyReturn()[0], INPUTS, decisions)
         == if Decide(decisions) then PathState(BOUND, Rest(decisions), r.AsRun?)
            else PathState(INPUTS, Rest(decisions), false)
  {
    var branch := EarlyReturn()[0];
    var bind, leave := branch.body[0], branch.body[1];
    assert EnvStmt(bind, INPUTS) == BOUND by {
      assert BindTargets(INPUTS, [Name("x")], {"a"}) == Bind(INPUTS, ["x"], {"a"});
      BindOne(INPUTS, "x", {"a"});
    }
    assert branch.body[1..] == [leave];
    assert PathBlock(r, [leave], BOUND, Rest(decisions)) == PathState(BOUND, Rest(decisions), true);
  }

  lemma BranchIsQuiet(r: Reading, decisions: seq<bool>, ev: Event)
    ensures !EventInStmt(r, Alone(EarlyReturn()), InHandler(EarlyReturn()), EarlyReturn()[0], INPUTS, decisions, ev)
  {
    hide EventInBlock, EventInExpr;
    var ix, p := Alone(EarlyReturn()), InHandler(EarlyReturn());
    var branch := EarlyReturn()[0];
    var bind, leave := branch.body[0], branch.body[1];
    var q := p.Inside(ix, 1);
    var after := PathStmt(r, bind, INPUTS, Rest(decisions));
    assert branch.body == [bind] + [leave] && [leave] == [leave] + [];
    NothingIn(r, ix, q, bind.value, INPUTS, ev);
    NothingIn(r, ix, p, branch.test, INPUTS, ev);
    EventUnfolds(r, ix, q, bind, [leave], INPUTS, false, Rest(decisions), ev);
    EventUnfolds(r, ix, q.Past(ix, bind, false), leave, [], after.env, false, after.decisions, ev);
    NoEventInNothing(r, ix, p, INPUTS, false, Rest(decisions), ev);
  }

  lemma EarlyReturnEvents(r: Reading, decisions: seq<bool>, ev: Event)
    ensures EventInBlock(r, Alone(EarlyReturn()), InHandler(EarlyReturn()), EarlyReturn(), INPUTS, true, decisions, ev) <==>
              r.AsTraced? && Decide(decisions) && ev == Event([HANDLER], SINK, {"a"}, {})
  {
    hide PathStmt, EventInExpr;
    var body := EarlyReturn();
    var ix, p := Alone(body), InHandler(body);
    BranchEnds(r, decisions);
    BranchIsQuiet(r, decisions, ev);
    var after := PathStmt(r, body[0], INPUTS, decisions);
    SinkCallEvents(r, body, "x", after.env, ev);
    assert body[1..] == [body[1]] && [body[1]][1..] == [];
    assert EventInBlock(r, ix, p, [body[1]], after.env, true, after.decisions, ev) <==>
             EventInStmt(r, ix, p, body[1], after.env, after.decisions, ev);
  }

  /** The tracer reports that `a` reaches the sink. No run passes it there: the one that binds it has returned. */
  lemma EarlyReturnIsOverreported()
    ensures Alone(EarlyReturn()).Valid()
    ensures Reported(Alone(EarlyReturn()), "route", [HANDLER], SINK, "a")
    ensures !OnSomePath(AsRun, Alone(EarlyReturn()), "route", [HANDLER], SINK, "a")
  {
    hide OnSomePath, Reported, EventInBlock, Plain;
    var body := EarlyReturn();
    forall r: Reading, decisions, ev {
      EarlyReturnEvents(r, decisions, ev);
    }
    var ev := Event([HANDLER], SINK, {"a"}, {});
    assert Met(AsTraced, body, ev) by {
      assert Decide([true]);
      assert EventInBlock(AsTraced, Alone(body), InHandler(body), body, INPUTS, true, [true], ev);
    }
    OnSomePathAlone(AsTraced, body, "a");
    OnSomePathAlone(AsRun, body, "a");
    TraceIsExact(Alone(body), "route", [HANDLER], SINK, "a");
  }

  /******* A call in an augmented assignment *******/

  /** `x += (a, execute(x))`, with nothing in `x` yet. */
  function CallInUpdate(): seq<Stmt> {
    [AugAssign(Name("x"), Tree(OtherNode, [Name("a"), SinkCall("x")]), 3)]
  }

  lemma UpdateCarries()
    ensures ExprDependencies(CallInUpdate()[0].value, INPUTS) == {"a"}
  {
    var call := SinkCall("x");
    PassedToSink("x", INPUTS);
    assert CaseFold(Dotted(call.func))[0] == 'e' && "request."[0] == 'r';
    assert ExprDependencies(call, INPUTS) == CallDependencies(call, INPUTS) == {};
    assert [call][1..] == [] && [Name("a"), call][1..] == [call];
    assert AllDependencies([call], INPUTS) == ExprDependencies(call, INPUTS) + AllDependencies([], INPUTS);
    assert AllDependencies([Name("a"), call], INPUTS) == ExprDependencies(Name("a"), INPUTS) + AllDependencies([call], INPUTS);
  }

  lemma UpdateBinds()
    ensures EnvStmt(CallInUpdate()[0], INPUTS) == BOUND
  {
    hide ExprDependencies;
    UpdateCarries();
    BindOne(INPUTS, "x", {"a"});
    assert Get(INPUTS, Dotted(Name("x"))) + {"a"} == {"a"};
  }

  lemma UpdateValueEvents(r: Reading, env: Env, ev: Event)
    ensures EventInExpr(r, Alone(CallInUpdate()), InHandler(CallInUpdate()), CallInUpdate()[0].value, env, ev) <==>
              ev == Event([HANDLER], SINK, Get(env, "x"), {}) && Get(env, "x") != {}
  {
    hide EventOfCall;
    var ix, p := Alone(CallInUpdate()), InHandler(CallInUpdate());
    var value := CallInUpdate()[0].value;
    NothingIn(r, ix, p, Name("a"), env, ev);
    SinkCallEvents(r, CallInUpdate(), "x", env, ev);
    assert Children(value)[1] == SinkCall("x");
    assert forall child :: child in Children(value) <==> child == Name("a") || child == SinkCall("x");
  }

  lemma UpdateEvents(r: Reading, decisions: seq<bool>, ev: Event)
    ensures EventInBlock(r, Alone(CallInUpdate()), InHandler(CallInUpdate()), CallInUpdate(), INPUTS, true, decisions, ev) <==>
              r.AsTraced? && ev == Event([HANDLER], SINK, {"a"}, {})
  {
    hide EnvStmt, EventInExpr;
    UpdateBinds();
    UpdateValueEvents(r, if r.AsRun? then INPUTS else BOUND, ev);
    assert CallInUpdate()[1..] == [];
  }

  /** The tracer reports that `a` reaches the sink. A run calls the sink before `x` has anything of `a`. */
  lemma CallInUpdateIsOverreported()
    ensures Alone(CallInUpdate()).Valid()
    ensures Reported(Alone(CallInUpdate()), "route", [HANDLER], SINK, "a")
    ensures !OnSomePath(AsRun, Alone(CallInUpdate()), "route", [HANDLER], SINK, "a")
  {
    hide OnSomePath, Reported, EventInBlock, Plain;
    var body := CallInUpdate();
    forall r: Reading, decisions, ev {
      UpdateEvents(r, decisions, ev);
    }
    var ev := Event([HANDLER], SINK, {"a"}, {});
    assert Met(AsTraced, body, ev) by {
      assert EventInBlock(AsTraced, Alone(body), InHandler(body), body, INPUTS, true, [], ev);
    }
    OnSomePathAlone(AsTraced, body, "a");
    OnSomePathAlone(AsRun, body, "a");
    TraceIsExact(Alone(body), "route", [HANDLER], SINK, "a");
  }

  /******* A guard after the sink *******/

  /** `execute(a)`, then a check in line 4, then `if .. != ..: raise` in line 5. */
  function LateDenial(): seq<Stmt> {
    [ExprStmt(SinkCall("a"), 3), ExprStmt(Constant, 4), If(Tree(Comparison([NotEq]), []), [Raise(None, 6)], [], 5)]
  }

  lemma LateDenialMeets(met: set<GuardId>)
    requires met == {"check", "owner"}
    ensures DeniesWith(Alone(LateDenial()), InHandler(LateDenial()), LateDenial(), met)
  {
    var ix, p, body := Alone(LateDenial()), InHandler(LateDenial()), LateDenial();
    var afterSink := p.Past(ix, body[0], true);
    var afterCheck := afterSink.Past(ix, body[1], true);
    assert afterSink == p;
    assert GuardNode("check", HANDLER, 4) in ix.guards && GuardNode("owner", HANDLER, 5) in ix.guards;
    assert afterCheck.met == {"check"};
    assert afterCheck.Inside(ix, 5).met == met;
    assert body[1..] == [body[1], body[2]] && body[1..][1..] == [body[2]];
    assert DeniesWith(ix, afterCheck, [body[2]], met);
  }

  lemma EventUnfolds(r: Reading, ix: Index, p: Place, s: Stmt, rest: seq<Stmt>, env: Env, top: bool, decisions: seq<bool>, ev: Event)
    requires p.InDepth(ix)
    ensures EventInBlock(r, ix, p, [s] + rest, env, top, decisions, ev) <==>
      || EventInStmt(r, ix, p, s, env, decisions, ev)
      || (var after := PathStmt(r, s, env, decisions);
          !after.stopped && EventInBlock(r, ix, p.Past(ix, s, top), rest, after.env, top, after.decisions, ev))
  {
    assert ([s] + rest)[1..] == rest;
  }

  lemma LateDenialEvents(r: Reading, decisions: seq<bool>, ev: Event)
    requires EventInBlock(r, Alone(LateDenial()), InHandler(LateDenial()), LateDenial(), INPUTS, true, decisions, ev)
    ensures ev.met == {}
  {
    hide EventInBlock, EventInExpr;
    var ix, p, body := Alone(LateDenial()), InHandler(LateDenial()), LateDenial();
    var after := p.Past(ix, body[0], true);
    EventUnfolds(r, ix, p, body[0], [body[1], body[2]], INPUTS, true, decisions, ev);
    EventUnfolds(r, ix, after, body[1], [body[2]], INPUTS, true, decisions, ev);
    assert body == [body[0]] + [body[1], body[2]] && [body[1], body[2]] == [body[1]] + [body[2]];
    SinkCallEvents(r, body, "a", INPUTS, ev);
    NothingIn(r, ix, after, Constant, INPUTS, ev);
    LastDenialIsQuiet(r, after.Past(ix, body[1], true), decisions, ev);
  }

  lemma LastDenialIsQuiet(r: Reading, p: Place, decisions: seq<bool>, ev: Event)
    requires p.InDepth(Alone(LateDenial()))
    ensures !EventInBlock(r, Alone(LateDenial()), p, [LateDenial()[2]], INPUTS, true, decisions, ev)
  {
    hide EventInBlock;
    var ix := Alone(LateDenial());
    var s, leave := LateDenial()[2], Raise(None, 6);
    EventUnfolds(r, ix, p, s, [], INPUTS, true, decisions, ev);
    EventUnfolds(r, ix, p.Inside(ix, 5), leave, [], INPUTS, false, Rest(decisions), ev);
    assert [s] + [] == [s] && s.body == [leave] + [] && s.orelse == [];
    assert Children(s.test) == [];
    assert !EventInExpr(r, ix, p, s.test, INPUTS, ev);
    NoEventInNothing(r, ix, p, INPUTS, false, Rest(decisions), ev);
    assert !EventInStmt(r, ix, p, s, INPUTS, decisions, ev);
    var after := PathStmt(r, s, INPUTS, decisions);
    NoEventInNothing(r, ix, p.Past(ix, s, true), after.env, true, after.decisions, ev);
    NoEventInNothing(r, ix, p.Inside(ix, 5).Past(ix, leave, false), INPUTS, false, Rest(decisions), ev);
  }

  lemma NoEventInNothing(r: Reading, ix: Index, p: Place, env: Env, top: bool, decisions: seq<bool>, ev: Event)
    requires p.InDepth(ix)
    ensures !EventInBlock(r, ix, p, [], env, top, decisions, ev)
  {
  }

  /** The flow carries the check of line 4 and the denial of line 5, though every path reaches the sink before. */
  lemma LaterGuardsAreCredited() returns (id: FlowId)
    ensures id in Trace(Alone(LateDenial())) && id.sink == SINK && {"check", "owner"} <= id.guards
    ensures forall r, route, decisions, ev :: OnPath(r, Alone(LateDenial()), route, decisions, ev) ==> ev.met == {}
  {
    hide EventInBlock, Trace;
    var ix, body := Alone(LateDenial()), LateDenial();
    var ev := Event([HANDLER], SINK, {"a"}, {});
    FirstSinkIsMet(ev);
    OnPathAlone(AsRun, body, [], ev);
    TaintIsSound(AsRun, ix, ix.routes[0], [], ev);
    id :| id in Trace(ix) && id.route == "route" && id.chain == ev.chain && id.sink == ev.sink && ev.sources <= id.sources;
    LateGuardsAreOn(id);
    forall r, route, decisions, ev | OnPath(r, ix, route, decisions, ev) ensures ev.met == {} {
      PathAlone(r, body, route, decisions, ev);
      LateDenialEvents(r, decisions, ev);
    }
  }

  lemma FirstSinkIsMet(ev: Event)
    requires ev == Event([HANDLER], SINK, {"a"}, {})
    ensures EventInBlock(AsRun, Alone(LateDenial()), InHandler(LateDenial()), LateDenial(), INPUTS, true, [], ev)
  {
    var body := LateDenial();
    SinkCallEvents(AsRun, body, "a", INPUTS, ev);
    EventUnfolds(AsRun, Alone(body), InHandler(body), body[0], [body[1], body[2]], INPUTS, true, [], ev);
    assert body == [body[0]] + [body[1], body[2]];
  }

  lemma LateGuardsAreOn(id: FlowId)
    requires id in Trace(Alone(LateDenial())) && id.chain == [HANDLER]
    ensures {"check", "owner"} <= id.guards
  {
    var ix, p, body := Alone(LateDenial()), InHandler(LateDenial()), LateDenial();
    var f := RouteFrame(ix.routes[0], ix.functions[HANDLER]);
    LateDenialMeets({"check", "owner"});
    SameBody(ix, p, f);
    BodyIsGoodBody(ix, f);
    DenialsGuardTheirChain(ix, p, f.Body(ix), body, INPUTS, {}, {"check", "owner"});
    TraceAlone(body);
  }
}

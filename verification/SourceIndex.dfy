/** What the tracer is given about a code base: functions, routes, sinks and guards,
    and how a called name is resolved to a function. */
module SourceIndex {
  import opened FiniteSets
  import opened Options
  import opened PythonAst

  type Symbol = string
  type GuardId = string
  type SinkId = string

  datatype FunctionInfo = FunctionInfo(
    symbol: Symbol,
    moduleName: string,
    className: Option<string>,
    imports: map<string, string>,
    parameters: seq<string>,
    body: seq<Stmt>)

  datatype Route = Route(routeId: string, handler: Symbol, inputNames: seq<string>)

  datatype GuardNode = GuardNode(guardId: GuardId, functionSymbol: Symbol, line: nat)

  datatype Site = Site(symbol: Symbol, line: nat, column: nat)

  /** `decoratorGuards` holds the guards a function gets from its decorators and dependencies. */
  datatype Index = Index(
    functions: map<Symbol, FunctionInfo>,
    routes: seq<Route>,
    guards: set<GuardNode>,
    sinkBySite: map<Site, SinkId>,
    decoratorGuards: map<Symbol, set<GuardId>>,
    maxCallDepth: nat)
  {
    /** Functions are stored under their own symbol. */
    ghost predicate Valid() {
      forall symbol :: symbol in functions ==> functions[symbol].symbol == symbol
    }

    function GuardsAtLine(symbol: Symbol, line: nat): set<GuardId> {
      set g | g in guards && g.functionSymbol == symbol && g.line == line :: g.guardId
    }

    function DecoratorGuards(symbol: Symbol): set<GuardId> {
      if symbol in decoratorGuards then decoratorGuards[symbol] else {}
    }

    /** The function a called name means to `caller`: a method of its own class, a function of
        its own module, a full symbol, or the only function with that last component. */
    function Resolve(caller: FunctionInfo, name: string): (r: Option<Symbol>)
      ensures r.Some? ==> r.value in functions
    {
      if name == "" then None
      else if "self." <= name && caller.className.Some?
              && caller.moduleName + "." + caller.className.value + "." + name[5..] in functions then
        Some(caller.moduleName + "." + caller.className.value + "." + name[5..])
      else if '.' !in name && caller.moduleName + "." + name in functions then
        Some(caller.moduleName + "." + name)
      else if name in functions then Some(name)
      else UniqueSuffix(functions.Keys, LastComponent(name))
    }

    /** The function a call expression enters, if it names one. */
    function Callee(caller: FunctionInfo, call: Expr): (r: Option<FunctionInfo>)
      requires call.Call?
      ensures r.Some? ==> r.value in functions.Values
    {
      match Resolve(caller, NormalizeName(Dotted(call.func), caller.imports))
      case None => None
      case Some(symbol) => Some(functions[symbol])
    }
  }

  /** What a name may mean to a caller, in the order it is looked up, before bare last components count. */
  function Meanings(caller: FunctionInfo, name: string): seq<Symbol> {
    (if "self." <= name && caller.className.Some? then
       [caller.moduleName + "." + caller.className.value + "." + name[5..]]
     else [])
    + (if '.' !in name then [caller.moduleName + "." + name] else [])
    + [name]
  }

  /** A name means the first of its meanings that is a function; only if none is does the last component
      count, and then only if it is not ambiguous. */
  lemma ResolvesToFirstMeaning(ix: Index, caller: FunctionInfo, name: string, symbol: Symbol)
    requires name != ""
    ensures ix.Resolve(caller, name) == Some(symbol) <==>
      || (exists k :: && 0 <= k < |Meanings(caller, name)| && Meanings(caller, name)[k] == symbol && symbol in ix.functions
                      && forall j :: 0 <= j < k ==> Meanings(caller, name)[j] !in ix.functions)
      || ((forall j :: 0 <= j < |Meanings(caller, name)| ==> Meanings(caller, name)[j] !in ix.functions)
          && symbol in ix.functions
          && forall other :: other in ix.functions ==> (LastComponent(other) == LastComponent(name) <==> other == symbol))
  {
    hide LastComponent;
    var ms := Meanings(caller, name);
    OnlyOneEndsIn(ix.functions.Keys, LastComponent(name), symbol);
    var ofClass := "self." <= name && caller.className.Some?;
    assert ms[|ms| - 1] == name;
    assert ofClass ==> ms[0] == caller.moduleName + "." + caller.className.value + "." + name[5..];
    assert '.' !in name ==> ms[|ms| - 2] == caller.moduleName + "." + name;
  }

  lemma OnlyOneEndsIn(symbols: set<Symbol>, component: string, symbol: Symbol)
    ensures SymbolsEndingIn(symbols, component) == {symbol} <==>
              symbol in symbols && forall other :: other in symbols ==> (LastComponent(other) == component <==> other == symbol)
  {
    hide LastComponent;
    if symbol in symbols && forall other :: other in symbols ==> (LastComponent(other) == component <==> other == symbol) {
      assert forall other :: other in SymbolsEndingIn(symbols, component) <==> other == symbol;
    }
    if SymbolsEndingIn(symbols, component) == {symbol} {
      assert symbol in SymbolsEndingIn(symbols, component);
      assert forall other :: other in symbols && LastComponent(other) == component ==> other in SymbolsEndingIn(symbols, component);
    }
  }

  function LastComponent(name: string): string {
    if '.' in name then LastComponent(name[FirstDot(name) + 1..]) else name
  }

  /** The last component is what follows the last dot. */
  lemma {:induction false} LastComponentIsLast(name: string) returns (i: nat)
    ensures i <= |name| && LastComponent(name) == name[i..] && '.' !in name[i..]
    ensures i > 0 ==> name[i - 1] == '.'
  {
    if '.' in name {
      var dot := FirstDot(name);
      var rest := name[dot + 1..];
      assert LastComponent(name) == LastComponent(rest);
      hide LastComponent;
      hide FirstDot;
      var j := LastComponentIsLast(rest);
      i := dot + 1 + j;
      SuffixOfSuffix(name, dot + 1, j);
    } else {
      i := 0;
      assert name[0..] == name;
    }
  }

  lemma SuffixOfSuffix(name: string, from: nat, j: nat)
    requires from <= |name| && j <= |name| - from
    ensures name[from..][j..] == name[from + j..]
  {
  }

  function FirstDot(name: string): (i: nat)
    requires '.' in name
    ensures i < |name| && name[i] == '.' && '.' !in name[..i]
  {
    if name[0] == '.' then 0 else
      assert name == [name[0]] + name[1..];
      var rest := FirstDot(name[1..]);
      assert name[..rest + 1] == [name[0]] + name[1..][..rest];
      rest + 1
  }

  /** The first component of a dotted name is replaced by what it was imported as. */
  function NormalizeName(name: string, imports: map<string, string>): string {
    var first := if '.' in name then name[..FirstDot(name)] else name;
    if name != "" && first in imports && imports[first] != "" then imports[first] + Tail(name, |first|)
    else name
  }

  /** A name is replaced up to its first dot; a dot with nothing after it is dropped with it. */
  lemma NormalizesFirstComponent(first: string, rest: string, imports: map<string, string>)
    requires '.' !in first
    ensures var imported := first in imports && imports[first] != "";
            && NormalizeName(first, imports) == (if imported && first != "" then imports[first] else first)
            && NormalizeName(first + "." + rest, imports)
               == if !imported then first + "." + rest else if rest == "" then imports[first] else imports[first] + "." + rest
  {
    var name := first + "." + rest;
    assert name[|first|] == '.' && name[..|first|] == first;
    assert FirstDot(name) == |first|;
    assert name[|first|..] == "." + rest;
  }

  /** The separator and what follows it, unless nothing follows. */
  function Tail(name: string, from: nat): string
    requires from <= |name|
  {
    if |name| - from <= 1 then "" else name[from..]
  }

  function SymbolsEndingIn(symbols: set<Symbol>, component: string): set<Symbol> {
    set s | s in symbols && LastComponent(s) == component
  }

  /** A bare last component is resolved only when it is not ambiguous. */
  function UniqueSuffix(symbols: set<Symbol>, component: string): (r: Option<Symbol>)
    ensures r.Some? <==> exists s :: SymbolsEndingIn(symbols, component) == {s}
    ensures r.Some? ==> SymbolsEndingIn(symbols, component) == {r.value}
  {
    var candidates := SymbolsEndingIn(symbols, component);
    if |candidates| == 1 then
      assert candidates != {};
      assert forall x, y :: x in candidates && y in candidates ==> x == y by {
        forall x, y | x in candidates && y in candidates ensures x == y {
          SoleMember(candidates, x, y);
        }
      }
      var s :| s in candidates;
      assert candidates == {s};
      Some(s)
    else None
  }
}

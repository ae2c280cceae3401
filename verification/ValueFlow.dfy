/** What one step of a run passes on: which parts of an expression flow into its value, which names a target
    binds, and what a called function's parameters receive. */
module ValueFlow {
  import opened Options
  import opened PythonAst

  /** The sources each name holds. */
  type Env = map<string, set<string>>

  /******* Expressions *******/

  /** The request itself, or something below it. */
  predicate OfRequest(e: Expr) {
    e == Name("request") || ((e.Attribute? || e.Call?) && "request." <= CaseFold(Dotted(e)))
  }

  /** The part's value is part of the expression's value: not what is called, and nothing below the request. */
  predicate PassesOn(e: Expr, part: Expr) {
    match e
    case Attribute(v, _) => part == v && !OfRequest(e)
    case Call(_, args, keywords, _, _) => part in args || part in keywords
    case KeywordArgument(_, v) => part == v
    case Tree(_, children) => part in children
    case _ => false
  }

  ghost predicate FlowsOut(e: Expr, leaf: Expr)
    decreases e
  {
    leaf == e || exists part :: PassesOn(e, part) && FlowsOut(part, leaf)
  }

  /** What a leaf brings in by itself: its name if it is of the request, otherwise what its name holds. */
  predicate Contributes(leaf: Expr, env: Env, source: string) {
    if OfRequest(leaf) then source == CaseFold(Dotted(leaf))
    else leaf.Name? && leaf.id in env && source in env[leaf.id]
  }

  /** The source reaches the expression's value. */
  ghost predicate Feeds(e: Expr, env: Env, source: string) {
    exists leaf :: FlowsOut(e, leaf) && Contributes(leaf, env, source)
  }

  ghost function Parts(e: Expr): set<Expr>
    decreases e
  {
    {e} + set child, part | child in Children(e) && part in Parts(child) :: part
  }

  ghost function PartsOfAll(es: seq<Expr>): set<Expr> {
    set e, part | e in es && part in Parts(e) :: part
  }

  lemma {:induction false} LeavesAreParts(e: Expr, leaf: Expr)
    requires FlowsOut(e, leaf)
    ensures leaf in Parts(e)
    decreases e
  {
    if leaf != e {
      var part :| PassesOn(e, part) && FlowsOut(part, leaf);
      LeavesAreParts(part, leaf);
      assert part in Children(e);
    }
  }

  /** All the sources that reach the expression's value. */
  ghost function Sources(e: Expr, env: Env): (all: set<string>)
    ensures forall source :: source in all <==> Feeds(e, env, source)
  {
    var held := set name, source | name in env && source in env[name] :: source;
    var named := set part | part in Parts(e) :: CaseFold(Dotted(part));
    assert forall source :: Feeds(e, env, source) ==> source in held + named by {
      forall source | Feeds(e, env, source) ensures source in held + named {
        var leaf :| FlowsOut(e, leaf) && Contributes(leaf, env, source);
        LeavesAreParts(e, leaf);
      }
    }
    set source | source in held + named && Feeds(e, env, source)
  }

  /** All the sources that reach one of the values. */
  ghost function SourcesOfAny(es: seq<Expr>, env: Env): set<string> {
    set e, source | e in es && source in Sources(e, env) :: source
  }

  /******* Targets *******/

  /** Assigning to the target binds the name. */
  ghost predicate Binds(target: Expr, name: string)
    decreases target
  {
    || target == Name(name)
    || (target.Tree? && target.kind.TupleOrList? && exists part :: part in target.children && Binds(part, name))
  }

  ghost predicate BindsAny(targets: seq<Expr>, name: string) {
    exists target :: target in targets && Binds(target, name)
  }

  lemma {:induction false} BoundIsPart(target: Expr, name: string)
    requires Binds(target, name)
    ensures Name(name) in Parts(target)
  {
    if target != Name(name) {
      var part :| part in target.children && Binds(part, name);
      BoundIsPart(part, name);
    }
  }

  /** Every name a target binds holds these sources, and every other name what it held. */
  ghost function Assigned(env: Env, targets: seq<Expr>, sources: set<string>): (after: Env)
    ensures forall name :: name in after <==> name in env || BindsAny(targets, name)
    ensures forall name :: name in after ==> after[name] == if BindsAny(targets, name) then sources else env[name]
  {
    var bound := set part | part in PartsOfAll(targets) && part.Name? && BindsAny(targets, part.id) :: part.id;
    assert forall name :: BindsAny(targets, name) ==> name in bound by {
      forall name | BindsAny(targets, name) ensures name in bound {
        var target :| target in targets && Binds(target, name);
        BoundIsPart(target, name);
        assert Name(name) in PartsOfAll(targets);
      }
    }
    map name | name in env.Keys + bound :: if BindsAny(targets, name) then sources else env[name]
  }

  /******* Calls *******/

  /** The k-th keyword argument is the last one for the parameter. */
  predicate LastKeyword(keywords: seq<Expr>, parameter: string, k: nat) {
    && k < |keywords| && Names(keywords[k], parameter)
    && forall j :: k < j < |keywords| ==> !Names(keywords[j], parameter)
  }

  predicate Names(keyword: Expr, parameter: string) {
    keyword.KeywordArgument? && keyword.arg == Some(parameter)
  }

  /** The k-th argument is the last one at a position of the parameter. */
  predicate LastPosition(parameters: seq<string>, args: seq<Expr>, parameter: string, k: nat) {
    && k < |args| && k < |parameters| && parameters[k] == parameter
    && forall j :: k < j < |args| && j < |parameters| ==> parameters[j] != parameter
  }

  /** The parameter receives the value of this argument: its keyword's if there is one, else its position's. */
  ghost predicate Receives(parameters: seq<string>, args: seq<Expr>, keywords: seq<Expr>, parameter: string, argument: Expr) {
    && parameter in parameters
    && if exists k: nat :: LastKeyword(keywords, parameter, k) then
         exists k: nat :: LastKeyword(keywords, parameter, k) && argument == keywords[k].keywordValue
       else
         exists k: nat :: LastPosition(parameters, args, parameter, k) && argument == args[k]
  }

  /** A called function starts with just the parameters that receive something. */
  ghost predicate Starts(parameters: seq<string>, args: seq<Expr>, keywords: seq<Expr>, env: Env, start: Env) {
    && (forall name :: name in start <==> exists argument :: Receives(parameters, args, keywords, name, argument))
    && (forall name, argument :: Receives(parameters, args, keywords, name, argument) ==>
          name in start && start[name] == Sources(argument, env))
  }
}

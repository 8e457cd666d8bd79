/**
 * The `isAuthorized` hook: bypass for server calls and anonymous requests,
 * deny with NotAuthorized, or allow and, for the filterable methods, overlay
 * the auth query derived from the rules onto `params.query`.
 */
module AccessGate {
  import opened Wrappers
  import opened Pipeline
  import opened Errors

  /** The rule engine the hook delegates to, left uninterpreted: whether the
      ability built from `rules` permits `method` on `path`, and the query the
      engine derives for that pair with a per-rule condition transform
      (`None` when it returns a falsy value). */
  datatype RuleEngine = RuleEngine(
    can: (Option<seq<Rule>>, string, string) -> bool,
    rulesToQuery: (Option<seq<Rule>>, string, string, Rule -> Value) -> Option<Query>)

  /** The methods whose query is scoped by the auth query. */
  const FilterableMethods: seq<string> := ["find", "patch", "update", "remove", "get"]

  const NorKey: string := "$nor"

  function IsFilterable(methodName: string): (r: bool)
    ensures r <==> methodName == "find" || methodName == "get" || methodName == "patch"
                   || methodName == "update" || methodName == "remove"
  {
    methodName in FilterableMethods
  }

  /** The condition transform handed to the engine: a prohibition's
      conditions are negated as a group, a grant's are kept as they are. */
  function NorTransform(rule: Rule): (c: Value)
    ensures c == rule.conditions <==> !rule.inverted
    ensures rule.inverted ==>
      c.Obj? && c.members.Keys == {NorKey} && c.members[NorKey] == Arr([rule.conditions])
  {
    if rule.inverted then
      var wrapped := Arr([rule.conditions]);
      var members := map[NorKey := wrapped];
      assert rule.conditions in wrapped.items;
      assert members[NorKey] == wrapped;
      assert wrapped in members.Values;
      Obj(members)
    else
      rule.conditions
  }

  /** The keys of a possibly absent query. */
  function KeysOf(query: Option<Query>): set<string>
  {
    if query.Some? then query.value.Keys else {}
  }

  /** `r` is `top` laid over `base`: every key of either, `top` winning on a
      collision. */
  ghost predicate IsOverlay(base: Option<Query>, top: Query, r: Query)
  {
    && r.Keys == KeysOf(base) + top.Keys
    && (forall k :: k in top ==> r[k] == top[k])
    && (forall k :: k in KeysOf(base) && k !in top ==> r[k] == base.value[k])
  }

  /** `Object.assign({}, query, authQuery)`: an absent query contributes no
      keys. */
  function Overlay(query: Option<Query>, authQuery: Query): (r: Query)
    ensures IsOverlay(query, authQuery, r)
  {
    query.GetOr(map[]) + authQuery
  }

  /** An overlay is determined by its two operands. */
  lemma OverlayIsUnique(base: Option<Query>, top: Query, r1: Query, r2: Query)
    requires IsOverlay(base, top, r1) && IsOverlay(base, top, r2)
    ensures r1 == r2
  {
  }

  /** The query after an allowed request: overlaid with the auth query only
      for a filterable method and a truthy auth query, unchanged otherwise. */
  function FilteredQuery(methodName: string, query: Option<Query>, authQuery: Option<Query>): (r: Option<Query>)
    ensures !IsFilterable(methodName) || authQuery.None? ==> r == query
    ensures IsFilterable(methodName) && authQuery.Some? ==>
      r.Some? && IsOverlay(query, authQuery.value, r.value)
  {
    if IsFilterable(methodName) && authQuery.Some? then Some(Overlay(query, authQuery.value)) else query
  }

  /** The hook short-circuits for a server-originated call or a request
      without a user. */
  predicate Bypassed(user: Option<User>, fromServer: bool)
  {
    user.None? || fromServer
  }

  /** `isAuthorized(context)`: `fromServer` is `isProvider('server')` of the
      context. On success it returns the context it was given. */
  method IsAuthorized(context: Context, fromServer: bool, engine: RuleEngine)
    returns (r: Result<Context, HookError>)
    modifies context.params
    ensures context.params.user == old(context.params.user)
    ensures context.params.rules == old(context.params.rules)
    ensures r.Ok? ==> r.value == context
    ensures Bypassed(old(context.params.user), fromServer) ==>
      r.Ok? && context.params.query == old(context.params.query)
    ensures !Bypassed(old(context.params.user), fromServer)
            && !engine.can(old(context.params.rules), context.methodName, context.path) ==>
      r == Err(NotAuthorized(DefaultMessage, None))
      && context.params.query == old(context.params.query)
    ensures !Bypassed(old(context.params.user), fromServer)
            && engine.can(old(context.params.rules), context.methodName, context.path) ==>
      r.Ok?
      && context.params.query
         == FilteredQuery(context.methodName, old(context.params.query),
                          engine.rulesToQuery(old(context.params.rules), context.methodName,
                                              context.path, NorTransform))
  {
    var methodName, path, params := context.methodName, context.path, context.params;
    var user := params.user;

    if user.None? || fromServer {
      return Ok(context);
    }

    if engine.can(params.rules, methodName, path) {
      if IsFilterable(methodName) {
        var authQuery := engine.rulesToQuery(params.rules, methodName, path, NorTransform);
        if authQuery.Some? {
          params.query := Some(Overlay(params.query, authQuery.value));
        }
      }
    } else {
      return Err(NewNotAuthorized(None, None));
    }

    return Ok(context);
  }

  /** On a key collision the auth query's value replaces the caller's. */
  lemma AuthValueWinsOnCollision()
    ensures Overlay(Some(map["status" := Str("open")]), map["status" := Str("closed")])
            == map["status" := Str("closed")]
  {
  }
}

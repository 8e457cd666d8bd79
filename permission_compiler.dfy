/**
 * The hook returned by `setPermission(permissionConfig)`: it looks up the
 * user's role in the shared permission table, compiles each permission of
 * the role into one rule bound to the service path, and attaches the rules
 * to `params.rules`.
 */
module PermissionCompiler {
  import opened Wrappers
  import opened Pipeline
  import opened Errors

  /** What an `accessQuery` is called with: `{ user, context }`, the context
      reduced to its method name and path. */
  datatype QueryArgs = QueryArgs(user: User, methodName: string, path: string)

  /** An `accessQuery`: resolves to a condition or rejects with a reason. */
  type AccessQuery = QueryArgs -> Result<Value, Value>

  /** The default `() => true`. */
  const AlwaysTrue: AccessQuery := args => Ok(Bool(true))

  /** `accessQuery || (() => true)`. */
  function Effective(accessQuery: Option<AccessQuery>): (q: AccessQuery)
    ensures accessQuery.Some? ==> q == accessQuery.value
    ensures accessQuery.None? ==> forall args :: q(args) == Ok(Bool(true))
  {
    accessQuery.GetOr(AlwaysTrue)
  }

  /** A permission of the shared configuration. The hook writes the default
      `accessQuery` back into it. */
  class Permission {
    const actions: seq<string>
    const fields: Option<seq<string>>
    const inverted: bool
    var accessQuery: Option<AccessQuery>

    constructor (actions: seq<string>, fields: Option<seq<string>>, inverted: bool,
                 accessQuery: Option<AccessQuery>)
      ensures this.actions == actions && this.fields == fields
      ensures this.inverted == inverted && this.accessQuery == accessQuery
    {
      this.actions := actions;
      this.fields := fields;
      this.inverted := inverted;
      this.accessQuery := accessQuery;
    }

    /** What compiling this permission depends on. */
    function AsEntry(): Entry
      reads this
    {
      Entry(actions, fields, inverted, Effective(accessQuery))
    }
  }

  /** A permission as seen by compilation, with its default applied. */
  datatype Entry = Entry(
    actions: seq<string>,
    fields: Option<seq<string>>,
    inverted: bool,
    accessQuery: AccessQuery)

  function Entries(permissions: seq<Permission>): seq<Entry>
    reads permissions
  {
    seq(|permissions|, i requires 0 <= i < |permissions| reads permissions => permissions[i].AsEntry())
  }

  /** The rule one permission compiles to, once its condition has resolved. */
  function RuleOf(entry: Entry, servicePath: string, args: QueryArgs): Result<Rule, Value>
  {
    match entry.accessQuery(args)
    case Ok(conditions) => Ok(Rule(entry.inverted, entry.actions, servicePath, entry.fields, conditions))
    case Err(reason) => Err(reason)
  }

  /** The rules a role's permission list compiles to, in declaration order,
      or the first rejection. */
  function Compile(entries: seq<Entry>, servicePath: string, args: QueryArgs): Result<seq<Rule>, Value>
  {
    if entries == [] then Ok([])
    else
      match RuleOf(entries[0], servicePath, args)
      case Err(reason) => Err(reason)
      case Ok(rule) =>
        match Compile(entries[1..], servicePath, args)
        case Err(reason) => Err(reason)
        case Ok(rules) => Ok([rule] + rules)
  }

  /** Compiling one more permission extends the rules by its rule, unless a
      rejection comes first. */
  lemma {:induction false} CompileSnoc(entries: seq<Entry>, entry: Entry, servicePath: string, args: QueryArgs)
    ensures Compile(entries, servicePath, args).Err? ==>
      Compile(entries + [entry], servicePath, args) == Compile(entries, servicePath, args)
    ensures Compile(entries, servicePath, args).Ok? && RuleOf(entry, servicePath, args).Err? ==>
      Compile(entries + [entry], servicePath, args) == Err(RuleOf(entry, servicePath, args).error)
    ensures Compile(entries, servicePath, args).Ok? && RuleOf(entry, servicePath, args).Ok? ==>
      Compile(entries + [entry], servicePath, args)
      == Ok(Compile(entries, servicePath, args).value + [RuleOf(entry, servicePath, args).value])
  {
    if entries == [] {
      assert entries + [entry] == [entry];
      assert [entry][1..] == [];
      if RuleOf(entry, servicePath, args).Ok? {
        var rule := RuleOf(entry, servicePath, args).value;
        assert [rule] + [] == [] + [rule];
      }
    } else {
      assert (entries + [entry])[0] == entries[0];
      assert (entries + [entry])[1..] == entries[1..] + [entry];
      CompileSnoc(entries[1..], entry, servicePath, args);
      if Compile(entries, servicePath, args).Ok? && RuleOf(entry, servicePath, args).Ok? {
        var first := RuleOf(entries[0], servicePath, args).value;
        var rest := Compile(entries[1..], servicePath, args).value;
        assert [first] + (rest + [RuleOf(entry, servicePath, args).value])
               == ([first] + rest) + [RuleOf(entry, servicePath, args).value];
      }
    }
  }

  /** Compilation succeeds exactly when every condition resolves. */
  lemma {:induction false} CompileSucceedsIff(entries: seq<Entry>, servicePath: string, args: QueryArgs)
    ensures Compile(entries, servicePath, args).Ok?
            <==> forall i :: 0 <= i < |entries| ==> entries[i].accessQuery(args).Ok?
  {
    if entries != [] {
      CompileSucceedsIff(entries[1..], servicePath, args);
      assert forall i :: 1 <= i < |entries| ==> entries[i] == entries[1..][i - 1];
    }
  }

  /** A successful compilation yields exactly one rule per permission, in
      order: a prohibition for an inverted permission and a grant otherwise,
      on the service path, with the permission's actions and fields and its
      resolved condition. */
  lemma {:induction false} CompiledRules(entries: seq<Entry>, servicePath: string, args: QueryArgs)
    requires Compile(entries, servicePath, args).Ok?
    ensures |Compile(entries, servicePath, args).value| == |entries|
    ensures forall i :: 0 <= i < |entries| ==>
      entries[i].accessQuery(args).Ok? &&
      Compile(entries, servicePath, args).value[i]
      == Rule(entries[i].inverted, entries[i].actions, servicePath, entries[i].fields,
              entries[i].accessQuery(args).value)
  {
    if entries != [] {
      CompiledRules(entries[1..], servicePath, args);
      assert forall i :: 1 <= i < |entries| ==> entries[i] == entries[1..][i - 1];
    }
  }

  /** The permission at index `i` is the first whose condition rejects,
      and it rejects with `reason`. */
  ghost predicate FirstRejection(entries: seq<Entry>, args: QueryArgs, i: int, reason: Value)
  {
    && 0 <= i < |entries|
    && entries[i].accessQuery(args) == Err(reason)
    && forall j :: 0 <= j < i ==> entries[j].accessQuery(args).Ok?
  }

  /** A failed compilation reports the rejection of the first permission, in
      declaration order, whose condition rejects. */
  lemma {:induction false} CompileFailsAtFirstRejection(entries: seq<Entry>, servicePath: string,
                                                         args: QueryArgs, reason: Value)
    ensures Compile(entries, servicePath, args) == Err(reason)
            <==> exists i :: FirstRejection(entries, args, i, reason)
  {
    if entries == [] {
      assert forall i :: !FirstRejection(entries, args, i, reason);
    } else if entries[0].accessQuery(args).Err? {
      assert entries[0].accessQuery(args) == Err(reason) ==> FirstRejection(entries, args, 0, reason);
      assert forall i :: FirstRejection(entries, args, i, reason) ==> i == 0;
    } else {
      var tail := entries[1..];
      CompileFailsAtFirstRejection(tail, servicePath, args, reason);
      forall i | FirstRejection(entries, args, i, reason)
        ensures FirstRejection(tail, args, i - 1, reason)
      {
        assert i != 0;
        forall j | 0 <= j < i - 1
          ensures tail[j].accessQuery(args).Ok?
        {
          assert tail[j] == entries[j + 1];
        }
      }
      forall i | FirstRejection(tail, args, i, reason)
        ensures FirstRejection(entries, args, i + 1, reason)
      {
        forall j | 0 <= j < i + 1
          ensures entries[j].accessQuery(args).Ok?
        {
          if j > 0 {
            assert entries[j] == tail[j - 1];
          }
        }
      }
    }
  }

  /** Stated on the configuration itself: rule `i` is permission `i`'s, on
      the service path, and its condition is what the permission's
      `accessQuery` resolved to, or `true` when it has none. */
  lemma CompiledRuleOfPermission(permissions: seq<Permission>, servicePath: string, args: QueryArgs, i: int)
    requires 0 <= i < |permissions|
    requires Compile(Entries(permissions), servicePath, args).Ok?
    ensures |Compile(Entries(permissions), servicePath, args).value| == |permissions|
    ensures permissions[i].accessQuery.Some? ==> permissions[i].accessQuery.value(args).Ok?
    ensures var rule := Compile(Entries(permissions), servicePath, args).value[i];
      && rule.inverted == permissions[i].inverted
      && rule.actions == permissions[i].actions
      && rule.subject == servicePath
      && rule.fields == permissions[i].fields
      && rule.conditions
         == if permissions[i].accessQuery.None? then Bool(true)
            else permissions[i].accessQuery.value(args).value
  {
    CompiledRules(Entries(permissions), servicePath, args);
    assert Entries(permissions)[i] == permissions[i].AsEntry();
  }

  /** The rule builder the hook registers rules with (`can` and `cannot`). */
  class RuleBuilder {
    var rules: seq<Rule>

    constructor ()
      ensures rules == []
    {
      rules := [];
    }

    method Can(actions: seq<string>, subject: string, fields: Option<seq<string>>, conditions: Value)
      modifies this
      ensures rules == old(rules) + [Rule(false, actions, subject, fields, conditions)]
    {
      rules := rules + [Rule(false, actions, subject, fields, conditions)];
    }

    method Cannot(actions: seq<string>, subject: string, fields: Option<seq<string>>, conditions: Value)
      modifies this
      ensures rules == old(rules) + [Rule(true, actions, subject, fields, conditions)]
    {
      rules := rules + [Rule(true, actions, subject, fields, conditions)];
    }
  }

  /** `Promise.all(permissions.map(...))`: for each permission in declaration
      order, write the default `accessQuery` back into it, resolve its
      condition and register the rule with `builder`. The result is the
      compiled rules, or the first rejection. */
  method CompileAll(permissions: seq<Permission>, builder: RuleBuilder, servicePath: string, args: QueryArgs)
    returns (compiled: Result<seq<Rule>, Value>)
    requires builder.rules == []
    modifies permissions, builder
    ensures compiled == Compile(old(Entries(permissions)), servicePath, args)
    ensures compiled.Ok? ==> builder.rules == compiled.value
    ensures forall p <- permissions :: p.accessQuery == Some(Effective(old(p.accessQuery)))
    ensures Entries(permissions) == old(Entries(permissions))
  {
    ghost var entries := old(Entries(permissions));
    var rejection: Option<Value> := None;
    var i := 0;
    while i < |permissions|
      invariant 0 <= i <= |permissions|
      invariant forall j :: 0 <= j < |permissions| ==> permissions[j].AsEntry() == entries[j]
      invariant forall j :: 0 <= j < i ==> permissions[j].accessQuery == Some(entries[j].accessQuery)
      invariant rejection.None? ==> Compile(entries[..i], servicePath, args) == Ok(builder.rules)
      invariant rejection.Some? ==> Compile(entries[..i], servicePath, args) == Err(rejection.value)
    {
      var permission := permissions[i];
      permission.accessQuery := Some(Effective(permission.accessQuery));
      CompileSnoc(entries[..i], entries[i], servicePath, args);
      assert entries[..i + 1] == entries[..i] + [entries[i]];
      var resolved := permission.accessQuery.value(args);
      if resolved.Ok? {
        if permission.inverted {
          builder.Cannot(permission.actions, servicePath, permission.fields, resolved.value);
        } else {
          builder.Can(permission.actions, servicePath, permission.fields, resolved.value);
        }
      } else if rejection.None? {
        rejection := Some(resolved.error);
      }
      i := i + 1;
    }
    assert entries[..i] == entries;
    assert Entries(permissions) == entries;
    compiled := if rejection.Some? then Err(rejection.value) else Ok(builder.rules);
  }

  /** The hook `setPermission(permissionConfig)` returns, closed over the
      shared permission table. */
  class PermissionHook {
    const permissionConfig: map<string, seq<Permission>>

    constructor (permissionConfig: map<string, seq<Permission>>)
      ensures this.permissionConfig == permissionConfig
    {
      this.permissionConfig := permissionConfig;
    }

    /** The permissions a run on `context` may touch: those of the user's role. */
    function Targets(context: Context): seq<Permission>
      reads context.params
    {
      match context.params.user
      case Some(user) => if user.role in permissionConfig then permissionConfig[user.role] else []
      case None => []
    }

    /** One run of the hook; `fromServer` is `isProvider('server')` of the
        context. On success it returns the context it was given. */
    method Run(context: Context, fromServer: bool) returns (r: Result<Context, HookError>)
      modifies context.params, Targets(context)
      ensures context.params.user == old(context.params.user)
      ensures context.params.query == old(context.params.query)
      ensures r.Ok? ==> r.value == context
      ensures fromServer || old(context.params.user).None? ==>
        r == Ok(context) && context.params.rules == old(context.params.rules)
        && forall p <- old(Targets(context)) :: p.accessQuery == old(p.accessQuery)
      ensures !fromServer && old(context.params.user).Some?
              && old(context.params.user).value.role !in permissionConfig ==>
        r == Err(PermissionsUndefined(old(context.params.user).value.role))
        && context.params.rules == old(context.params.rules)
      ensures !fromServer && old(context.params.user).Some?
              && old(context.params.user).value.role in permissionConfig ==>
        var user := old(context.params.user).value;
        var permissions := permissionConfig[user.role];
        var compiled := Compile(old(Entries(permissions)), context.path,
                                QueryArgs(user, context.methodName, context.path));
        && (forall p <- permissions :: p.accessQuery == Some(Effective(old(p.accessQuery))))
        && Entries(permissions) == old(Entries(permissions))
        && (compiled.Ok? ==> r == Ok(context) && context.params.rules == Some(compiled.value))
        && (compiled.Err? ==>
              r == Err(ConditionRejected(compiled.error))
              && context.params.rules == old(context.params.rules))
    {
      var builder := new RuleBuilder();
      var user := context.params.user;
      var servicePath := context.path;

      if fromServer || user.None? {
        return Ok(context);
      }

      var role := user.value.role;
      if role !in permissionConfig {
        return Err(PermissionsUndefined(role));
      }
      var permissions := permissionConfig[role];
      var args := QueryArgs(user.value, context.methodName, servicePath);

      var compiled := CompileAll(permissions, builder, servicePath, args);
      if compiled.Err? {
        return Err(ConditionRejected(compiled.error));
      }
      context.params.rules := Some(compiled.value);
      return Ok(context);
    }
  }
}

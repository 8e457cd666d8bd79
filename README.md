# feathers-authorize in Dafny

A model of the two authorization hooks in `index.js`, which sit in a Feathers-style
request pipeline.

- **`setPermission(permissionConfig)`** returns a hook that compiles the authenticated
  user's role into rules. It looks the role up in the shared permission table. For each
  permission, in declaration order, it writes the default `accessQuery` (`() => true`)
  back into the permission and calls it. As each condition resolves, it registers one
  rule bound to the service path: `cannot` when the permission is `inverted`, `can`
  otherwise. It then
  attaches the rules to `context.params.rules`. Server calls and requests without a user
  pass through untouched.
- **`isAuthorized`** is the gate. Server calls and requests without a user pass through.
  If the rule engine does not permit the method on the path, the hook fails with
  `NotAuthorized` ("You are not authorized to make this request") and the query is left
  alone. Otherwise, for `find`, `get`, `patch`, `update` and `remove` only, it overlays the
  auth query derived by the engine onto `params.query`, and the auth keys win on a
  collision. The per-rule transform it hands to the engine wraps a prohibition's
  conditions as `{ $nor: [conditions] }`.

Files:
- `wrappers.dfy`: `Option` and `Result`.
- `pipeline.dfy`: JSON values, queries, users and rules, plus the `Params` and `Context`
  classes whose fields the hooks update in place.
- `errors.dfy`: the hook errors and `NotAuthorized`'s default message.
- `access_gate.dfy`: `isAuthorized`.
- `permission_compiler.dfy`: the `setPermission` hook, the compilation loop and its
  specification function `Compile`.

The rule engine (CASL) is not modelled. Its two entry points, `ability.can` and
`rulesToQuery`, are the uninterpreted function fields of `AccessGate.RuleEngine`. The
ability is built with `subjectName: () => path`, so both are applied to the request's
rules, method name and path. `isProvider('server')` is the boolean parameter `fromServer`
of each hook. An `accessQuery` is a total function from `{ user, context }` to a resolved
condition or a rejection reason. A falsy user or auth query is `None`. Every auth query
the engine returns as a truthy object is `Some`, including `{}`.

Two edge cases of `index.js` that the model keeps:
- A role missing from the permission table makes `permissions` undefined. `.map` then
  throws, and the hook fails with `PermissionsUndefined` without touching `params.rules`
  (index.js:54-57).
- The code merges any truthy auth query (index.js:29). An empty auth object `{}` is
  truthy, so it is merged, and an absent `params.query` becomes `{}`.

## Model

| member | source | states |
|---|---|---|
| Errors.NewNotAuthorized | index.js:8-12 | a NotAuthorized error; its message is "You are not authorized to make this request" when none is given and the given one otherwise; the data is passed through |
| AccessGate.IsFilterable | index.js:27 | true exactly for find, get, patch, update and remove |
| AccessGate.NorTransform | index.js:28 | the result equals the rule's conditions if and only if the rule is not inverted; for an inverted rule it is the object whose only key is `$nor`, holding the one-element array of the conditions |
| AccessGate.Overlay | index.js:30-34 | `Object.assign({}, query, authQuery)` is an overlay: its keys are those of both, every auth key carries the auth value, and every other key of the old query keeps its old value; an absent query contributes no keys |
| AccessGate.OverlayIsUnique | index.js:30-34 | the overlay property determines the merged query uniquely |
| AccessGate.FilteredQuery | index.js:27-35 | the query after an allowed request is unchanged for a non-filterable method or a falsy auth query, and is otherwise an overlay of the auth query onto the old query |
| AccessGate.AuthValueWinsOnCollision | index.js:30-34 | with `{status: 'open'}` as the query and `{status: 'closed'}` as the auth query, the merged status is 'closed' |
| AccessGate.IsAuthorized | index.js:14-42 | on a server call or without a user: returns the context with the query untouched; if the engine denies the method on the path: fails with NotAuthorized and the default message, query untouched; if allowed: returns the context, and the query is FilteredQuery of the method, the old query and the engine's auth query under NorTransform; the user and rules are never changed |
| PermissionCompiler.Effective | index.js:58 | `accessQuery \|\| (() => true)`: a present accessQuery is kept, and an absent one resolves to `true` for every argument |
| PermissionCompiler.CompileSnoc | index.js:56-67 | compiling one more permission appends its rule, or reports its rejection, unless an earlier rejection already decided the outcome |
| PermissionCompiler.CompileSucceedsIff | index.js:56-67 | compilation succeeds if and only if every permission's condition resolves |
| PermissionCompiler.CompiledRules | index.js:57-65 | a successful compilation yields exactly one rule per permission, in order; rule i has permission i's inverted flag (cannot/can), actions and fields, the service path as subject, and permission i's resolved condition |
| PermissionCompiler.CompileFailsAtFirstRejection | index.js:56-67 | compilation fails with a reason if and only if that reason is the rejection of the first permission, in declaration order, whose condition rejects |
| PermissionCompiler.CompiledRuleOfPermission | index.js:58-64 | for the permissions of the table themselves: rule i's subject is the service path, its actions, fields and inversion are permission i's, and its condition is what permission i's accessQuery resolved to, or `true` when it has none |
| PermissionCompiler.RuleBuilder.Can | index.js:59-65 | `can` appends one grant rule with the given actions, subject, fields and conditions |
| PermissionCompiler.RuleBuilder.Cannot | index.js:59-65 | `cannot` appends one prohibition rule with the given actions, subject, fields and conditions |
| PermissionCompiler.CompileAll | index.js:56-67 | the loop over the role's permissions returns Compile of their entries as they were on entry; on success the builder holds exactly those rules; afterwards every permission has an accessQuery, its old one or the default, so the entries that compilation reads are unchanged |
| PermissionCompiler.PermissionHook.Run | index.js:44-72 | on a server call or without a user: returns the context, and neither the rules nor the permission table change; for a role missing from the table: fails with PermissionsUndefined and the rules are kept; otherwise every permission of the role gets its default accessQuery written back, which leaves what a later run compiles unchanged; on success the context is returned with rules set to the compiled rules, and on a rejection the hook fails with it and the rules are kept; the user and query never change |
| PermissionCompiler.PermissionHook.constructor | index.js:44-45 | `setPermission(permissionConfig)` closes the hook over the given table |

## Left out

- CASL itself is not part of this model: `Ability`, `AbilityBuilder.extract`, and how `ability.can` and `rulesToQuery` decide. No precedence policy, for example last rule wins, is stated. `RuleBuilder` models only the append that `can` and `cannot` perform.
- `isProvider('server')` inspects the transport. It is taken as the boolean `fromServer`.
- The `Forbidden` base class is not modelled, nor its HTTP status or error serialisation. `NotAuthorized` is an error value with a message and optional data.
- Asynchrony is not modelled. In the code every `map` callback runs synchronously up to its `await`: it writes the default back and calls `accessQuery`. Rules are then registered as the promises resolve, so registration can follow resolution order rather than declaration order. If several conditions reject, `Promise.all` reports the first to reject in time. The model registers rules in declaration order and reports the first rejection in declaration order.
- The context handed to an `accessQuery` is reduced to the user, the method name and the path. A synchronous throw from `accessQuery` is modelled like a rejection. An `accessQuery` that is truthy but not a function is not modelled.
- JavaScript truthiness is narrowed to presence. A user, or an auth query, is falsy exactly when absent. `inverted` is a boolean. A truthy auth query that is not an object is not modelled.
- Conditions and queries are JSON values whose contents the hooks do not inspect. A role is a string; lookups of inherited object properties such as `toString` are not modelled.
- `context.params.rules` in the code is the builder's own array. The model stores a copy of its contents, which no later code can tell apart.
- The hooks return their context on success. The model returns `Ok(context)` and fails with an error value instead of throwing.

/**
 * The request pipeline's data as the two hooks see it: the JSON values that
 * queries and conditions are made of, the authenticated user, the compiled
 * rules, and the hook context whose `params` the hooks update in place.
 */
module Pipeline {
  import opened Wrappers

  /** A JSON value. Conditions and queries are opaque to the hooks except for
      the `{ $nor: [...] }` wrapper built by the gate. */
  datatype Value =
    | Null
    | Bool(b: bool)
    | Num(n: int)
    | Str(s: string)
    | Arr(items: seq<Value>)
    | Obj(members: map<string, Value>)

  /** A query object (`params.query`, an auth query): keys to values. */
  type Query = map<string, Value>

  /** The authenticated user: the role that keys the permission table, and
      the rest of the user record. */
  datatype User = User(role: string, attributes: Query)

  /** One rule as registered with the rule builder: a prohibition when
      `inverted`, a grant otherwise. */
  datatype Rule = Rule(
    inverted: bool,
    actions: seq<string>,
    subject: string,
    fields: Option<seq<string>>,
    conditions: Value)

  /** `context.params`: the parts of it the hooks read or write. A missing
      user, query or rule list is `None` (undefined). */
  class Params {
    var user: Option<User>
    var query: Option<Query>
    var rules: Option<seq<Rule>>

    constructor (user: Option<User>, query: Option<Query>, rules: Option<seq<Rule>>)
      ensures this.user == user && this.query == query && this.rules == rules
    {
      this.user := user;
      this.query := query;
      this.rules := rules;
    }
  }

  /** The hook context: the name of the service method being called, the service path,
      and the mutable `params`. */
  class Context {
    const methodName: string
    const path: string
    const params: Params

    constructor (methodName: string, path: string, params: Params)
      ensures this.methodName == methodName && this.path == path && this.params == params
    {
      this.methodName := methodName;
      this.path := path;
      this.params := params;
    }
  }
}

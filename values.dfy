/// The data the screens exchange with the hosted database and authentication
/// service: JSON field values, database nodes, snapshot entries, the signed-in
/// user, and the two database trees (`listings/` and `userinfo/`) as state.
module Values {
  import opened Wrappers

  /** A JSON value stored under a field of a database node. Prices, durations
      and names typed into forms are strings; ratings are a list of numbers. */
  datatype Value = Str(s: string) | Num(n: real) | Nums(ns: seq<real>) | Null

  /** A database node with named children (a listing or a profile). A field
      name that is not a key of the map reads as `undefined`. */
  type Record = map<string, Value>

  /** JavaScript truthiness (`!v` is false): a non-empty string, a non-zero
      number or any array. */
  predicate Truthy(v: Value) {
    match v
    case Str(s) => s != ""
    case Num(n) => n != 0.0
    case Nums(_) => true
    case Null => false
  }

  /** `node.field === v`: the field is present and holds `v` (a missing
      field is `undefined`, which is strictly equal to nothing stored here). */
  predicate FieldIs(node: Record, field: string, v: Value) {
    field in node && node[field] == v
  }

  /** The current user's e-mail as the database holds it: `null` when there is none. */
  function EmailValue(email: Option<string>): (v: Value)
    ensures v.Null? <==> email.None?
  {
    match email
    case Some(e) => Str(e)
    case None => Null
  }

  /** One child of a snapshot: its key and its node. A snapshot is the list of
      these in the order `for (let id in data)` visits them. */
  datatype Entry = Entry(key: string, node: Record)

  /** The signed-in user as the authentication service reports it. */
  datatype AuthUser = AuthUser(uid: string, displayName: Option<string>, email: Option<string>,
                               creationTime: Option<string>)

  /** `auth.currentUser ? auth.currentUser.email : null`. */
  function CurrentEmail(user: Option<AuthUser>): (email: Option<string>)
    ensures email.Some? ==> user.Some? && user.value.email == email
  {
    if user.Some? then user.value.email else None
  }

  /** An object literal about to be written: a field whose value is
      `undefined` maps to `None`. */
  type Literal = map<string, Option<Value>>

  /** `node.field` as a value to copy into a literal: `None` when missing. */
  function Field(node: Record, field: string): (v: Option<Value>)
    ensures v.Some? <==> field in node
    ensures v.Some? ==> v.value == node[field]
  {
    if field in node then Some(node[field]) else None
  }

  /** The literal `{ ...node }`: every field of the node, none undefined. */
  function Spread(node: Record): (lit: Literal)
    ensures lit.Keys == node.Keys
    ensures forall f :: f in node ==> lit[f] == Some(node[f])
  {
    map f | f in node :: Some(node[f])
  }

  /** Some field of the literal is `undefined`. */
  predicate HasUndefined(lit: Literal) {
    exists f :: f in lit && lit[f].None?
  }

  /** The node `set(ref, lit)` stores: writing a literal with an `undefined`
      field fails (nothing); fields holding `null` are not stored. */
  function Stored(lit: Literal): (r: Option<Record>)
    ensures r.None? <==> HasUndefined(lit)
    ensures r.Some? ==> forall f :: f in r.value <==> f in lit && lit[f] != Some(Null)
    ensures r.Some? ==> forall f :: f in r.value ==> Some(r.value[f]) == lit[f]
  {
    if HasUndefined(lit) then None
    else Some(map f | f in lit && lit[f] != Some(Null) :: lit[f].value)
  }

  /** The node `update(ref, changes)` leaves: the changed fields are set,
      those set to `null` are deleted, and every other field is kept. */
  function Merge(node: Record, changes: Record): (r: Record)
    ensures forall f :: f in changes && changes[f] != Null ==> f in r && r[f] == changes[f]
    ensures forall f :: f in changes && changes[f] == Null ==> f !in r
    ensures forall f :: f !in changes ==> (f in r <==> f in node) && (f in node ==> r[f] == node[f])
  {
    map f | f in node.Keys + changes.Keys && !(f in changes && changes[f] == Null) ::
      if f in changes then changes[f] else node[f]
  }

  /** The realtime database: the `listings/` and `userinfo/` trees, each a map
      from child key to node. */
  class Database {
    var listings: map<string, Record>
    var userinfo: map<string, Record>

    constructor (listings: map<string, Record>, userinfo: map<string, Record>)
      ensures this.listings == listings && this.userinfo == userinfo
    {
      this.listings := listings;
      this.userinfo := userinfo;
    }
  }

  /** The authentication service's session: who is signed in. */
  class Auth {
    var currentUser: Option<AuthUser>

    constructor (currentUser: Option<AuthUser>)
      ensures this.currentUser == currentUser
    {
      this.currentUser := currentUser;
    }
  }
}

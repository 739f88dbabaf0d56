/**
 * JavaScript values as the score handler sees them: what `JSON.parse` produces,
 * plus `undefined`, the value of a property that is not there.  The module gives
 * JavaScript's truthiness, the `||` and `??` operators, and property access.
 */
module JsValue {

  /** A parsed JSON value or `undefined`; numbers are exact reals, not doubles. */
  datatype Json =
    | Undefined
    | Null
    | Bool(b: bool)
    | Num(n: real)
    | Str(s: string)
    | Arr(items: seq<Json>)
    | Obj(fields: map<string, Json>)

  /**
   * The property names the handler reads.  None of them is an array index,
   * `length`, or a member of a prototype, so reading one from anything but an
   * object yields `undefined`, and from an object it is a plain own-key lookup.
   */
  datatype Key =
    | Users | Result | Fid | Username | DisplayName | PfpUrl
    | Score | UserScore | Data | QuotientScore | QuotientRank
  {
    function Name(): string {
      match this
      case Users => "users"
      case Result => "result"
      case Fid => "fid"
      case Username => "username"
      case DisplayName => "display_name"
      case PfpUrl => "pfp_url"
      case Score => "score"
      case UserScore => "user_score"
      case Data => "data"
      case QuotientScore => "quotientScore"
      case QuotientRank => "quotientRank"
    }
  }

  /** What `??` and `?.` treat as missing. */
  predicate Nullish(v: Json) {
    v.Undefined? || v.Null?
  }

  /**
   * What `||`, `&&`, `!` and `if` treat as true.  Numbers are exact reals here;
   * a parsed number that rounds to zero or overflows to infinity as a double is
   * not represented (JSON cannot spell NaN, and -0 equals 0).
   */
  predicate Truthy(v: Json) {
    match v
    case Undefined => false
    case Null => false
    case Bool(b) => b
    case Num(n) => n != 0.0
    case Str(s) => s != ""
    case Arr(_) => true
    case Obj(_) => true
  }

  /** A falsy value that is nonetheless defined: where `||` and `??` part ways. */
  predicate FalsyDefined(v: Json) {
    !Truthy(v) && !Nullish(v)
  }

  /** `a || b` with `b` already evaluated. */
  function Or(a: Json, b: Json): Json {
    if Truthy(a) then a else b
  }

  /** `a ?? b` with `b` already evaluated. */
  function Coalesce(a: Json, b: Json): Json {
    if Nullish(a) then b else a
  }

  /** `v.k`; on null or undefined JavaScript throws a TypeError instead. */
  function Prop(v: Json, k: Key): Json
    requires !Nullish(v)
  {
    match v
    case Obj(m) => if k.Name() in m then m[k.Name()] else Undefined
    case _ => Undefined
  }

  /** `v[0]`; on null or undefined JavaScript throws a TypeError instead. */
  function Index0(v: Json): Json
    requires !Nullish(v)
  {
    match v
    case Arr(xs) => if |xs| > 0 then xs[0] else Undefined
    case Str(s) => if |s| > 0 then Str([s[0]]) else Undefined
    case Obj(m) => if "0" in m then m["0"] else Undefined
    case _ => Undefined
  }

  /** `v?.k` */
  function OptProp(v: Json, k: Key): Json {
    if Nullish(v) then Undefined else Prop(v, k)
  }

  /** `v?.[0]` */
  function OptIndex0(v: Json): Json {
    if Nullish(v) then Undefined else Index0(v)
  }

  /** `v?.k1?.k2?. ...`: the optional chain along `path`. */
  function OptPath(v: Json, path: seq<Key>): Json
    decreases |path|
  {
    if path == [] then v else OptPath(OptProp(v, path[0]), path[1..])
  }

  /** The defined falsy values are exactly `false`, `0` and `""`. */
  lemma FalsyDefinedValues(v: Json)
    ensures FalsyDefined(v) <==> v == Bool(false) || v == Num(0.0) || v == Str("")
  {
  }

  /** `a || b` and `a ?? b` differ exactly when `a` is a defined falsy value other than `b`. */
  lemma OrCoalesceDiffer(a: Json, b: Json)
    ensures Or(a, b) != Coalesce(a, b) <==> FalsyDefined(a) && a != b
    ensures FalsyDefined(a) ==> Or(a, b) == b && Coalesce(a, b) == a
  {
  }

  /** Once an optional chain meets null or undefined, the rest of it is undefined. */
  lemma {:induction false} OptPathShortCircuits(v: Json, path: seq<Key>)
    requires Nullish(v) && path != []
    ensures OptPath(v, path) == Undefined
    decreases |path|
  {
    if |path| > 1 {
      OptPathShortCircuits(OptProp(v, path[0]), path[1..]);
    }
  }

  /**
   * After `|| null`, `v?.k` and the guarded `v && v.k` agree: stepping into a
   * defined falsy value yields undefined either way.
   */
  lemma OptionalChainMatchesGuard(v: Json, k: Key)
    ensures Or(OptProp(v, k), Null) == Or(if Truthy(v) then Prop(v, k) else v, Null)
  {
  }
}

/**
 * The JavaScript values that reach the core: whatever a parsed JSON request
 * body holds, plus `undefined` for a property that is not there.  Objects are
 * their own enumerable properties in the order `Object.entries` yields them.
 */
module JsValues {
  import opened Text

  /**
   * The integers JavaScript holds exactly, magnitude at most 2^53: a JSON
   * number in this range prints as its own decimal digits.
   */
  const MAX_EXACT: int := 0x20_0000_0000_0000
  type ExactInt = n: int | -MAX_EXACT <= n <= MAX_EXACT

  datatype JsValue =
    | Undefined
    | Null
    | Bool(b: bool)
    | Num(n: ExactInt)
    | Str(s: string)
    | Arr(items: seq<JsValue>)
    | Obj(props: seq<(string, JsValue)>)

  /** JavaScript truthiness: what `if (v)` and `v || fallback` test. */
  predicate Truthy(v: JsValue) {
    match v
    case Undefined => false
    case Null => false
    case Bool(b) => b
    case Num(n) => n != 0
    case Str(s) => s != ""
    case Arr(_) => true
    case Obj(_) => true
  }

  /** `v && typeof v === 'object'`: a non-null object, arrays included. */
  predicate IsObject(v: JsValue) {
    v.Arr? || v.Obj?
  }

  lemma IsObjectIsTruthy(v: JsValue)
    ensures IsObject(v) ==> Truthy(v)
    ensures v == Null ==> !IsObject(v) && !Truthy(v)
  {
  }

  /** `!v || typeof v !== 'object' ? {} : v`, the core's fail-soft input coercion. */
  function ObjectOrEmpty(v: JsValue): (r: JsValue)
    ensures IsObject(r)
    ensures IsObject(v) ==> r == v
    ensures !IsObject(v) ==> r == Obj([])
  {
    if !Truthy(v) || !IsObject(v) then Obj([]) else v
  }

  /** `v || fallback`. */
  function Or(v: JsValue, fallback: JsValue): (r: JsValue)
    ensures Truthy(v) ==> r == v
    ensures !Truthy(v) ==> r == fallback
  {
    if Truthy(v) then v else fallback
  }

  /** The value stored under `key` in a property list: the first entry with that key, or undefined. */
  function Lookup(props: seq<(string, JsValue)>, key: string): (r: JsValue)
    ensures r != Undefined ==> exists k | 0 <= k < |props| :: props[k] == (key, r)
    ensures (forall k | 0 <= k < |props| :: props[k].0 != key) ==> r == Undefined
  {
    if props == [] then Undefined
    else if props[0].0 == key then props[0].1
    else
      var r := Lookup(props[1..], key);
      assert r != Undefined ==> (exists k | 0 <= k < |props| - 1 :: props[1..][k] == (key, r));
      r
  }

  predicate HasKey(v: JsValue, key: string) {
    v.Obj? && exists k | 0 <= k < |v.props| :: v.props[k].0 == key
  }

  /**
   * Property read `v[key]`.  Only plain objects carry the keys the core reads
   * (control ids and organisation field names, never an array index or
   * `length`), so on every other value the read gives undefined.
   */
  function Get(v: JsValue, key: string): (r: JsValue)
    ensures !HasKey(v, key) ==> r == Undefined
  {
    if v.Obj? then Lookup(v.props, key) else Undefined
  }

  /** The outcome of evaluating an expression that may throw a TypeError. */
  datatype Completion<T> = Normal(value: T) | Throws

  /**
   * Whether converting `v` to text returns rather than throws.  A plain object
   * converts through `toString` and then `valueOf`: a parsed object can only
   * shadow `toString` with an own property that is not a function, and the
   * inherited `valueOf` gives back the object itself, so such an object
   * throws.  An array converts by converting its elements.
   */
  predicate Printable(v: JsValue) {
    match v
    case Obj(_) => !HasKey(v, "toString")
    case Arr(items) => forall k | 0 <= k < |items| :: Printable(items[k])
    case _ => true
  }

  /** A falsy value always converts to text. */
  lemma FalsyPrintable(v: JsValue)
    requires !Truthy(v)
    ensures Printable(v)
  {
  }

  /**
   * What a template literal `${v}` or a concatenation `v + '...'` gives:
   * numbers in decimal, arrays as their elements joined by commas (null and
   * undefined elements print as nothing), plain objects as `[object Object]`,
   * or a thrown TypeError.
   */
  function ToJsString(v: JsValue): (r: Completion<string>)
    ensures r.Normal? <==> Printable(v)
    ensures v.Str? ==> r == Normal(v.s)
    ensures v.Num? ==> r.Normal? && IsIntText(r.value) && ParseInt(r.value) == v.n
    decreases v, 1
  {
    match v
    case Undefined => Normal("undefined")
    case Null => Normal("null")
    case Bool(b) => Normal(if b then "true" else "false")
    case Num(n) => IntToStringRoundTrip(n); Normal(IntToString(n))
    case Str(s) => Normal(s)
    case Arr(items) => JoinItems(items)
    case Obj(_) => if HasKey(v, "toString") then Throws else Normal("[object Object]")
  }

  /** `items.join(',')`: it throws as soon as one element's conversion throws. */
  function JoinItems(items: seq<JsValue>): (r: Completion<string>)
    ensures r.Normal? <==> forall k | 0 <= k < |items| :: Printable(items[k])
    decreases items, 0
  {
    if items == [] then Normal("")
    else
      var front := JoinItems(items[..|items| - 1]);
      var last := ItemText(items[|items| - 1]);
      if front.Throws? || last.Throws? then Throws
      else if |items| == 1 then last
      else Normal(front.value + "," + last.value)
  }

  function ItemText(item: JsValue): (r: Completion<string>)
    ensures r.Normal? <==> Printable(item)
    decreases item, 2
  {
    if item == Undefined || item == Null then Normal("") else ToJsString(item)
  }
}

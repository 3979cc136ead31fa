/**
 * The slice of JavaScript value semantics that the relay's decision logic
 * depends on: values as JSON.parse produces them, `undefined`, truthiness,
 * property reads with `.` and `?.`, and the string a template literal
 * interpolates for a value.
 */
module JsValues {

  datatype Option<+T> = None | Some(value: T)

  /**
   * A value produced by JSON.parse, or by property assignments on one. JSON
   * numbers are restricted to integers. An array carries its elements and its
   * named own properties: JSON.parse creates none, but `a.calories = 400`
   * adds one.
   */
  datatype JsValue =
    | JNull
    | JBool(b: bool)
    | JNumber(n: int)
    | JString(s: string)
    | JArray(items: seq<JsValue>, props: map<string, JsValue>)
    | JObject(fields: map<string, JsValue>)

  /** The result of reading a property or a request field: None is `undefined`. */
  type Slot = Option<JsValue>

  /** The outcome of evaluating JavaScript that may throw. */
  datatype Completion<+T> = Normal(value: T) | Throw(message: string)

  /** `!!v` */
  predicate Truthy(v: Slot) {
    match v
    case None => false
    case Some(JNull) => false
    case Some(JBool(b)) => b
    case Some(JNumber(n)) => n != 0
    case Some(JString(s)) => s != ""
    case Some(_) => true
  }

  /** `v === null || v === undefined` */
  predicate Nullish(v: Slot) {
    v == None || v == Some(JNull)
  }

  /**
   * A named own property of a non-null value: an object's field or an
   * array's named property. Indices and `length` are not among the keys read
   * this way.
   */
  function Member(v: JsValue, key: string): Slot {
    match v
    case JObject(fields) => if key in fields then Some(fields[key]) else None
    case JArray(_, props) => if key in props then Some(props[key]) else None
    case _ => None
  }

  /** The values a property assignment sticks to; on primitives it is lost. */
  predicate TakesProperties(v: JsValue) {
    v.JObject? || v.JArray?
  }

  /** `v.key = x` in sloppy mode: it lands on an object or an array and is silently lost on a primitive. */
  function SetMember(v: JsValue, key: string, x: JsValue): (r: JsValue)
    ensures TakesProperties(v) ==> Member(r, key) == Some(x) && forall k :: k != key ==> Member(r, k) == Member(v, k)
    ensures TakesProperties(v) ==> r.JObject? == v.JObject? && r.JArray? == v.JArray?
    ensures v.JArray? ==> r.items == v.items
    ensures !TakesProperties(v) ==> r == v
  {
    match v
    case JObject(fields) => JObject(fields[key := x])
    case JArray(items, props) => JArray(items, props[key := x])
    case _ => v
  }

  /** `v.key`, which throws a TypeError on null and undefined. */
  function Get(v: Slot, key: string): (r: Completion<Slot>)
    ensures r.Throw? <==> Nullish(v)
  {
    if Nullish(v) then Throw("Cannot read properties of " + Str(v) + " (reading '" + key + "')")
    else Normal(Member(v.value, key))
  }

  /** `v?.key`, which short-circuits to undefined on null and undefined. */
  function OptGet(v: Slot, key: string): (r: Slot)
    ensures Nullish(v) ==> r == None
    ensures !Nullish(v) ==> Get(v, key) == Normal(r)
  {
    if Nullish(v) then None else Member(v.value, key)
  }

  /** The message of the TypeError a failed string conversion raises. */
  const ToPrimitiveError := "Cannot convert object to primitive value"

  /**
   * Whether `${x}` succeeds. Parsed JSON holds no functions, so an object or
   * array with its own `toString` key has no callable `toString`, and the
   * inherited `valueOf` returns the object itself: the conversion throws. An
   * array converts through `join` (or, when its own `join` is not callable,
   * prints `[object Array]`), and `join` converts every element.
   */
  predicate PrintableValue(x: JsValue)
    decreases x
  {
    match x
    case JObject(fields) => "toString" !in fields
    case JArray(items, props) =>
      && "toString" !in props
      && ("join" in props || forall i :: 0 <= i < |items| ==> PrintableValue(items[i]))
    case _ => true
  }

  /** Whether `${v}` succeeds; `undefined` always prints. */
  predicate Printable(v: Slot) {
    v.None? || PrintableValue(v.value)
  }

  /** `${v}`: the printed string, or the TypeError of an unprintable value. */
  function ToStr(v: Slot): (r: Completion<string>)
    ensures r.Normal? <==> Printable(v)
    ensures r.Normal? ==> r.value == Str(v)
    ensures r.Throw? ==> r.message == ToPrimitiveError
  {
    if Printable(v) then Normal(Str(v)) else Throw(ToPrimitiveError)
  }

  /** The string `${v}` produces when it does not throw (see `Printable`). */
  function Str(v: Slot): string {
    match v
    case None => "undefined"
    case Some(x) => ValueStr(x)
  }

  function ValueStr(x: JsValue): string
    decreases x
  {
    match x
    case JNull => "null"
    case JBool(b) => if b then "true" else "false"
    case JNumber(n) => IntStr(n)
    case JString(s) => s
    case JArray(items, props) => if "join" in props then "[object Array]" else Join(items, ",")
    case JObject(_) => "[object Object]"
  }

  /** Array.prototype.join on printable elements: null elements contribute the empty string. */
  function Join(items: seq<JsValue>, sep: string): string
    decreases items
  {
    if items == [] then ""
    else
      var head := if items[0] == JNull then "" else ValueStr(items[0]);
      if |items| == 1 then head else head + sep + Join(items[1..], sep)
  }

  function DigitChar(d: nat): char
    requires d < 10
  {
    (48 + d) as char
  }

  /** Decimal digits of a natural number, most significant first. */
  function NatStr(n: nat): (r: string)
    ensures |r| > 0
    decreases n
  {
    if n < 10 then [DigitChar(n)] else NatStr(n / 10) + [DigitChar(n % 10)]
  }

  /** Distinct naturals print as distinct digit strings. */
  lemma {:induction false} NatStrInjective(a: nat, b: nat)
    requires NatStr(a) == NatStr(b)
    ensures a == b
    decreases a
  {
    if a >= 10 && b >= 10 {
      var s := NatStr(a);
      assert NatStr(a / 10) == s[..|s| - 1] == NatStr(b / 10);
      NatStrInjective(a / 10, b / 10);
      assert DigitChar(a % 10) == s[|s| - 1] == DigitChar(b % 10);
    }
  }

  /** A printed natural is made of decimal digits only, so no index is a named key such as `calories`. */
  lemma {:induction false} NatStrIsDigits(n: nat)
    ensures forall i :: 0 <= i < |NatStr(n)| ==> '0' <= NatStr(n)[i] <= '9'
    decreases n
  {
    if n >= 10 {
      NatStrIsDigits(n / 10);
      assert NatStr(n) == NatStr(n / 10) + [DigitChar(n % 10)];
    }
  }

  /** How JavaScript prints an integral number (below 1e21 in magnitude). */
  function IntStr(i: int): string {
    if i < 0 then "-" + NatStr(-i) else NatStr(i)
  }

  /** Each element under its decimal index. */
  function IndexMap(items: seq<JsValue>): (m: map<string, JsValue>)
    ensures forall i: nat :: i < |items| ==> NatStr(i) in m && m[NatStr(i)] == items[i]
    ensures forall k :: k in m ==> exists i: nat :: i < |items| && k == NatStr(i)
  {
    if items == [] then map[]
    else
      var last := |items| - 1;
      var m := IndexMap(items[..last]);
      assert NatStr(last) !in m by {
        if NatStr(last) in m {
          var i: nat :| i < last && NatStr(last) == NatStr(i);
          NatStrInjective(i, last);
        }
      }
      assert forall i: nat :: i < last ==> NatStr(i) in m && m[NatStr(i)] == items[i] by {
        forall i: nat | i < last
          ensures NatStr(i) in m && m[NatStr(i)] == items[i]
        {
          assert items[..last][i] == items[i];
        }
      }
      m[NatStr(last) := items[last]]
  }

  /**
   * The own enumerable properties `{...v}` copies: an object's fields, an
   * array's elements under their decimal indices and its named properties, a
   * string's characters under their indices, and nothing for null, booleans
   * and numbers.
   */
  function SpreadFields(v: JsValue): (fields: map<string, JsValue>)
    ensures v.JObject? ==> fields == v.fields
    ensures v.JArray? ==> forall k :: k in v.props ==> k in fields && fields[k] == v.props[k]
    ensures v.JArray? ==> forall i: nat {:trigger v.items[i]} :: i < |v.items| && NatStr(i) !in v.props ==>
              NatStr(i) in fields && fields[NatStr(i)] == v.items[i]
    ensures v.JArray? ==> forall k :: k in fields ==> k in v.props || exists i: nat :: i < |v.items| && k == NatStr(i)
    ensures v.JString? ==> forall i: nat {:trigger v.s[i]} :: i < |v.s| ==> NatStr(i) in fields && fields[NatStr(i)] == JString([v.s[i]])
    ensures v.JString? ==> forall k :: k in fields ==> exists i: nat :: i < |v.s| && k == NatStr(i)
    ensures v.JNull? || v.JBool? || v.JNumber? ==> fields == map[]
  {
    match v
    case JObject(f) => f
    case JArray(items, props) => IndexMap(items) + props
    case JString(s) => IndexMap(CharStrings(s))
    case _ => map[]
  }

  /** The one-character strings of `s`, in order. */
  function CharStrings(s: string): (r: seq<JsValue>)
    ensures |r| == |s| && forall i :: 0 <= i < |s| ==> r[i] == JString([s[i]])
  {
    seq(|s|, i requires 0 <= i < |s| => JString([s[i]]))
  }

  /** `s.startsWith(t, i)` */
  predicate OccursAt(s: string, t: string, i: nat) {
    i + |t| <= |s| && s[i..i + |t|] == t
  }

  /** `s.includes(t)` */
  predicate Includes(s: string, t: string) {
    exists i: nat :: i <= |s| && OccursAt(s, t, i)
  }
}

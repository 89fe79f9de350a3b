/**
 * JSON values as the core builds and reads them, together with the JavaScript
 * semantics of the property reads the response extractors perform: a read on
 * `undefined` or `null` throws a TypeError, a missing property yields `undefined`
 * (`None`), and `if (x)` tests truthiness.
 */
module Json {
  import opened Wrappers

  /**
   * A JSON value. A number is kept exactly as `mantissa * 10^exponent` (0.95 is
   * JNum(95, -2)); the core never does arithmetic on numbers.
   */
  datatype Json =
    | JNull
    | JBool(b: bool)
    | JNum(mantissa: int, exponent: int)
    | JStr(s: string)
    | JArr(items: seq<Json>)
    | JObj(members: seq<Member>)

  datatype Member = Member(key: string, value: Json)

  function Int(n: int): Json { JNum(n, 0) }

  /**
   * The value of property `key` of an object with members `ms`. When a key occurs
   * more than once the last occurrence wins, as with `JSON.parse`.
   */
  function Field(ms: seq<Member>, key: string): (r: Option<Json>)
    ensures r.Some? <==> exists i :: 0 <= i < |ms| && ms[i].key == key
    ensures r.Some? ==> exists i :: 0 <= i < |ms| && ms[i].key == key && ms[i].value == r.value
  {
    if ms == [] then None
    else
      var rest := Field(ms[1..], key);
      assert forall i :: 1 <= i < |ms| ==> ms[i] == ms[1..][i - 1];
      if rest.Some? then rest
      else if ms[0].key == key then Some(ms[0].value)
      else None
  }

  /** When exactly one member has the key, the property read returns its value. */
  lemma FieldOfUniqueKey(ms: seq<Member>, i: nat, key: string)
    requires i < |ms| && ms[i].key == key
    requires forall j :: 0 <= j < |ms| && j != i ==> ms[j].key != key
    ensures Field(ms, key) == Some(ms[i].value)
  {
  }

  /** Reading the one property of a one-member object gives its value. */
  lemma PropOfSingle(key: string, v: Json)
    ensures Prop(Some(JObj([Member(key, v)])), key) == Val(Some(v))
  {
    assert Field([Member(key, v)], key) == Some(v) by {
      assert [Member(key, v)][1..] == [];
    }
  }

  /** JavaScript truthiness of a value that may be `undefined`. */
  predicate Truthy(v: Option<Json>) {
    match v
    case None => false
    case Some(JNull) => false
    case Some(JBool(b)) => b
    case Some(JNum(m, _)) => m != 0
    case Some(JStr(s)) => s != ""
    case Some(JArr(_)) => true
    case Some(JObj(_)) => true
  }

  /** `typeof v === 'string'`. */
  predicate IsString(v: Option<Json>) {
    v.Some? && v.value.JStr?
  }

  /** The outcome of evaluating a property-read expression: it threw, or it produced a value. */
  datatype Access = Threw | Val(v: Option<Json>)

  /**
   * `v.key` for a named key. Arrays, strings, numbers and booleans have none of
   * the named properties the core reads, so those reads yield `undefined`.
   */
  function Prop(v: Option<Json>, key: string): (r: Access)
    ensures r.Threw? <==> v.None? || v == Some(JNull)
  {
    match v
    case None => Threw
    case Some(JNull) => Threw
    case Some(JObj(ms)) => Val(Field(ms, key))
    case Some(_) => Val(None)
  }

  /** `v[0]`. */
  function Index0(v: Option<Json>): (r: Access)
    ensures r.Threw? <==> v.None? || v == Some(JNull)
  {
    match v
    case None => Threw
    case Some(JNull) => Threw
    case Some(JArr(items)) => Val(if items == [] then None else Some(items[0]))
    case Some(JStr(s)) => Val(if s == "" then None else Some(JStr([s[0]])))
    case Some(JObj(ms)) => Val(Field(ms, "0"))
    case Some(_) => Val(None)
  }

  /** `a.key` where `a` is itself an expression that may have thrown. */
  function Then(a: Access, key: string): Access {
    if a.Threw? then Threw else Prop(a.v, key)
  }

  /** `a[0]` where `a` is itself an expression that may have thrown. */
  function Then0(a: Access): Access {
    if a.Threw? then Threw else Index0(a.v)
  }

  /** `v?.key`: optional chaining yields `undefined` instead of throwing. */
  function OptProp(v: Option<Json>, key: string): (r: Option<Json>)
    ensures v.None? || v == Some(JNull) ==> r.None?
    ensures !(v.None? || v == Some(JNull)) ==> Prop(v, key) == Val(r)
  {
    match Prop(v, key)
    case Threw => None
    case Val(x) => x
  }

  /** `v?.[0]`. */
  function OptIndex0(v: Option<Json>): (r: Option<Json>)
    ensures v.None? || v == Some(JNull) ==> r.None?
    ensures !(v.None? || v == Some(JNull)) ==> Index0(v) == Val(r)
  {
    match Index0(v)
    case Threw => None
    case Val(x) => x
  }

  /**
   * `JSON.stringify` and `JSON.parse` as a pair of functions; `parse` yields None
   * where `JSON.parse` throws. Their text format is not part of this model.
   */
  datatype Codec = Codec(stringify: Json -> string, parse: string -> Option<Json>)

  /** What the core relies on of the pair: every value reads back from its text, no text is empty, and `[]` is the empty array's text. */
  ghost predicate RoundTrips(codec: Codec) {
    && (forall j :: codec.parse(codec.stringify(j)) == Some(j))
    && (forall j :: codec.stringify(j) != "")
    && codec.stringify(JArr([])) == "[]"
  }
}

/**
 * JSON values as JavaScript sees them after `JSON.parse`, and the codec that
 * turns them into the text kept in local storage. The codec is abstract: the
 * model never parses or prints JSON, it only relies on the round trip that
 * `Lawful` states (`JsonEncoding` gives one codec that meets it).
 */
module Json {
  import opened Wrappers
  import Strings

  /**
   * A JavaScript value as it reaches `JSON.stringify` or leaves `JSON.parse`;
   * numbers are finite decimals. `Undefined` occurs only in values handed
   * in by callers, never in a parse result.
   */
  datatype Value =
    | Undefined
    | Null
    | Bool(b: bool)
    | Num(n: Number)
    | Str(s: string)
    | Arr(elems: seq<Value>)
    | Obj(fields: map<string, Value>)

  /**
   * The decimal `mantissa × 10^exponent`, the form in which JSON text writes
   * a number.
   */
  datatype Decimal = Decimal(mantissa: int, exponent: int)

  /**
   * A decimal in lowest terms (no trailing zero digit in the mantissa, and
   * zero written 0 × 10^0), so that each number has exactly one form.
   */
  type Number = d: Decimal | d.mantissa % 10 != 0 || d == Decimal(0, 0) witness Decimal(0, 0)

  function Pow10(e: nat): (r: nat)
    ensures r >= 1
  {
    if e == 0 then 1 else 10 * Pow10(e - 1)
  }

  /** The integer `n` as a JSON number: `n` with its trailing zeros moved into the exponent. */
  function Integer(n: int): (r: Number)
    ensures r.exponent >= 0 && r.mantissa * Pow10(r.exponent) == n
    decreases if n < 0 then -n else n
  {
    if n != 0 && n % 10 == 0 then
      var d := Integer(n / 10);
      ScaleByTen(d.mantissa, Pow10(d.exponent));
      Decimal(d.mantissa, d.exponent + 1)
    else
      Decimal(n, 0)
  }

  lemma ScaleByTen(m: int, p: nat)
    ensures m * (10 * p) == 10 * (m * p)
  {
  }

  /** JavaScript truthiness (`!!v`) of a JSON value. */
  predicate Truthy(v: Value) {
    match v
    case Undefined => false
    case Null => false
    case Bool(b) => b
    case Num(n) => n.mantissa != 0
    case Str(s) => s != ""
    case Arr(_) => true
    case Obj(_) => true
  }

  /** The index-named properties ("0", "1", ...) of an array-like source. */
  function Indexed(elems: seq<Value>): (r: map<string, Value>)
    ensures forall k :: k in r ==> r[k] in elems
  {
    if elems == [] then map[]
    else Indexed(elems[..|elems| - 1])[Strings.DecimalString(|elems| - 1) := elems[|elems| - 1]]
  }

  /**
   * The own enumerable properties `Object.assign` copies from a source:
   * an object's fields, the indices of an array or a string, and nothing
   * from null, a boolean or a number.
   */
  function OwnProps(v: Value): (r: map<string, Value>)
    ensures Defined(v) ==> forall k :: k in r ==> Defined(r[k])
  {
    match v
    case Obj(fields) => fields
    case Arr(elems) => Indexed(elems)
    case Str(s) => Indexed(seq(|s|, i requires 0 <= i < |s| => Str([s[i]])))
    case _ => map[]
  }

  /** No `undefined` anywhere in the value: what JSON can represent. */
  predicate Defined(v: Value) {
    match v
    case Undefined => false
    case Arr(elems) => forall i :: 0 <= i < |elems| ==> Defined(elems[i])
    case Obj(fields) => forall k :: k in fields ==> Defined(fields[k])
    case _ => true
  }

  /**
   * What `JSON.parse(JSON.stringify(v))` gives back for a value other than
   * a bare `undefined`: properties whose value is `undefined` are dropped,
   * and an `undefined` array element comes back as null.
   */
  function Reparsed(v: Value): (r: Value)
    ensures Defined(r)
    ensures r.Arr? <==> v.Arr?
    ensures r.Arr? ==> |r.elems| == |v.elems|
    ensures r.Obj? <==> v.Obj?
    ensures r.Obj? ==> r.fields.Keys == set k | k in v.fields && v.fields[k] != Undefined
  {
    match v
    case Undefined => Null
    case Arr(elems) => Arr(seq(|elems|, i requires 0 <= i < |elems| => Reparsed(elems[i])))
    case Obj(fields) => Obj(map k | k in fields && fields[k] != Undefined :: Reparsed(fields[k]))
    case _ => v
  }

  /** A value JSON can represent survives printing and parsing unchanged. */
  lemma {:induction false} ReparsedDefined(v: Value)
    requires Defined(v)
    ensures Reparsed(v) == v
  {
    match v
    case Arr(elems) =>
      forall i | 0 <= i < |elems| ensures Reparsed(elems[i]) == elems[i] {
        ReparsedDefined(elems[i]);
      }
    case Obj(fields) =>
      forall k | k in fields ensures Reparsed(fields[k]) == fields[k] {
        ReparsedDefined(fields[k]);
      }
    case _ =>
  }

  /**
   * `JSON.parse` (None: it throws a SyntaxError), and the text local storage
   * holds after `setItem(key, JSON.stringify(v))`: for a bare `undefined`
   * that is the string "undefined", which does not parse.
   */
  datatype Codec = Codec(parse: string -> Option<Value>, stringify: Value -> string)

  /**
   * What the model assumes of the codec: printing never yields "", parsing
   * gives back `Reparsed` of what was printed, the text stored for a bare
   * `undefined` does not parse, and nothing parses to a value holding
   * `undefined`.
   */
  ghost predicate Lawful(c: Codec) {
    && (forall v: Value :: c.stringify(v) != "")
    && (forall v: Value :: v != Undefined ==> c.parse(c.stringify(v)) == Some(Reparsed(v)))
    && c.parse(c.stringify(Undefined)) == None
    && (forall text: string :: c.parse(text).Some? ==> Defined(c.parse(text).value))
  }

  /**
   * `item ? JSON.parse(item) : fallback` over a raw local-storage entry: an
   * absent or empty entry gives the fallback without parsing; None is a
   * thrown parse error.
   */
  function ParseOr(c: Codec, item: Option<string>, fallback: Value): (r: Option<Value>)
    ensures item.None? || item == Some("") ==> r == Some(fallback)
    ensures item.Some? && item.value != "" ==> r == c.parse(item.value)
  {
    if item.None? || item.value == "" then Some(fallback) else c.parse(item.value)
  }

  /**
   * An entry this codec wrote reads back as the value written, less its
   * `undefined` parts; a bare `undefined` does not read back at all.
   */
  lemma ReadBack(c: Codec, v: Value, fallback: Value)
    requires Lawful(c)
    ensures v != Undefined ==> ParseOr(c, Some(c.stringify(v)), fallback) == Some(Reparsed(v))
    ensures Defined(v) ==> ParseOr(c, Some(c.stringify(v)), fallback) == Some(v)
    ensures v == Undefined ==> ParseOr(c, Some(c.stringify(v)), fallback) == None
  {
    if Defined(v) {
      ReparsedDefined(v);
    }
  }
}

/**
 * A concrete text form for JSON values, showing that everything `Json.Lawful`
 * assumes of the codec can hold at once. The form is a prefix code rather
 * than JSON syntax: every length is written out in unary in front of what it
 * measures, so decoding reads left to right and never looks ahead.
 *
 * Each printing function takes the text that is to follow what it prints,
 * so that the round trip never has to regroup concatenations.
 */
module JsonEncoding {
  import opened Wrappers
  import opened Json

  lemma Tagged(c: char, body: string)
    ensures ([c] + body)[0] == c && ([c] + body)[1..] == body
  {
  }

  /** `n` in unary, n bars and a full stop, followed by `rest`. */
  function NatThen(n: nat, rest: string): (r: string)
    ensures |r| == n + 1 + |rest|
  {
    if n == 0 then ['.'] + rest else ['|'] + NatThen(n - 1, rest)
  }

  function DecodeNat(t: string): (r: Option<(nat, string)>)
    ensures r.Some? ==> |r.value.1| < |t|
  {
    if |t| == 0 then None
    else if t[0] == '.' then Some((0, t[1..]))
    else if t[0] == '|' then
      match DecodeNat(t[1..])
      case Some((n, rest)) => Some((n + 1, rest))
      case None => None
    else None
  }

  lemma {:induction false} NatRoundTrip(n: nat, rest: string)
    ensures DecodeNat(NatThen(n, rest)) == Some((n, rest))
  {
    if n == 0 {
      Tagged('.', rest);
    } else {
      Tagged('|', NatThen(n - 1, rest));
      NatRoundTrip(n - 1, rest);
    }
  }

  /** An integer, its sign and then its magnitude, followed by `rest`. */
  function IntThen(i: int, rest: string): string {
    if i >= 0 then ['+'] + NatThen(i, rest) else ['-'] + NatThen(-i, rest)
  }

  function DecodeInt(t: string): (r: Option<(int, string)>)
    ensures r.Some? ==> |r.value.1| < |t|
  {
    if |t| == 0 || (t[0] != '+' && t[0] != '-') then None
    else
      match DecodeNat(t[1..])
      case Some((n, rest)) => Some((if t[0] == '+' then n as int else -(n as int), rest))
      case None => None
  }

  lemma IntRoundTrip(i: int, rest: string)
    ensures DecodeInt(IntThen(i, rest)) == Some((i, rest))
  {
    if i >= 0 {
      Tagged('+', NatThen(i, rest));
      NatRoundTrip(i, rest);
    } else {
      Tagged('-', NatThen(-i, rest));
      NatRoundTrip(-i, rest);
    }
  }

  /** A string, its length and then its characters, followed by `rest`. */
  function TextThen(s: string, rest: string): string {
    NatThen(|s|, s + rest)
  }

  function DecodeText(t: string): (r: Option<(string, string)>)
    ensures r.Some? ==> |r.value.1| < |t|
  {
    match DecodeNat(t)
    case Some((n, rest)) => if n <= |rest| then Some((rest[..n], rest[n..])) else None
    case None => None
  }

  lemma TextRoundTrip(s: string, rest: string)
    ensures DecodeText(TextThen(s, rest)) == Some((s, rest))
  {
    NatRoundTrip(|s|, s + rest);
    assert (s + rest)[..|s|] == s && (s + rest)[|s|..] == rest;
  }

  /** The members of a finite set of strings, in some fixed order. */
  ghost function Enumerate(s: set<string>): (r: seq<string>)
    ensures forall k :: k in r <==> k in s
    decreases |s|
  {
    if s == {} then [] else var k :| k in s; [k] + Enumerate(s - {k})
  }

  /**
   * The text of a value followed by `rest`: a tag letter, then the parts.
   * An array writes its length and its elements; an object writes its size
   * and, for each key, the key and its value. A bare `undefined` is written
   * "u", which does not decode.
   */
  ghost function EncodeThen(v: Value, rest: string): (r: string)
    ensures |r| > |rest|
    decreases v, 1, 0
  {
    match v
    case Undefined => ['u'] + rest
    case Null => ['n'] + rest
    case Bool(b) => [if b then 't' else 'f'] + rest
    case Num(d) => ['d'] + IntThen(d.mantissa, IntThen(d.exponent, rest))
    case Str(s) => ['s'] + TextThen(s, rest)
    case Arr(elems) => ['a'] + NatThen(|elems|, ElemsThen(elems, 0, rest))
    case Obj(fields) =>
      var keys := Enumerate(fields.Keys);
      ['o'] + NatThen(|keys|, FieldsThen(fields, keys, 0, rest))
  }

  /** The texts of the elements from index `i` on, followed by `rest`. */
  ghost function ElemsThen(elems: seq<Value>, i: nat, rest: string): (r: string)
    requires i <= |elems|
    ensures |r| >= |rest|
    decreases Arr(elems), 0, |elems| - i
  {
    if i == |elems| then rest else EncodeThen(elems[i], ElemsThen(elems, i + 1, rest))
  }

  /** The texts of the entries named by `keys` from index `i` on, key then value, followed by `rest`. */
  ghost function FieldsThen(fields: map<string, Value>, keys: seq<string>, i: nat, rest: string): (r: string)
    requires i <= |keys| && forall k :: k in keys ==> k in fields
    ensures |r| >= |rest|
    decreases Obj(fields), 0, |keys| - i
  {
    if i == |keys| then rest
    else TextThen(keys[i], EncodeThen(fields[keys[i]], FieldsThen(fields, keys, i + 1, rest)))
  }

  /** Reads one value off the front of `t`, returning it with the text after it. */
  function Decode(t: string): (r: Option<(Value, string)>)
    ensures r.Some? ==> |r.value.1| < |t| && Defined(r.value.0)
    decreases |t|, 0
  {
    if |t| == 0 then None
    else if t[0] == 'n' then Some((Null, t[1..]))
    else if t[0] == 't' then Some((Bool(true), t[1..]))
    else if t[0] == 'f' then Some((Bool(false), t[1..]))
    else if t[0] == 'd' then DecodeNum(t[1..])
    else if t[0] == 's' then DecodeStr(t[1..])
    else if t[0] == 'a' then DecodeArr(t[1..])
    else if t[0] == 'o' then DecodeObj(t[1..])
    else None
  }

  /** A number after its tag: mantissa and exponent, which must be in lowest terms. */
  function DecodeNum(t: string): (r: Option<(Value, string)>)
    ensures r.Some? ==> |r.value.1| < |t| && Defined(r.value.0)
  {
    match DecodeInt(t)
    case None => None
    case Some((m, r1)) =>
      match DecodeInt(r1)
      case None => None
      case Some((e, r2)) =>
        if m % 10 != 0 || (m == 0 && e == 0) then Some((Num(Decimal(m, e)), r2)) else None
  }

  function DecodeStr(t: string): (r: Option<(Value, string)>)
    ensures r.Some? ==> |r.value.1| < |t| && Defined(r.value.0)
  {
    match DecodeText(t)
    case None => None
    case Some((s, rest)) => Some((Str(s), rest))
  }

  /** An array after its tag: its length, then that many values. */
  function DecodeArr(t: string): (r: Option<(Value, string)>)
    ensures r.Some? ==> |r.value.1| < |t| && Defined(r.value.0)
    decreases |t|, 2
  {
    match DecodeNat(t)
    case None => None
    case Some((n, r1)) =>
      match DecodeElems(n, r1)
      case None => None
      case Some((elems, r2)) => Some((Arr(elems), r2))
  }

  /** An object after its tag: its size, then that many key-value pairs. */
  function DecodeObj(t: string): (r: Option<(Value, string)>)
    ensures r.Some? ==> |r.value.1| < |t| && Defined(r.value.0)
    decreases |t|, 2
  {
    match DecodeNat(t)
    case None => None
    case Some((n, r1)) =>
      match DecodeFields(n, r1)
      case None => None
      case Some((fields, r2)) => Some((Obj(fields), r2))
  }

  /** Reads `n` values off the front of `t`. */
  function DecodeElems(n: nat, t: string): (r: Option<(seq<Value>, string)>)
    ensures r.Some? ==> |r.value.1| <= |t| && forall i :: 0 <= i < |r.value.0| ==> Defined(r.value.0[i])
    decreases |t|, 1, n
  {
    if n == 0 then Some(([], t))
    else
      match Decode(t)
      case None => None
      case Some((v, r1)) =>
        match DecodeElems(n - 1, r1)
        case None => None
        case Some((vs, r2)) => Some(([v] + vs, r2))
  }

  /** Reads `n` key-value pairs off the front of `t`. */
  function DecodeFields(n: nat, t: string): (r: Option<(map<string, Value>, string)>)
    ensures r.Some? ==> |r.value.1| <= |t| && forall k :: k in r.value.0 ==> Defined(r.value.0[k])
    decreases |t|, 1, n
  {
    if n == 0 then Some((map[], t))
    else
      match DecodeText(t)
      case None => None
      case Some((k, r1)) =>
        match Decode(r1)
        case None => None
        case Some((v, r2)) =>
          match DecodeFields(n - 1, r2)
          case None => None
          case Some((fields, r3)) => Some((fields[k := v], r3))
  }

  /** The entries of `fields` whose keys are listed in `keys` from index `i` on. */
  function Restrict(fields: map<string, Value>, keys: seq<string>, i: nat): (r: map<string, Value>)
    requires i <= |keys| && forall k :: k in keys ==> k in fields
  {
    map k | k in keys[i..] :: fields[k]
  }

  lemma RestrictCons(fields: map<string, Value>, keys: seq<string>, i: nat)
    requires i < |keys| && forall k :: k in keys ==> k in fields
    ensures Restrict(fields, keys, i + 1)[keys[i] := fields[keys[i]]] == Restrict(fields, keys, i)
  {
    assert forall k :: k in keys[i..] <==> k == keys[i] || k in keys[i + 1..];
  }

  lemma EnumeratedFields(fields: map<string, Value>)
    ensures Restrict(fields, Enumerate(fields.Keys), 0) == fields
  {
    assert Enumerate(fields.Keys)[0..] == Enumerate(fields.Keys);
  }

  lemma ScalarRoundTrip(v: Value, rest: string)
    requires v.Null? || v.Bool? || v.Num? || v.Str?
    ensures Decode(EncodeThen(v, rest)) == Some((v, rest))
  {
    match v
    case Null => Tagged('n', rest);
    case Bool(b) => Tagged(if b then 't' else 'f', rest);
    case Num(d) =>
      Tagged('d', IntThen(d.mantissa, IntThen(d.exponent, rest)));
      IntRoundTrip(d.mantissa, IntThen(d.exponent, rest));
      IntRoundTrip(d.exponent, rest);
    case Str(s) =>
      Tagged('s', TextThen(s, rest));
      TextRoundTrip(s, rest);
  }

  /** A value JSON can write decodes back to itself, leaving the text that follows it. */
  lemma {:induction false} RoundTrip(v: Value, rest: string)
    requires Defined(v)
    ensures Decode(EncodeThen(v, rest)) == Some((v, rest))
    decreases v, 2, 0
  {
    match v
    case Arr(elems) => ArrRoundTrip(elems, rest);
    case Obj(fields) => ObjRoundTrip(fields, rest);
    case _ => ScalarRoundTrip(v, rest);
  }

  lemma {:induction false} ArrRoundTrip(elems: seq<Value>, rest: string)
    requires Defined(Arr(elems))
    ensures Decode(EncodeThen(Arr(elems), rest)) == Some((Arr(elems), rest))
    decreases Arr(elems), 1, 0
  {
    ElemsRoundTrip(elems, 0, rest);
    assert elems[0..] == elems;
    DecodeArrText(|elems|, ElemsThen(elems, 0, rest), elems, rest);
  }

  lemma {:induction false} ObjRoundTrip(fields: map<string, Value>, rest: string)
    requires Defined(Obj(fields))
    ensures Decode(EncodeThen(Obj(fields), rest)) == Some((Obj(fields), rest))
    decreases Obj(fields), 1, 0
  {
    var keys := Enumerate(fields.Keys);
    FieldsRoundTrip(fields, keys, 0, rest);
    EnumeratedFields(fields);
    DecodeObjText(|keys|, FieldsThen(fields, keys, 0, rest), fields, rest);
  }

  /** An array's tag and length, then the texts of its elements. */
  lemma DecodeArrText(n: nat, body: string, elems: seq<Value>, rest: string)
    requires DecodeElems(n, body) == Some((elems, rest))
    ensures Decode(['a'] + NatThen(n, body)) == Some((Arr(elems), rest))
  {
    Tagged('a', NatThen(n, body));
    NatRoundTrip(n, body);
  }

  /** An object's tag and size, then the texts of its entries. */
  lemma DecodeObjText(n: nat, body: string, fields: map<string, Value>, rest: string)
    requires DecodeFields(n, body) == Some((fields, rest))
    ensures Decode(['o'] + NatThen(n, body)) == Some((Obj(fields), rest))
  {
    Tagged('o', NatThen(n, body));
    NatRoundTrip(n, body);
  }

  /** The elements from index `i` on decode back from their texts. */
  lemma {:induction false} ElemsRoundTrip(elems: seq<Value>, i: nat, rest: string)
    requires i <= |elems| && Defined(Arr(elems))
    ensures DecodeElems(|elems| - i, ElemsThen(elems, i, rest)) == Some((elems[i..], rest))
    decreases Arr(elems), 0, |elems| - i
  {
    if i < |elems| {
      RoundTrip(elems[i], ElemsThen(elems, i + 1, rest));
      ElemsRoundTrip(elems, i + 1, rest);
      ElemsCons(elems, i, rest);
    } else {
      ElemsNil(elems, rest);
    }
  }

  lemma ElemsNil(elems: seq<Value>, rest: string)
    ensures DecodeElems(0, ElemsThen(elems, |elems|, rest)) == Some((elems[|elems|..], rest))
  {
    assert elems[|elems|..] == [];
  }

  /** One more element in front: its text decodes, then the rest of the texts do. */
  lemma ElemsCons(elems: seq<Value>, i: nat, rest: string)
    requires i < |elems|
    requires Decode(EncodeThen(elems[i], ElemsThen(elems, i + 1, rest))) == Some((elems[i], ElemsThen(elems, i + 1, rest)))
    requires DecodeElems(|elems| - (i + 1), ElemsThen(elems, i + 1, rest)) == Some((elems[i + 1..], rest))
    ensures DecodeElems(|elems| - i, ElemsThen(elems, i, rest)) == Some((elems[i..], rest))
  {
    assert elems[i..] == [elems[i]] + elems[i + 1..];
  }

  /** The entries from index `i` on decode back from their texts. */
  lemma {:induction false} FieldsRoundTrip(fields: map<string, Value>, keys: seq<string>, i: nat, rest: string)
    requires i <= |keys| && forall k :: k in keys ==> k in fields
    requires Defined(Obj(fields))
    ensures DecodeFields(|keys| - i, FieldsThen(fields, keys, i, rest)) == Some((Restrict(fields, keys, i), rest))
    decreases Obj(fields), 0, |keys| - i
  {
    if i < |keys| {
      var k := keys[i];
      var tail := FieldsThen(fields, keys, i + 1, rest);
      TextRoundTrip(k, EncodeThen(fields[k], tail));
      RoundTrip(fields[k], tail);
      FieldsRoundTrip(fields, keys, i + 1, rest);
      RestrictCons(fields, keys, i);
    }
  }

  /** Printing: a bare `undefined` gives "u", anything else the text of what JSON keeps of it. */
  ghost function Stringify(v: Value): string {
    if v == Undefined then "u" else EncodeThen(Reparsed(v), "")
  }

  /** Parsing: one whole value, with nothing after it. */
  function Parse(text: string): (r: Option<Value>) {
    match Decode(text)
    case Some((v, rest)) => if rest == "" then Some(v) else None
    case None => None
  }

  /** This codec meets every assumption `Json.Lawful` makes, so that predicate is not empty. */
  lemma EncodingIsLawful()
    ensures Lawful(Codec(Parse, Stringify))
  {
    var c := Codec(Parse, Stringify);
    forall v: Value | v != Undefined ensures c.parse(c.stringify(v)) == Some(Reparsed(v)) {
      RoundTrip(Reparsed(v), "");
      assert Parse(EncodeThen(Reparsed(v), "")) == Some(Reparsed(v));
    }
    assert c.parse(c.stringify(Undefined)) == None by {
      Tagged('u', "");
    }
  }
}

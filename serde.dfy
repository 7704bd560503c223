// How serde's derived `Deserialize` reads the fields of a struct from a
// JSON object: required fields, fields with a default, `Option` fields
// (absent or `null` is `None`), and sequences of elements. A decoder
// returns `None` where serde reports an error; the error text is not
// modelled.
module Serde {
  import opened Wrappers
  import opened JsonValue
  import SeqUtil

  const U32_LIMIT: nat := 0x1_0000_0000
  const U64_LIMIT: nat := 0x1_0000_0000_0000_0000

  /** A field is missing when the object lacks it. */
  predicate Absent(v: Json, k: string)
  {
    Get(v, k).None?
  }

  /** A required `String` field. */
  function ReqStr(v: Json, k: string): (r: Option<string>)
    ensures r.Some? <==> Get(v, k).Some? && Get(v, k).value.Str?
    ensures r.Some? ==> Get(v, k).value == Str(r.value)
  {
    GetStr(v, k)
  }

  /** A `bool` field with a default. */
  function BoolOr(v: Json, k: string, default: bool): (r: Option<bool>)
    ensures Absent(v, k) ==> r == Some(default)
    ensures !Absent(v, k) ==> (r.Some? <==> Get(v, k).value.Bool?)
    ensures !Absent(v, k) && r.Some? ==> Get(v, k).value == Bool(r.value)
  {
    match Get(v, k)
    case None => Some(default)
    case Some(Bool(b)) => Some(b)
    case Some(_) => None
  }

  /** An unsigned integer field below `limit`, required. */
  function ReqNat(v: Json, k: string, limit: nat): (r: Option<nat>)
    ensures r.Some? <==> Get(v, k).Some? && Get(v, k).value.Num? && 0 <= Get(v, k).value.n < limit
    ensures r.Some? ==> Get(v, k).value == Num(r.value)
  {
    match Get(v, k)
    case Some(Num(n)) => if 0 <= n < limit then Some(n as nat) else None
    case _ => None
  }

  /** An unsigned integer field below `limit`, with a default. */
  function NatOr(v: Json, k: string, default: nat, limit: nat): (r: Option<nat>)
    ensures Absent(v, k) ==> r == Some(default)
    ensures !Absent(v, k) ==> r == ReqNat(v, k, limit)
  {
    if Absent(v, k) then Some(default) else ReqNat(v, k, limit)
  }

  /** A required signed integer field in `[lo, hi)`. */
  function ReqInt(v: Json, k: string, lo: int, hi: int): (r: Option<int>)
    ensures r.Some? <==> Get(v, k).Some? && Get(v, k).value.Num? && lo <= Get(v, k).value.n < hi
    ensures r.Some? ==> Get(v, k).value == Num(r.value)
  {
    match Get(v, k)
    case Some(Num(n)) => if lo <= n < hi then Some(n) else None
    case _ => None
  }

  /** An `Option<String>` field: absent or `null` is `None`, a string is `Some`. */
  function OptStr(v: Json, k: string): (r: Option<Option<string>>)
    ensures (Absent(v, k) || Get(v, k).value.Null?) ==> r == Some(None)
    ensures Get(v, k).Some? && Get(v, k).value.Str? ==> r == Some(Some(Get(v, k).value.s))
    ensures r.None? <==> Get(v, k).Some? && !Get(v, k).value.Null? && !Get(v, k).value.Str?
  {
    match Get(v, k)
    case None => Some(None)
    case Some(Null) => Some(None)
    case Some(Str(s)) => Some(Some(s))
    case Some(_) => None
  }

  /** An `Option<Value>` field: absent or `null` is `None`, anything else is kept. */
  function OptValue(v: Json, k: string): (r: Option<Json>)
    ensures r.None? <==> Absent(v, k) || Get(v, k).value.Null?
    ensures r.Some? ==> r == Get(v, k)
  {
    match Get(v, k)
    case None => None
    case Some(Null) => None
    case Some(x) => Some(x)
  }

  /** An `Option<T>` field: absent or `null` is `None`, anything else must decode as a `T`. */
  function OptWith<T>(v: Json, k: string, dec: Json -> Option<T>): (r: Option<Option<T>>)
    ensures (Absent(v, k) || Get(v, k).value.Null?) ==> r == Some(None)
    ensures !Absent(v, k) && !Get(v, k).value.Null? ==>
              (r.Some? <==> dec(Get(v, k).value).Some?) && (r.Some? ==> r.value == dec(Get(v, k).value))
  {
    match Get(v, k)
    case None => Some(None)
    case Some(Null) => Some(None)
    case Some(x) => (match dec(x) case Some(y) => Some(Some(y)) case None => None)
  }

  /** `fields` with `k: x` added when `o` is `Some(x)` (`skip_serializing_if = "Option::is_none"`). */
  function WithOpt(fields: map<string, Json>, k: string, o: Option<Json>): (r: map<string, Json>)
    ensures o.None? ==> r == fields
    ensures o.Some? ==> r == fields[k := o.value]
  {
    if o.Some? then fields[k := o.value] else fields
  }

  /** Every element decodes, and the result lists them in order; the first failure fails the whole. */
  function DecodeAll<T>(xs: seq<Json>, f: Json -> Option<T>): (r: Option<seq<T>>)
    ensures r.Some? <==> forall i :: 0 <= i < |xs| ==> f(xs[i]).Some?
    ensures r.Some? ==> |r.value| == |xs| && forall i :: 0 <= i < |xs| ==> f(xs[i]) == Some(r.value[i])
  {
    if xs == [] then Some([])
    else match f(xs[0])
      case None => None
      case Some(y) =>
        match DecodeAll(xs[1..], f)
        case None =>
          assert !f(xs[1..][0]).Some? || exists i :: 0 <= i < |xs[1..]| && !f(xs[1..][i]).Some?;
          None
        case Some(ys) =>
          assert forall i :: 1 <= i < |xs| ==> xs[i] == xs[1..][i - 1];
          Some([y] + ys)
  }

  /** A `Vec<String>` field with an empty default. */
  function StrListOr(v: Json, k: string): (r: Option<seq<string>>)
    ensures Absent(v, k) ==> r == Some([])
    ensures !Absent(v, k) && !Get(v, k).value.Arr? ==> r.None?
    ensures !Absent(v, k) && Get(v, k).value.Arr? ==> r == DecodeAll(Get(v, k).value.items, AsStr)
  {
    match Get(v, k)
    case None => Some([])
    case Some(Arr(xs)) => DecodeAll(xs, AsStr)
    case Some(_) => None
  }

  /** The JSON array of a list of strings. */
  function StrArray(xs: seq<string>): (r: Json)
    ensures r.Arr? && |r.items| == |xs| && forall i :: 0 <= i < |xs| ==> r.items[i] == Str(xs[i])
  {
    if xs == [] then Arr([]) else Arr([Str(xs[0])] + StrArray(xs[1..]).items)
  }

  lemma {:induction false} DecodeStrArray(xs: seq<string>)
    ensures DecodeAll(StrArray(xs).items, AsStr) == Some(xs)
  {
    var items := StrArray(xs).items;
    assert forall i :: 0 <= i < |items| ==> AsStr(items[i]) == Some(xs[i]);
    var r := DecodeAll(items, AsStr);
    assert |r.value| == |xs|;
    forall i | 0 <= i < |xs| ensures r.value[i] == xs[i] {
      assert AsStr(items[i]) == Some(r.value[i]);
    }
    assert r.value == xs;
  }

  /** Decoding the encodings of values that each read back gives the values back. */
  lemma DecodeAllEncoded<T>(xs: seq<T>, enc: T -> Json, dec: Json -> Option<T>)
    requires forall i :: 0 <= i < |xs| ==> dec(enc(xs[i])) == Some(xs[i])
    ensures DecodeAll(SeqUtil.Map(xs, enc), dec) == Some(xs)
  {
    var encoded := SeqUtil.Map(xs, enc);
    assert forall i :: 0 <= i < |encoded| ==> dec(encoded[i]) == Some(xs[i]);
    var r := DecodeAll(encoded, dec);
    forall i | 0 <= i < |xs| ensures r.value[i] == xs[i] {
      assert dec(encoded[i]) == Some(r.value[i]);
    }
    assert r.value == xs;
  }

  /** A JSON object whose values are all strings, as a `HashMap<String, String>`. */
  function DecodeStrMap(v: Json): (r: Option<map<string, string>>)
    ensures r.Some? <==> v.Obj? && forall k :: k in v.fields ==> v.fields[k].Str?
    ensures r.Some? ==> r.value.Keys == v.fields.Keys && forall k :: k in r.value ==> v.fields[k] == Str(r.value[k])
  {
    if v.Obj? && forall k :: k in v.fields ==> v.fields[k].Str? then
      Some(map k | k in v.fields :: v.fields[k].s)
    else None
  }

  function EncodeStrMap(m: map<string, string>): (v: Json)
    ensures DecodeStrMap(v) == Some(m)
  {
    var v := Obj(map k | k in m :: Str(m[k]));
    assert DecodeStrMap(v).Some?;
    assert DecodeStrMap(v).value == m;
    v
  }
}

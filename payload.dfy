/**
 * The phase payload: what TypeScript types as `Record<string, any>`. A
 * payload is a string-keyed map of JSON-like values; `Date` objects are kept
 * as their own kind of value. The engine stores payloads verbatim; the phase
 * editors write their state into them and read it back.
 */
module Payload {
  import opened Wrappers

  /** A point in time (what `new Date()` returns), as milliseconds. */
  type Time = int

  datatype Value =
    | Null
    | Bool(b: bool)
    | Num(x: real)
    | Str(s: string)
    | Date(time: Time)
    | Arr(items: seq<Value>)
    | Obj(fields: map<string, Value>)

  type Data = map<string, Value>

  // ---------------------------------------------------------------------------
  // Reading fields

  function GetStr(m: Data, k: string): (r: Option<string>)
    ensures r.Some? <==> k in m && m[k].Str?
    ensures r.Some? ==> m[k] == Str(r.value)
  {
    if k in m && m[k].Str? then Some(m[k].s) else None
  }

  function GetBool(m: Data, k: string): (r: Option<bool>)
    ensures r.Some? <==> k in m && m[k].Bool?
    ensures r.Some? ==> m[k] == Bool(r.value)
  {
    if k in m && m[k].Bool? then Some(m[k].b) else None
  }

  function GetNum(m: Data, k: string): (r: Option<real>)
    ensures r.Some? <==> k in m && m[k].Num?
    ensures r.Some? ==> m[k] == Num(r.value)
  {
    if k in m && m[k].Num? then Some(m[k].x) else None
  }

  function GetDate(m: Data, k: string): (r: Option<Time>)
    ensures r.Some? <==> k in m && m[k].Date?
    ensures r.Some? ==> m[k] == Date(r.value)
  {
    if k in m && m[k].Date? then Some(m[k].time) else None
  }

  /** A number that is integral, read back as an integer. */
  function GetInt(m: Data, k: string): (r: Option<int>)
    ensures r.Some? ==> k in m && m[k] == Num(r.value as real)
    ensures k in m && m[k].Num? && m[k].x.Floor as real == m[k].x ==> r == Some(m[k].x.Floor)
  {
    match GetNum(m, k)
    case Some(x) => if x.Floor as real == x then Some(x.Floor) else None
    case None => None
  }

  // ---------------------------------------------------------------------------
  // Lists

  /** An array value holding the encoding of each element of `xs`. */
  function EncodeList<T>(xs: seq<T>, enc: T -> Value): (v: Value)
    ensures v.Arr? && |v.items| == |xs|
    ensures forall i :: 0 <= i < |xs| ==> v.items[i] == enc(xs[i])
  {
    Arr(seq(|xs|, i requires 0 <= i < |xs| => enc(xs[i])))
  }

  /** Decodes every element of `items`; `None` as soon as one does not decode. */
  function DecodeItems<T>(items: seq<Value>, dec: Value -> Option<T>): (r: Option<seq<T>>)
    ensures r.Some? ==> |r.value| == |items|
    ensures r.Some? ==> forall i :: 0 <= i < |items| ==> dec(items[i]) == Some(r.value[i])
    ensures r.None? ==> exists i :: 0 <= i < |items| && dec(items[i]).None?
  {
    if items == [] then Some([])
    else
      match dec(items[0])
      case None => None
      case Some(x) =>
        match DecodeItems(items[1..], dec)
        case None => None
        case Some(rest) => Some([x] + rest)
  }

  function DecodeList<T>(v: Value, dec: Value -> Option<T>): Option<seq<T>>
  {
    if v.Arr? then DecodeItems(v.items, dec) else None
  }

  /** A list whose elements round-trip through `enc`/`dec` round-trips as a whole. */
  lemma {:induction false} DecodeItemsOfEncoded<T>(xs: seq<T>, enc: T -> Value, dec: Value -> Option<T>)
    requires forall i :: 0 <= i < |xs| ==> dec(enc(xs[i])) == Some(xs[i])
    ensures DecodeItems(EncodeList(xs, enc).items, dec) == Some(xs)
  {
    var items := EncodeList(xs, enc).items;
    if xs != [] {
      DecodeItemsOfEncoded(xs[1..], enc, dec);
      assert items[1..] == EncodeList(xs[1..], enc).items;
      assert xs == [xs[0]] + xs[1..];
    }
  }

  lemma DecodeListOfEncoded<T>(xs: seq<T>, enc: T -> Value, dec: Value -> Option<T>)
    requires forall i :: 0 <= i < |xs| ==> dec(enc(xs[i])) == Some(xs[i])
    ensures DecodeList(EncodeList(xs, enc), dec) == Some(xs)
  {
    DecodeItemsOfEncoded(xs, enc, dec);
  }

  /** `data.key || []` for a list of entries decoded by `dec`. */
  function ListOf<T>(data: Data, key: string, dec: Value -> Option<T>): seq<T>
  {
    if key in data then DecodeList(data[key], dec).GetOr([]) else []
  }

  /** A list written under `key` with an encoder that `dec` inverts is read back unchanged. */
  lemma ListOfStored<T>(data: Data, key: string, xs: seq<T>, enc: T -> Value, dec: Value -> Option<T>)
    requires forall i :: 0 <= i < |xs| ==> dec(enc(xs[i])) == Some(xs[i])
    requires key in data && data[key] == EncodeList(xs, enc)
    ensures ListOf(data, key, dec) == xs
  {
    DecodeListOfEncoded(xs, enc, dec);
  }

  /** Two payloads that agree on entry `key` read the same list from it. */
  lemma ListOfSameEntry<T>(a: Data, b: Data, key: string, dec: Value -> Option<T>)
    requires key in a <==> key in b
    requires key in a ==> a[key] == b[key]
    ensures ListOf(a, key, dec) == ListOf(b, key, dec)
  {
  }

  // ---------------------------------------------------------------------------
  // String-keyed maps of booleans and of strings (`Record<string, boolean>`, ...)

  function EncodeFlags(m: map<string, bool>): (v: Value)
    ensures v.Obj? && v.fields.Keys == m.Keys
    ensures forall k :: k in m ==> v.fields[k] == Bool(m[k])
  {
    Obj(map k | k in m :: Bool(m[k]))
  }

  function DecodeFlags(v: Value): Option<map<string, bool>>
  {
    if v.Obj? && (forall k :: k in v.fields ==> v.fields[k].Bool?)
    then Some(map k | k in v.fields :: v.fields[k].b)
    else None
  }

  lemma DecodeFlagsOfEncoded(m: map<string, bool>)
    ensures DecodeFlags(EncodeFlags(m)) == Some(m)
  {
    var f := EncodeFlags(m).fields;
    var back := map k | k in f :: f[k].b;
    assert back.Keys == m.Keys;
    assert forall k :: k in back ==> back[k] == m[k];
    assert back == m;
  }

  function EncodeTexts(m: map<string, string>): (v: Value)
    ensures v.Obj? && v.fields.Keys == m.Keys
    ensures forall k :: k in m ==> v.fields[k] == Str(m[k])
  {
    Obj(map k | k in m :: Str(m[k]))
  }

  function DecodeTexts(v: Value): Option<map<string, string>>
  {
    if v.Obj? && (forall k :: k in v.fields ==> v.fields[k].Str?)
    then Some(map k | k in v.fields :: v.fields[k].s)
    else None
  }

  lemma DecodeTextsOfEncoded(m: map<string, string>)
    ensures DecodeTexts(EncodeTexts(m)) == Some(m)
  {
    var f := EncodeTexts(m).fields;
    var back := map k | k in f :: f[k].s;
    assert back.Keys == m.Keys;
    assert forall k :: k in back ==> back[k] == m[k];
    assert back == m;
  }
}

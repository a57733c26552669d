/** The escaped recursive JSON codec (src/scrapy_extension/backends/_json_codec.py) on
    JSON trees.  Printing and parsing JSON text, and the text of numbers, are not part
    of this model; dates enter through a pair of inverse functions. */
module JsonCodec {
  import opened Options
  import Base64

  datatype Error = SecretRejected | KeyNotString | NotFinite | NotSerializable | DuplicateKey

  datatype Result<+T> = Ok(value: T) | Err(error: Error)

  /** A key of a caller's dict. */
  datatype DictKey = Text(s: string) | SecretKey | OtherKey

  datatype Entry = Entry(key: DictKey, value: Value)

  /** The Python values the codec meets.  `Dict` lists its entries in insertion order,
      `SetOf` its members in iteration order; `Shown` is a finite Decimal, a UUID or a
      path, which all become their text; `Foreign` is any other type. */
  datatype Value =
    | Null
    | Bool(b: bool)
    | Int(i: int)
    | Float(r: real)
    | NonFinite
    | Str(s: string)
    | Bytes(data: seq<Base64.Byte>)
    | ByteArray(data: seq<Base64.Byte>)
    | DateTime(moment: nat)
    | Date(day: nat)
    | List(items: seq<Value>)
    | Tuple(items: seq<Value>)
    | Dict(entries: seq<Entry>)
    | SetOf(items: seq<Value>)
    | Shown(text: string)
    | EnumMember(value: Value)
    | Secret
    | Foreign

  datatype Json =
    | JNull
    | JBool(b: bool)
    | JInt(i: int)
    | JFloat(r: real)
    | JStr(s: string)
    | JArr(items: seq<Json>)
    | JObj(members: seq<(string, Json)>)

  /** `isoformat` and `fromisoformat` of datetimes and dates. */
  datatype Calendar = Calendar(
    showMoment: nat -> string,
    readMoment: string -> Option<nat>,
    showDay: nat -> string,
    readDay: string -> Option<nat>)

  ghost predicate Inverse(c: Calendar) {
    && (forall m: nat :: c.readMoment(c.showMoment(m)) == Some(m))
    && (forall d: nat :: c.readDay(c.showDay(d)) == Some(d))
  }

  const LEGACY := "__b64__"
  const TAG := "__scrapy_extension_json_type__"
  const DATA := "data"

  // ----- Association lists -----

  function Find<V>(members: seq<(string, V)>, key: string): Option<V> {
    if members == [] then None
    else if members[0].0 == key then Some(members[0].1)
    else Find(members[1..], key)
  }

  predicate Distinct<V>(members: seq<(string, V)>) {
    forall i, j :: 0 <= i < j < |members| ==> members[i].0 != members[j].0
  }

  // ----- Encoding -----

  function Tagged(kind: string, data: Json): Json {
    JObj([(TAG, JStr(kind)), (DATA, data)])
  }

  predicate IsKind(s: string) {
    s == "bytes" || s == "dict" || s == "datetime" || s == "date"
  }

  /** `_looks_like_codec_marker`. */
  predicate LooksLikeMarker(m: seq<(string, Json)>) {
    || (|m| == 1 && Find(m, LEGACY).Some? && Find(m, LEGACY).value.JStr?)
    || (|m| == 2 && Find(m, TAG).Some? && Find(m, TAG).value.JStr? && IsKind(Find(m, TAG).value.s)
        && Find(m, DATA).Some?)
  }

  /** A member of an escaped dict: the pair as a two-element array. */
  function PairsOf(m: seq<(string, Json)>): seq<Json> {
    if m == [] then [] else [JArr([JStr(m[0].0), m[0].1])] + PairsOf(m[1..])
  }

  function Escaped(m: seq<(string, Json)>): Json {
    if LooksLikeMarker(m) then Tagged("dict", JArr(PairsOf(m))) else JObj(m)
  }

  /** The first key that the codec refuses. */
  function KeyError(entries: seq<Entry>): Option<Error> {
    if entries == [] then None
    else match entries[0].key
      case SecretKey => Some(SecretRejected)
      case OtherKey => Some(KeyNotString)
      case Text(_) => KeyError(entries[1..])
  }

  /** `_encode_json_value`, with the fallback `_json_default`. */
  function Encode(c: Calendar, v: Value): Result<Json>
    decreases v, 1
  {
    match v
    case Secret => Err(SecretRejected)
    case Bytes(data) => Ok(Tagged("bytes", JStr(Base64.Encode(data))))
    case ByteArray(data) => Ok(Tagged("bytes", JStr(Base64.Encode(data))))
    case DateTime(m) => Ok(Tagged("datetime", JStr(c.showMoment(m))))
    case Date(d) => Ok(Tagged("date", JStr(c.showDay(d))))
    case Dict(entries) =>
      if KeyError(entries).Some? then Err(KeyError(entries).value)
      else (match EncodeEntries(c, entries)
            case Ok(m) => Ok(Escaped(m))
            case Err(e) => Err(e))
    case List(items) => ArrayOf(EncodeAll(c, items))
    case Tuple(items) => ArrayOf(EncodeAll(c, items))
    case NonFinite => Err(NotFinite)
    case Null => Ok(JNull)
    case Bool(b) => Ok(JBool(b))
    case Int(i) => Ok(JInt(i))
    case Float(r) => Ok(JFloat(r))
    case Str(s) => Ok(JStr(s))
    case Shown(text) => Ok(JStr(text))
    case SetOf(items) => ArrayOf(EncodeAll(c, items))
    case EnumMember(value) => Encode(c, value)
    case Foreign => Err(NotSerializable)
  }

  function ArrayOf(r: Result<seq<Json>>): Result<Json> {
    match r
    case Ok(items) => Ok(JArr(items))
    case Err(e) => Err(e)
  }

  function EncodeAll(c: Calendar, vs: seq<Value>): (r: Result<seq<Json>>)
    ensures r.Ok? ==> |r.value| == |vs|
    decreases vs, 0
  {
    if vs == [] then Ok([])
    else match Encode(c, vs[0])
      case Err(e) => Err(e)
      case Ok(first) =>
        match EncodeAll(c, vs[1..])
        case Err(e) => Err(e)
        case Ok(rest) => Ok([first] + rest)
  }

  function EncodeEntries(c: Calendar, es: seq<Entry>): (r: Result<seq<(string, Json)>>)
    requires KeyError(es).None?
    ensures r.Ok? ==> |r.value| == |es| && forall i :: 0 <= i < |es| ==> es[i].key == Text(r.value[i].0)
    decreases es, 0
  {
    if es == [] then Ok([])
    else
      assert es decreases to es[0];
      match Encode(c, es[0].value)
      case Err(e) => Err(e)
      case Ok(first) =>
        match EncodeEntries(c, es[1..])
        case Err(e) => Err(e)
        case Ok(rest) => Ok([(es[0].key.s, first)] + rest)
  }

  // ----- Decoding -----

  function AsDict(m: seq<(string, Value)>): Value {
    Dict(seq(|m|, i requires 0 <= i < |m| => Entry(Text(m[i].0), m[i].1)))
  }

  predicate IsPair(v: Value) {
    v.List? && |v.items| == 2 && v.items[0].Str?
  }

  predicate AllPairs(items: seq<Value>) {
    forall i :: 0 <= i < |items| ==> IsPair(items[i])
  }

  /** The members an escaped dict lists. */
  function Unpaired(items: seq<Value>): (m: seq<(string, Value)>)
    requires AllPairs(items)
    ensures |m| == |items|
    ensures forall i :: 0 <= i < |m| ==> m[i] == (items[i].items[0].s, items[i].items[1])
  {
    seq(|items|, i requires 0 <= i < |items| => (items[i].items[0].s, items[i].items[1]))
  }

  /** `_decode_bytes_tag`: the legacy bytes marker. */
  function DecodeLegacy(m: seq<(string, Value)>): Value {
    if |m| == 1 && Find(m, LEGACY).Some? && Find(m, LEGACY).value.Str? && Base64.Decode(Find(m, LEGACY).value.s).Some?
    then Bytes(Base64.Decode(Find(m, LEGACY).value.s).value)
    else AsDict(m)
  }

  /** The kind named by a two-member object with a string under the tag. */
  function KindOf(m: seq<(string, Value)>): Option<string> {
    if |m| == 2 && Find(m, TAG).Some? && Find(m, TAG).value.Str? then Some(Find(m, TAG).value.s) else None
  }

  /** `_decode_marker_dict`, on an object whose members are already decoded. */
  function DecodeMarker(c: Calendar, m: seq<(string, Value)>): Result<Value> {
    var data := Find(m, DATA);
    var kind := KindOf(m);
    if kind == Some("dict") && data.Some? && data.value.List? && AllPairs(data.value.items) then
      var inner := Unpaired(data.value.items);
      if Distinct(inner) then Ok(AsDict(inner)) else Err(DuplicateKey)
    else if data.Some? && data.value.Str? && kind == Some("bytes") && Base64.Decode(data.value.s).Some? then
      Ok(Bytes(Base64.Decode(data.value.s).value))
    else if data.Some? && data.value.Str? && kind == Some("datetime") && c.readMoment(data.value.s).Some? then
      Ok(DateTime(c.readMoment(data.value.s).value))
    else if data.Some? && data.value.Str? && kind == Some("date") && c.readDay(data.value.s).Some? then
      Ok(Date(c.readDay(data.value.s).value))
    else Ok(DecodeLegacy(m))
  }

  /** `_json_object_from_pairs`. */
  function FromPairs(c: Calendar, m: seq<(string, Value)>): Result<Value> {
    if Distinct(m) then DecodeMarker(c, m) else Err(DuplicateKey)
  }

  /** What `json.loads` builds with that hook, from the leaves up. */
  function Decode(c: Calendar, j: Json): Result<Value>
    decreases j, 1
  {
    match j
    case JNull => Ok(Null)
    case JBool(b) => Ok(Bool(b))
    case JInt(i) => Ok(Int(i))
    case JFloat(r) => Ok(Float(r))
    case JStr(s) => Ok(Str(s))
    case JArr(items) =>
      (match DecodeAll(c, items)
       case Ok(vs) => Ok(List(vs))
       case Err(e) => Err(e))
    case JObj(members) =>
      (match DecodeMembers(c, members)
       case Ok(m) => FromPairs(c, m)
       case Err(e) => Err(e))
  }

  function DecodeAll(c: Calendar, js: seq<Json>): (r: Result<seq<Value>>)
    ensures r.Ok? ==> |r.value| == |js|
    decreases js, 0
  {
    if js == [] then Ok([])
    else match Decode(c, js[0])
      case Err(e) => Err(e)
      case Ok(first) =>
        match DecodeAll(c, js[1..])
        case Err(e) => Err(e)
        case Ok(rest) => Ok([first] + rest)
  }

  function DecodeMembers(c: Calendar, m: seq<(string, Json)>): (r: Result<seq<(string, Value)>>)
    ensures r.Ok? ==> |r.value| == |m| && forall i :: 0 <= i < |m| ==> r.value[i].0 == m[i].0
    decreases m, 0
  {
    if m == [] then Ok([])
    else
      assert m decreases to m[0];
      match Decode(c, m[0].1)
      case Err(e) => Err(e)
      case Ok(first) =>
        match DecodeMembers(c, m[1..])
        case Err(e) => Err(e)
        case Ok(rest) => Ok([(m[0].0, first)] + rest)
  }

  // ----- What comes back -----

  /** A caller's value: no dict has two equal string keys. */
  predicate WellFormed(v: Value)
    decreases v
  {
    match v
    case List(items) => forall x :: x in items ==> WellFormed(x)
    case Tuple(items) => forall x :: x in items ==> WellFormed(x)
    case SetOf(items) => forall x :: x in items ==> WellFormed(x)
    case EnumMember(x) => WellFormed(x)
    case Dict(es) =>
      && (forall e :: e in es ==> WellFormed(e.value))
      && (forall i, j :: 0 <= i < j < |es| ==> es[i].key.Text? && es[j].key.Text? ==> es[i].key != es[j].key)
    case _ => true
  }

  /** The value as it comes back: sequences as lists, byte arrays as bytes, decimals and
      the like as text, enum members as their values. */
  function Normal(v: Value): Value
    decreases v, 1
  {
    match v
    case ByteArray(data) => Bytes(data)
    case List(items) => List(NormalAll(items))
    case Tuple(items) => List(NormalAll(items))
    case SetOf(items) => List(NormalAll(items))
    case Shown(text) => Str(text)
    case EnumMember(x) => Normal(x)
    case Dict(es) => Dict(NormalEntries(es))
    case _ => v
  }

  function NormalAll(vs: seq<Value>): seq<Value>
    decreases vs, 0
  {
    if vs == [] then [] else [Normal(vs[0])] + NormalAll(vs[1..])
  }

  function NormalEntries(es: seq<Entry>): seq<Entry>
    decreases es, 0
  {
    if es == [] then [] else
      assert es decreases to es[0];
      [Entry(es[0].key, Normal(es[0].value))] + NormalEntries(es[1..])
  }

  /** The members a dict of string keys decodes to. */
  function NormalMembers(es: seq<Entry>): seq<(string, Value)>
    requires KeyError(es).None?
    decreases es, 0
  {
    if es == [] then [] else
      assert es decreases to es[0];
      [(es[0].key.s, Normal(es[0].value))] + NormalMembers(es[1..])
  }

  lemma {:induction false} NormalMembersAt(es: seq<Entry>)
    requires KeyError(es).None?
    ensures |NormalMembers(es)| == |es|
    ensures forall i :: 0 <= i < |es| ==> es[i].key == Text(NormalMembers(es)[i].0)
    ensures AsDict(NormalMembers(es)) == Dict(NormalEntries(es))
  {
    if es != [] {
      NormalMembersAt(es[1..]);
      var m, rest := NormalMembers(es), NormalMembers(es[1..]);
      assert m == [(es[0].key.s, Normal(es[0].value))] + rest;
      assert AsDict(m).entries == [Entry(es[0].key, Normal(es[0].value))] + AsDict(rest).entries;
    } else {
      assert AsDict([]).entries == [];
    }
  }

  lemma MembersDistinct(es: seq<Entry>)
    requires KeyError(es).None? && WellFormed(Dict(es))
    ensures Distinct(NormalMembers(es))
  {
    NormalMembersAt(es);
  }

  // ----- Round trip -----

  lemma {:induction false} AllRoundTrip(c: Calendar, vs: seq<Value>)
    requires Inverse(c) && EncodeAll(c, vs).Ok? && forall v :: v in vs ==> WellFormed(v)
    ensures DecodeAll(c, EncodeAll(c, vs).value) == Ok(NormalAll(vs))
    decreases vs, 0
  {
    if vs != [] {
      assert vs[0] in vs;
      RoundTrip(c, vs[0]);
      AllRoundTrip(c, vs[1..]);
      assert EncodeAll(c, vs).value[1..] == EncodeAll(c, vs[1..]).value;
    }
  }

  lemma {:induction false} EntriesRoundTrip(c: Calendar, es: seq<Entry>)
    requires Inverse(c) && KeyError(es).None? && EncodeEntries(c, es).Ok? && forall e :: e in es ==> WellFormed(e.value)
    ensures DecodeMembers(c, EncodeEntries(c, es).value) == Ok(NormalMembers(es))
    decreases es, 0
  {
    if es != [] {
      assert es decreases to es[0];
      RoundTrip(c, es[0].value);
      EntriesRoundTrip(c, es[1..]);
      assert EncodeEntries(c, es).value[1..] == EncodeEntries(c, es[1..]).value;
    }
  }

  /** Round trip.  Whatever the codec accepts it gives back, up to the stated change of
      sequence, byte and text types, dicts shaped like a marker at any depth included;
      decoding its output never fails. */
  lemma {:induction false} RoundTrip(c: Calendar, v: Value)
    requires Inverse(c) && WellFormed(v) && Encode(c, v).Ok?
    ensures Decode(c, Encode(c, v).value) == Ok(Normal(v))
    decreases v, 1
  {
    match v
    case Bytes(data) => BytesRoundTrip(c, data);
    case ByteArray(data) => BytesRoundTrip(c, data);
    case DateTime(m) => TaggedDecodes(c, "datetime", JStr(c.showMoment(m)), Str(c.showMoment(m)));
    case Date(d) => TaggedDecodes(c, "date", JStr(c.showDay(d)), Str(c.showDay(d)));
    case List(items) => AllRoundTrip(c, items);
    case Tuple(items) => AllRoundTrip(c, items);
    case SetOf(items) => AllRoundTrip(c, items);
    case EnumMember(x) => RoundTrip(c, x);
    case Dict(es) =>
      EntriesRoundTrip(c, es);
      MembersDistinct(es);
      NormalMembersAt(es);
      EscapedRoundTrip(c, EncodeEntries(c, es).value, NormalMembers(es));
    case _ =>
  }

  lemma DecodeTwo(c: Calendar, first: Json, second: Json)
    requires Decode(c, first).Ok? && Decode(c, second).Ok?
    ensures DecodeAll(c, [first, second]) == Ok([Decode(c, first).value, Decode(c, second).value])
  {
    var js := [first, second];
    assert js[1..] == [second] && js[1..][1..] == [];
    assert DecodeAll(c, js[1..][1..]) == Ok([]);
    assert js[1..][0] == second;
    var none: seq<Value> := [];
    assert [Decode(c, second).value] + none == [Decode(c, second).value];
    assert DecodeAll(c, js[1..]) == Ok([Decode(c, second).value]);
    var a, b := Decode(c, first).value, Decode(c, second).value;
    assert DecodeAll(c, js) == Ok([a] + [b]);
    assert [a] + [b] == [a, b];
  }

  lemma DecodeTwoMembers(c: Calendar, first: (string, Json), second: (string, Json))
    requires Decode(c, first.1).Ok? && Decode(c, second.1).Ok?
    ensures DecodeMembers(c, [first, second])
            == Ok([(first.0, Decode(c, first.1).value), (second.0, Decode(c, second.1).value)])
  {
    var m := [first, second];
    assert m[1..] == [second] && m[1..][1..] == [];
    assert DecodeMembers(c, m[1..][1..]) == Ok([]);
    assert m[1..][0] == second;
    var none: seq<(string, Value)> := [];
    assert [(second.0, Decode(c, second.1).value)] + none == [(second.0, Decode(c, second.1).value)];
    assert DecodeMembers(c, m[1..]) == Ok([(second.0, Decode(c, second.1).value)]);
    var a, b := (first.0, Decode(c, first.1).value), (second.0, Decode(c, second.1).value);
    assert DecodeMembers(c, m) == Ok([a] + [b]);
    assert [a] + [b] == [a, b];
  }

  /** Decoding a tagged object comes down to decoding the marker. */
  lemma TaggedDecodes(c: Calendar, kind: string, data: Json, decoded: Value)
    requires Decode(c, data) == Ok(decoded)
    ensures Decode(c, Tagged(kind, data)) == DecodeMarker(c, [(TAG, Str(kind)), (DATA, decoded)])
    ensures KindOf([(TAG, Str(kind)), (DATA, decoded)]) == Some(kind)
    ensures Find([(TAG, Str(kind)), (DATA, decoded)], DATA) == Some(decoded)
  {
    var m := [(TAG, JStr(kind)), (DATA, data)];
    var d := [(TAG, Str(kind)), (DATA, decoded)];
    DecodeTwoMembers(c, m[0], m[1]);
    assert DecodeMembers(c, m) == Ok(d);
    assert Distinct(d);
    assert d[1..] == [(DATA, decoded)];
  }

  lemma BytesRoundTrip(c: Calendar, data: seq<Base64.Byte>)
    ensures Decode(c, Tagged("bytes", JStr(Base64.Encode(data)))) == Ok(Bytes(data))
  {
    Base64.RoundTrip(data);
    TaggedDecodes(c, "bytes", JStr(Base64.Encode(data)), Str(Base64.Encode(data)));
  }

  /** Decoding keeps strings strings and nothing else becomes one. */
  lemma OnlyStringsDecodeToStrings(c: Calendar, j: Json)
    requires Decode(c, j).Ok?
    ensures Decode(c, j).value.Str? <==> j.JStr?
    ensures j.JStr? ==> Decode(c, j).value == Str(j.s)
  {
  }

  lemma {:induction false} FindDecoded(c: Calendar, m: seq<(string, Json)>, key: string)
    requires DecodeMembers(c, m).Ok?
    ensures var d := DecodeMembers(c, m).value;
            && (Find(m, key).Some? <==> Find(d, key).Some?)
            && (Find(m, key).Some? ==> Decode(c, Find(m, key).value) == Ok(Find(d, key).value))
  {
    if m != [] {
      FindDecoded(c, m[1..], key);
      assert DecodeMembers(c, m).value[1..] == DecodeMembers(c, m[1..]).value;
    }
  }

  /** The encoder escapes every dict the decoder would retype, and some it would not: an
      object that does not look like a marker decodes to the dict it was. */
  lemma UnescapedStaysDict(c: Calendar, m: seq<(string, Json)>)
    requires DecodeMembers(c, m).Ok? && !LooksLikeMarker(m)
    ensures DecodeMarker(c, DecodeMembers(c, m).value) == Ok(AsDict(DecodeMembers(c, m).value))
  {
    var d := DecodeMembers(c, m).value;
    FindDecoded(c, m, TAG);
    FindDecoded(c, m, DATA);
    FindDecoded(c, m, LEGACY);
    if Find(m, TAG).Some? { OnlyStringsDecodeToStrings(c, Find(m, TAG).value); }
    if Find(m, LEGACY).Some? { OnlyStringsDecodeToStrings(c, Find(m, LEGACY).value); }
  }

  function Paired(m: seq<(string, Value)>): seq<Value> {
    if m == [] then [] else [List([Str(m[0].0), m[0].1])] + Paired(m[1..])
  }

  lemma {:induction false} PairsDecode(c: Calendar, m: seq<(string, Json)>)
    requires DecodeMembers(c, m).Ok?
    ensures DecodeAll(c, PairsOf(m)) == Ok(Paired(DecodeMembers(c, m).value))
  {
    if m != [] {
      PairsDecode(c, m[1..]);
      var d := DecodeMembers(c, m).value;
      assert d[1..] == DecodeMembers(c, m[1..]).value;
      DecodeTwo(c, JStr(m[0].0), m[0].1);
      assert PairsOf(m)[1..] == PairsOf(m[1..]);
    }
  }

  lemma {:induction false} PairedAt(m: seq<(string, Value)>)
    ensures |Paired(m)| == |m|
    ensures forall i :: 0 <= i < |m| ==> Paired(m)[i] == List([Str(m[i].0), m[i].1])
  {
    if m != [] {
      PairedAt(m[1..]);
    }
  }

  lemma UnpairsPaired(m: seq<(string, Value)>)
    ensures AllPairs(Paired(m)) && Unpaired(Paired(m)) == m
  {
    PairedAt(m);
  }

  lemma EscapedRoundTrip(c: Calendar, m: seq<(string, Json)>, d: seq<(string, Value)>)
    requires DecodeMembers(c, m) == Ok(d) && Distinct(d)
    ensures Decode(c, Escaped(m)) == Ok(AsDict(d))
  {
    if LooksLikeMarker(m) {
      PairsDecode(c, m);
      UnpairsPaired(d);
      TaggedDecodes(c, "dict", JArr(PairsOf(m)), List(Paired(d)));
    } else {
      UnescapedStaysDict(c, m);
    }
  }

  // ----- The two loops that fill a dict -----

  lemma {:induction false} FindMeansMember<V>(m: seq<(string, V)>, key: string)
    ensures Find(m, key).Some? <==> exists i :: 0 <= i < |m| && m[i].0 == key
  {
    if m != [] {
      FindMeansMember(m[1..], key);
      assert forall i :: 0 < i < |m| ==> m[i] == m[1..][i - 1];
    }
  }

  /** The loop of `_decode_marker_dict` over an escaped dict's pairs. */
  method FillEscaped(items: seq<Value>) returns (r: Result<Value>)
    requires AllPairs(items)
    ensures r == (if Distinct(Unpaired(items)) then Ok(AsDict(Unpaired(items))) else Err(DuplicateKey))
  {
    var decoded: seq<(string, Value)> := [];
    for i := 0 to |items|
      invariant decoded == Unpaired(items)[..i] && Distinct(decoded)
    {
      assert IsPair(items[i]);
      var key := items[i].items[0].s;
      FindMeansMember(decoded, key);
      assert Unpaired(items)[i].0 == key;
      if Find(decoded, key).Some? { return Err(DuplicateKey); }
      decoded := decoded + [(key, items[i].items[1])];
    }
    assert decoded == Unpaired(items);
    r := Ok(AsDict(decoded));
  }

  /** `_json_object_from_pairs`, the hook `json.loads` calls on every object. */
  method ObjectFromPairs(c: Calendar, pairs: seq<(string, Value)>) returns (r: Result<Value>)
    ensures r == FromPairs(c, pairs)
  {
    var result: seq<(string, Value)> := [];
    for i := 0 to |pairs|
      invariant result == pairs[..i] && Distinct(result)
    {
      FindMeansMember(result, pairs[i].0);
      if Find(result, pairs[i].0).Some? { return Err(DuplicateKey); }
      result := result + [pairs[i]];
    }
    assert result == pairs;
    var data := Find(result, DATA);
    if KindOf(result) == Some("dict") && data.Some? && data.value.List? && AllPairs(data.value.items) {
      r := FillEscaped(data.value.items);
    } else {
      r := DecodeMarker(c, result);
    }
  }

  // ----- Consequences -----

  /** No collision: two values with the same encoding come back equal. */
  lemma EncodingDetermines(c: Calendar, v: Value, u: Value)
    requires Inverse(c) && WellFormed(v) && WellFormed(u)
    requires Encode(c, v).Ok? && Encode(c, v) == Encode(c, u)
    ensures Normal(v) == Normal(u)
  {
    RoundTrip(c, v);
    RoundTrip(c, u);
  }

  /** Only dicts shaped like a marker are escaped: one with more than two members, or
      without the keys of either marker, is written as the plain object of its members. */
  lemma OrdinaryDictsStayPlain(c: Calendar, es: seq<Entry>)
    requires Encode(c, Dict(es)).Ok?
    requires |es| > 2 || (forall i :: 0 <= i < |es| ==> es[i].key != Text(LEGACY) && es[i].key != Text(TAG))
    ensures KeyError(es).None? && EncodeEntries(c, es).Ok?
    ensures Encode(c, Dict(es)) == Ok(JObj(EncodeEntries(c, es).value))
  {
    var m := EncodeEntries(c, es).value;
    FindMeansMember(m, LEGACY);
    FindMeansMember(m, TAG);
  }

  /** What the codec accepts. */
  predicate Serializable(v: Value)
    decreases v
  {
    match v
    case List(items) => forall x :: x in items ==> Serializable(x)
    case Tuple(items) => forall x :: x in items ==> Serializable(x)
    case SetOf(items) => forall x :: x in items ==> Serializable(x)
    case EnumMember(x) => Serializable(x)
    case Dict(es) => forall e :: e in es ==> e.key.Text? && Serializable(e.value)
    case NonFinite => false
    case Secret => false
    case Foreign => false
    case _ => true
  }

  lemma {:induction false} KeysText(es: seq<Entry>)
    ensures KeyError(es).None? <==> forall e :: e in es ==> e.key.Text?
  {
    if es != [] {
      KeysText(es[1..]);
      assert forall e :: e in es <==> e == es[0] || e in es[1..];
    }
  }

  lemma {:induction false} AllAccepted(c: Calendar, vs: seq<Value>)
    ensures EncodeAll(c, vs).Ok? <==> forall v :: v in vs ==> Serializable(v)
    decreases vs, 0
  {
    if vs != [] {
      assert forall v :: v in vs <==> v == vs[0] || v in vs[1..];
      AcceptedExactly(c, vs[0]);
      AllAccepted(c, vs[1..]);
    }
  }

  lemma {:induction false} EntriesAccepted(c: Calendar, es: seq<Entry>)
    requires KeyError(es).None?
    ensures EncodeEntries(c, es).Ok? <==> forall e :: e in es ==> Serializable(e.value)
    decreases es, 0
  {
    if es != [] {
      assert es decreases to es[0];
      assert forall e :: e in es <==> e == es[0] || e in es[1..];
      AcceptedExactly(c, es[0].value);
      EntriesAccepted(c, es[1..]);
    }
  }

  /** A value is accepted exactly when no secret, non-finite number, foreign object or
      non-string key occurs in it at any depth. */
  lemma {:induction false} AcceptedExactly(c: Calendar, v: Value)
    ensures Encode(c, v).Ok? <==> Serializable(v)
    decreases v, 1
  {
    match v
    case List(items) => AllAccepted(c, items);
    case Tuple(items) => AllAccepted(c, items);
    case SetOf(items) => AllAccepted(c, items);
    case EnumMember(x) => AcceptedExactly(c, x);
    case Dict(es) =>
      KeysText(es);
      if KeyError(es).None? { EntriesAccepted(c, es); }
    case _ =>
  }

  lemma OneMemberDecodes(c: Calendar, key: string, s: string)
    ensures DecodeMembers(c, [(key, JStr(s))]) == Ok([(key, Str(s))])
  {
    hide Base64.Encode, Base64.Decode;
    var m: seq<(string, Json)> := [(key, JStr(s))];
    var d: seq<(string, Value)> := [(key, Str(s))];
    var none: seq<(string, Value)> := [];
    assert m[1..] == [] && DecodeMembers(c, m[1..]) == Ok(none);
    assert Decode(c, m[0].1) == Ok(Str(s));
    assert d + none == d;
  }

  /** A legacy bytes marker is still read. */
  lemma LegacyBytesRead(c: Calendar, data: seq<Base64.Byte>)
    ensures Decode(c, JObj([(LEGACY, JStr(Base64.Encode(data)))])) == Ok(Bytes(data))
  {
    Base64.RoundTrip(data);
    OneMemberDecodes(c, LEGACY, Base64.Encode(data));
    hide Base64.Encode, Base64.Decode, DecodeMembers;
    var d: seq<(string, Value)> := [(LEGACY, Str(Base64.Encode(data)))];
    assert FromPairs(c, d) == DecodeMarker(c, d);
    assert KindOf(d).None?;
    assert DecodeMarker(c, d) == Ok(DecodeLegacy(d));
  }

  /** The fragment whose values come back exactly. */
  predicate Exact(v: Value)
    decreases v
  {
    match v
    case List(items) => forall x :: x in items ==> Exact(x)
    case Dict(es) => forall e :: e in es ==> e.key.Text? && Exact(e.value)
    case Null => true
    case Bool(_) => true
    case Int(_) => true
    case Float(_) => true
    case Str(_) => true
    case Bytes(_) => true
    case DateTime(_) => true
    case Date(_) => true
    case _ => false
  }

  lemma {:induction false} ExactAll(c: Calendar, vs: seq<Value>)
    requires forall v :: v in vs ==> Exact(v)
    ensures EncodeAll(c, vs).Ok? && NormalAll(vs) == vs
    decreases vs, 0
  {
    if vs != [] {
      assert vs[0] in vs;
      ExactIsAccepted(c, vs[0]);
      ExactAll(c, vs[1..]);
    }
  }

  lemma {:induction false} ExactEntries(c: Calendar, es: seq<Entry>)
    requires forall e :: e in es ==> e.key.Text? && Exact(e.value)
    ensures KeyError(es).None? && EncodeEntries(c, es).Ok? && NormalEntries(es) == es
    decreases es, 0
  {
    if es != [] {
      assert es decreases to es[0];
      ExactIsAccepted(c, es[0].value);
      ExactEntries(c, es[1..]);
    }
  }

  lemma {:induction false} ExactIsAccepted(c: Calendar, v: Value)
    requires Exact(v)
    ensures Encode(c, v).Ok? && Normal(v) == v
    decreases v, 1
  {
    match v
    case List(items) => ExactAll(c, items);
    case Dict(es) => ExactEntries(c, es);
    case _ =>
  }

  /** None, booleans, finite numbers, strings, bytes, datetimes, dates, and lists and
      string-keyed dicts of these: accepted, and returned exactly. */
  lemma ExactRoundTrip(c: Calendar, v: Value)
    requires Inverse(c) && WellFormed(v) && Exact(v)
    ensures Encode(c, v).Ok? && Decode(c, Encode(c, v).value) == Ok(v)
  {
    ExactIsAccepted(c, v);
    RoundTrip(c, v);
  }
}

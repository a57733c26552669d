/** The wire format of the codec, spelled out, and which refusal a value meets. */
module JsonWire {
  import opened Options
  import opened JsonCodec
  import Base64

  /** The form each rich value is written in. */
  lemma WireFormat(c: Calendar, data: seq<Base64.Byte>, moment: nat, day: nat)
    ensures var tag := "__scrapy_extension_json_type__";
            && Encode(c, Bytes(data)) == Ok(JObj([(tag, JStr("bytes")), ("data", JStr(Base64.Encode(data)))]))
            && Encode(c, ByteArray(data)) == Encode(c, Bytes(data))
            && Encode(c, DateTime(moment)) == Ok(JObj([(tag, JStr("datetime")), ("data", JStr(c.showMoment(moment)))]))
            && Encode(c, Date(day)) == Ok(JObj([(tag, JStr("date")), ("data", JStr(c.showDay(day)))]))
  {
  }

  /** A dict that looks like a marker is written as the list of its members. */
  lemma EscapeFormat(c: Calendar, es: seq<Entry>)
    requires KeyError(es).None? && EncodeEntries(c, es).Ok?
    ensures var m := EncodeEntries(c, es).value;
            && |PairsOf(m)| == |m| && (forall i :: 0 <= i < |m| ==> PairsOf(m)[i] == JArr([JStr(m[i].0), m[i].1]))
            && Encode(c, Dict(es))
               == Ok(if LooksLikeMarker(m)
                     then JObj([("__scrapy_extension_json_type__", JStr("dict")), ("data", JArr(PairsOf(m)))])
                     else JObj(m))
  {
    PairsAt(EncodeEntries(c, es).value);
  }

  lemma {:induction false} PairsAt(m: seq<(string, Json)>)
    ensures |PairsOf(m)| == |m| && forall i :: 0 <= i < |m| ==> PairsOf(m)[i] == JArr([JStr(m[i].0), m[i].1])
  {
    if m != [] { PairsAt(m[1..]); }
  }

  /** What a tagged object with text decodes to: the value its tag names, if the text is
      one, and otherwise the dict it spells. */
  lemma TaggedTextDecodes(c: Calendar, kind: string, text: string)
    ensures Decode(c, JObj([("__scrapy_extension_json_type__", JStr(kind)), ("data", JStr(text))]))
         == Ok(if kind == "bytes" && Base64.Decode(text).Some? then Bytes(Base64.Decode(text).value)
               else if kind == "datetime" && c.readMoment(text).Some? then DateTime(c.readMoment(text).value)
               else if kind == "date" && c.readDay(text).Some? then Date(c.readDay(text).value)
               else Dict([Entry(Text("__scrapy_extension_json_type__"), Str(kind)), Entry(Text("data"), Str(text))]))
  {
    hide Base64.Decode;
    TaggedDecodes(c, kind, JStr(text), Str(text));
    var d := [(TAG, Str(kind)), (DATA, Str(text))];
    assert AsDict(d) == Dict([Entry(Text(TAG), Str(kind)), Entry(Text(DATA), Str(text))]);
  }

  /** A one-member object under the legacy name decodes to bytes if its text is base64, and
      otherwise to the dict it spells. */
  lemma LegacyDecodes(c: Calendar, text: string)
    ensures Decode(c, JObj([("__b64__", JStr(text))]))
         == Ok(if Base64.Decode(text).Some? then Bytes(Base64.Decode(text).value)
               else Dict([Entry(Text("__b64__"), Str(text))]))
  {
    hide Base64.Decode;
    OneMemberDecodes(c, LEGACY, text);
    var d := [(LEGACY, Str(text))];
    assert Distinct(d);
    assert AsDict(d) == Dict([Entry(Text(LEGACY), Str(text))]);
    hide DecodeMembers;
  }

  // ----- Refusals -----

  /** Something that the codec refuses with this error occurs in the value. */
  predicate Contains(v: Value, e: Error)
    decreases v
  {
    match v
    case Secret => e == SecretRejected
    case NonFinite => e == NotFinite
    case Foreign => e == NotSerializable
    case List(items) => exists x :: x in items && Contains(x, e)
    case Tuple(items) => exists x :: x in items && Contains(x, e)
    case SetOf(items) => exists x :: x in items && Contains(x, e)
    case EnumMember(x) => Contains(x, e)
    case Dict(es) =>
      exists x :: x in es && (Contains(x.value, e)
                              || (x.key.SecretKey? && e == SecretRejected) || (x.key.OtherKey? && e == KeyNotString))
    case _ => false
  }

  lemma {:induction false} KeyErrorOccurs(es: seq<Entry>)
    ensures KeyError(es).Some? ==>
              exists x :: x in es && ((x.key.SecretKey? && KeyError(es).value == SecretRejected)
                                      || (x.key.OtherKey? && KeyError(es).value == KeyNotString))
  {
    if es != [] && es[0].key.Text? {
      KeyErrorOccurs(es[1..]);
    } else if es != [] {
      assert es[0] in es;
    }
  }

  lemma {:induction false} AllErrors(c: Calendar, vs: seq<Value>)
    ensures EncodeAll(c, vs).Err? ==> exists x :: x in vs && Contains(x, EncodeAll(c, vs).error)
    decreases vs, 0
  {
    if vs != [] {
      assert vs[0] in vs;
      ErrorOccurs(c, vs[0]);
      AllErrors(c, vs[1..]);
    }
  }

  lemma {:induction false} EntryErrors(c: Calendar, es: seq<Entry>)
    requires KeyError(es).None?
    ensures EncodeEntries(c, es).Err? ==> exists x :: x in es && Contains(x.value, EncodeEntries(c, es).error)
    decreases es, 0
  {
    if es != [] {
      assert es decreases to es[0];
      assert es[0] in es;
      ErrorOccurs(c, es[0].value);
      EntryErrors(c, es[1..]);
    }
  }

  /** A refusal has its reason: the error reported is that of a secret, a number that is not
      finite, an object of another type or a key that is not text, which occurs in the
      value. */
  lemma {:induction false} ErrorOccurs(c: Calendar, v: Value)
    ensures Encode(c, v).Err? ==> Contains(v, Encode(c, v).error)
    decreases v, 1
  {
    match v
    case List(items) => AllErrors(c, items);
    case Tuple(items) => AllErrors(c, items);
    case SetOf(items) => AllErrors(c, items);
    case EnumMember(x) => ErrorOccurs(c, x);
    case Dict(es) =>
      KeyErrorOccurs(es);
      if KeyError(es).None? { EntryErrors(c, es); }
    case _ =>
  }
}

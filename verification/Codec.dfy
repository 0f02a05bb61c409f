/** The JSON codec: byte strings travel as {"__bytes__": base64} objects, and messages as
    dictionaries. JSON text is taken as a faithful carrier of values without byte strings. */
module Codec {
  import opened Types
  import Base64

  /** A value of a message: Python's None, bool, int or float, str, bytes, list, and dict with
      string keys, in insertion order. */
  datatype Value =
    | Null
    | Bool(b: bool)
    | Num(n: real)
    | Str(s: string)
    | Bytes(bytes: Base64.Bytes)
    | List(items: seq<Value>)
    | Dict(entries: seq<Entry>)

  datatype Entry = Entry(key: string, value: Value)

  const BYTES_KEY := "__bytes__"

  datatype CodecError =
    | NotAString         // "__bytes__" holds something that cannot be encoded as text
    | NotAscii
    | IncorrectPadding
    | MalformedMessage

  function Lookup(entries: seq<Entry>, key: string): Option<Value> {
    if entries == [] then None
    else if entries[0].key == key then Some(entries[0].value)
    else Lookup(entries[1..], key)
  }

  // ---------- the transformation ----------

  function Encode(v: Value): Value {
    match v
    case Bytes(bytes) => Dict([Entry(BYTES_KEY, Str(Base64.Encode(bytes)))])
    case List(items) => List(EncodeItems(items))
    case Dict(entries) => Dict(EncodeEntries(entries))
    case _ => v
  }

  function EncodeItems(items: seq<Value>): seq<Value> {
    if items == [] then [] else [Encode(items[0])] + EncodeItems(items[1..])
  }

  function EncodeEntries(entries: seq<Entry>): seq<Entry> {
    if entries == [] then []
    else [Entry(entries[0].key, Encode(entries[0].value))] + EncodeEntries(entries[1..])
  }

  function DecodeBytes(v: Value): Result<Value, CodecError> {
    if !v.Str? then Err(NotAString)
    else if !Base64.IsAscii(v.s) then Err(NotAscii)
    else match Base64.Decode(v.s)
      case Ok(bytes) => Ok(Bytes(bytes))
      case Err(_) => Err(IncorrectPadding)
  }

  function Decode(v: Value): Result<Value, CodecError> {
    match v
    case List(items) =>
      (match DecodeItems(items)
       case Ok(decoded) => Ok(List(decoded))
       case Err(e) => Err(e))
    case Dict(entries) =>
      (match Lookup(entries, BYTES_KEY)
       case Some(text) => DecodeBytes(text)
       case None =>
         match DecodeEntries(entries)
         case Ok(decoded) => Ok(Dict(decoded))
         case Err(e) => Err(e))
    case _ => Ok(v)
  }

  function DecodeItems(items: seq<Value>): Result<seq<Value>, CodecError> {
    if items == [] then Ok([])
    else match Decode(items[0])
      case Err(e) => Err(e)
      case Ok(first) =>
        match DecodeItems(items[1..])
        case Err(e) => Err(e)
        case Ok(rest) => Ok([first] + rest)
  }

  function DecodeEntries(entries: seq<Entry>): Result<seq<Entry>, CodecError> {
    if entries == [] then Ok([])
    else match Decode(entries[0].value)
      case Err(e) => Err(e)
      case Ok(first) =>
        match DecodeEntries(entries[1..])
        case Err(e) => Err(e)
        case Ok(rest) => Ok([Entry(entries[0].key, first)] + rest)
  }

  // ---------- what can be sent ----------

  /** No dictionary inside v, at any depth, has the key "__bytes__". */
  predicate Clean(v: Value) {
    match v
    case List(items) => forall i :: 0 <= i < |items| ==> Clean(items[i])
    case Dict(entries) => forall i :: 0 <= i < |entries| ==> entries[i].key != BYTES_KEY && Clean(entries[i].value)
    case _ => true
  }

  /** v holds no byte string, at any depth. */
  predicate TextOnly(v: Value) {
    match v
    case Bytes(_) => false
    case List(items) => forall i :: 0 <= i < |items| ==> TextOnly(items[i])
    case Dict(entries) => forall i :: 0 <= i < |entries| ==> TextOnly(entries[i].value)
    case _ => true
  }

  lemma {:induction false} EncodedIsTextOnly(v: Value)
    ensures TextOnly(Encode(v))
  {
    match v
    case List(items) => ItemsAreTextOnly(items);
    case Dict(entries) => EntriesAreTextOnly(entries);
    case _ =>
  }

  lemma {:induction false} ItemsAreTextOnly(items: seq<Value>)
    ensures forall i :: 0 <= i < |EncodeItems(items)| ==> TextOnly(EncodeItems(items)[i])
  {
    if items != [] {
      EncodedIsTextOnly(items[0]);
      ItemsAreTextOnly(items[1..]);
    }
  }

  lemma {:induction false} EntriesAreTextOnly(entries: seq<Entry>)
    ensures forall i :: 0 <= i < |EncodeEntries(entries)| ==> TextOnly(EncodeEntries(entries)[i].value)
  {
    if entries != [] {
      EncodedIsTextOnly(entries[0].value);
      EntriesAreTextOnly(entries[1..]);
    }
  }

  predicate HasKey(entries: seq<Entry>, key: string) {
    exists i :: 0 <= i < |entries| && entries[i].key == key
  }

  lemma {:induction false} LookupFinds(entries: seq<Entry>, key: string)
    ensures Lookup(entries, key).Some? <==> HasKey(entries, key)
  {
    if entries != [] {
      LookupFinds(entries[1..], key);
      if HasKey(entries[1..], key) {
        var i :| 0 <= i < |entries| - 1 && entries[1..][i].key == key;
        assert entries[i + 1].key == key;
      }
      if HasKey(entries, key) && entries[0].key != key {
        var i :| 0 <= i < |entries| && entries[i].key == key;
        assert entries[1..][i - 1].key == key;
      }
    }
  }

  lemma {:induction false} EncodingKeepsKeys(entries: seq<Entry>)
    ensures |EncodeEntries(entries)| == |entries|
    ensures forall i :: 0 <= i < |entries| ==> EncodeEntries(entries)[i].key == entries[i].key
  {
    if entries != [] {
      EncodingKeepsKeys(entries[1..]);
    }
  }

  /** Decoding an encoded value gives it back, if and only if it has no "__bytes__" key. */
  lemma {:induction false} RoundTrip(v: Value)
    ensures Decode(Encode(v)) == Ok(v) <==> Clean(v)
  {
    match v
    case Bytes(bytes) =>
      Base64.RoundTrip(bytes);
      Base64.EncodedIsAscii(bytes);
    case List(items) =>
      ItemsRoundTrip(items);
    case Dict(entries) =>
      EncodingKeepsKeys(entries);
      LookupFinds(EncodeEntries(entries), BYTES_KEY);
      EntriesRoundTrip(entries);
    case _ =>
  }

  lemma {:induction false} ItemsRoundTrip(items: seq<Value>)
    ensures DecodeItems(EncodeItems(items)) == Ok(items) <==> forall i :: 0 <= i < |items| ==> Clean(items[i])
  {
    if items != [] {
      var encoded := EncodeItems(items);
      assert encoded[1..] == EncodeItems(items[1..]);
      assert items == [items[0]] + items[1..];
      RoundTrip(items[0]);
      ItemsRoundTrip(items[1..]);
    }
  }

  lemma {:induction false} EntriesRoundTrip(entries: seq<Entry>)
    ensures DecodeEntries(EncodeEntries(entries)) == Ok(entries) <==> forall i :: 0 <= i < |entries| ==> Clean(entries[i].value)
  {
    if entries != [] {
      var encoded := EncodeEntries(entries);
      assert encoded[1..] == EncodeEntries(entries[1..]);
      assert entries == [entries[0]] + entries[1..];
      RoundTrip(entries[0].value);
      EntriesRoundTrip(entries[1..]);
    }
  }

  /** Every "__bytes__" entry reached from the top holds ASCII text of correctly padded base64. */
  predicate Decodable(v: Value) {
    match v
    case List(items) => forall i :: 0 <= i < |items| ==> Decodable(items[i])
    case Dict(entries) =>
      (match Lookup(entries, BYTES_KEY)
       case Some(text) => text.Str? && Base64.IsAscii(text.s) && Base64.Decode(text.s).Ok?
       case None => forall i :: 0 <= i < |entries| ==> Decodable(entries[i].value))
    case _ => true
  }

  /** Decoding fails exactly on values that are not decodable, whatever their shape. */
  lemma {:induction false} DecodesIff(v: Value)
    ensures Decode(v).Ok? <==> Decodable(v)
  {
    match v
    case List(items) => ItemsDecodeIff(items);
    case Dict(entries) => EntriesDecodeIff(entries);
    case _ =>
  }

  lemma {:induction false} ItemsDecodeIff(items: seq<Value>)
    ensures DecodeItems(items).Ok? <==> forall i :: 0 <= i < |items| ==> Decodable(items[i])
  {
    if items != [] {
      DecodesIff(items[0]);
      ItemsDecodeIff(items[1..]);
    }
  }

  lemma {:induction false} EntriesDecodeIff(entries: seq<Entry>)
    ensures DecodeEntries(entries).Ok? <==> forall i :: 0 <= i < |entries| ==> Decodable(entries[i].value)
  {
    if entries != [] {
      DecodesIff(entries[0].value);
      EntriesDecodeIff(entries[1..]);
    }
  }

  /** Without the condition encoding even confuses different values. */
  lemma EncodingConfuses()
    ensures Encode(Bytes([])) == Encode(Dict([Entry(BYTES_KEY, Str(""))]))
    ensures Bytes([]) != Dict([Entry(BYTES_KEY, Str(""))])
  {
    assert EncodeEntries([]) == [];
  }
}

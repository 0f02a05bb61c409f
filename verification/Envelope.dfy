/** Whole messages: a header of named fields, a payload and attachments, as a dictionary and back. */
module Envelope {
  import opened Types
  import opened Codec

  /** The header's fields, in the order `to_dict` writes them. */
  const FIELDS: seq<string> := [
    "version", "msg_type", "msg_id", "reply_to", "sender_id", "sender_role", "session_id", "run_id", "block_id",
    "trial_id", "server_ts", "client_ts", "logical_seq", "priority", "requires_ack", "deadline_ms", "payload_codec",
    "schema"]

  const PARTS: seq<string> := ["header", "payload", "attachments"]

  /** header[i] is the value of FIELDS[i]. */
  datatype Envelope = Envelope(header: seq<Value>, payload: Value, attachments: Value) {
    predicate Valid() {
      |header| == |FIELDS|
    }
  }

  /** The default of each header field; msg_type has none, msg_id's is a fresh id. */
  function Defaults(freshId: string): (r: seq<Value>)
    ensures |r| == |FIELDS|
  {
    [Str("1.0"), Null, Str(freshId), Null, Str(""), Str(""), Null, Null, Null,
     Null, Null, Null, Num(0.0), Str("normal"), Bool(false), Null, Str("json"),
     Str("default")]
  }

  // ---------- records as dictionaries ----------

  function ToEntries(names: seq<string>, values: seq<Value>): (r: seq<Entry>)
    requires |names| == |values|
  {
    seq(|names|, i requires 0 <= i < |names| => Entry(names[i], values[i]))
  }

  function GetOr(entries: seq<Entry>, key: string, default: Value): Value {
    match Lookup(entries, key)
    case Some(v) => v
    case None => default
  }

  function FromEntries(names: seq<string>, entries: seq<Entry>, defaults: seq<Value>): (r: seq<Value>)
    requires |names| == |defaults|
  {
    seq(|names|, i requires 0 <= i < |names| => GetOr(entries, names[i], defaults[i]))
  }

  predicate Distinct(names: seq<string>) {
    forall i, j :: 0 <= i < j < |names| ==> names[i] != names[j]
  }

  /** The entries' keys are exactly the names, in order. */
  predicate Keyed(entries: seq<Entry>, names: seq<string>) {
    |entries| == |names| && forall i :: 0 <= i < |names| ==> entries[i].key == names[i]
  }

  function ToDict(m: Envelope): Value
    requires m.Valid()
  {
    Dict(ToEntries(PARTS, [Dict(ToEntries(FIELDS, m.header)), m.payload, m.attachments]))
  }

  /** The dataclass constructor called with the entries as keyword arguments: an unknown keyword or
      a missing msg_type is an error; other missing fields get their defaults. */
  function HeaderFromDict(entries: seq<Entry>, freshId: string): (r: Result<seq<Value>, CodecError>)
    ensures r.Ok? ==> |r.value| == |FIELDS|
  {
    if exists i :: 0 <= i < |entries| && entries[i].key !in FIELDS then Err(MalformedMessage)
    else if Lookup(entries, "msg_type").None? then Err(MalformedMessage)
    else Ok(FromEntries(FIELDS, entries, Defaults(freshId)))
  }

  function FromDict(v: Value, freshId: string): (r: Result<Envelope, CodecError>)
    ensures r.Ok? ==> r.value.Valid()
  {
    if !v.Dict? then Err(MalformedMessage)
    else match Lookup(v.entries, "header")
      case Some(Dict(header)) =>
        (match HeaderFromDict(header, freshId)
         case Ok(fields) =>
           Ok(Envelope(fields, GetOr(v.entries, "payload", Dict([])), GetOr(v.entries, "attachments", List([]))))
         case Err(e) => Err(e))
      case _ => Err(MalformedMessage)
  }

  function EncodeMessage(m: Envelope): Value
    requires m.Valid()
  {
    Encode(ToDict(m))
  }

  function DecodeMessage(v: Value, freshId: string): Result<Envelope, CodecError> {
    match Decode(v)
    case Err(e) => Err(e)
    case Ok(decoded) => FromDict(decoded, freshId)
  }

  // ---------- names ----------

  /** The field names differ from each other and from "__bytes__". */
  lemma FieldsAreDistinct()
    ensures Distinct(FIELDS) && BYTES_KEY !in FIELDS && "msg_type" in FIELDS
  {
    forall i, j | 0 <= i < j < |FIELDS|
      ensures FIELDS[i] != FIELDS[j]
    {
      assert |FIELDS[i]| != |FIELDS[j]| || FIELDS[i][0] != FIELDS[j][0] || FIELDS[i][3] != FIELDS[j][3];
    }
    forall i | 0 <= i < |FIELDS|
      ensures FIELDS[i] != BYTES_KEY
    {
      assert FIELDS[i][0] != '_';
    }
    assert FIELDS[1] == "msg_type";
  }

  lemma PartsAreDistinct()
    ensures Distinct(PARTS) && BYTES_KEY !in PARTS
  {
    forall i, j | 0 <= i < j < |PARTS|
      ensures PARTS[i] != PARTS[j]
    {
      assert PARTS[i][0] != PARTS[j][0];
    }
    forall i | 0 <= i < |PARTS|
      ensures PARTS[i] != BYTES_KEY
    {
      assert PARTS[i][0] != '_';
    }
  }

  lemma {:induction false} LookupAt(entries: seq<Entry>, i: nat)
    requires i < |entries|
    requires forall j :: 0 <= j < i ==> entries[j].key != entries[i].key
    ensures Lookup(entries, entries[i].key) == Some(entries[i].value)
  {
    if i > 0 {
      LookupAt(entries[1..], i - 1);
    }
  }

  lemma LookupNamed(entries: seq<Entry>, names: seq<string>, i: nat)
    requires Keyed(entries, names) && Distinct(names) && i < |names|
    ensures Lookup(entries, names[i]) == Some(entries[i].value)
  {
    LookupAt(entries, i);
  }

  lemma NoBytesKey(entries: seq<Entry>, names: seq<string>)
    requires Keyed(entries, names) && BYTES_KEY !in names
    ensures Lookup(entries, BYTES_KEY) == None
  {
    LookupFinds(entries, BYTES_KEY);
    assert forall i :: 0 <= i < |entries| ==> entries[i].key == names[i];
  }

  // ---------- round trips ----------

  lemma HeaderOfKeyed(entries: seq<Entry>, freshId: string)
    requires Keyed(entries, FIELDS)
    ensures HeaderFromDict(entries, freshId) == Ok(seq(|FIELDS|, i requires 0 <= i < |FIELDS| => entries[i].value))
  {
    FieldsAreDistinct();
    KeyedReadsBack(entries, FIELDS, Defaults(freshId));
    KnownKeys(entries, FIELDS);
    var k :| 0 <= k < |FIELDS| && FIELDS[k] == "msg_type";
    LookupNamed(entries, FIELDS, k);
  }

  /** A header is accepted iff all its keys are field names and msg_type is among them; each field
      given (once) is taken, and each field not given gets its default. */
  lemma HeaderFields(entries: seq<Entry>, freshId: string)
    ensures var r := HeaderFromDict(entries, freshId);
      && (r.Ok? <==> (forall i :: 0 <= i < |entries| ==> entries[i].key in FIELDS) && HasKey(entries, "msg_type"))
      && (r.Ok? ==> forall f :: 0 <= f < |FIELDS| ==>
            Takes(entries, FIELDS[f], r.value[f]) && (!HasKey(entries, FIELDS[f]) ==> r.value[f] == Defaults(freshId)[f]))
  {
    LookupFinds(entries, "msg_type");
    var r := HeaderFromDict(entries, freshId);
    if r.Ok? {
      var defaults := Defaults(freshId);
      hide Defaults, HeaderFromDict;
      forall f | 0 <= f < |FIELDS|
        ensures Takes(entries, FIELDS[f], r.value[f]) && (!HasKey(entries, FIELDS[f]) ==> r.value[f] == defaults[f])
      {
        LookupFinds(entries, FIELDS[f]);
        assert r.value[f] == GetOr(entries, FIELDS[f], defaults[f]);
        TakesFirst(entries, FIELDS[f], defaults[f]);
      }
    }
  }

  /** v is the value of the first entry with that key, if there is one. */
  predicate Takes(entries: seq<Entry>, key: string, v: Value) {
    forall i :: 0 <= i < |entries| && entries[i].key == key && (forall j :: 0 <= j < i ==> entries[j].key != key) ==>
      entries[i].value == v
  }

  lemma TakesFirst(entries: seq<Entry>, key: string, default: Value)
    ensures Takes(entries, key, GetOr(entries, key, default))
  {
    forall i | 0 <= i < |entries| && entries[i].key == key && (forall j :: 0 <= j < i ==> entries[j].key != key)
      ensures entries[i].value == GetOr(entries, key, default)
    {
      LookupAt(entries, i);
    }
  }

  lemma KnownKeys(entries: seq<Entry>, names: seq<string>)
    requires Keyed(entries, names)
    ensures forall i :: 0 <= i < |entries| ==> entries[i].key in names
  {
  }

  lemma KeyedReadsBack(entries: seq<Entry>, names: seq<string>, defaults: seq<Value>)
    requires Keyed(entries, names) && Distinct(names) && |defaults| == |names|
    ensures FromEntries(names, entries, defaults) == seq(|names|, i requires 0 <= i < |names| => entries[i].value)
  {
    forall i | 0 <= i < |names|
      ensures GetOr(entries, names[i], defaults[i]) == entries[i].value
    {
      LookupNamed(entries, names, i);
    }
  }

  /** What `from_dict` makes of a dictionary with the three parts: each part is taken as it is. */
  lemma FromParts(parts: seq<Entry>, freshId: string)
    requires Keyed(parts, PARTS) && parts[0].value.Dict? && Keyed(parts[0].value.entries, FIELDS)
    ensures var header := parts[0].value.entries;
      FromDict(Dict(parts), freshId) ==
        Ok(Envelope(seq(|FIELDS|, i requires 0 <= i < |FIELDS| => header[i].value), parts[1].value, parts[2].value))
  {
    PartsAreDistinct();
    LookupNamed(parts, PARTS, 0);
    LookupNamed(parts, PARTS, 1);
    LookupNamed(parts, PARTS, 2);
    HeaderOfKeyed(parts[0].value.entries, freshId);
    hide HeaderFromDict;
  }

  lemma {:induction false} DecodingKeepsKeys(entries: seq<Entry>, names: seq<string>)
    requires Keyed(entries, names)
    ensures var r := DecodeEntries(EncodeEntries(entries));
      r.Ok? ==> Keyed(r.value, names) &&
                forall i :: 0 <= i < |names| ==> Decode(Encode(entries[i].value)) == Ok(r.value[i].value)
  {
    if entries != [] {
      var encoded := EncodeEntries(entries);
      assert encoded[1..] == EncodeEntries(entries[1..]);
      DecodingKeepsKeys(entries[1..], names[1..]);
    }
  }

  /** Decoding an encoded record decodes its values and keeps its names. */
  lemma DecodeRecord(entries: seq<Entry>, names: seq<string>)
    requires Keyed(entries, names) && BYTES_KEY !in names
    ensures var r := Decode(Encode(Dict(entries)));
      r.Ok? ==> r.value.Dict? && Keyed(r.value.entries, names) &&
                forall i :: 0 <= i < |names| ==> Decode(Encode(entries[i].value)) == Ok(r.value.entries[i].value)
  {
    EncodingKeepsKeys(entries);
    NoBytesKey(EncodeEntries(entries), names);
    DecodingKeepsKeys(entries, names);
    hide DecodeEntries, EncodeEntries, Keyed;
  }

  /** No part of the message has a dictionary with the key "__bytes__". */
  predicate CleanMessage(m: Envelope) {
    (forall v :: v in m.header ==> Clean(v)) && Clean(m.payload) && Clean(m.attachments)
  }

  lemma CleanParts(m: Envelope)
    requires m.Valid() && CleanMessage(m)
    ensures Clean(ToDict(m))
  {
    FieldsAreDistinct();
    PartsAreDistinct();
    var header := ToEntries(FIELDS, m.header);
    KnownKeys(header, FIELDS);
    assert Clean(Dict(header));
    KnownKeys(ToDict(m).entries, PARTS);
  }

  lemma DictRoundTrip(m: Envelope, freshId: string)
    requires m.Valid()
    ensures FromDict(ToDict(m), freshId) == Ok(m)
  {
    var header := ToEntries(FIELDS, m.header);
    FromParts(ToDict(m).entries, freshId);
    assert seq(|FIELDS|, i requires 0 <= i < |FIELDS| => header[i].value) == m.header;
  }

  lemma DecodedParts(m: Envelope, freshId: string)
    requires m.Valid() && DecodeMessage(EncodeMessage(m), freshId) == Ok(m)
    ensures Decode(Encode(m.payload)) == Ok(m.payload) && Decode(Encode(m.attachments)) == Ok(m.attachments)
    ensures forall i :: 0 <= i < |FIELDS| ==> Decode(Encode(m.header[i])) == Ok(m.header[i])
  {
    FieldsAreDistinct();
    PartsAreDistinct();
    var parts, header := ToDict(m).entries, ToEntries(FIELDS, m.header);
    DecodeRecord(parts, PARTS);
    var parts' := Decode(EncodeMessage(m)).value.entries;
    assert parts[0].value == Dict(header) && parts[1].value == m.payload && parts[2].value == m.attachments;
    DecodeRecord(header, FIELDS);
    hide Decode, Encode;
    FromParts(parts', freshId);
    var values := seq(|FIELDS|, i requires 0 <= i < |FIELDS| => parts'[0].value.entries[i].value);
    assert values == m.header;
    forall i | 0 <= i < |FIELDS|
      ensures Decode(Encode(m.header[i])) == Ok(m.header[i])
    {
      assert values[i] == m.header[i] && header[i].value == m.header[i];
    }
  }

  /** A message decoded from its encoding is the message, if and only if none of its parts has a
      "__bytes__" key. */
  lemma MessageRoundTrip(m: Envelope, freshId: string)
    requires m.Valid()
    ensures DecodeMessage(EncodeMessage(m), freshId) == Ok(m) <==> CleanMessage(m)
  {
    hide Decode, Encode, Clean, FromDict, ToDict;
    if CleanMessage(m) {
      CleanParts(m);
      RoundTrip(ToDict(m));
      DictRoundTrip(m, freshId);
    }
    if DecodeMessage(EncodeMessage(m), freshId) == Ok(m) {
      DecodedParts(m, freshId);
      RoundTrip(m.payload);
      RoundTrip(m.attachments);
      forall v | v in m.header
        ensures Clean(v)
      {
        var i :| 0 <= i < |m.header| && m.header[i] == v;
        RoundTrip(m.header[i]);
      }
    }
  }
}

/** The checkpoint value codec: encoding values of trusted types to JSON, decoding them, and
    exactly which values come back. */
module CheckpointCodec {
  import opened Wrappers

  datatype Scalar = Null | Bool(b: bool) | Int(i: int) | Real(r: real) | Str(s: string)

  /** A value held by a result: dataclass instances are records of their constructor fields
      (derived fields are recomputed from these); `Foreign` is any other object. */
  datatype Value =
    | Plain(scalar: Scalar)
    | Enum(typeId: string, member: Scalar)
    | Tuple(items: seq<Value>)
    | List(items: seq<Value>)
    | Mapping(entries: map<string, Value>)
    | Record(typeId: string, fields: map<string, Value>)
    | Foreign

  datatype Json = Leaf(scalar: Scalar) | Array(items: seq<Json>) | Object(entries: map<string, Json>)

  /** What a trusted type accepts: the members of an enum, or the constructor fields of a
      dataclass, those without and those with a default. */
  datatype Schema = EnumType(members: set<Scalar>) | RecordType(required: set<string>, defaults: map<string, Value>)

  type Registry = map<string, Schema>

  datatype CodecError = NotSerializable | Corrupt | Refused

  const TupleKey := "__tuple__"
  const EnumKey := "__enum__"
  const RecordKey := "__dataclass__"

  /** Fields never written to a checkpoint. */
  const Dropped := {"raw", "content", "diff_text"}

  // ----- encoding -------------------------------------------------------------------------------

  function Encode(reg: Registry, v: Value): Result<Json, CodecError>
    decreases v
  {
    match v
    case Plain(scalar) => Ok(Leaf(scalar))
    case Enum(t, member) =>
      if t in reg then Ok(Object(map[EnumKey := Leaf(Str(t)), "value" := Leaf(member)])) else Err(NotSerializable)
    case Tuple(items) =>
      if forall i :: 0 <= i < |items| ==> Encode(reg, items[i]).Ok?
      then Ok(Object(map[TupleKey := Array(seq(|items|, i requires 0 <= i < |items| => Encode(reg, items[i]).value))]))
      else Err(NotSerializable)
    case List(items) =>
      if forall i :: 0 <= i < |items| ==> Encode(reg, items[i]).Ok?
      then Ok(Array(seq(|items|, i requires 0 <= i < |items| => Encode(reg, items[i]).value)))
      else Err(NotSerializable)
    case Mapping(entries) =>
      if forall k :: k in entries ==> Encode(reg, entries[k]).Ok?
      then Ok(Object(map k | k in entries :: Encode(reg, entries[k]).value))
      else Err(NotSerializable)
    case Record(t, fields) =>
      if t in reg && forall k :: k in fields && k !in Dropped ==> Encode(reg, fields[k]).Ok?
      then Ok(Object(map[RecordKey := Leaf(Str(t)),
                         "fields" := Object(map k | k in fields && k !in Dropped :: Encode(reg, fields[k]).value)]))
      else Err(NotSerializable)
    case Foreign => Err(NotSerializable)
  }

  // ----- decoding -------------------------------------------------------------------------------

  predicate Truthy(j: Json) {
    match j
    case Leaf(s) => s != Null && s != Bool(false) && s != Int(0) && s != Real(0.0) && s != Str("")
    case Array(items) => items != []
    case Object(entries) => entries != map[]
  }

  /** The type an object names: a truthy enum entry, else the dataclass entry if it is not null. */
  function TypeRef(entries: map<string, Json>): Option<Json> {
    if EnumKey in entries && Truthy(entries[EnumKey]) then Some(entries[EnumKey])
    else if RecordKey in entries && entries[RecordKey] != Leaf(Null) then Some(entries[RecordKey])
    else None
  }

  function Resolve(reg: Registry, ref: Json): Option<string> {
    if ref.Leaf? && ref.scalar.Str? && ref.scalar.s in reg then Some(ref.scalar.s) else None
  }

  function EnumMember(reg: Registry, t: string, entries: map<string, Json>): Result<Value, CodecError>
    requires t in reg
  {
    if "value" in entries && entries["value"].Leaf? && reg[t].EnumType? && entries["value"].scalar in reg[t].members
    then Ok(Enum(t, entries["value"].scalar))
    else Err(Refused)
  }

  /** Calling the dataclass with these fields; the ones left out take their defaults. */
  function Construct(reg: Registry, t: string, fields: map<string, Value>): Result<Value, CodecError>
    requires t in reg
  {
    if reg[t].RecordType? && reg[t].required <= fields.Keys <= reg[t].required + reg[t].defaults.Keys
    then Ok(Record(t, reg[t].defaults + fields))
    else Err(Refused)
  }

  function Decode(reg: Registry, j: Json): Result<Value, CodecError>
    decreases j
  {
    match j
    case Leaf(scalar) => Ok(Plain(scalar))
    case Array(items) =>
      if forall i :: 0 <= i < |items| ==> Decode(reg, items[i]).Ok?
      then Ok(List(seq(|items|, i requires 0 <= i < |items| => Decode(reg, items[i]).value)))
      else Err(Corrupt)
    case Object(entries) =>
      if TupleKey in entries then
        match entries[TupleKey] {
          case Array(items) =>
            if forall i :: 0 <= i < |items| ==> Decode(reg, items[i]).Ok?
            then Ok(Tuple(seq(|items|, i requires 0 <= i < |items| => Decode(reg, items[i]).value)))
            else Err(Corrupt)
          case _ => Err(Corrupt)
        }
      else
        var ref := TypeRef(entries);
        if ref.Some? then
          var t := Resolve(reg, ref.value);
          if t == None then Err(Corrupt)
          else if EnumKey in entries then EnumMember(reg, t.value, entries)
          else if "fields" !in entries then Err(Corrupt)
          else
            match entries["fields"] {
              case Object(fields) =>
                if forall k :: k in fields ==> Decode(reg, fields[k]).Ok?
                then Construct(reg, t.value, map k | k in fields :: Decode(reg, fields[k]).value)
                else Err(Corrupt)
              case _ => Err(Corrupt)
            }
        else if forall k :: k in entries ==> Decode(reg, entries[k]).Ok?
        then Ok(Mapping(map k | k in entries :: Decode(reg, entries[k]).value))
        else Err(Corrupt)
  }

  // ----- which values come back -------------------------------------------------------------------

  /** Values that can exist: enum members that are members, dataclass instances that have
      just their constructor fields. */
  ghost predicate Possible(reg: Registry, v: Value)
    decreases v
  {
    match v
    case Plain(_) => true
    case Enum(t, member) => t in reg ==> reg[t].EnumType? && member in reg[t].members
    case Tuple(items) => forall i :: 0 <= i < |items| ==> Possible(reg, items[i])
    case List(items) => forall i :: 0 <= i < |items| ==> Possible(reg, items[i])
    case Mapping(entries) => forall k :: k in entries ==> Possible(reg, entries[k])
    case Record(t, fields) =>
      && (t in reg ==> reg[t].RecordType? && fields.Keys == reg[t].required + reg[t].defaults.Keys && reg[t].required !! reg[t].defaults.Keys)
      && forall k :: k in fields ==> Possible(reg, fields[k])
    case Foreign => true
  }

  /** A value of which Python says it is false, seen after encoding. */
  predicate Falsy(v: Value) {
    v == Plain(Null) || v == Plain(Bool(false)) || v == Plain(Int(0)) || v == Plain(Real(0.0)) || v == Plain(Str(""))
    || v == List([]) || v == Mapping(map[])
  }

  /** The mapping cannot be taken for an encoded tuple, enum or dataclass. */
  predicate Unreserved(entries: map<string, Value>) {
    && TupleKey !in entries
    && (EnumKey in entries ==> Falsy(entries[EnumKey]))
    && (RecordKey in entries ==> entries[RecordKey] == Plain(Null))
  }

  /** Every type is trusted, no mapping at any depth has reserved keys, and what a record
      drops is what its default would restore. */
  ghost predicate Faithful(reg: Registry, v: Value)
    decreases v
  {
    match v
    case Plain(_) => true
    case Enum(t, _) => t in reg
    case Tuple(items) => forall i :: 0 <= i < |items| ==> Faithful(reg, items[i])
    case List(items) => forall i :: 0 <= i < |items| ==> Faithful(reg, items[i])
    case Mapping(entries) => Unreserved(entries) && forall k :: k in entries ==> Faithful(reg, entries[k])
    case Record(t, fields) =>
      && t in reg
      && forall k :: k in fields ==>
           if k in Dropped then reg[t].RecordType? && k in reg[t].defaults && reg[t].defaults[k] == fields[k]
           else Faithful(reg, fields[k])
    case Foreign => false
  }

  predicate RoundTrips(reg: Registry, v: Value) {
    var j := Encode(reg, v);
    j.Ok? && Decode(reg, j.value) == Ok(v)
  }

  /** The empty string names no type. */
  predicate Named(reg: Registry) { "" !in reg }

  lemma SequencesRoundTrip(reg: Registry, items: seq<Value>)
    ensures RoundTrips(reg, List(items)) <==> forall i :: 0 <= i < |items| ==> RoundTrips(reg, items[i])
    ensures RoundTrips(reg, Tuple(items)) <==> forall i :: 0 <= i < |items| ==> RoundTrips(reg, items[i])
  {
    if forall i :: 0 <= i < |items| ==> Encode(reg, items[i]).Ok? {
      var js := seq(|items|, i requires 0 <= i < |items| => Encode(reg, items[i]).value);
      DecodedItems(reg, items, js);
    }
  }

  lemma DecodedItems(reg: Registry, items: seq<Value>, js: seq<Json>)
    requires |js| == |items|
    ensures Decode(reg, Array(js)) == Ok(List(items)) <==> forall i :: 0 <= i < |items| ==> Decode(reg, js[i]) == Ok(items[i])
    ensures Decode(reg, Object(map[TupleKey := Array(js)])) == Ok(Tuple(items)) <==>
            forall i :: 0 <= i < |items| ==> Decode(reg, js[i]) == Ok(items[i])
  {
    if forall i :: 0 <= i < |js| ==> Decode(reg, js[i]).Ok? {
      var back := seq(|js|, i requires 0 <= i < |js| => Decode(reg, js[i]).value);
      assert back == items <==> forall i :: 0 <= i < |items| ==> back[i] == items[i];
      assert Decode(reg, Array(js)) == Ok(List(back));
      var entries := map[TupleKey := Array(js)];
      assert entries[TupleKey] == Array(js);
      assert Decode(reg, Object(entries)) == Ok(Tuple(back));
    }
  }

  lemma EncodedTruth(reg: Registry, v: Value)
    requires Encode(reg, v).Ok?
    ensures Truthy(Encode(reg, v).value) <==> !Falsy(v)
    ensures Encode(reg, v).value == Leaf(Null) <==> v == Plain(Null)
  {
    match v
    case Mapping(entries) =>
      var e := Encode(reg, v).value.entries;
      assert e.Keys == entries.Keys;
      if entries != map[] { var k :| k in entries; assert k in e; }
    case Enum(t, _) => assert EnumKey in Encode(reg, v).value.entries;
    case Record(t, _) => assert RecordKey in Encode(reg, v).value.entries;
    case Tuple(_) => assert TupleKey in Encode(reg, v).value.entries;
    case _ =>
  }

  /** The decoded entries of an object. */
  ghost predicate DecodesTo(reg: Registry, js: map<string, Json>, back: map<string, Value>) {
    back.Keys == js.Keys && forall k :: k in js ==> Decode(reg, js[k]) == Ok(back[k])
  }

  lemma PlainObjectDecodes(reg: Registry, js: map<string, Json>, back: map<string, Value>)
    requires TupleKey !in js && TypeRef(js) == None
    ensures Decode(reg, Object(js)) == Ok(Mapping(back)) <==> DecodesTo(reg, js, back)
  {
    if forall k :: k in js ==> Decode(reg, js[k]).Ok? {
      var all := map k | k in js :: Decode(reg, js[k]).value;
      assert Decode(reg, Object(js)) == Ok(Mapping(all));
      assert DecodesTo(reg, js, all);
      if DecodesTo(reg, js, back) {
        assert forall k :: k in js ==> back[k] == all[k];
        assert back == all;
      }
    } else {
      var k :| k in js && Decode(reg, js[k]).Err?;
    }
  }

  lemma MappingRoundTrips(reg: Registry, entries: map<string, Value>)
    ensures RoundTrips(reg, Mapping(entries)) <==>
      Unreserved(entries) && forall k :: k in entries ==> RoundTrips(reg, entries[k])
  {
    if forall k :: k in entries ==> Encode(reg, entries[k]).Ok? {
      var js := map k | k in entries :: Encode(reg, entries[k]).value;
      assert Encode(reg, Mapping(entries)) == Ok(Object(js));
      ReservedStays(reg, entries, js);
      hide Decode, Encode, TypeRef;
      if Unreserved(entries) {
        PlainObjectDecodes(reg, js, entries);
      } else {
        NotAMapping(reg, js);
      }
    }
  }

  /** Encoding the entries keeps whether keys are reserved. */
  lemma ReservedStays(reg: Registry, entries: map<string, Value>, js: map<string, Json>)
    requires js.Keys == entries.Keys && forall k :: k in entries ==> Encode(reg, entries[k]) == Ok(js[k])
    ensures Unreserved(entries) <==> TupleKey !in js && TypeRef(js) == None
  {
    hide Encode, Truthy, Falsy;
    if EnumKey in entries { EncodedTruth(reg, entries[EnumKey]); }
    if RecordKey in entries { EncodedTruth(reg, entries[RecordKey]); }
  }

  lemma NotAMapping(reg: Registry, js: map<string, Json>)
    requires TupleKey in js || TypeRef(js).Some?
    ensures Decode(reg, Object(js)).Ok? ==> !Decode(reg, Object(js)).value.Mapping?
  {
  }

  lemma EnumRoundTrips(reg: Registry, t: string, member: Scalar)
    requires Named(reg) && (t in reg ==> reg[t].EnumType? && member in reg[t].members)
    ensures RoundTrips(reg, Enum(t, member)) <==> t in reg
  {
    if t in reg {
      var entries: map<string, Json> := map[EnumKey := Leaf(Str(t)), "value" := Leaf(member)];
      assert EnumKey != TupleKey && "value" != TupleKey && EnumKey != "value";
      assert TupleKey !in entries && entries[EnumKey] == Leaf(Str(t)) && entries["value"] == Leaf(member);
      assert TypeRef(entries) == Some(Leaf(Str(t)));
    }
  }

  /** The fields a record is written with. */
  function Written(reg: Registry, fields: map<string, Value>): map<string, Json>
    requires forall k :: k in fields && k !in Dropped ==> Encode(reg, fields[k]).Ok?
  {
    map k | k in fields && k !in Dropped :: Encode(reg, fields[k]).value
  }

  lemma WrittenDecodes(reg: Registry, t: string, fields: map<string, Json>, back: map<string, Value>)
    requires Named(reg) && t in reg && DecodesTo(reg, fields, back)
    ensures Decode(reg, Object(map[RecordKey := Leaf(Str(t)), "fields" := Object(fields)])) == Construct(reg, t, back)
  {
    var entries: map<string, Json> := map[RecordKey := Leaf(Str(t)), "fields" := Object(fields)];
    RecordEntries(reg, t, fields, entries);
    var all := map k | k in fields :: Decode(reg, fields[k]).value;
    assert all == back;
  }

  lemma WrittenFails(reg: Registry, t: string, fields: map<string, Json>, k: string)
    requires Named(reg) && t in reg && k in fields && Decode(reg, fields[k]).Err?
    ensures Decode(reg, Object(map[RecordKey := Leaf(Str(t)), "fields" := Object(fields)])).Err?
  {
    RecordEntries(reg, t, fields, map[RecordKey := Leaf(Str(t)), "fields" := Object(fields)]);
  }

  lemma RecordEntries(reg: Registry, t: string, fields: map<string, Json>, entries: map<string, Json>)
    requires Named(reg) && t in reg && entries == map[RecordKey := Leaf(Str(t)), "fields" := Object(fields)]
    ensures TupleKey !in entries && EnumKey !in entries && "fields" in entries && entries["fields"] == Object(fields)
    ensures TypeRef(entries) == Some(Leaf(Str(t))) && Resolve(reg, Leaf(Str(t))) == Some(t)
  {
    assert RecordKey != "fields" && entries[RecordKey] == Leaf(Str(t));
    assert TupleKey != RecordKey && TupleKey != "fields" && EnumKey != RecordKey && EnumKey != "fields";
  }

  /** A record's field comes back: by its default if it is dropped, else by itself. */
  predicate FieldReturns(reg: Registry, t: string, fields: map<string, Value>, k: string)
    requires t in reg && k in fields
  {
    if k in Dropped then reg[t].RecordType? && k in reg[t].defaults && reg[t].defaults[k] == fields[k]
    else RoundTrips(reg, fields[k])
  }

  lemma RecordRoundTrips(reg: Registry, t: string, fields: map<string, Value>)
    requires Named(reg) && t in reg && reg[t].RecordType?
    requires fields.Keys == reg[t].required + reg[t].defaults.Keys && reg[t].required !! reg[t].defaults.Keys
    ensures RoundTrips(reg, Record(t, fields)) <==> forall k :: k in fields ==> FieldReturns(reg, t, fields, k)
  {
    hide Decode, Encode;
    RecordEncodes(reg, t, fields);
    if forall k :: k in fields && k !in Dropped ==> Encode(reg, fields[k]).Ok? {
      var js := Written(reg, fields);
      if forall k :: k in js ==> Decode(reg, js[k]).Ok? {
        var back := map k | k in js :: Decode(reg, js[k]).value;
        WrittenDecodes(reg, t, js, back);
        RecordReturns(reg, t, fields, js, back);
      } else {
        var k :| k in js && Decode(reg, js[k]).Err?;
        WrittenFails(reg, t, js, k);
        assert !FieldReturns(reg, t, fields, k);
      }
    } else {
      var k :| k in fields && k !in Dropped && Encode(reg, fields[k]).Err?;
      assert !FieldReturns(reg, t, fields, k);
    }
  }

  lemma RecordEncodes(reg: Registry, t: string, fields: map<string, Value>)
    requires t in reg
    ensures Encode(reg, Record(t, fields)) ==
      if forall k :: k in fields && k !in Dropped ==> Encode(reg, fields[k]).Ok?
      then Ok(Object(map[RecordKey := Leaf(Str(t)), "fields" := Object(Written(reg, fields))]))
      else Err(NotSerializable)
  {
  }

  lemma RecordReturns(reg: Registry, t: string, fields: map<string, Value>, js: map<string, Json>, back: map<string, Value>)
    requires t in reg && reg[t].RecordType?
    requires fields.Keys == reg[t].required + reg[t].defaults.Keys && reg[t].required !! reg[t].defaults.Keys
    requires forall k :: k in fields && k !in Dropped ==> Encode(reg, fields[k]).Ok?
    requires js == Written(reg, fields) && back.Keys == js.Keys
    requires forall k :: k in js ==> Decode(reg, js[k]) == Ok(back[k])
    ensures Construct(reg, t, back) == Ok(Record(t, fields)) <==> forall k :: k in fields ==> FieldReturns(reg, t, fields, k)
  {
    hide Decode, Encode;
    var defaults := reg[t].defaults;
    forall k | k in fields && k !in Dropped ensures FieldReturns(reg, t, fields, k) <==> back[k] == fields[k] {
      assert k in js && js[k] == Encode(reg, fields[k]).value;
    }
    if forall k :: k in fields ==> FieldReturns(reg, t, fields, k) {
      forall k | k in reg[t].required ensures k in back {
        assert k in fields && FieldReturns(reg, t, fields, k);
      }
      forall k | k in fields ensures (defaults + back)[k] == fields[k] {
        assert FieldReturns(reg, t, fields, k);
      }
      assert defaults + back == fields;
    }
    if Construct(reg, t, back) == Ok(Record(t, fields)) {
      forall k | k in fields ensures FieldReturns(reg, t, fields, k) {
        assert (defaults + back)[k] == fields[k];
        if k in Dropped { assert k !in back; }
      }
    }
  }

  /** A value that can exist comes back from encoding and decoding exactly if every type in
      it is trusted, no mapping in it has reserved keys, and nothing is dropped from its
      records that their defaults do not restore. */
  lemma {:induction false} RoundTripsIff(reg: Registry, v: Value)
    requires Named(reg) && Possible(reg, v)
    ensures RoundTrips(reg, v) <==> Faithful(reg, v)
    decreases v
  {
    hide RoundTrips;
    match v
    case Plain(_) => PlainRoundTrips(reg, v.scalar);
    case Enum(t, member) => EnumRoundTrips(reg, t, member);
    case Tuple(items) =>
      forall i | 0 <= i < |items| ensures RoundTrips(reg, items[i]) <==> Faithful(reg, items[i]) { RoundTripsIff(reg, items[i]); }
      SequencesRoundTrip(reg, items);
    case List(items) =>
      forall i | 0 <= i < |items| ensures RoundTrips(reg, items[i]) <==> Faithful(reg, items[i]) { RoundTripsIff(reg, items[i]); }
      SequencesRoundTrip(reg, items);
    case Mapping(entries) =>
      forall k | k in entries ensures RoundTrips(reg, entries[k]) <==> Faithful(reg, entries[k]) { RoundTripsIff(reg, entries[k]); }
      MappingRoundTrips(reg, entries);
    case Record(t, fields) =>
      forall k | k in fields ensures RoundTrips(reg, fields[k]) <==> Faithful(reg, fields[k]) { RoundTripsIff(reg, fields[k]); }
      if t in reg { RecordRoundTrips(reg, t, fields); } else { UntrustedFails(reg, v); }
    case Foreign => UntrustedFails(reg, v);
  }

  lemma PlainRoundTrips(reg: Registry, s: Scalar)
    ensures RoundTrips(reg, Plain(s))
  {
  }

  lemma UntrustedFails(reg: Registry, v: Value)
    requires v.Foreign? || (v.Record? && v.typeId !in reg)
    ensures !RoundTrips(reg, v)
  {
  }

  /** A mapping with a tuple key comes back as a tuple. */
  lemma TupleKeyIsTaken(reg: Registry, items: seq<Value>)
    requires forall i :: 0 <= i < |items| ==> RoundTrips(reg, items[i])
    ensures var v := Mapping(map[TupleKey := List(items)]);
      Encode(reg, v).Ok? && Decode(reg, Encode(reg, v).value) == Ok(Tuple(items))
  {
    SequencesRoundTrip(reg, items);
    var v := Mapping(map[TupleKey := List(items)]);
    var entries := v.entries;
    assert forall k :: k in entries ==> k == TupleKey && entries[k] == List(items);
    assert Encode(reg, List(items)).Ok?;
    var js := map k | k in entries :: Encode(reg, entries[k]).value;
    assert js == map[TupleKey := Encode(reg, List(items)).value];
    assert Encode(reg, v) == Ok(Object(js)) == Encode(reg, Tuple(items));
  }

  // ----- what is written, and what can come out -----------------------------------------------------

  /** Every type is trusted and nothing is foreign, in the fields never written apart. */
  ghost predicate Trusted(reg: Registry, v: Value)
    decreases v
  {
    match v
    case Plain(_) => true
    case Enum(t, _) => t in reg
    case Tuple(items) => forall i :: 0 <= i < |items| ==> Trusted(reg, items[i])
    case List(items) => forall i :: 0 <= i < |items| ==> Trusted(reg, items[i])
    case Mapping(entries) => forall k :: k in entries ==> Trusted(reg, entries[k])
    case Record(t, fields) =>
      t in reg && forall k :: k in fields && k != "raw" && k != "content" && k != "diff_text" ==> Trusted(reg, fields[k])
    case Foreign => false
  }

  /** Exactly these values are encoded. */
  lemma {:induction false} EncodedIff(reg: Registry, v: Value)
    ensures Encode(reg, v).Ok? <==> Trusted(reg, v)
    decreases v
  {
    match v
    case Tuple(items) => forall i | 0 <= i < |items| ensures Encode(reg, items[i]).Ok? <==> Trusted(reg, items[i]) { EncodedIff(reg, items[i]); }
    case List(items) => forall i | 0 <= i < |items| ensures Encode(reg, items[i]).Ok? <==> Trusted(reg, items[i]) { EncodedIff(reg, items[i]); }
    case Mapping(entries) => forall k | k in entries ensures Encode(reg, entries[k]).Ok? <==> Trusted(reg, entries[k]) { EncodedIff(reg, entries[k]); }
    case Record(t, fields) => forall k | k in fields ensures Encode(reg, fields[k]).Ok? <==> Trusted(reg, fields[k]) { EncodedIff(reg, fields[k]); }
    case _ =>
  }

  /** An encoded record names its type and has all its fields but the three that are never
      written, each encoded. */
  lemma RecordIsWritten(reg: Registry, t: string, fields: map<string, Value>)
    requires Encode(reg, Record(t, fields)).Ok?
    ensures var j := Encode(reg, Record(t, fields)).value;
      && j.Object? && j.entries.Keys == {"__dataclass__", "fields"}
      && j.entries["__dataclass__"] == Leaf(Str(t)) && j.entries["fields"].Object?
      && (forall k :: k in j.entries["fields"].entries <==> k in fields && k != "raw" && k != "content" && k != "diff_text")
      && (forall k :: k in j.entries["fields"].entries ==> Encode(reg, fields[k]) == Ok(j.entries["fields"].entries[k]))
  {
    var j := Encode(reg, Record(t, fields)).value;
    assert j.entries.Keys == {RecordKey, "fields"};
  }

  ghost predicate DefaultsKnown(reg: Registry) {
    forall t :: t in reg && reg[t].RecordType? ==> forall k :: k in reg[t].defaults ==> Known(reg, reg[t].defaults[k])
  }

  /** At every depth only trusted types: enums with their members, dataclasses with their
      fields, and nothing foreign. */
  ghost predicate Known(reg: Registry, v: Value)
    decreases v
  {
    match v
    case Plain(_) => true
    case Enum(t, member) => t in reg && reg[t].EnumType? && member in reg[t].members
    case Tuple(items) => forall i :: 0 <= i < |items| ==> Known(reg, items[i])
    case List(items) => forall i :: 0 <= i < |items| ==> Known(reg, items[i])
    case Mapping(entries) => forall k :: k in entries ==> Known(reg, entries[k])
    case Record(t, fields) =>
      && t in reg && reg[t].RecordType? && fields.Keys == reg[t].required + reg[t].defaults.Keys
      && forall k :: k in fields ==> Known(reg, fields[k])
    case Foreign => false
  }

  /** Whatever the JSON, what is decoded from it is made of trusted types only. */
  lemma {:induction false} DecodedIsKnown(reg: Registry, j: Json)
    requires DefaultsKnown(reg)
    ensures Decode(reg, j).Ok? ==> Known(reg, Decode(reg, j).value)
    decreases j
  {
    hide DefaultsKnown;
    match j
    case Leaf(_) =>
    case Array(items) =>
      forall i | 0 <= i < |items| ensures Decode(reg, items[i]).Ok? ==> Known(reg, Decode(reg, items[i]).value) { DecodedIsKnown(reg, items[i]); }
    case Object(entries) =>
      if TupleKey in entries {
        if entries[TupleKey].Array? {
          var items := entries[TupleKey].items;
          forall i | 0 <= i < |items| ensures Decode(reg, items[i]).Ok? ==> Known(reg, Decode(reg, items[i]).value) { DecodedIsKnown(reg, items[i]); }
        }
      } else if TypeRef(entries).Some? {
        if "fields" in entries && entries["fields"].Object? {
          var fields := entries["fields"].entries;
          forall k | k in fields ensures Decode(reg, fields[k]).Ok? ==> Known(reg, Decode(reg, fields[k]).value) { DecodedIsKnown(reg, fields[k]); }
          RecordIsKnown(reg, entries);
        }
      } else {
        forall k | k in entries ensures Decode(reg, entries[k]).Ok? ==> Known(reg, Decode(reg, entries[k]).value) { DecodedIsKnown(reg, entries[k]); }
      }
  }

  lemma RecordIsKnown(reg: Registry, entries: map<string, Json>)
    requires DefaultsKnown(reg) && TupleKey !in entries && "fields" in entries && entries["fields"].Object?
    requires var fields := entries["fields"].entries;
      forall k :: k in fields && Decode(reg, fields[k]).Ok? ==> Known(reg, Decode(reg, fields[k]).value)
    requires TypeRef(entries).Some?
    ensures Decode(reg, Object(entries)).Ok? ==> Known(reg, Decode(reg, Object(entries)).value)
  {
  }
}

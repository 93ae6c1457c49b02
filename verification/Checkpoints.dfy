/** The checkpoint of one review: a row of encoded unit results that saves merge into. */
module Checkpoints {
  import opened Wrappers
  import opened CheckpointCodec

  /** Work unit ids are digests: only equality matters. */
  type UnitId = nat

  /** The digests of input and rules that a checkpoint is bound to. */
  datatype Binding = Binding(input: nat, rules: nat)

  datatype Row = Row(binding: Binding, completed: map<UnitId, Json>, unknown: map<UnitId, Json>)

  /** A checkpoint row, and whether one was purged after it expired. */
  datatype Stored = Stored(row: Option<Row>, expired: bool)

  datatype StoreError =
    | BindingMismatch | ExecutionRequired | WorkUnitRequired | Unserializable | Corrupted | Expired | NotFound | Unavailable

  function EncodeAll(reg: Registry, values: map<UnitId, Value>): Option<map<UnitId, Json>> {
    if forall u :: u in values ==> Encode(reg, values[u]).Ok?
    then Some(map u | u in values :: Encode(reg, values[u]).value) else None
  }

  function DecodeAll(reg: Registry, js: map<UnitId, Json>): Option<map<UnitId, Value>> {
    if forall u :: u in js ==> Decode(reg, js[u]).Ok?
    then Some(map u | u in js :: Decode(reg, js[u]).value) else None
  }

  /** The values a save starts from: those of the row, or none. */
  function Existing(reg: Registry, s: Stored, b: Binding): Result<(map<UnitId, Value>, map<UnitId, Value>), StoreError> {
    if s.row == None then Ok((map[], map[]))
    else if s.row.value.binding != b then Err(BindingMismatch)
    else
      var completed, unknown := DecodeAll(reg, s.row.value.completed), DecodeAll(reg, s.row.value.unknown);
      if completed == None || unknown == None then Err(Corrupted) else Ok((completed.value, unknown.value))
  }

  function Put(values: map<UnitId, Value>, u: Option<UnitId>, v: Option<Value>): map<UnitId, Value> {
    if u.Some? && v.Some? then values[u.value := v.value] else values
  }

  function Saved(reg: Registry, s: Stored, b: Binding, u: Option<UnitId>, execution: Option<Value>, unknown: Option<Value>)
    : Result<Stored, StoreError>
  {
    var existing := Existing(reg, s, b);
    if existing.Err? then Err(existing.error)
    else if u.Some? && execution == None && unknown == None then Err(ExecutionRequired)
    else if u == None && unknown.Some? then Err(WorkUnitRequired)
    else
      var completed := EncodeAll(reg, Put(existing.value.0, u, execution));
      var unknowns := EncodeAll(reg, Put(existing.value.1, u, unknown));
      if completed == None || unknowns == None then Err(Unserializable)
      else Ok(s.(row := Some(Row(b, completed.value, unknowns.value))))
  }

  /** `late` says that the row's time is over. */
  function Loaded(reg: Registry, s: Stored, b: Binding, late: bool): Result<map<UnitId, Value>, StoreError> {
    if s.row == None then Err(if s.expired then Expired else NotFound)
    else
      var existing := Existing(reg, s, b);
      if existing.Err? then Err(existing.error) else if late then Err(Expired) else Ok(existing.value.0)
  }

  class CheckpointStore {
    var row: Option<Row>
    var expired: bool

    function Contents(): Stored
      reads this
    {
      Stored(row, expired)
    }

    constructor ()
      ensures Contents() == Stored(None, false)
    {
      row, expired := None, false;
    }

    /** One transaction; `available` says that the database does not fail. */
    method SaveCheckpoint(reg: Registry, b: Binding, u: Option<UnitId>, execution: Option<Value>, unknown: Option<Value>,
                          available: bool)
      returns (error: Option<StoreError>)
      modifies this
      ensures error == None <==> available && Saved(reg, old(Contents()), b, u, execution, unknown).Ok?
      ensures error == None ==> Contents() == Saved(reg, old(Contents()), b, u, execution, unknown).value
      ensures error != None ==> Contents() == old(Contents())
      ensures error == Some(Unavailable) <==> !available
      ensures error == Some(BindingMismatch) <==> available && old(row).Some? && old(row).value.binding != b
      ensures error == Some(Corrupted) <==> available && old(row).Some? && old(row).value.binding == b && !old(Readable(reg))
      ensures error == Some(ExecutionRequired) ==> u.Some? && execution == None && unknown == None
      ensures error == Some(WorkUnitRequired) ==> u == None && unknown.Some?
      ensures error == None ==> row.Some? && row.value.binding == b && expired == old(expired)
      ensures error == None && u.Some? && execution.Some? ==>
        u.value in row.value.completed && Encode(reg, execution.value) == Ok(row.value.completed[u.value])
      ensures error == None && u.Some? && unknown.Some? ==>
        u.value in row.value.unknown && Encode(reg, unknown.value) == Ok(row.value.unknown[u.value])
    {
      hide Encode, Decode;
      if !available { return Some(Unavailable); }
      var completed: map<UnitId, Value>, unknowns: map<UnitId, Value> := map[], map[];
      if row.Some? {
        if row.value.binding != b { return Some(BindingMismatch); }
        var c, k := DecodeAll(reg, row.value.completed), DecodeAll(reg, row.value.unknown);
        if c == None || k == None { return Some(Corrupted); }
        completed, unknowns := c.value, k.value;
      }
      if u.Some? {
        if execution == None && unknown == None { return Some(ExecutionRequired); }
        if execution.Some? { completed := completed[u.value := execution.value]; }
      }
      if unknown.Some? {
        if u == None { return Some(WorkUnitRequired); }
        unknowns := unknowns[u.value := unknown.value];
      }
      var c, k := EncodeAll(reg, completed), EncodeAll(reg, unknowns);
      if c == None || k == None { return Some(Unserializable); }
      row := Some(Row(b, c.value, k.value));
      return None;
    }

    method LoadCheckpoint(reg: Registry, b: Binding, late: bool) returns (result: Result<map<UnitId, Value>, StoreError>)
      ensures result == Loaded(reg, Contents(), b, late)
      ensures result == Err(NotFound) <==> row == None && !expired
      ensures result == Err(BindingMismatch) <==> row.Some? && row.value.binding != b
      ensures result == Err(Expired) <==> (row == None && expired) || (row.Some? && row.value.binding == b && late && Readable(reg))
      ensures result == Err(Corrupted) <==> row.Some? && row.value.binding == b && !Readable(reg)
      ensures result.Ok? <==> row.Some? && row.value.binding == b && !late && Readable(reg)
      ensures result.Ok? ==> result.value.Keys == row.value.completed.Keys
      ensures result.Ok? ==> forall u :: u in result.value ==> Decode(reg, row.value.completed[u]) == Ok(result.value[u])
    {
      hide Encode, Decode;
      if row == None { return Err(if expired then Expired else NotFound); }
      if row.value.binding != b { return Err(BindingMismatch); }
      var c, k := DecodeAll(reg, row.value.completed), DecodeAll(reg, row.value.unknown);
      if c == None || k == None { return Err(Corrupted); }
      if late { return Err(Expired); }
      return Ok(c.value);
    }

    /** Everything in the row decodes. */
    ghost predicate Readable(reg: Registry)
      reads this
    {
      row.Some?
      && (forall u :: u in row.value.completed ==> Decode(reg, row.value.completed[u]).Ok?)
      && (forall u :: u in row.value.unknown ==> Decode(reg, row.value.unknown[u]).Ok?)
    }

    method PurgeExpired()
      modifies this
      ensures Contents() == if old(row).Some? then Stored(None, true) else old(Contents())
    {
      if row.Some? { row, expired := None, true; }
    }
  }

  // ----- what a save keeps ------------------------------------------------------------------------

  /** Each of these encodings is that of the value beside it, which decodes again. */
  ghost predicate Holds(reg: Registry, js: map<UnitId, Json>, values: map<UnitId, Value>) {
    js.Keys == values.Keys && forall u :: u in values ==> RoundTrips(reg, values[u]) && Encode(reg, values[u]) == Ok(js[u])
  }

  lemma HeldDecodes(reg: Registry, js: map<UnitId, Json>, values: map<UnitId, Value>)
    requires Holds(reg, js, values)
    ensures DecodeAll(reg, js) == Some(values) && EncodeAll(reg, values) == Some(js)
  {
    hide Encode, Decode;
    assert forall u :: u in js ==> Decode(reg, js[u]) == Ok(values[u]);
    var back, again := DecodeAll(reg, js), EncodeAll(reg, values);
    assert back.Some? && back.value.Keys == values.Keys && forall u :: u in values ==> back.value[u] == values[u];
    assert back.value == values;
    assert again.Some? && again.value.Keys == js.Keys && forall u :: u in js ==> again.value[u] == js[u];
    assert again.value == js;
  }

  lemma HoldsOneMore(reg: Registry, js: map<UnitId, Json>, values: map<UnitId, Value>, u: UnitId, v: Value)
    requires Holds(reg, js, values) && RoundTrips(reg, v)
    ensures var js' := js[u := Encode(reg, v).value]; Holds(reg, js', values[u := v]) && EncodeAll(reg, values[u := v]) == Some(js')
  {
    hide Encode, Decode;
    HeldDecodes(reg, js[u := Encode(reg, v).value], values[u := v]);
  }

  /** The row holds these completed and unknown values. */
  ghost predicate RowHolds(reg: Registry, s: Stored, completed: map<UnitId, Value>, unknown: map<UnitId, Value>) {
    if s.row == None then completed == map[] && unknown == map[]
    else Holds(reg, s.row.value.completed, completed) && Holds(reg, s.row.value.unknown, unknown)
  }

  /** A save adds the new value to those the row holds and keeps them; a load gives back
      the completed ones. */
  lemma SaveAdds(reg: Registry, s: Stored, b: Binding, completed: map<UnitId, Value>, unknown: map<UnitId, Value>,
                 u: Option<UnitId>, execution: Option<Value>, unknownExecution: Option<Value>)
    requires RowHolds(reg, s, completed, unknown) && (s.row.Some? ==> s.row.value.binding == b)
    requires execution.Some? ==> u.Some? && RoundTrips(reg, execution.value)
    requires unknownExecution.Some? ==> u.Some? && RoundTrips(reg, unknownExecution.value)
    requires u.Some? ==> execution.Some? || unknownExecution.Some?
    ensures var s' := Saved(reg, s, b, u, execution, unknownExecution);
      && s'.Ok? && s'.value.expired == s.expired && s'.value.row.Some? && s'.value.row.value.binding == b
      && RowHolds(reg, s'.value, Put(completed, u, execution), Put(unknown, u, unknownExecution))
    ensures s.row.Some? ==> Loaded(reg, s, b, false) == Ok(completed) && Loaded(reg, s, b, true) == Err(Expired)
  {
    hide Encode, Decode, RoundTrips;
    if s.row == None {
      NoneHeld(reg);
    } else {
      HeldDecodes(reg, s.row.value.completed, completed);
      HeldDecodes(reg, s.row.value.unknown, unknown);
    }
    var js, ks := if s.row == None then map[] else s.row.value.completed, if s.row == None then map[] else s.row.value.unknown;
    if execution.Some? { HoldsOneMore(reg, js, completed, u.value, execution.value); } else { HeldDecodes(reg, js, completed); }
    if unknownExecution.Some? { HoldsOneMore(reg, ks, unknown, u.value, unknownExecution.value); } else { HeldDecodes(reg, ks, unknown); }
  }

  lemma NoneHeld(reg: Registry)
    ensures Holds(reg, map[], map[])
  {
  }

  function Decoded(reg: Registry, js: map<UnitId, Json>): map<UnitId, Value> {
    var values := DecodeAll(reg, js);
    if values.Some? then values.value else map[]
  }

  function CompletedOf(reg: Registry, s: Stored): map<UnitId, Value> {
    if s.row == None then map[] else Decoded(reg, s.row.value.completed)
  }

  function UnknownOf(reg: Registry, s: Stored): map<UnitId, Value> {
    if s.row == None then map[] else Decoded(reg, s.row.value.unknown)
  }

  lemma HeldIsDecoded(reg: Registry, s: Stored, completed: map<UnitId, Value>, unknown: map<UnitId, Value>)
    requires RowHolds(reg, s, completed, unknown)
    ensures CompletedOf(reg, s) == completed && UnknownOf(reg, s) == unknown
  {
    hide RoundTrips, Encode, Decode, DecodeAll, EncodeAll;
    if s.row.Some? {
      HeldDecodes(reg, s.row.value.completed, completed);
      HeldDecodes(reg, s.row.value.unknown, unknown);
    }
  }

  /** The row belongs to the binding and holds values that come back from the codec. */
  ghost predicate Sound(reg: Registry, s: Stored, b: Binding) {
    RowHolds(reg, s, CompletedOf(reg, s), UnknownOf(reg, s)) && (s.row.Some? ==> s.row.value.binding == b)
  }

  /** Into a sound row a save of such a value always succeeds, and adds it. */
  lemma SoundSave(reg: Registry, s: Stored, b: Binding, u: Option<UnitId>, execution: Option<Value>, unknown: Option<Value>)
    requires Sound(reg, s, b)
    requires execution.Some? ==> u.Some? && RoundTrips(reg, execution.value)
    requires unknown.Some? ==> u.Some? && RoundTrips(reg, unknown.value)
    requires u.Some? ==> execution.Some? || unknown.Some?
    ensures var s' := Saved(reg, s, b, u, execution, unknown);
      s'.Ok? && Sound(reg, s'.value, b) && CompletedOf(reg, s'.value) == Put(CompletedOf(reg, s), u, execution)
  {
    hide Saved, RoundTrips, RowHolds, CompletedOf, UnknownOf;
    SaveAdds(reg, s, b, CompletedOf(reg, s), UnknownOf(reg, s), u, execution, unknown);
    HeldIsDecoded(reg, Saved(reg, s, b, u, execution, unknown).value,
                  Put(CompletedOf(reg, s), u, execution), Put(UnknownOf(reg, s), u, unknown));
  }
}

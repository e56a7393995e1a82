/** From an entity record to the fields of a provider's object and back. */
module FieldMapping {
  import opened SyncTypes
  import opened EntityMapping
  import EntityMappingList

  // ---- createFieldMappingConfigForEntity

  /** A pair of schema field and mapped field is a mapping of an entity field. */
  datatype Config = InheritAllFields | Defined(core: seq<Field>, additional: seq<Field>)
  datatype Result<+T> = Ok(value: T) | Error

  function Select(fields: seq<Field>, names: seq<string>, among: bool): (r: seq<Field>)
    ensures forall f :: f in r <==> f in fields && (f.entityField in names <==> among)
    ensures DistinctFields(fields) ==> DistinctFields(r)
  {
    if fields == [] then []
    else
      var rest := Select(fields[1..], names, among);
      assert fields == [fields[0]] + fields[1..];
      if fields[0].entityField in names <==> among then
        assert DistinctFields(fields) ==> forall f :: f in rest ==> f.entityField != fields[0].entityField by {
          if DistinctFields(fields) {
            forall f | f in rest ensures f.entityField != fields[0].entityField {
              var j :| 0 <= j < |fields[1..]| && fields[1..][j] == f;
              assert fields[j + 1] == f;
            }
          }
        }
        [fields[0]] + rest
      else rest
  }

  function CreateFieldMappingConfigForEntity(e: EntityMappingList.Entity, fieldMappings: Option<seq<Field>>): Result<Config> {
    var fields := if fieldMappings.Some? then fieldMappings.value else [];
    var additional := Select(fields, e.fields, false);
    if !e.allowAdditionalFieldMappings && additional != [] then Error
    else Ok(Defined(Select(fields, e.fields, true), additional))
  }

  /** The config partitions the mappings by whether their field is the entity's own,
      and is refused exactly when an additional one is not allowed. */
  lemma ConfigPartitions(e: EntityMappingList.Entity, fields: seq<Field>)
    ensures var r := CreateFieldMappingConfigForEntity(e, Some(fields));
            && (r.Error? <==> !e.allowAdditionalFieldMappings && exists f :: f in fields && f.entityField !in e.fields)
            && (r.Ok? ==> r.value.Defined?)
            && (r.Ok? ==> forall f :: f in r.value.core <==> f in fields && f.entityField in e.fields)
            && (r.Ok? ==> forall f :: f in r.value.additional <==> f in fields && f.entityField !in e.fields)
  {
    var additional := Select(fields, e.fields, false);
    assert additional != [] ==> additional[0] in additional;
  }

  /** A field is mapped as by the first of its mappings; without mappings nothing is. */
  lemma {:induction false} ConfigMapsFirst(e: EntityMappingList.Entity, fieldMappings: Option<seq<Field>>, k: string)
    ensures var r := CreateFieldMappingConfigForEntity(e, fieldMappings);
            var fields := if fieldMappings.Some? then fieldMappings.value else [];
            r.Ok? ==> r.value.Defined? && MappedTo(r.value, k) == FirstMapping(fields, k)
  {
    var fields := if fieldMappings.Some? then fieldMappings.value else [];
    SelectKeepsFirst(fields, e.fields, true, k);
    SelectKeepsFirst(fields, e.fields, false, k);
  }

  /** Looked up in the list as it is. */
  ghost function FirstMapping(fields: seq<Field>, k: string): (m: Option<string>)
    ensures m.None? ==> forall f :: f in fields ==> f.entityField != k
    ensures m.Some? ==> exists i :: 0 <= i < |fields| && fields[i] == Field(k, m.value) && forall j :: 0 <= j < i ==> fields[j].entityField != k
  {
    var i := IndexOf(fields, k);
    if i < |fields| then
      assert fields[i] == Field(k, fields[i].mappedField);
      Some(fields[i].mappedField)
    else None
  }

  lemma FirstOfList(f: Field, rest: seq<Field>, k: string)
    ensures FirstMapping([f] + rest, k) == if f.entityField == k then Some(f.mappedField) else FirstMapping(rest, k)
  {
    assert ([f] + rest)[1..] == rest;
  }

  lemma {:induction false} SelectKeepsFirst(fields: seq<Field>, names: seq<string>, among: bool, k: string)
    ensures FirstMapping(Select(fields, names, among), k) == if k in names <==> among then FirstMapping(fields, k) else None
  {
    if fields != [] {
      SelectKeepsFirst(fields[1..], names, among, k);
      assert fields == [fields[0]] + fields[1..];
      FirstOfList(fields[0], fields[1..], k);
      FirstOfList(fields[0], Select(fields[1..], names, among), k);
    }
    hide FirstMapping;
  }

  // ---- Records

  /** A field's value, of which only the truthiness matters here. */
  datatype Value = Value(content: string, truthy: bool)
  datatype Entry = Plain(value: Value) | Nested(fields: map<string, Value>)
  type Record = map<string, Value>

  /** The mapped field of a schema field: core mappings come first. */
  function MappedTo(config: Config, k: string): Option<string>
    requires config.Defined?
  {
    var i, j := IndexOf(config.core, k), IndexOf(config.additional, k);
    if i < |config.core| then Some(config.core[i].mappedField)
    else if j < |config.additional| then Some(config.additional[j].mappedField)
    else None
  }

  /** `mapEntityToObjectFields` over the entries of a record, in their order. */
  method MapEntityToObjectFields(data: seq<(string, Value)>, config: Config) returns (r: Result<Record>)
    ensures r == ToObject(data, config)
  {
    if config.InheritAllFields? {
      return Ok(RecordOf(data));
    }
    var acc: Record := map[];
    for i := 0 to |data|
      invariant ToObject(data[..i], config) == Ok(acc)
    {
      assert data[..i + 1][..i] == data[..i];
      var m := MappedTo(config, data[i].0);
      if m.None? {
        ErrorStays(data, config, i + 1);
        return Error;
      }
      acc := acc[m.value := data[i].1];
    }
    assert data[..|data|] == data;
    r := Ok(acc);
  }

  function RecordOf(data: seq<(string, Value)>): Record {
    if data == [] then map[] else RecordOf(data[..|data| - 1])[data[|data| - 1].0 := data[|data| - 1].1]
  }

  function ToObject(data: seq<(string, Value)>, config: Config): Result<Record> {
    if config.InheritAllFields? then Ok(RecordOf(data))
    else if data == [] then Ok(map[])
    else
      var init := ToObject(data[..|data| - 1], config);
      var m := MappedTo(config, data[|data| - 1].0);
      if init.Error? || m.None? then Error else Ok(init.value[m.value := data[|data| - 1].1])
  }

  lemma {:induction false} ErrorStays(data: seq<(string, Value)>, config: Config, i: nat)
    requires i <= |data| && ToObject(data[..i], config).Error?
    ensures ToObject(data, config).Error?
    decreases |data| - i
  {
    if i < |data| {
      assert data[..i + 1][..i] == data[..i];
      ErrorStays(data, config, i + 1);
    } else {
      assert data[..i] == data;
    }
  }

  /** Writing fails exactly when some key of the record is not mapped. */
  lemma {:induction false} FailsOnUnmapped(data: seq<(string, Value)>, config: Config)
    requires config.Defined?
    ensures ToObject(data, config).Ok? <==> forall i :: 0 <= i < |data| ==> MappedTo(config, data[i].0).Some?
  {
    if data != [] {
      FailsOnUnmapped(data[..|data| - 1], config);
    }
  }

  /** The fields among those mapped that have a truthy value. */
  function ReadBack(data: Record, fields: seq<Field>): Record {
    if fields == [] then map[]
    else
      var init, f := ReadBack(data, fields[..|fields| - 1]), fields[|fields| - 1];
      if f.mappedField in data && data[f.mappedField].truthy then init[f.entityField := data[f.mappedField]] else init
  }

  method CollectFields(data: Record, fields: seq<Field>) returns (r: Record)
    ensures r == ReadBack(data, fields)
  {
    r := map[];
    for i := 0 to |fields|
      invariant r == ReadBack(data, fields[..i])
    {
      assert fields[..i + 1][..i] == fields[..i];
      if fields[i].mappedField in data && data[fields[i].mappedField].truthy {
        r := r[fields[i].entityField := data[fields[i].mappedField]];
      }
    }
    assert fields[..|fields|] == fields;
  }

  function PlainRecord(r: Record): map<string, Entry> {
    map k | k in r :: Plain(r[k])
  }

  function ToEntity(data: Record, config: Config): map<string, Entry> {
    if config.InheritAllFields? then PlainRecord(data)
    else PlainRecord(ReadBack(data, config.core))["additionalFields" := Nested(ReadBack(data, config.additional))]
  }

  method MapObjectToEntityFields(data: Record, config: Config) returns (r: map<string, Entry>)
    ensures r == ToEntity(data, config)
  {
    if config.InheritAllFields? {
      return PlainRecord(data);
    }
    var coreFields := CollectFields(data, config.core);
    var additionalFields := CollectFields(data, config.additional);
    r := PlainRecord(coreFields)["additionalFields" := Nested(additionalFields)];
  }

  /** Without a mapping of fields a record passes both ways unchanged. */
  lemma {:induction false} InheritingPasses(data: seq<(string, Value)>, i: nat)
    requires DistinctKeys(data) && i < |data|
    ensures var object_ := ToObject(data, InheritAllFields);
            && object_.Ok? && data[i].0 in object_.value && object_.value[data[i].0] == data[i].1
            && (forall k :: k in object_.value <==> exists j :: 0 <= j < |data| && data[j].0 == k)
            && (forall k :: k in object_.value <==> k in ToEntity(object_.value, InheritAllFields))
            && ToEntity(object_.value, InheritAllFields)[data[i].0] == Plain(data[i].1)
  {
    RecordHas(data);
  }

  lemma {:induction false} RecordHas(data: seq<(string, Value)>)
    requires DistinctKeys(data)
    ensures forall i :: 0 <= i < |data| ==> data[i].0 in RecordOf(data) && RecordOf(data)[data[i].0] == data[i].1
    ensures forall k :: k in RecordOf(data) <==> exists j :: 0 <= j < |data| && data[j].0 == k
  {
    if data != [] {
      RecordHas(data[..|data| - 1]);
    }
  }

  // ---- The round trip

  predicate DistinctKeys(data: seq<(string, Value)>) {
    forall i, j :: 0 <= i < j < |data| ==> data[i].0 != data[j].0
  }

  /** A config as it comes from a merged mapping. */
  ghost predicate Wellformed(config: Config) {
    && config.Defined? && DistinctFields(config.core) && DistinctFields(config.additional)
    && (forall f, g :: f in config.core && g in config.additional ==> f.entityField != g.entityField)
  }

  /** No two fields are mapped to the same field of the object. */
  ghost predicate Injective(config: Config)
    requires config.Defined?
  {
    forall f, g :: (f in config.core || f in config.additional) && (g in config.core || g in config.additional) && f.mappedField == g.mappedField ==>
      f.entityField == g.entityField
  }

  predicate HasField(fields: seq<Field>, k: string) {
    exists f :: f in fields && f.entityField == k
  }

  function Part(r: Record, fields: seq<Field>): Record {
    map k | k in r && HasField(fields, k) :: r[k]
  }

  /** The core part comes back at top level and the additional part under
      `additionalFields`, and nothing else does. */
  ghost predicate ComesBack(core: Record, additional: Record, back: map<string, Entry>) {
    && "additionalFields" in back && back["additionalFields"] == Nested(additional)
    && (forall k :: k in core ==> k in back && back[k] == Plain(core[k]))
    && (forall k :: k in back && k != "additionalFields" ==> k in core)
  }

  /** All mappings of a config. */
  function All(config: Config): seq<Field>
    requires config.Defined?
  {
    config.core + config.additional
  }

  lemma MappedToIs(config: Config, f: Field)
    requires Wellformed(config) && f in All(config)
    ensures MappedTo(config, f.entityField) == Some(f.mappedField)
  {
    var k := f.entityField;
    var i, j := IndexOf(config.core, k), IndexOf(config.additional, k);
    if f in config.core {
      var n :| 0 <= n < |config.core| && config.core[n] == f;
      assert i == n;
    } else {
      var n :| 0 <= n < |config.additional| && config.additional[n] == f;
      var core := config.core;
      assert forall l :: 0 <= l < |core| ==> core[l] in core;
      assert j == n;
    }
  }

  lemma MappedFrom(config: Config, k: string)
    requires Wellformed(config) && MappedTo(config, k).Some?
    ensures exists f :: f in All(config) && f.entityField == k && f.mappedField == MappedTo(config, k).value
  {
    var i, j := IndexOf(config.core, k), IndexOf(config.additional, k);
    if i < |config.core| {
      assert config.core[i] in All(config);
    } else {
      assert config.additional[j] in All(config);
    }
  }

  lemma SameTarget(config: Config, k: string, l: string)
    requires Wellformed(config) && Injective(config)
    requires MappedTo(config, k).Some? && MappedTo(config, k) == MappedTo(config, l)
    ensures k == l
  {
    MappedFrom(config, k);
    MappedFrom(config, l);
  }

  /** The object has a field exactly when the record has the one mapped to it. */
  lemma {:induction false} ObjectHas(data: seq<(string, Value)>, config: Config, k: string)
    requires DistinctKeys(data) && Wellformed(config) && Injective(config)
    requires ToObject(data, config).Ok? && MappedTo(config, k).Some?
    ensures var object_, m := ToObject(data, config).value, MappedTo(config, k).value;
            && (m in object_ <==> k in RecordOf(data))
            && (m in object_ ==> object_[m] == RecordOf(data)[k])
  {
    if data != [] {
      var n := |data| - 1;
      ObjectHas(data[..n], config, k);
      if MappedTo(config, data[n].0) == MappedTo(config, k) {
        SameTarget(config, data[n].0, k);
      }
    }
  }

  /** Reading back gives the truthy part of the record. */
  lemma {:induction false} ReadBackIs(data: seq<(string, Value)>, config: Config, fields: seq<Field>, k: string)
    requires DistinctKeys(data) && Wellformed(config) && Injective(config) && ToObject(data, config).Ok?
    requires forall f :: f in fields ==> f in All(config)
    ensures var back, part := ReadBack(ToObject(data, config).value, fields), Part(RecordOf(data), fields);
            && (k in back <==> k in part && part[k].truthy)
            && (k in back ==> back[k] == part[k])
  {
    if fields != [] {
      var init, f := fields[..|fields| - 1], fields[|fields| - 1];
      ReadBackIs(data, config, init, k);
      MappedToIs(config, f);
      ObjectHas(data, config, f.entityField);
      hide ToObject, RecordOf, Wellformed, Injective, MappedTo;
      assert fields == init + [f];
      assert HasField(fields, k) <==> HasField(init, k) || k == f.entityField by {
        if HasField(fields, k) {
          var g :| g in fields && g.entityField == k;
          assert g in init || g == f;
        }
        if HasField(init, k) {
          var g :| g in init && g.entityField == k;
          assert g in fields;
        }
      }
    }
  }

  predicate AllTruthy(r: Record) {
    forall k :: k in r ==> r[k].truthy
  }

  /** Every key of a record that can be written is mapped. */
  lemma {:induction false} KeysAreMapped(data: seq<(string, Value)>, config: Config, k: string)
    requires Wellformed(config) && ToObject(data, config).Ok? && k in RecordOf(data)
    ensures HasField(config.core, k) || HasField(config.additional, k)
  {
    var n := |data| - 1;
    if k == data[n].0 {
      MappedFrom(config, k);
    } else {
      KeysAreMapped(data[..n], config, k);
    }
  }

  ghost predicate IsTruthyPart(back: Record, part: Record) {
    && (forall k :: k in back <==> k in part && part[k].truthy)
    && (forall k :: k in back ==> back[k] == part[k])
  }

  lemma TruthyPartsComeBack(core: Record, additional: Record, core': Record, additional': Record)
    requires IsTruthyPart(core', core) && IsTruthyPart(additional', additional)
    ensures ComesBack(core, additional, PlainRecord(core')["additionalFields" := Nested(additional')]) <==>
            AllTruthy(core) && AllTruthy(additional) && "additionalFields" !in core
  {
    if AllTruthy(additional) {
      assert additional' == additional;
    } else {
      var k :| k in additional && !additional[k].truthy;
      assert k !in additional';
    }
  }

  lemma ReadBackIsTruthyPart(data: seq<(string, Value)>, config: Config, fields: seq<Field>)
    requires DistinctKeys(data) && Wellformed(config) && Injective(config) && ToObject(data, config).Ok?
    requires forall f :: f in fields ==> f in All(config)
    ensures IsTruthyPart(ReadBack(ToObject(data, config).value, fields), Part(RecordOf(data), fields))
  {
    hide ToObject, RecordOf, ReadBack, Wellformed, Injective, Part;
    forall k ensures var back, part := ReadBack(ToObject(data, config).value, fields), Part(RecordOf(data), fields);
                     (k in back <==> k in part && part[k].truthy) && (k in back ==> back[k] == part[k])
    {
      ReadBackIs(data, config, fields, k);
    }
  }

  /** Writing a record and reading it back gives its core part at top level and its
      additional part under `additionalFields` exactly when no value is falsy and no
      core field of the record is itself called `additionalFields`. */
  lemma RoundTrip(data: seq<(string, Value)>, config: Config)
    requires DistinctKeys(data) && Wellformed(config) && Injective(config) && ToObject(data, config).Ok?
    ensures var r := RecordOf(data);
            var core, additional := Part(r, config.core), Part(r, config.additional);
            && (forall k :: k in r <==> k in core || k in additional)
            && (ComesBack(core, additional, ToEntity(ToObject(data, config).value, config)) <==>
                AllTruthy(r) && "additionalFields" !in core)
  {
    var r := RecordOf(data);
    forall k | k in r ensures k in Part(r, config.core) || k in Part(r, config.additional) {
      KeysAreMapped(data, config, k);
    }
    ReadBackIsTruthyPart(data, config, config.core);
    ReadBackIsTruthyPart(data, config, config.additional);
    hide ToObject, RecordOf, ReadBack, Wellformed, Injective, HasField, IsTruthyPart, ComesBack;
    var object_ := ToObject(data, config).value;
    assert AllTruthy(r) <==> AllTruthy(Part(r, config.core)) && AllTruthy(Part(r, config.additional));
    hide Part, AllTruthy, PlainRecord;
    TruthyPartsComeBack(Part(r, config.core), Part(r, config.additional), ReadBack(object_, config.core), ReadBack(object_, config.additional));
  }

  /** One field, mapped to a field of the same name. */
  function OneField(name: string): Config {
    Defined([Field(name, name)], [])
  }

  lemma OneFieldIsWritten(name: string, value: Value)
    ensures Wellformed(OneField(name)) && Injective(OneField(name))
    ensures ToObject([(name, value)], OneField(name)).Ok? && RecordOf([(name, value)]) == map[name := value]
    ensures Part(map[name := value], OneField(name).core) == map[name := value]
  {
    var data, config := [(name, value)], OneField(name);
    assert data[..0] == [] && RecordOf(data[..0]) == map[];
    MappedToIs(config, Field(name, name));
    assert ToObject(data[..0], config) == Ok(map[]);
    assert HasField(config.core, name) by { assert config.core[0] in config.core; }
  }

  /** A record with a falsy value does not come back, and neither does one with a core
      field called `additionalFields`. */
  lemma RoundTripLoses(name: string, value: Value)
    requires !value.truthy || name == "additionalFields"
    ensures var object_ := ToObject([(name, value)], OneField(name));
            && object_.Ok?
            && !ComesBack(map[name := value], map[], ToEntity(object_.value, OneField(name)))
  {
    var data, r: Record := [(name, value)], map[name := value];
    OneFieldIsWritten(name, value);
    RoundTrip(data, OneField(name));
    assert Part(r, OneField(name).additional) == map[];
    hide ToObject, RecordOf, ToEntity, ComesBack;
    assert name in r && r[name] == value;
  }

  /** The config of a merged mapping is wellformed, so the round trip applies to it. */
  lemma MergedConfigIsWellformed(e: EntityMappingList.Entity, provider: seq<Field>, connection: seq<Field>)
    requires DistinctFields(provider)
    ensures var r := CreateFieldMappingConfigForEntity(e, Some(MergeFields(provider, connection)));
            r.Ok? ==> Wellformed(r.value)
  {
    MergeIsOverride(provider, connection);
    hide MergeFields;
  }
}

/** The list of all entities with their merged mappings, and its agreement with the
    merge of a single entity. */
module EntityMappingList {
  import opened SyncTypes
  import opened EntityMapping

  datatype Entity = Entity(id: string, name: string, fields: seq<string>, allowAdditionalFieldMappings: bool)
  datatype From = Developer | Customer
  datatype Mapping = Mapping(entityId: string, mapped: Option<string>, fieldMappings: Option<seq<Field>>)
  datatype MergedField = MergedField(entityField: string, mappedField: Option<string>, from: Option<From>, isAdditional: bool)
  datatype MergedMapping = MergedMapping(entityId: string, entityName: string, allowAdditionalFieldMappings: bool,
                                         mapped: Option<(string, From)>, fieldMappings: seq<MergedField>)

  function Skeleton(e: Entity): MergedMapping {
    MergedMapping(e.id, e.name, e.allowAdditionalFieldMappings, None,
                  seq(|e.fields|, i requires 0 <= i < |e.fields| => MergedField(e.fields[i], None, None, false)))
  }

  function FieldIndex(fields: seq<MergedField>, entityField: string): (i: nat)
    ensures i <= |fields| && (i < |fields| ==> fields[i].entityField == entityField)
    ensures forall j :: 0 <= j < i ==> fields[j].entityField != entityField
  {
    if fields == [] || fields[0].entityField == entityField then 0 else 1 + FieldIndex(fields[1..], entityField)
  }

  function PutField(fields: seq<MergedField>, f: Field, from: From): seq<MergedField> {
    var i := FieldIndex(fields, f.entityField);
    if i < |fields| then fields[i := fields[i].(mappedField := Some(f.mappedField), from := Some(from))]
    else fields + [MergedField(f.entityField, Some(f.mappedField), Some(from), true)]
  }

  function PutFields(fields: seq<MergedField>, fs: seq<Field>, from: From): seq<MergedField> {
    if fs == [] then fields else PutField(PutFields(fields, fs[..|fs| - 1], from), fs[|fs| - 1], from)
  }

  function FieldsIn(m: Mapping): seq<Field> {
    if m.fieldMappings.Some? then m.fieldMappings.value else []
  }

  function PutMapping(merged: MergedMapping, m: Mapping, from: From): MergedMapping {
    merged.(mapped := if m.mapped.Some? then Some((m.mapped.value, from)) else None,
            fieldMappings := PutFields(merged.fieldMappings, FieldsIn(m), from))
  }

  /** All mappings of the entity, in order. */
  function PutAll(merged: MergedMapping, ms: seq<Mapping>, from: From): (r: MergedMapping)
    ensures r.entityId == merged.entityId && r.entityName == merged.entityName
    ensures r.allowAdditionalFieldMappings == merged.allowAdditionalFieldMappings
  {
    if ms == [] then merged
    else
      var init := PutAll(merged, ms[..|ms| - 1], from);
      if ms[|ms| - 1].entityId == merged.entityId then PutMapping(init, ms[|ms| - 1], from) else init
  }

  // ---- mergeEntityMappingsList

  predicate DistinctEntities(entities: seq<Entity>) {
    forall i, j :: 0 <= i < j < |entities| ==> entities[i].id != entities[j].id
  }

  method FindField(fields: seq<MergedField>, entityField: string) returns (i: nat)
    ensures i == FieldIndex(fields, entityField)
  {
    i := 0;
    while i < |fields| && fields[i].entityField != entityField
      invariant i <= |fields| && FieldIndex(fields, entityField) == i + FieldIndex(fields[i..], entityField)
    {
      assert fields[i..][1..] == fields[i + 1..];
      i := i + 1;
    }
  }

  method MergeFieldMappings(fields: seq<MergedField>, fs: seq<Field>, from: From) returns (r: seq<MergedField>)
    ensures r == PutFields(fields, fs, from)
  {
    r := fields;
    for i := 0 to |fs|
      invariant r == PutFields(fields, fs[..i], from)
    {
      assert fs[..i + 1][..i] == fs[..i];
      var k := FindField(r, fs[i].entityField);
      if k < |r| {
        r := r[k := r[k].(mappedField := Some(fs[i].mappedField), from := Some(from))];
      } else {
        r := r + [MergedField(fs[i].entityField, Some(fs[i].mappedField), Some(from), true)];
      }
    }
    assert fs[..|fs|] == fs;
  }

  method FindMapping(merged: seq<MergedMapping>, entityId: string) returns (i: nat)
    ensures i <= |merged| && (i < |merged| ==> merged[i].entityId == entityId)
    ensures forall j :: 0 <= j < i ==> merged[j].entityId != entityId
  {
    i := 0;
    while i < |merged| && merged[i].entityId != entityId
      invariant i <= |merged| && forall j :: 0 <= j < i ==> merged[j].entityId != entityId
    {
      i := i + 1;
    }
  }

  method MergeMappings(base: seq<MergedMapping>, ms: seq<Mapping>, from: From) returns (r: seq<MergedMapping>)
    requires forall i, j :: 0 <= i < j < |base| ==> base[i].entityId != base[j].entityId
    ensures |r| == |base| && forall i :: 0 <= i < |base| ==> r[i] == PutAll(base[i], ms, from)
  {
    r := base;
    for n := 0 to |ms|
      invariant |r| == |base| && forall i :: 0 <= i < |base| ==> r[i] == PutAll(base[i], ms[..n], from)
    {
      assert ms[..n + 1][..n] == ms[..n];
      var k := FindMapping(r, ms[n].entityId);
      if k < |r| {
        var fields := MergeFieldMappings(r[k].fieldMappings, FieldsIn(ms[n]), from);
        r := r[k := r[k].(mapped := if ms[n].mapped.Some? then Some((ms[n].mapped.value, from)) else None, fieldMappings := fields)];
      }
    }
    assert ms[..|ms|] == ms;
  }

  predicate IsAbout(r: MergedMapping, e: Entity) {
    r.entityId == e.id && r.entityName == e.name && r.allowAdditionalFieldMappings == e.allowAdditionalFieldMappings
  }

  method MergeEntityMappingsList(entities: seq<Entity>, provider: seq<Mapping>, connection: seq<Mapping>) returns (r: seq<MergedMapping>)
    requires DistinctEntities(entities)
    ensures |r| == |entities| && forall i :: 0 <= i < |entities| ==> IsAbout(r[i], entities[i])
    ensures forall i :: 0 <= i < |entities| ==> r[i] == PutAll(PutAll(Skeleton(entities[i]), provider, Developer), connection, Customer)
  {
    r := seq(|entities|, i requires 0 <= i < |entities| => Skeleton(entities[i]));
    r := MergeMappings(r, provider, Developer);
    r := MergeMappings(r, connection, Customer);
  }

  // ---- What the merged entries are

  /** The first entries are the entity's own fields in order; the others are not. */
  ghost predicate Leads(own: seq<string>, fields: seq<MergedField>) {
    && |fields| >= |own|
    && (forall i :: 0 <= i < |own| ==> fields[i].entityField == own[i] && !fields[i].isAdditional)
    && (forall i :: |own| <= i < |fields| ==> fields[i].isAdditional && fields[i].entityField !in own)
  }

  /** Of several entries for a field only the first is ever mapped. */
  ghost predicate FirstOnly(fields: seq<MergedField>) {
    forall i, j :: 0 <= i < j < |fields| && fields[i].entityField == fields[j].entityField ==> fields[j].mappedField == None
  }

  predicate Maps(fields: seq<MergedField>, k: string, v: (string, From)) {
    exists i :: 0 <= i < |fields| && fields[i].entityField == k && fields[i].mappedField == Some(v.0) && fields[i].from == Some(v.1)
  }

  /** The mapped entries, with who mapped them. */
  ghost predicate IsMapOf(fields: seq<MergedField>, m: map<string, (string, From)>) {
    && (forall i :: 0 <= i < |fields| && fields[i].mappedField.Some? ==>
          && fields[i].entityField in m && fields[i].mappedField == Some(m[fields[i].entityField].0)
          && fields[i].from == Some(m[fields[i].entityField].1))
    && (forall k :: k in m ==> Maps(fields, k, m[k]))
  }

  function Tagged(m: map<string, string>, from: From): map<string, (string, From)> {
    map k | k in m :: (m[k], from)
  }

  ghost predicate Merged(own: seq<string>, fields: seq<MergedField>, m: map<string, (string, From)>) {
    Leads(own, fields) && FirstOnly(fields) && IsMapOf(fields, m)
  }

  lemma PutFieldLeads(own: seq<string>, fields: seq<MergedField>, f: Field, from: From)
    requires Leads(own, fields) && FirstOnly(fields)
    ensures Leads(own, PutField(fields, f, from)) && FirstOnly(PutField(fields, f, from))
  {
    if FieldIndex(fields, f.entityField) == |fields| {
      forall j | 0 <= j < |own| ensures own[j] != f.entityField {
        assert fields[j].entityField == own[j];
      }
    }
  }

  lemma PutFieldMaps(fields: seq<MergedField>, m: map<string, (string, From)>, f: Field, from: From)
    requires FirstOnly(fields) && IsMapOf(fields, m)
    ensures IsMapOf(PutField(fields, f, from), m[f.entityField := (f.mappedField, from)])
  {
    var r, i := PutField(fields, f, from), FieldIndex(fields, f.entityField);
    assert r[i].entityField == f.entityField && Maps(r, f.entityField, (f.mappedField, from));
    forall k | k in m && k != f.entityField ensures Maps(r, k, m[k]) {
      var j :| 0 <= j < |fields| && fields[j].entityField == k && fields[j].mappedField == Some(m[k].0) && fields[j].from == Some(m[k].1);
      assert r[j] == fields[j];
    }
  }

  lemma TagOverride(m: map<string, (string, From)>, a: map<string, string>, k: string, v: string, from: From)
    ensures (m + Tagged(a, from))[k := (v, from)] == m + Tagged(a[k := v], from)
  {
  }

  lemma {:induction false} PutFieldsMaps(own: seq<string>, fields: seq<MergedField>, m: map<string, (string, From)>, fs: seq<Field>, from: From)
    requires Merged(own, fields, m)
    ensures Merged(own, PutFields(fields, fs, from), m + Tagged(AsMap(fs), from))
  {
    if fs == [] {
      assert m + Tagged(AsMap(fs), from) == m;
    } else {
      var init, last := fs[..|fs| - 1], fs[|fs| - 1];
      PutFieldsMaps(own, fields, m, init, from);
      hide Leads, FirstOnly, IsMapOf, PutField, Tagged;
      TagOverride(m, AsMap(init), last.entityField, last.mappedField, from);
      PutFieldLeads(own, PutFields(fields, init, from), last, from);
      PutFieldMaps(PutFields(fields, init, from), m + Tagged(AsMap(init), from), last, from);
    }
  }

  /** The mapping of an entity in a list that has at most one. */
  ghost predicate IsMappingOf(ms: seq<Mapping>, entityId: string, m: Option<Mapping>) {
    match m
    case None => forall i :: 0 <= i < |ms| ==> ms[i].entityId != entityId
    case Some(x) => exists k :: 0 <= k < |ms| && ms[k] == x && x.entityId == entityId
                                && forall i :: 0 <= i < |ms| && i != k ==> ms[i].entityId != entityId
  }

  lemma {:induction false} PutAllOfNone(merged: MergedMapping, ms: seq<Mapping>, from: From)
    requires forall i :: 0 <= i < |ms| ==> ms[i].entityId != merged.entityId
    ensures PutAll(merged, ms, from) == merged
  {
    if ms != [] {
      PutAllOfNone(merged, ms[..|ms| - 1], from);
    }
  }

  lemma {:induction false} PutAllOfOne(merged: MergedMapping, ms: seq<Mapping>, from: From, k: nat)
    requires k < |ms| && ms[k].entityId == merged.entityId
    requires forall i :: 0 <= i < |ms| && i != k ==> ms[i].entityId != merged.entityId
    ensures PutAll(merged, ms, from) == PutMapping(merged, ms[k], from)
  {
    if k == |ms| - 1 {
      PutAllOfNone(merged, ms[..|ms| - 1], from);
    } else {
      PutAllOfOne(merged, ms[..|ms| - 1], from, k);
    }
  }

  lemma PutAllIsPut(merged: MergedMapping, ms: seq<Mapping>, from: From, m: Option<Mapping>)
    requires IsMappingOf(ms, merged.entityId, m)
    ensures PutAll(merged, ms, from) == if m.Some? then PutMapping(merged, m.value, from) else merged
  {
    if m.None? {
      PutAllOfNone(merged, ms, from);
    } else {
      var k :| 0 <= k < |ms| && ms[k] == m.value && forall i :: 0 <= i < |ms| && i != k ==> ms[i].entityId != merged.entityId;
      PutAllOfOne(merged, ms, from, k);
    }
  }

  function FieldsOfOption(m: Option<Mapping>): seq<Field> {
    if m.Some? then FieldsIn(m.value) else []
  }

  function Attributed(mapped: Option<string>, from: From): Option<(string, From)> {
    if mapped.Some? then Some((mapped.value, from)) else None
  }

  /** The developer's map overridden by the customer's, with who mapped what. */
  function AttributedMap(p: seq<Field>, c: seq<Field>): map<string, (string, From)> {
    Tagged(AsMap(p), Developer) + Tagged(AsMap(c), Customer)
  }

  lemma AttributedMapIsMerge(p: seq<Field>, c: seq<Field>)
    requires DistinctFields(p)
    ensures AttributedMap(p, c).Keys == AsMap(MergeFields(p, c)).Keys
    ensures forall k :: k in AttributedMap(p, c) ==> AttributedMap(p, c)[k].0 == AsMap(MergeFields(p, c))[k]
  {
    MergeIsOverride(p, c);
    hide AsMap, MergeFields;
  }

  lemma PutNoFields(fields: seq<MergedField>, from: From)
    ensures PutFields(fields, [], from) == fields
  {
  }

  lemma FieldsOfEntity(e: Entity, p: seq<Field>, c: seq<Field>)
    ensures Merged(e.fields, PutFields(PutFields(Skeleton(e).fieldMappings, p, Developer), c, Customer), AttributedMap(p, c))
  {
    var fields := Skeleton(e).fieldMappings;
    assert Merged(e.fields, fields, map[]);
    hide Merged, Leads, FirstOnly, IsMapOf, PutFields, AsMap;
    PutFieldsMaps(e.fields, fields, map[], p, Developer);
    assert map[] + Tagged(AsMap(p), Developer) == Tagged(AsMap(p), Developer);
    hide Tagged;
    PutFieldsMaps(e.fields, PutFields(fields, p, Developer), Tagged(AsMap(p), Developer), c, Customer);
  }

  /** For each entity the list agrees with merging its two mappings: the mapped
      entries are the merged map, with the customer's entries attributed to the
      customer, the object is the last mapping's, the leading entries are the
      entity's fields in order, and an entry is additional exactly when it is none. */
  lemma ListAgreesWithMerge(e: Entity, provider: seq<Mapping>, connection: seq<Mapping>, p: Option<Mapping>, c: Option<Mapping>)
    requires IsMappingOf(provider, e.id, p) && IsMappingOf(connection, e.id, c)
    requires DistinctFields(FieldsOfOption(p))
    ensures var r := PutAll(PutAll(Skeleton(e), provider, Developer), connection, Customer);
            var m := AttributedMap(FieldsOfOption(p), FieldsOfOption(c));
            var merged := AsMap(MergeFields(FieldsOfOption(p), FieldsOfOption(c)));
            && Leads(e.fields, r.fieldMappings) && FirstOnly(r.fieldMappings) && IsMapOf(r.fieldMappings, m)
            && m.Keys == merged.Keys && (forall k :: k in merged ==> m[k].0 == merged[k])
            && r.mapped == (if c.Some? then Attributed(c.value.mapped, Customer)
                            else if p.Some? then Attributed(p.value.mapped, Developer) else None)
  {
    hide AsMap, MergeFields, PutAll, PutFields, IsMappingOf, Leads, FirstOnly, IsMapOf, AttributedMap;
    AttributedMapIsMerge(FieldsOfOption(p), FieldsOfOption(c));
    PutAllIsPut(Skeleton(e), provider, Developer, p);
    PutAllIsPut(PutAll(Skeleton(e), provider, Developer), connection, Customer, c);
    FieldsOfEntity(e, FieldsOfOption(p), FieldsOfOption(c));
    PutNoFields(Skeleton(e).fieldMappings, Developer);
    PutNoFields(PutAll(Skeleton(e), provider, Developer).fieldMappings, Customer);
  }
}

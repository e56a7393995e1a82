/** Merging a developer's and a customer's mapping of an entity, and what the
    merged mapping does to records. */
module EntityMapping {
  import opened SyncTypes

  datatype Field = Field(entityField: string, mappedField: string)

  predicate DistinctFields(fields: seq<Field>) {
    forall i, j :: 0 <= i < j < |fields| ==> fields[i].entityField != fields[j].entityField
  }

  /** The first mapping of an entity field, or the length. */
  function IndexOf(fields: seq<Field>, entityField: string): (i: nat)
    ensures i <= |fields|
    ensures i < |fields| ==> fields[i].entityField == entityField
    ensures forall j :: 0 <= j < i ==> fields[j].entityField != entityField
  {
    if fields == [] || fields[0].entityField == entityField then 0 else 1 + IndexOf(fields[1..], entityField)
  }

  /** One mapping of the overriding list: it changes the first mapping of its field
      in place, or goes to the end. */
  function Override(fields: seq<Field>, f: Field): seq<Field> {
    var i := IndexOf(fields, f.entityField);
    if i < |fields| then fields[i := Field(fields[i].entityField, f.mappedField)] else fields + [f]
  }

  function MergeFields(provider: seq<Field>, connection: seq<Field>): seq<Field> {
    if connection == [] then provider
    else Override(MergeFields(provider, connection[..|connection| - 1]), connection[|connection| - 1])
  }

  /** What a list maps each entity field to; a later entry overrides. */
  function AsMap(fields: seq<Field>): map<string, string> {
    if fields == [] then map[]
    else AsMap(fields[..|fields| - 1])[fields[|fields| - 1].entityField := fields[|fields| - 1].mappedField]
  }

  lemma {:induction false} AsMapOfDistinct(fields: seq<Field>)
    requires DistinctFields(fields)
    ensures forall k :: k in AsMap(fields) <==> exists i :: 0 <= i < |fields| && fields[i].entityField == k
    ensures forall i :: 0 <= i < |fields| ==> fields[i].entityField in AsMap(fields) && AsMap(fields)[fields[i].entityField] == fields[i].mappedField
  {
    if fields != [] {
      AsMapOfDistinct(fields[..|fields| - 1]);
    }
  }

  lemma {:induction false} ReplaceAsMap(fields: seq<Field>, i: nat, v: string)
    requires i < |fields| && forall j :: i < j < |fields| ==> fields[j].entityField != fields[i].entityField
    ensures AsMap(fields[i := Field(fields[i].entityField, v)]) == AsMap(fields)[fields[i].entityField := v]
  {
    var r, n := fields[i := Field(fields[i].entityField, v)], |fields| - 1;
    if i == n {
      assert r[..n] == fields[..n];
    } else {
      ReplaceAsMap(fields[..n], i, v);
      assert r[..n] == fields[..n][i := Field(fields[i].entityField, v)];
    }
  }

  lemma OverrideAsMap(fields: seq<Field>, f: Field)
    requires DistinctFields(fields)
    ensures DistinctFields(Override(fields, f)) && AsMap(Override(fields, f)) == AsMap(fields)[f.entityField := f.mappedField]
  {
    var i := IndexOf(fields, f.entityField);
    if i < |fields| {
      ReplaceAsMap(fields, i, f.mappedField);
    } else {
      assert (fields + [f])[..|fields|] == fields;
    }
  }

  /** The merge of two mappings is the developer's map overridden by the customer's,
      and its entity fields are distinct. */
  lemma {:induction false} MergeIsOverride(provider: seq<Field>, connection: seq<Field>)
    requires DistinctFields(provider)
    ensures DistinctFields(MergeFields(provider, connection))
    ensures AsMap(MergeFields(provider, connection)) == AsMap(provider) + AsMap(connection)
  {
    if connection == [] {
      assert AsMap(connection) == map[];
    } else {
      hide MergeFields, AsMap, Override, DistinctFields;
      var init, last := connection[..|connection| - 1], connection[|connection| - 1];
      LastComesLast(provider, connection);
      MergeIsOverride(provider, init);
      OverrideAsMap(MergeFields(provider, init), last);
      PlusUpdate(AsMap(provider), AsMap(init), last.entityField, last.mappedField);
    }
  }

  lemma PlusUpdate(a: map<string, string>, b: map<string, string>, k: string, v: string)
    ensures (a + b)[k := v] == a + b[k := v]
  {
  }

  lemma LastComesLast(provider: seq<Field>, connection: seq<Field>)
    requires connection != []
    ensures var init, last := connection[..|connection| - 1], connection[|connection| - 1];
            && MergeFields(provider, connection) == Override(MergeFields(provider, init), last)
            && AsMap(connection) == AsMap(init)[last.entityField := last.mappedField]
  {
    hide Override;
  }

  /** The merge keeps the developer's fields in their places. */
  lemma {:induction false} MergeKeepsPlaces(provider: seq<Field>, connection: seq<Field>)
    ensures |provider| <= |MergeFields(provider, connection)|
    ensures forall i :: 0 <= i < |provider| ==> MergeFields(provider, connection)[i].entityField == provider[i].entityField
  {
    if connection != [] {
      MergeKeepsPlaces(provider, connection[..|connection| - 1]);
    }
  }

  /** The developer's list is changed by the merge exactly when the customer maps a
      field the developer does not map, or maps one differently. */
  lemma MergeChangesIff(provider: seq<Field>, connection: seq<Field>)
    requires DistinctFields(provider)
    ensures MergeFields(provider, connection) != provider <==>
            exists k :: k in AsMap(connection) && (k !in AsMap(provider) || AsMap(provider)[k] != AsMap(connection)[k])
  {
    var merged, p, c := MergeFields(provider, connection), AsMap(provider), AsMap(connection);
    MergeIsOverride(provider, connection);
    MergeKeepsPlaces(provider, connection);
    hide MergeFields, AsMap;
    if forall k :: k in c ==> k in p && p[k] == c[k] {
      assert p + c == p;
      SameMapSameList(provider, merged);
    } else {
      assert p + c != p;
    }
  }

  lemma SameMapSameList(a: seq<Field>, b: seq<Field>)
    requires DistinctFields(a) && DistinctFields(b) && AsMap(a) == AsMap(b)
    requires |a| <= |b| && forall i :: 0 <= i < |a| ==> b[i].entityField == a[i].entityField
    ensures a == b
  {
    AsMapOfDistinct(a);
    AsMapOfDistinct(b);
    hide AsMap;
    assert |a| == |b| by {
      if |a| < |b| {
        NoFieldBeyond(a, b);
      }
    }
    forall i | 0 <= i < |a| ensures a[i] == b[i] {
      assert AsMap(a)[a[i].entityField] == a[i].mappedField && AsMap(b)[b[i].entityField] == b[i].mappedField;
    }
  }

  lemma NoFieldBeyond(a: seq<Field>, b: seq<Field>)
    requires DistinctFields(a) && DistinctFields(b)
    requires |a| < |b| && forall i :: 0 <= i < |a| ==> b[i].entityField == a[i].entityField
    ensures AsMap(a) != AsMap(b)
  {
    var k := b[|a|].entityField;
    AsMapOfDistinct(a);
    AsMapOfDistinct(b);
    hide AsMap;
    assert k in AsMap(b);
    forall i | 0 <= i < |a| ensures a[i].entityField != k {
      assert b[i].entityField != k;
    }
    assert k !in AsMap(a);
  }

  // What becomes of the customer's list: the first entry for a field that the developer
  // does not map goes into the developer's list itself, where later entries change it.

  predicate HandedOver(provider: seq<Field>, connection: seq<Field>, j: nat)
    requires j < |connection|
  {
    IndexOf(provider, connection[j].entityField) == |provider| && IndexOf(connection, connection[j].entityField) == j
  }

  /** The last mapping of the field. */
  function LastOf(fields: seq<Field>, entityField: string, otherwise: string): string {
    if fields == [] then otherwise
    else if fields[|fields| - 1].entityField == entityField then fields[|fields| - 1].mappedField
    else LastOf(fields[..|fields| - 1], entityField, otherwise)
  }

  /** The customer's list after its first i entries have been merged. */
  function CustomerAfter(provider: seq<Field>, connection: seq<Field>, i: nat): (r: seq<Field>)
    requires i <= |connection|
    ensures |r| == |connection|
  {
    seq(|connection|, j requires 0 <= j < |connection| =>
      if j < i && HandedOver(provider, connection, j)
      then Field(connection[j].entityField, LastOf(connection[..i], connection[j].entityField, connection[j].mappedField))
      else connection[j])
  }

  lemma {:induction false} LastOfDistinct(fields: seq<Field>, j: nat, i: nat, otherwise: string)
    requires j < i <= |fields| && DistinctFields(fields)
    ensures LastOf(fields[..i], fields[j].entityField, otherwise) == fields[j].mappedField
  {
    assert fields[..i][..i - 1] == fields[..i - 1];
    if j < i - 1 {
      LastOfDistinct(fields, j, i - 1, otherwise);
    }
  }

  /** A list without repetitions is not changed. */
  lemma CustomerKeepsDistinct(provider: seq<Field>, connection: seq<Field>)
    requires DistinctFields(connection)
    ensures CustomerAfter(provider, connection, |connection|) == connection
  {
    forall j | 0 <= j < |connection| ensures CustomerAfter(provider, connection, |connection|)[j] == connection[j] {
      LastOfDistinct(connection, j, |connection|, connection[j].mappedField);
    }
  }

  // ---- mergeEntityMappings, on shared objects

  class FieldMapping {
    const entityField: string
    var mappedField: string

    constructor (entityField: string, mappedField: string)
      ensures this.entityField == entityField && this.mappedField == mappedField
    {
      this.entityField, this.mappedField := entityField, mappedField;
    }
  }

  /** A list of field mappings, shared by everyone who holds it. */
  class FieldList {
    var items: seq<FieldMapping>

    constructor ()
      ensures items == []
    {
      items := [];
    }
  }

  class EntityMapping {
    const entityId: string
    const mapped: Option<string> // the object it maps the entity to
    const fieldMappings: FieldList?

    constructor (entityId: string, mapped: Option<string>, fieldMappings: FieldList?)
      ensures this.entityId == entityId && this.mapped == mapped && this.fieldMappings == fieldMappings
    {
      this.entityId, this.mapped, this.fieldMappings := entityId, mapped, fieldMappings;
    }
  }

  datatype Merge = Undefined | WrongEntity | Merged(entityId: string, mapped: Option<string>, fieldMappings: FieldList)

  function Elements(list: FieldList?): set<object>
    reads list
  {
    if list == null then {} else set x | x in list.items
  }

  function Values(items: seq<FieldMapping>): (r: seq<Field>)
    reads set x | x in items
    ensures |r| == |items| && forall i :: 0 <= i < |items| ==> r[i] == Field(items[i].entityField, items[i].mappedField)
  {
    seq(|items|, i requires 0 <= i < |items| reads set x | x in items => Field(items[i].entityField, items[i].mappedField))
  }

  function FieldsOf(list: FieldList?): seq<Field>
    reads list, Elements(list)
  {
    if list == null then [] else Values(list.items)
  }

  predicate DistinctItems(list: FieldList?)
    reads list
  {
    list != null ==> forall i, j :: 0 <= i < j < |list.items| ==> list.items[i] != list.items[j]
  }

  /** The lists of the two mappings are separate objects with separate elements:
      each was read from its own record. */
  predicate Separate(provider: FieldList?, connection: FieldList?)
    reads provider, connection
  {
    && DistinctItems(provider) && DistinctItems(connection)
    && (provider != null && connection != null ==> provider != connection && Elements(provider) !! Elements(connection))
  }

  function ListOf(m: EntityMapping?): FieldList? {
    if m == null then null else m.fieldMappings
  }

  method Find(items: seq<FieldMapping>, entityField: string) returns (i: nat)
    ensures i == IndexOf(Values(items), entityField)
  {
    ghost var fields := Values(items);
    i := 0;
    while i < |items| && items[i].entityField != entityField
      invariant i <= |items| && IndexOf(fields, entityField) == i + IndexOf(fields[i..], entityField)
    {
      assert fields[i..][1..] == fields[i + 1..];
      i := i + 1;
    }
  }

  method OverrideOne(list: FieldList, mapping: FieldMapping)
    requires DistinctItems(list) && mapping !in list.items
    modifies list, Elements(list)
    ensures DistinctItems(list) && mapping.mappedField == old(mapping.mappedField)
    ensures old(list.items) <= list.items && Elements(list) <= old(Elements(list)) + {mapping}
    ensures FieldsOf(list) == Override(old(FieldsOf(list)), Field(mapping.entityField, mapping.mappedField))
    ensures var k := IndexOf(old(FieldsOf(list)), mapping.entityField);
            && k <= |old(list.items)|
            && list.items == (if k < |old(list.items)| then old(list.items) else old(list.items) + [mapping])
            && (k < |old(list.items)| ==> old(list.items)[k].mappedField == mapping.mappedField)
            && forall x: FieldMapping :: x in old(list.items) && (k < |old(list.items)| ==> x != old(list.items)[k]) ==>
                  x.mappedField == old(x.mappedField)
  {
    var k := Find(list.items, mapping.entityField);
    if k < |list.items| {
      list.items[k].mappedField := mapping.mappedField;
    } else {
      list.items := list.items + [mapping];
    }
  }

  /** Of the list, its items from n on are the first i entries of the other list that
      have been handed over. */
  ghost predicate HandedOverUpTo(items: seq<FieldMapping>, n: nat, others: seq<FieldMapping>, i: nat, p: seq<Field>, c: seq<Field>) {
    && n <= |items| && |others| == |c| && i <= |c|
    && (forall j :: 0 <= j < |c| ==> others[j].entityField == c[j].entityField)
    && (forall m :: n <= m < |items| ==> IsHandedOver(items[m], others, i, p, c))
    && (forall j :: 0 <= j < i ==> HasItem(items, c[j].entityField))
  }

  ghost predicate IsHandedOver(item: FieldMapping, others: seq<FieldMapping>, i: nat, p: seq<Field>, c: seq<Field>)
    requires |others| == |c| && i <= |c|
  {
    exists j :: 0 <= j < i && HandedOver(p, c, j) && item == others[j]
  }

  ghost predicate HasItem(items: seq<FieldMapping>, entityField: string) {
    exists m :: 0 <= m < |items| && items[m].entityField == entityField
  }

  /** What one more override does, in values: `before` and `after` are the items of the
      overridden list, `fields` what they say, and `k` where the field is found. */
  lemma HandOver(before: seq<FieldMapping>, after: seq<FieldMapping>, fields: seq<Field>, others: seq<FieldMapping>,
                 values': seq<Field>, p: seq<Field>, c: seq<Field>, i: nat, k: nat)
    requires HandedOverUpTo(before, |p|, others, i, p, c) && i < |c| && |values'| == |c|
    requires forall j, l :: 0 <= j < l < |others| ==> others[j] != others[l]
    requires forall m, j :: 0 <= m < |p| && 0 <= j < |others| ==> before[m] != others[j]
    requires |fields| == |before| && forall m :: 0 <= m < |before| ==> fields[m].entityField == before[m].entityField
    requires forall m :: 0 <= m < |p| ==> fields[m].entityField == p[m].entityField
    requires k == IndexOf(fields, c[i].entityField) && after == if k < |before| then before else before + [others[i]]
    requires forall j :: 0 <= j < |c| ==>
               values'[j] == if k < |before| && others[j] == before[k] then Field(c[j].entityField, c[i].mappedField) else CustomerAfter(p, c, i)[j]
    ensures HandedOverUpTo(after, |p|, others, i + 1, p, c)
    ensures values' == CustomerAfter(p, c, i + 1)
  {
    WhereFound(before, fields, others, p, c, i, k);
    EntriesFound(before, after, fields, others, p, c, i, k);
    hide HandedOver, IndexOf, CustomerAfter, HandedOverUpTo;
    forall j | 0 <= j < |c| ensures values'[j] == CustomerAfter(p, c, i + 1)[j] {
      OneMoreEntry(p, c, i, j);
    }
  }

  lemma EntriesFound(before: seq<FieldMapping>, after: seq<FieldMapping>, fields: seq<Field>, others: seq<FieldMapping>,
                     p: seq<Field>, c: seq<Field>, i: nat, k: nat)
    requires HandedOverUpTo(before, |p|, others, i, p, c) && i < |c|
    requires |fields| == |before| && forall m :: 0 <= m < |before| ==> fields[m].entityField == before[m].entityField
    requires k == IndexOf(fields, c[i].entityField) && after == if k < |before| then before else before + [others[i]]
    requires HandedOver(p, c, i) <==> k == |before|
    ensures HandedOverUpTo(after, |p|, others, i + 1, p, c)
  {
    forall m | |p| <= m < |after| ensures IsHandedOver(after[m], others, i + 1, p, c) {
      if m < |before| {
        assert IsHandedOver(before[m], others, i, p, c);
      }
    }
    hide HandedOver, IsHandedOver;
    forall j | 0 <= j < i + 1 ensures HasItem(after, c[j].entityField) {
      if j == i {
        assert after[k].entityField == c[i].entityField;
      } else {
        assert HasItem(before, c[j].entityField);
        assert forall m :: 0 <= m < |before| ==> after[m] == before[m];
      }
    }
  }

  /** One more entry changes what its own field has handed over, if anything. */
  lemma OneMoreEntry(p: seq<Field>, c: seq<Field>, i: nat, j: nat)
    requires i < |c| && j < |c|
    ensures CustomerAfter(p, c, i + 1)[j] ==
            if j <= i && HandedOver(p, c, j) && c[j].entityField == c[i].entityField then Field(c[j].entityField, c[i].mappedField)
            else CustomerAfter(p, c, i)[j]
    ensures CustomerAfter(p, c, i)[i] == c[i]
  {
    hide HandedOver;
    assert c[..i + 1][..i] == c[..i];
  }

  /** The field is found among the developer's own, or at the entry handed over for it,
      or nowhere, and then the new entry is handed over. */
  lemma WhereFound(before: seq<FieldMapping>, fields: seq<Field>, others: seq<FieldMapping>, p: seq<Field>, c: seq<Field>, i: nat, k: nat)
    requires HandedOverUpTo(before, |p|, others, i, p, c) && i < |c|
    requires |fields| == |before| && forall m :: 0 <= m < |before| ==> fields[m].entityField == before[m].entityField
    requires forall m :: 0 <= m < |p| ==> fields[m].entityField == p[m].entityField
    requires k == IndexOf(fields, c[i].entityField)
    ensures HandedOver(p, c, i) <==> k == |before|
    ensures forall j :: 0 <= j < i && HandedOver(p, c, j) && c[j].entityField == c[i].entityField ==> |p| <= k < |before| && before[k] == others[j]
    ensures |p| <= k < |before| ==> IsHandedOver(before[k], others, i, p, c)
  {
    assert forall j :: 0 <= j < i ==> HasItem(before, c[j].entityField);
  }

  /** Where the merge is after i entries; p and c are the lists as they were. */
  ghost predicate MergedUpTo(list: FieldList, overriding: FieldList, original: seq<FieldMapping>, items: seq<FieldMapping>,
                             p: seq<Field>, c: seq<Field>, i: nat)
    reads list, Elements(list), overriding, Elements(overriding)
    requires i <= |c|
  {
    && list != overriding && overriding.items == items && |items| == |c| && DistinctItems(list) && DistinctItems(overriding)
    && original <= list.items && |original| == |p| && (forall m :: 0 <= m < |p| ==> original[m].entityField == p[m].entityField)
    && (forall m, j :: 0 <= m < |p| && 0 <= j < |items| ==> original[m] != items[j])
    && (forall j :: i <= j < |items| ==> items[j] !in list.items)
    && FieldsOf(list) == MergeFields(p, c[..i])
    && HandedOverUpTo(list.items, |p|, items, i, p, c)
    && FieldsOf(overriding) == CustomerAfter(p, c, i)
  }

  /** One override, and what it does to the other list. */
  method OverrideEntry(list: FieldList, overriding: FieldList, i: nat)
    requires list != overriding && DistinctItems(list) && DistinctItems(overriding)
    requires i < |overriding.items| && overriding.items[i] !in list.items
    modifies list, Elements(list)
    ensures DistinctItems(list) && overriding.items == old(overriding.items) && Elements(list) <= old(Elements(list)) + {overriding.items[i]}
    ensures FieldsOf(list) == Override(old(FieldsOf(list)), old(FieldsOf(overriding))[i])
    ensures var before, k := old(list.items), IndexOf(old(FieldsOf(list)), overriding.items[i].entityField);
            && list.items == (if k < |before| then before else before + [overriding.items[i]])
            && forall j :: 0 <= j < |overriding.items| ==>
                 FieldsOf(overriding)[j] ==
                 if k < |before| && overriding.items[j] == before[k]
                 then Field(overriding.items[j].entityField, old(FieldsOf(overriding))[i].mappedField)
                 else old(FieldsOf(overriding))[j]
  {
    hide Override, IndexOf, Values;
    OverrideOne(list, overriding.items[i]);
  }

  lemma ItemsAdded(original: seq<FieldMapping>, before: seq<FieldMapping>, after: seq<FieldMapping>, items: seq<FieldMapping>, i: nat)
    requires i < |items| && original <= before && (after == before || after == before + [items[i]])
    requires forall j, l :: 0 <= j < l < |items| ==> items[j] != items[l]
    requires forall j :: i <= j < |items| ==> items[j] !in before
    ensures original <= after && forall j :: i + 1 <= j < |items| ==> items[j] !in after
    ensures forall m :: 0 <= m < |original| ==> before[m] == original[m]
  {
  }

  lemma MergeOneMore(p: seq<Field>, c: seq<Field>, i: nat)
    requires i < |c|
    ensures MergeFields(p, c[..i + 1]) == Override(MergeFields(p, c[..i]), c[i])
  {
    assert c[..i + 1][..i] == c[..i];
  }

  method OverrideNext(list: FieldList, overriding: FieldList, ghost original: seq<FieldMapping>, items: seq<FieldMapping>,
                      ghost p: seq<Field>, ghost c: seq<Field>, i: nat)
    requires i < |c| && MergedUpTo(list, overriding, original, items, p, c, i)
    modifies list, Elements(list)
    ensures MergedUpTo(list, overriding, original, items, p, c, i + 1)
    ensures Elements(list) <= old(Elements(list)) + {items[i]}
  {
    ghost var before, fields := list.items, FieldsOf(list);
    ghost var k := IndexOf(fields, c[i].entityField);
    OneMoreEntry(p, c, i, i);
    assert FieldsOf(overriding)[i] == c[i];
    hide Override, MergeFields, CustomerAfter, HandedOverUpTo, IndexOf, Values;
    OverrideEntry(list, overriding, i);
    ItemsAdded(original, before, list.items, items, i);
    MergeOneMore(p, c, i);
    hide MergedUpTo, FieldsOf;
    HandOver(before, list.items, fields, items, FieldsOf(overriding), p, c, i, k);
    Together(list, overriding, original, items, p, c, i + 1);
  }

  lemma Together(list: FieldList, overriding: FieldList, original: seq<FieldMapping>, items: seq<FieldMapping>,
                 p: seq<Field>, c: seq<Field>, i: nat)
    requires i <= |c| && list != overriding && overriding.items == items && |items| == |c| && DistinctItems(list) && DistinctItems(overriding)
    requires original <= list.items && |original| == |p| && (forall m :: 0 <= m < |p| ==> original[m].entityField == p[m].entityField)
    requires forall m, j :: 0 <= m < |p| && 0 <= j < |items| ==> original[m] != items[j]
    requires forall j :: i <= j < |items| ==> items[j] !in list.items
    requires FieldsOf(list) == MergeFields(p, c[..i]) && HandedOverUpTo(list.items, |p|, items, i, p, c)
    requires FieldsOf(overriding) == CustomerAfter(p, c, i)
    ensures MergedUpTo(list, overriding, original, items, p, c, i)
  {
  }

  /** Overrides the list in place, element by element; elements of the other list
      that have no counterpart are shared from then on. */
  method OverrideAll(list: FieldList, overriding: FieldList)
    requires Separate(list, overriding)
    modifies list, Elements(list), Elements(overriding)
    ensures FieldsOf(list) == MergeFields(old(FieldsOf(list)), old(FieldsOf(overriding)))
    ensures old(list.items) <= list.items
    ensures overriding.items == old(overriding.items)
    ensures FieldsOf(overriding) == CustomerAfter(old(FieldsOf(list)), old(FieldsOf(overriding)), |old(overriding.items)|)
  {
    ghost var p, c := FieldsOf(list), FieldsOf(overriding);
    var items := overriding.items;
    ghost var original := list.items;
    assert forall m :: 0 <= m < |original| ==> original[m] in Elements(list);
    assert forall j :: 0 <= j < |items| ==> items[j] in Elements(overriding);
    for i := 0 to |items|
      invariant MergedUpTo(list, overriding, original, items, p, c, i)
      invariant Elements(list) <= old(Elements(list)) + old(Elements(overriding))
    {
      OverrideNext(list, overriding, original, items, p, c, i);
    }
    assert c[..|items|] == c;
  }

  /** Of two mappings the result holds the developer's own list, and overriding
      changes that list and its elements in place: afterwards the developer's mapping
      is itself the merged one. Entries of the customer's that have been handed over to
      that list are changed with it. A single mapping is handed out as it is. */
  method MergeEntityMappings(provider: EntityMapping?, connection: EntityMapping?) returns (r: Merge)
    requires Separate(ListOf(provider), ListOf(connection))
    modifies ListOf(provider), Elements(ListOf(provider)), Elements(ListOf(connection))
    ensures r.Undefined? <==> provider == null && connection == null
    ensures r.WrongEntity? <==> provider != null && connection != null && provider.entityId != connection.entityId
    ensures provider == null || connection == null || r.WrongEntity? ==>
      FieldsOf(ListOf(provider)) == old(FieldsOf(ListOf(provider))) && FieldsOf(ListOf(connection)) == old(FieldsOf(ListOf(connection)))
    ensures r.Merged? ==>
      && r.entityId == (if provider != null then provider else connection).entityId
      && r.mapped == (if connection != null then connection else provider).mapped
      && FieldsOf(r.fieldMappings) ==
         (if connection == null then old(FieldsOf(ListOf(provider)))
          else if provider == null then old(FieldsOf(ListOf(connection)))
          else MergeFields(old(FieldsOf(ListOf(provider))), old(FieldsOf(ListOf(connection)))))
      && (ListOf(provider) != null ==> r.fieldMappings == ListOf(provider))
      && (provider == null && ListOf(connection) != null ==> r.fieldMappings == ListOf(connection))
    ensures r.Merged? && provider != null && connection != null ==>
      var p, c := old(FieldsOf(ListOf(provider))), old(FieldsOf(ListOf(connection)));
      FieldsOf(ListOf(connection)) == CustomerAfter(p, c, |c|)
  {
    if provider != null && connection != null && provider.entityId != connection.entityId {
      return WrongEntity;
    }
    if provider == null && connection == null {
      return Undefined;
    }
    var first := if provider != null then provider else connection;
    var list := first.fieldMappings;
    if list == null {
      list := new FieldList();
    }
    if provider == null || connection == null {
      return Merged(first.entityId, first.mapped, list);
    }
    if connection.fieldMappings != null {
      OverrideAll(list, connection.fieldMappings);
    }
    return Merged(first.entityId, connection.mapped, list);
  }

  /** A mapping of an entity with the given fields. */
  method NewMapping(fields: seq<Field>) returns (m: EntityMapping)
    ensures m.entityId == "e" && m.fieldMappings != null && fresh(m.fieldMappings) && fresh(Elements(m.fieldMappings))
    ensures DistinctItems(m.fieldMappings) && FieldsOf(m.fieldMappings) == fields
  {
    var list := new FieldList();
    for i := 0 to |fields|
      invariant fresh(list) && fresh(Elements(list)) && DistinctItems(list)
      invariant |list.items| == i
      invariant forall j :: 0 <= j < i ==> list.items[j].entityField == fields[j].entityField && list.items[j].mappedField == fields[j].mappedField
    {
      ghost var items := Elements(list);
      var f := new FieldMapping(fields[i].entityField, fields[i].mappedField);
      list.items := list.items + [f];
      assert Elements(list) == items + {f};
    }
    m := new EntityMapping("e", None, list);
  }

  /** Merging does change its arguments: the customer's choice ends up in the
      developer's mapping, and the customer's first entry for a field in its last. */
  method MappingsChange() returns (developer: seq<Field>, customer: seq<Field>)
    ensures developer == [Field("name", "b"), Field("role", "d")]
    ensures customer == [Field("name", "b"), Field("role", "d"), Field("role", "d")]
  {
    var provider := NewMapping([Field("name", "a")]);
    var connection := NewMapping([Field("name", "b"), Field("role", "c"), Field("role", "d")]);
    var _ := MergeEntityMappings(provider, connection);
    NamesAndRoles();
    hide MergeFields, CustomerAfter;
    developer, customer := FieldsOf(provider.fieldMappings), FieldsOf(connection.fieldMappings);
  }

  lemma NamesAndRoles()
    ensures var p, c := [Field("name", "a")], [Field("name", "b"), Field("role", "c"), Field("role", "d")];
            && MergeFields(p, c) == [Field("name", "b"), Field("role", "d")]
            && CustomerAfter(p, c, 3) == [Field("name", "b"), Field("role", "d"), Field("role", "d")]
  {
    var p, c := [Field("name", "a")], [Field("name", "b"), Field("role", "c"), Field("role", "d")];
    assert c[..2] == [Field("name", "b"), Field("role", "c")] && c[..2][..1] == [Field("name", "b")] && c[..2][..1][..0] == [];
    assert "name" != "role" by { assert "name"[0] != "role"[0]; }
    assert MergeFields(p, c[..2][..1]) == [Field("name", "b")];
    assert MergeFields(p, c[..2]) == [Field("name", "b"), Field("role", "c")];
    assert !HandedOver(p, c, 0) && HandedOver(p, c, 1) && !HandedOver(p, c, 2);
    assert c[..3] == c;
  }
}

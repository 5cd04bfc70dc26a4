/** The rows of the plant database that the administration pages read and
    write (`machine_types`, `machine_section_templates`,
    `section_attribute_definitions`, `production_lines`, `machines`,
    `machine_sections`, `section_attribute_values`), a snapshot of all of
    them, and the queries the pages run against it.

    Nullable columns are `Option`s. Columns the core never writes
    (`created_at`, `updated_at`, the `status` of machines and sections, the
    `sequences` of machines) are not represented. */
module Schema {
  import opened Common

  /** Row ids are strings (UUIDs generated by the database). */
  type Id = string

  /** The id the database gives to the `n`-th inserted row. Only one thing
      about it matters: it differs from every id handed out before, which
      the model gets from its length (see `WellFormed`). */
  function FreshId(n: nat): (id: Id)
    ensures |id| == n + 1
  {
    seq(n + 1, _ => '#')
  }

  datatype MachineType = MachineType(
    id: Id, name: string, description: Option<string>, order: Option<int>,
    sequences: Option<seq<string>>)

  /** A section template; it belongs to the machine type whose NAME equals
      `machineType` (there is no id foreign key). */
  datatype SectionTemplate = SectionTemplate(
    id: Id, machineType: string, sectionName: string, description: Option<string>,
    order: Option<int>)

  /** `kind` is the `attribute_type` column: "text", "number", "boolean",
      "date", "select" or "textarea". */
  datatype AttributeDefinition = AttributeDefinition(
    id: Id, templateId: Option<Id>, name: string, kind: string,
    isRequired: Option<bool>, order: Option<int>, options: Option<seq<string>>)

  datatype ProductionLine = ProductionLine(
    id: Id, areaId: Id, name: string, description: Option<string>, order: Option<int>)

  datatype Machine = Machine(
    id: Id, name: string, machineType: Option<string>, lineId: Id, order: Option<int>,
    imageUrl: Option<string>, serialNumber: Option<string>, nameplateUrl: Option<string>)

  /** One template materialised on one machine. */
  datatype MachineSection = MachineSection(
    id: Id, machineId: Id, templateId: Option<Id>, name: string,
    description: Option<string>, order: Option<int>)

  /** One definition materialised on one section; `name` is a copy of the
      definition's name. */
  datatype AttributeValue = AttributeValue(
    id: Id, sectionId: Id, definitionId: Option<Id>, name: string, value: Option<string>)

  /** A snapshot of the tables. `serial` counts the ids handed out so far. */
  datatype Db = Db(
    machineTypes: seq<MachineType>,
    templates: seq<SectionTemplate>,
    definitions: seq<AttributeDefinition>,
    lines: seq<ProductionLine>,
    machines: seq<Machine>,
    sections: seq<MachineSection>,
    values: seq<AttributeValue>,
    serial: nat)

  predicate Below(id: Option<Id>, serial: nat) {
    id.Some? ==> |id.value| <= serial
  }

  predicate TypesBelow(types: seq<MachineType>, n: nat) {
    forall t :: t in types ==> |t.id| <= n
  }

  predicate TemplatesBelow(templates: seq<SectionTemplate>, n: nat) {
    forall t :: t in templates ==> |t.id| <= n
  }

  predicate DefinitionsBelow(defs: seq<AttributeDefinition>, n: nat) {
    forall d :: d in defs ==> |d.id| <= n && Below(d.templateId, n)
  }

  predicate LinesBelow(lines: seq<ProductionLine>, n: nat) {
    forall l :: l in lines ==> |l.id| <= n
  }

  predicate MachinesBelow(machines: seq<Machine>, n: nat) {
    forall m :: m in machines ==> |m.id| <= n
  }

  predicate SectionsBelow(sections: seq<MachineSection>, n: nat) {
    forall s :: s in sections ==> |s.id| <= n && Below(s.templateId, n)
  }

  predicate ValuesBelow(values: seq<AttributeValue>, n: nat) {
    forall v :: v in values ==> |v.id| <= n && |v.sectionId| <= n && Below(v.definitionId, n)
  }

  /** Every row id and every reference to a template, section or definition
      was handed out before `serial`, so `FreshId(serial)` is new. */
  predicate WellFormed(db: Db) {
    && TypesBelow(db.machineTypes, db.serial)
    && TemplatesBelow(db.templates, db.serial)
    && DefinitionsBelow(db.definitions, db.serial)
    && LinesBelow(db.lines, db.serial)
    && MachinesBelow(db.machines, db.serial)
    && SectionsBelow(db.sections, db.serial)
    && ValuesBelow(db.values, db.serial)
  }

  // ---------------------------------------------------------------------
  // Queries

  /** `machines.select('id').eq('machine_type', name)`. */
  function MachinesOfType(machines: seq<Machine>, name: string): (ids: seq<Id>)
    ensures |ids| <= |machines|
    ensures forall m :: m in machines && m.machineType == Some(name) ==> m.id in ids
    ensures forall id :: id in ids ==> exists m :: m in machines && m.machineType == Some(name) && m.id == id
  {
    if machines == [] then []
    else
      var rest := MachinesOfType(machines[1..], name);
      if machines[0].machineType == Some(name) then [machines[0].id] + rest else rest
  }

  /** The number of sections of machine `mid` that materialise template `tid`. */
  function SectionCount(sections: seq<MachineSection>, mid: Id, tid: Id): nat {
    if sections == [] then 0
    else
      var last := sections[|sections| - 1];
      SectionCount(sections[..|sections| - 1], mid, tid)
        + (if last.machineId == mid && last.templateId == Some(tid) then 1 else 0)
  }

  /** The existence check of the template fan-out: does machine `mid`
      already have a section for template `tid`? */
  function HasSection(sections: seq<MachineSection>, mid: Id, tid: Id): (b: bool)
    ensures b <==> exists s :: s in sections && s.machineId == mid && s.templateId == Some(tid)
  {
    if sections == [] then false
    else
      var last := sections[|sections| - 1];
      assert sections == sections[..|sections| - 1] + [last];
      (last.machineId == mid && last.templateId == Some(tid))
        || HasSection(sections[..|sections| - 1], mid, tid)
  }

  lemma {:induction false} HasSectionIffCount(sections: seq<MachineSection>, mid: Id, tid: Id)
    ensures HasSection(sections, mid, tid) <==> SectionCount(sections, mid, tid) > 0
  {
    if sections != [] {
      HasSectionIffCount(sections[..|sections| - 1], mid, tid);
    }
  }

  /** `section_attribute_definitions.select('*').eq('template_id', tid)`. */
  function DefinitionsOf(defs: seq<AttributeDefinition>, tid: Id): (r: seq<AttributeDefinition>)
    ensures forall d :: d in r <==> d in defs && d.templateId == Some(tid)
  {
    if defs == [] then []
    else (if defs[0].templateId == Some(tid) then [defs[0]] else []) + DefinitionsOf(defs[1..], tid)
  }

  lemma {:induction false} DefinitionsOfAppend(a: seq<AttributeDefinition>, b: seq<AttributeDefinition>, tid: Id)
    ensures DefinitionsOf(a + b, tid) == DefinitionsOf(a, tid) + DefinitionsOf(b, tid)
  {
    if a == [] {
      assert a + b == b;
    } else {
      assert (a + b)[1..] == a[1..] + b;
      DefinitionsOfAppend(a[1..], b, tid);
    }
  }

  lemma {:induction false} DefinitionsOfNone(defs: seq<AttributeDefinition>, tid: Id)
    requires forall d :: d in defs ==> d.templateId != Some(tid)
    ensures DefinitionsOf(defs, tid) == []
  {
    if defs != [] {
      DefinitionsOfNone(defs[1..], tid);
    }
  }

  lemma {:induction false} DefinitionsOfAll(defs: seq<AttributeDefinition>, tid: Id)
    requires forall d :: d in defs ==> d.templateId == Some(tid)
    ensures DefinitionsOf(defs, tid) == defs
  {
    if defs != [] {
      DefinitionsOfAll(defs[1..], tid);
    }
  }

  /** `machine_sections.select('id').eq('template_id', tid)`. */
  function SectionsOf(sections: seq<MachineSection>, tid: Id): (r: seq<MachineSection>)
    ensures forall s :: s in r <==> s in sections && s.templateId == Some(tid)
  {
    if sections == [] then []
    else (if sections[0].templateId == Some(tid) then [sections[0]] else []) + SectionsOf(sections[1..], tid)
  }

  /** `machine_section_templates.select('*').eq('machine_type', name)`. */
  function TemplatesOfType(templates: seq<SectionTemplate>, name: string): (r: seq<SectionTemplate>)
    ensures forall t :: t in r <==> t in templates && t.machineType == name
  {
    if templates == [] then []
    else (if templates[0].machineType == name then [templates[0]] else []) + TemplatesOfType(templates[1..], name)
  }

  /** The value rows of one section, in table order. */
  function ValuesOfSection(values: seq<AttributeValue>, sid: Id): (r: seq<AttributeValue>)
    ensures forall v :: v in r <==> v in values && v.sectionId == sid
  {
    if values == [] then []
    else (if values[0].sectionId == sid then [values[0]] else []) + ValuesOfSection(values[1..], sid)
  }

  lemma {:induction false} ValuesOfSectionAppend(a: seq<AttributeValue>, b: seq<AttributeValue>, sid: Id)
    ensures ValuesOfSection(a + b, sid) == ValuesOfSection(a, sid) + ValuesOfSection(b, sid)
  {
    if a == [] {
      assert a + b == b;
    } else {
      assert (a + b)[1..] == a[1..] + b;
      ValuesOfSectionAppend(a[1..], b, sid);
    }
  }

  lemma {:induction false} ValuesOfSectionNone(values: seq<AttributeValue>, sid: Id)
    requires forall v :: v in values ==> v.sectionId != sid
    ensures ValuesOfSection(values, sid) == []
  {
    if values != [] {
      ValuesOfSectionNone(values[1..], sid);
    }
  }

  lemma {:induction false} ValuesOfSectionAll(values: seq<AttributeValue>, sid: Id)
    requires forall v :: v in values ==> v.sectionId == sid
    ensures ValuesOfSection(values, sid) == values
  {
    if values != [] {
      ValuesOfSectionAll(values[1..], sid);
    }
  }

  /** The value rows of one definition, in table order. */
  function ValuesOfDefinition(values: seq<AttributeValue>, did: Id): (r: seq<AttributeValue>)
    ensures forall v :: v in r <==> v in values && v.definitionId == Some(did)
  {
    if values == [] then []
    else (if values[0].definitionId == Some(did) then [values[0]] else []) + ValuesOfDefinition(values[1..], did)
  }

  lemma {:induction false} ValuesOfDefinitionAppend(a: seq<AttributeValue>, b: seq<AttributeValue>, did: Id)
    ensures ValuesOfDefinition(a + b, did) == ValuesOfDefinition(a, did) + ValuesOfDefinition(b, did)
  {
    if a == [] {
      assert a + b == b;
    } else {
      assert (a + b)[1..] == a[1..] + b;
      ValuesOfDefinitionAppend(a[1..], b, did);
    }
  }

  lemma {:induction false} ValuesOfDefinitionNone(values: seq<AttributeValue>, did: Id)
    requires forall v :: v in values ==> v.definitionId != Some(did)
    ensures ValuesOfDefinition(values, did) == []
  {
    if values != [] {
      ValuesOfDefinitionNone(values[1..], did);
    }
  }

  lemma {:induction false} ValuesOfDefinitionAll(values: seq<AttributeValue>, did: Id)
    requires forall v :: v in values ==> v.definitionId == Some(did)
    ensures ValuesOfDefinition(values, did) == values
  {
    if values != [] {
      ValuesOfDefinitionAll(values[1..], did);
    }
  }

  // ---------------------------------------------------------------------
  // The default order offered by a "new" dialog

  /** `Math.max(...orders.map(o => o || 0), 0)`. */
  function MaxOrder(orders: seq<Option<int>>): (m: int)
    ensures m >= 0
    ensures forall i :: 0 <= i < |orders| ==> OrZero(orders[i]) <= m
    ensures m == 0 || exists i :: 0 <= i < |orders| && OrZero(orders[i]) == m
  {
    if orders == [] then 0
    else
      var rest := MaxOrder(orders[1..]);
      assert forall i :: 1 <= i < |orders| ==> orders[i] == orders[1..][i - 1];
      if OrZero(orders[0]) > rest then OrZero(orders[0]) else rest
  }

  /** The order proposed for a new row: one more than the largest existing
      order (nulls and negatives count as 0), or 1 while the list of
      siblings has not been loaded. */
  function NextOrder(loaded: Option<seq<Option<int>>>): (n: int)
    ensures n >= 1
    ensures loaded.None? ==> n == 1
    ensures loaded.Some? ==> forall i :: 0 <= i < |loaded.value| ==> OrZero(loaded.value[i]) < n
    ensures loaded.Some? && n > 1 ==> exists i :: 0 <= i < |loaded.value| && OrZero(loaded.value[i]) == n - 1
  {
    match loaded
    case None => 1
    case Some(orders) => MaxOrder(orders) + 1
  }
}

/** The administration page for production lines and their machines: the
    duplicate-name rule for lines, the guarded create and update, line
    duplication with its machines, and machine creation. */
module LinesPage {
  import opened Common
  import opened Text
  import opened Schema

  datatype LineForm = LineForm(name: string, description: string, areaId: Id)

  datatype MachineForm = MachineForm(
    name: string, machineType: string, order: int,
    imageUrl: Option<string>, serialNumber: Option<string>, nameplateUrl: Option<string>)

  const DuplicateLineMessage := "Ya existe una línea con este nombre en el área seleccionada"

  /** `ILIKE` without pattern characters: equality after lower-casing. */
  predicate SameNameIgnoringCase(a: string, b: string) {
    ToLower(a) == ToLower(b)
  }

  /** `checkDuplicateLineName`: some line of area `areaId`, other than
      `excludeId` when one is given (an empty id excludes nothing), has the
      name up to case. */
  predicate IsDuplicateLineName(lines: seq<ProductionLine>, name: string, areaId: Id, excludeId: Option<Id>) {
    exists l :: l in lines && l.areaId == areaId && SameNameIgnoringCase(l.name, name)
      && !(excludeId.Some? && excludeId.value != "" && l.id == excludeId.value)
  }

  /** Case-insensitive equality is an equivalence, so a name clashes with
      itself in any letter case. */
  lemma SameNameIgnoringCaseFacts(a: string, b: string, c: string)
    ensures SameNameIgnoringCase(a, a)
    ensures SameNameIgnoringCase(a, b) ==> SameNameIgnoringCase(b, a)
    ensures SameNameIgnoringCase(a, b) && SameNameIgnoringCase(b, c) ==> SameNameIgnoringCase(a, c)
    ensures SameNameIgnoringCase(a, ToLower(a))
  {
    assert ToLower(ToLower(a)) == ToLower(a);
  }

  /** `update(values).eq('id', id)` on the lines: only that line's name,
      description and area change. */
  function UpdateLineRows(lines: seq<ProductionLine>, id: Id, form: LineForm): (r: seq<ProductionLine>)
    ensures |r| == |lines|
    ensures forall k :: 0 <= k < |lines| && lines[k].id != id ==> r[k] == lines[k]
    ensures forall k :: 0 <= k < |lines| && lines[k].id == id ==>
      r[k].name == form.name && r[k].description == Some(form.description) && r[k].areaId == form.areaId
      && r[k].id == id && r[k].order == lines[k].order
  {
    seq(|lines|, k requires 0 <= k < |lines| =>
      if lines[k].id == id then lines[k].(name := form.name, description := Some(form.description), areaId := form.areaId)
      else lines[k])
  }

  /** The copy made by "duplicate line": `"<name> (copia)"`, same area
      and description, order `(order || 0) + 1`. */
  function LineCopy(line: ProductionLine, id: Id): ProductionLine {
    ProductionLine(id, line.areaId, line.name + " (copia)", line.description, Some(OrZero(line.order) + 1))
  }

  /** `machines.select('*').eq('production_line_id', lineId)`. */
  function MachinesOfLine(machines: seq<Machine>, lineId: Id): (r: seq<Machine>)
    ensures forall m :: m in r <==> m in machines && m.lineId == lineId
    ensures |r| <= |machines|
  {
    if machines == [] then []
    else (if machines[0].lineId == lineId then [machines[0]] else []) + MachinesOfLine(machines[1..], lineId)
  }

  /** The copies inserted together for the new line. */
  function CopiedMachines(ms: seq<Machine>, lineId: Id, base: nat): seq<Machine> {
    seq(|ms|, k requires 0 <= k < |ms| => ms[k].(id := FreshId(base + k), lineId := lineId))
  }

  /** The tables the page writes. */
  class LinesStore {
    var lines: seq<ProductionLine>
    var machines: seq<Machine>
    /** The id generator: the next id handed out is `FreshId(serial)`. */
    var serial: nat

    constructor (lines: seq<ProductionLine>, machines: seq<Machine>, serial: nat)
      ensures this.lines == lines && this.machines == machines && this.serial == serial
    {
      this.lines := lines;
      this.machines := machines;
      this.serial := serial;
    }

    /** `createLineMutation`: refused, before any write, when the name is
        a duplicate in the area; otherwise the line is inserted. */
    method CreateLine(form: LineForm) returns (err: Option<string>)
      modifies this
      ensures err.Some? <==> IsDuplicateLineName(old(lines), form.name, form.areaId, None)
      ensures err.Some? ==> err.value == DuplicateLineMessage && lines == old(lines) && serial == old(serial)
      ensures err.None? ==>
        && lines == old(lines) + [ProductionLine(FreshId(old(serial)), form.areaId, form.name, Some(form.description), None)]
        && serial == old(serial) + 1
      ensures machines == old(machines)
    {
      if IsDuplicateLineName(lines, form.name, form.areaId, None) {
        return Some(DuplicateLineMessage);
      }
      lines := lines + [ProductionLine(FreshId(serial), form.areaId, form.name, Some(form.description), None)];
      serial := serial + 1;
      err := None;
    }

    /** `updateLineMutation`: the same check, leaving the line itself out. */
    method UpdateLine(id: Id, form: LineForm) returns (err: Option<string>)
      modifies this
      ensures err.Some? <==> IsDuplicateLineName(old(lines), form.name, form.areaId, Some(id))
      ensures err.Some? ==> err.value == DuplicateLineMessage && lines == old(lines)
      ensures err.None? ==> lines == UpdateLineRows(old(lines), id, form)
      ensures machines == old(machines) && serial == old(serial)
    {
      if IsDuplicateLineName(lines, form.name, form.areaId, Some(id)) {
        return Some(DuplicateLineMessage);
      }
      lines := UpdateLineRows(lines, id, form);
      err := None;
    }

    /** `duplicateLineMutation`: the copy of the line (no name check), then
        one copy of each of its machines in the new line, inserted
        together. No sections are copied. */
    method DuplicateLine(line: ProductionLine) returns (newId: Id)
      modifies this
      ensures newId == FreshId(old(serial))
      ensures lines == old(lines) + [LineCopy(line, newId)]
      ensures machines == old(machines) + CopiedMachines(MachinesOfLine(old(machines), line.id), newId, old(serial) + 1)
      ensures serial == old(serial) + 1 + |MachinesOfLine(old(machines), line.id)|
    {
      newId := FreshId(serial);
      lines := lines + [LineCopy(line, newId)];
      serial := serial + 1;
      var sources := MachinesOfLine(machines, line.id);
      if |sources| > 0 {
        machines := machines + CopiedMachines(sources, newId, serial);
        serial := serial + |sources|;
      } else {
        assert machines + CopiedMachines(sources, newId, serial) == machines;
      }
    }

    /** `createMachineMutation`: one machine row in the selected line;
        no sections or value rows. */
    method CreateMachine(form: MachineForm, lineId: Id) returns (id: Id)
      modifies this
      ensures id == FreshId(old(serial)) && serial == old(serial) + 1
      ensures machines == old(machines) + [Machine(id, form.name, Some(form.machineType), lineId, Some(form.order),
                                                   form.imageUrl, form.serialNumber, form.nameplateUrl)]
      ensures lines == old(lines)
    {
      id := FreshId(serial);
      serial := serial + 1;
      machines := machines + [Machine(id, form.name, Some(form.machineType), lineId, Some(form.order),
                                      form.imageUrl, form.serialNumber, form.nameplateUrl)];
    }
  }

  /** Duplicating a line leaves the source machines as they were and gives
      the new line (whose id is fresh) exactly one copy of each of them, in
      order, keeping name, type, order, image, serial number and
      nameplate. */
  lemma DuplicateLineCopies(machines: seq<Machine>, line: ProductionLine, serial: nat)
    requires forall m :: m in machines ==> |m.lineId| <= serial
    ensures var newId := FreshId(serial);
      var sources := MachinesOfLine(machines, line.id);
      var copies := MachinesOfLine(machines + CopiedMachines(sources, newId, serial + 1), newId);
      && |copies| == |sources|
      && (forall k :: 0 <= k < |sources| ==> copies[k] == sources[k].(id := copies[k].id, lineId := newId))
  {
    var newId := FreshId(serial);
    var sources := MachinesOfLine(machines, line.id);
    var copies := CopiedMachines(sources, newId, serial + 1);
    NewLineHoldsCopies(machines, copies, serial);
    forall k | 0 <= k < |sources| ensures copies[k] == sources[k].(id := copies[k].id, lineId := newId) {
      CopiedMachineAt(sources, newId, serial + 1, k);
    }
  }

  /** The machines of a line with a fresh id are the copies inserted for it. */
  lemma NewLineHoldsCopies(machines: seq<Machine>, copies: seq<Machine>, serial: nat)
    requires forall m :: m in machines ==> |m.lineId| <= serial
    requires forall k :: 0 <= k < |copies| ==> copies[k].lineId == FreshId(serial)
    ensures MachinesOfLine(machines + copies, FreshId(serial)) == copies
  {
    var newId := FreshId(serial);
    MachinesOfLineAppend(machines, copies, newId);
    assert forall m :: m in machines ==> m.lineId != newId;
    MachinesOfLineNone(machines, newId);
    MachinesOfLineAll(copies, newId);
  }

  lemma CopiedMachineAt(ms: seq<Machine>, lineId: Id, base: nat, k: nat)
    requires k < |ms|
    ensures |CopiedMachines(ms, lineId, base)| == |ms|
    ensures CopiedMachines(ms, lineId, base)[k] == ms[k].(id := FreshId(base + k), lineId := lineId)
  {
  }

  lemma {:induction false} MachinesOfLineAppend(a: seq<Machine>, b: seq<Machine>, lineId: Id)
    ensures MachinesOfLine(a + b, lineId) == MachinesOfLine(a, lineId) + MachinesOfLine(b, lineId)
  {
    if a != [] {
      assert (a + b)[1..] == a[1..] + b;
      MachinesOfLineAppend(a[1..], b, lineId);
    } else {
      assert a + b == b;
    }
  }

  lemma {:induction false} MachinesOfLineNone(ms: seq<Machine>, lineId: Id)
    requires forall m :: m in ms ==> m.lineId != lineId
    ensures MachinesOfLine(ms, lineId) == []
  {
    if ms != [] {
      MachinesOfLineNone(ms[1..], lineId);
    }
  }

  lemma {:induction false} MachinesOfLineAll(ms: seq<Machine>, lineId: Id)
    requires forall k :: 0 <= k < |ms| ==> ms[k].lineId == lineId
    ensures MachinesOfLine(ms, lineId) == ms
  {
    if ms != [] {
      MachinesOfLineAll(ms[1..], lineId);
    }
  }
}

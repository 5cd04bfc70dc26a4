/** The operator dashboard: the per-area statistics, and the navigation
    between the area list, the lines of an area and the capture form. */
module Dashboard {
  import opened Common
  import opened Seqs
  import opened Plant
  import ReportContext

  datatype AreaStats = AreaStats(linesCount: nat, machinesCount: nat, faultCount: nat)

  /** The lines of area `areaId`. */
  function AreaLines(lines: seq<PlantLine>, areaId: string): seq<PlantLine> {
    Filter(lines, (l: PlantLine) => l.areaId == areaId)
  }

  /** The machines standing on one of `areaLines`. */
  function LineMachines(machines: seq<PlantMachine>, areaLines: seq<PlantLine>): seq<PlantMachine> {
    Filter(machines, (m: PlantMachine) => Any(areaLines, (l: PlantLine) => l.id == m.lineId))
  }

  /** The statistics shown on the card of area `areaId`. */
  function StatsFor(areaId: string, lines: seq<PlantLine>, machines: seq<PlantMachine>): (s: AreaStats)
    ensures s.faultCount <= s.machinesCount <= |machines|
    ensures s.linesCount <= |lines|
  {
    var areaLines := AreaLines(lines, areaId);
    var lineMachines := LineMachines(machines, areaLines);
    AreaStats(|areaLines|, |lineMachines|, |Filter(lineMachines, (m: PlantMachine) => m.status == Fault)|)
  }

  /** Machine `m` stands on a line of area `areaId`. */
  predicate InArea(lines: seq<PlantLine>, areaId: string, m: PlantMachine) {
    exists i :: 0 <= i < |lines| && lines[i].areaId == areaId && lines[i].id == m.lineId
  }

  /** A machine is counted for an area exactly when one of the area's lines
      is its line. */
  lemma InAreaLines(lines: seq<PlantLine>, areaId: string, m: PlantMachine)
    ensures Any(AreaLines(lines, areaId), (l: PlantLine) => l.id == m.lineId) <==> InArea(lines, areaId, m)
  {
    var al := AreaLines(lines, areaId);
    if InArea(lines, areaId, m) {
      var i :| 0 <= i < |lines| && lines[i].areaId == areaId && lines[i].id == m.lineId;
      assert lines[i] in al;
    }
  }

  /** The three numbers count, among all lines and machines: the lines of
      the area, the machines on those lines, and those of them at fault. */
  lemma StatsCount(areaId: string, lines: seq<PlantLine>, machines: seq<PlantMachine>)
    ensures var s := StatsFor(areaId, lines, machines);
      && s.linesCount == Count(lines, (l: PlantLine) => l.areaId == areaId)
      && s.machinesCount == Count(machines, (m: PlantMachine) => InArea(lines, areaId, m))
      && s.faultCount == Count(machines, (m: PlantMachine) => InArea(lines, areaId, m) && m.status == Fault)
  {
    var al := AreaLines(lines, areaId);
    var inLines := (m: PlantMachine) => Any(al, (l: PlantLine) => l.id == m.lineId);
    var inArea := (m: PlantMachine) => InArea(lines, areaId, m);
    forall m: PlantMachine
      ensures inLines(m) == inArea(m)
    {
      InAreaLines(lines, areaId, m);
    }
    FilterCongruent(machines, inLines, inArea);
    var isFault := (m: PlantMachine) => m.status == Fault;
    FilterFilter(machines, inLines, isFault, (m: PlantMachine) => InArea(lines, areaId, m) && m.status == Fault);
  }

  /** The loop of `loadData`: one entry per loaded area, keyed by its id. */
  method ComputeStats(areas: seq<Area>, lines: seq<PlantLine>, machines: seq<PlantMachine>)
    returns (stats: map<string, AreaStats>)
    ensures stats.Keys == set a | a in areas :: a.id
    ensures forall id :: id in stats ==> stats[id] == StatsFor(id, lines, machines)
    ensures forall id :: id in stats ==> stats[id].faultCount <= stats[id].machinesCount
  {
    stats := map[];
    for i := 0 to |areas|
      invariant stats.Keys == set a | a in areas[..i] :: a.id
      invariant forall id :: id in stats ==> stats[id] == StatsFor(id, lines, machines)
    {
      var area := areas[i];
      var areaLines := Filter(lines, (l: PlantLine) => l.areaId == area.id);
      var lineMachines := Filter(machines, (m: PlantMachine) => Any(areaLines, (l: PlantLine) => l.id == m.lineId));
      var faults := Filter(lineMachines, (m: PlantMachine) => m.status == Fault);
      stats := stats[area.id := AreaStats(|areaLines|, |lineMachines|, |faults|)];
      assert areas[..i + 1] == areas[..i] + [area];
    }
    assert areas[..|areas|] == areas;
  }

  datatype View = AreasView | LinesView | CaptureView

  class DashboardPage {
    var view: View
    var areas: seq<Area>
    var lines: seq<PlantLine>
    var machines: seq<PlantMachine>
    var selectedArea: Option<Area>
    var selectedMachine: Option<PlantMachine>
    var areaStats: map<string, AreaStats>
    var detailMachineId: Option<string>
    var isDetailSheetOpen: bool

    /** The capture view always has a machine to report on. */
    predicate Valid()
      reads this
    {
      view == CaptureView ==> selectedMachine.Some?
    }

    constructor ()
      ensures Valid() && view == AreasView
      ensures areas == [] && lines == [] && machines == []
      ensures selectedArea == None && selectedMachine == None && areaStats == map[]
      ensures detailMachineId == None && !isDetailSheetOpen
    {
      view := AreasView;
      areas := [];
      lines := [];
      machines := [];
      selectedArea := None;
      selectedMachine := None;
      areaStats := map[];
      detailMachineId := None;
      isDetailSheetOpen := false;
    }

    /** `loadData`. `areasData` is `None` when the area query failed: the
        error is reported and nothing is replaced. Missing lines or machines
        count as empty. */
    method Load(areasData: Option<seq<Area>>, linesData: Option<seq<PlantLine>>, machinesData: Option<seq<PlantMachine>>)
      requires Valid()
      modifies this
      ensures Valid()
      ensures areasData.None? ==> (areas == old(areas) && lines == old(lines)
        && machines == old(machines) && areaStats == old(areaStats))
      ensures areasData.Some? ==> (areas == areasData.value
        && lines == linesData.GetOr([]) && machines == machinesData.GetOr([])
        && areaStats.Keys == (set a | a in areas :: a.id)
        && forall id :: id in areaStats ==> areaStats[id] == StatsFor(id, lines, machines))
      ensures view == old(view) && selectedArea == old(selectedArea) && selectedMachine == old(selectedMachine)
      ensures detailMachineId == old(detailMachineId) && isDetailSheetOpen == old(isDetailSheetOpen)
    {
      if areasData.Some? {
        areas := areasData.value;
        lines := linesData.GetOr([]);
        machines := machinesData.GetOr([]);
        areaStats := ComputeStats(areas, lines, machines);
      }
    }

    /** Opening an area shows its lines. */
    method OnAreaClick(area: Area)
      requires Valid()
      modifies this
      ensures Valid() && view == LinesView && selectedArea == Some(area)
      ensures selectedMachine == old(selectedMachine)
      ensures areas == old(areas) && lines == old(lines) && machines == old(machines) && areaStats == old(areaStats)
      ensures detailMachineId == old(detailMachineId) && isDetailSheetOpen == old(isDetailSheetOpen)
    {
      selectedArea := Some(area);
      view := LinesView;
    }

    /** A machine card opens the detail sheet for that machine. */
    method OnMachineClick(machineId: string)
      requires Valid()
      modifies this
      ensures Valid() && detailMachineId == Some(machineId) && isDetailSheetOpen
      ensures view == old(view) && selectedArea == old(selectedArea) && selectedMachine == old(selectedMachine)
      ensures areas == old(areas) && lines == old(lines) && machines == old(machines) && areaStats == old(areaStats)
    {
      detailMachineId := Some(machineId);
      isDetailSheetOpen := true;
    }

    /** The capture button of a card: a known machine is selected and the
        capture view opens; an unknown id changes nothing. */
    method OnMachineCaptureClick(machineId: string)
      requires Valid()
      modifies this
      ensures Valid()
      ensures var found := Find(machines, (m: PlantMachine) => m.id == machineId);
        && (found.None? ==> view == old(view) && selectedMachine == old(selectedMachine))
        && (found.Some? ==> view == CaptureView && selectedMachine == found)
      ensures selectedArea == old(selectedArea) && areas == old(areas) && lines == old(lines) && machines == old(machines)
      ensures areaStats == old(areaStats)
      ensures detailMachineId == old(detailMachineId) && isDetailSheetOpen == old(isDetailSheetOpen)
    {
      var found := Find(machines, (m: PlantMachine) => m.id == machineId);
      if found.Some? {
        selectedMachine := found;
        view := CaptureView;
      }
    }

    /** `handleBack`: capture goes back to the lines, dropping the machine;
        lines go back to the areas, dropping the area; the area list stays. */
    method OnBack()
      requires Valid()
      modifies this
      ensures Valid()
      ensures old(view) == CaptureView ==> view == LinesView && selectedMachine == None && selectedArea == old(selectedArea)
      ensures old(view) == LinesView ==> view == AreasView && selectedArea == None && selectedMachine == old(selectedMachine)
      ensures old(view) == AreasView ==> view == AreasView && selectedArea == old(selectedArea) && selectedMachine == old(selectedMachine)
      ensures areas == old(areas) && lines == old(lines) && machines == old(machines) && areaStats == old(areaStats)
      ensures detailMachineId == old(detailMachineId) && isDetailSheetOpen == old(isDetailSheetOpen)
    {
      if view == CaptureView {
        selectedMachine := None;
        view := LinesView;
      } else if view == LinesView {
        selectedArea := None;
        view := AreasView;
      }
    }

    /** After a report is sent the lines of the area are shown again (the
        data reload is `Load`). */
    method OnCaptureSuccess()
      requires Valid()
      modifies this
      ensures Valid() && view == LinesView && selectedMachine == None
      ensures selectedArea == old(selectedArea) && areas == old(areas) && lines == old(lines) && machines == old(machines)
      ensures areaStats == old(areaStats)
      ensures detailMachineId == old(detailMachineId) && isDetailSheetOpen == old(isDetailSheetOpen)
    {
      selectedMachine := None;
      view := LinesView;
    }

    /** `handleQuickReport`: the most frequent recent context opens the
        capture form when both its area and its machine are still loaded. */
    method OnQuickReport(common: Option<ReportContext.HistoryItem>)
      requires Valid()
      modifies this
      ensures Valid()
      ensures common.Some? ==>
        var area := Find(areas, (a: Area) => a.id == common.value.areaId);
        var machine := Find(machines, (m: PlantMachine) => m.id == common.value.machineId);
        && (area.Some? && machine.Some? ==>
              view == CaptureView && selectedArea == area && selectedMachine == machine)
        && (area.None? || machine.None? ==>
              view == old(view) && selectedArea == old(selectedArea) && selectedMachine == old(selectedMachine))
      ensures common.None? ==> view == old(view) && selectedArea == old(selectedArea) && selectedMachine == old(selectedMachine)
      ensures areas == old(areas) && lines == old(lines) && machines == old(machines) && areaStats == old(areaStats)
      ensures detailMachineId == old(detailMachineId) && isDetailSheetOpen == old(isDetailSheetOpen)
    {
      if common.Some? {
        var area := Find(areas, (a: Area) => a.id == common.value.areaId);
        var machine := Find(machines, (m: PlantMachine) => m.id == common.value.machineId);
        if area.Some? && machine.Some? {
          selectedArea := area;
          selectedMachine := machine;
          view := CaptureView;
        }
      }
    }

    /** `handleStartCapture`, from the detail sheet: a known machine is
        selected, the sheet closes and the capture view opens; the area is
        replaced only when the machine's line and that line's area are both
        found. */
    method OnStartCapture(machineId: string)
      requires Valid()
      modifies this
      ensures Valid()
      ensures var machine := Find(machines, (m: PlantMachine) => m.id == machineId);
        && (machine.None? ==> (view == old(view) && selectedArea == old(selectedArea)
              && selectedMachine == old(selectedMachine) && isDetailSheetOpen == old(isDetailSheetOpen)))
        && (machine.Some? ==> (view == CaptureView && selectedMachine == machine && !isDetailSheetOpen
              && var line := Find(lines, (l: PlantLine) => l.id == machine.value.lineId);
                 var area := if line.Some? then Find(areas, (a: Area) => a.id == line.value.areaId) else None;
                 selectedArea == (if area.Some? then area else old(selectedArea))))
      ensures areas == old(areas) && lines == old(lines) && machines == old(machines) && areaStats == old(areaStats)
      ensures detailMachineId == old(detailMachineId)
    {
      var machine := Find(machines, (m: PlantMachine) => m.id == machineId);
      if machine.Some? {
        var line := Find(lines, (l: PlantLine) => l.id == machine.value.lineId);
        if line.Some? {
          var area := Find(areas, (a: Area) => a.id == line.value.areaId);
          if area.Some? {
            selectedArea := area;
          }
        }
        selectedMachine := machine;
        isDetailSheetOpen := false;
        view := CaptureView;
      }
    }

    /** The lines listed for the selected area. */
    function SelectedAreaLines(): (r: seq<PlantLine>)
      reads this
      ensures selectedArea.None? ==> r == []
      ensures selectedArea.Some? ==> r == AreaLines(lines, selectedArea.value.id)
    {
      if selectedArea.Some? then AreaLines(lines, selectedArea.value.id) else []
    }

    /** The line of the selected machine, if it is loaded. */
    function SelectedLine(): (r: Option<PlantLine>)
      reads this
      ensures r.Some? ==> selectedMachine.Some? && r.value in lines && r.value.id == selectedMachine.value.lineId
      ensures selectedMachine.Some? && r.None? ==> forall i :: 0 <= i < |lines| ==> lines[i].id != selectedMachine.value.lineId
    {
      if selectedMachine.Some? then
        var lineId := selectedMachine.value.lineId;
        Find(lines, (l: PlantLine) => l.id == lineId)
      else None
    }

    /** The capture form is rendered (and not the area or line lists) only
        in the capture view with a machine, its line and an area. */
    predicate ShowsCapture()
      reads this
    {
      view == CaptureView && selectedMachine.Some? && SelectedLine().Some? && selectedArea.Some?
    }
  }

  /** Starting a capture from the detail sheet for a machine whose line and
      area are loaded always reaches the capture form, for that machine, on
      its line, in that line's area. */
  lemma StartCaptureShowsForm(page: DashboardPage, machine: PlantMachine, line: PlantLine, area: Area)
    requires page.view == CaptureView && page.selectedMachine == Some(machine)
    requires line in page.lines && line.id == machine.lineId
    requires page.selectedArea == Some(area) && area.id == line.areaId
    ensures page.ShowsCapture()
    ensures page.SelectedLine().value.id == machine.lineId
  {
    var i :| 0 <= i < |page.lines| && page.lines[i] == line;
  }
}

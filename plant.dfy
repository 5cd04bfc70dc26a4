/** The plant rows the operator dashboard and its line view work on. */
module Plant {
  import opened Common

  /** `machine_status`. */
  datatype MachineStatus = Running | Warning | Fault

  datatype Area = Area(id: string, name: string, description: Option<string>)

  datatype PlantLine = PlantLine(id: string, name: string, areaId: string, sequenceOrder: int)

  datatype PlantMachine = PlantMachine(
    id: string,
    name: string,
    machineType: string,
    status: MachineStatus,
    sequenceOrder: int,
    lineId: string)
}

/** The roles a signed-in user may carry; `Guest` stands for none, `OtherRole` for any unlisted one. */
module Rbac {
  datatype Role =
    | Guest | SuperAdmin | Management | ProductionAdmin | EquipmentAdmin | ExplorationAdmin
    | MinePlanner | OtherRole
}

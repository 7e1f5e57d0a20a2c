/**
 * The engine's error type. Each variant carries the text the source formats
 * into it; `BuyUnitException` also carries the unit type that was refused.
 */
module Exceptions {
  import opened UnitTypes

  datatype RtsException =
    | GeneralException(message: string)
    | ExecuteActionException(message: string)
    | UpdatePlayerException(message: string)
    | BuyUnitException(unitType: UnitType, message: string)
    | UpdatePlayGroundException(message: string)
    | StoreUnitCoordinatesException(message: string)
}

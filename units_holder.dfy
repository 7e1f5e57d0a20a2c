/**
 * A store of unit positions keyed by player name. Its coordinates are grid
 * positions `(usize, usize)`, unlike the playground's.
 */
module UnitsHolders {
  import opened Wrappers
  import opened Exceptions
  import opened UnitTypes
  import opened Units
  import opened UnitFactory

  type GridCoordinate = (nat, nat)

  class UnitsHolder {
    var unitsCoordinateByPlayers: map<string, seq<(GridCoordinate, Unit)>>

    /** `UnitsHolder::new`: nobody has anything stored. */
    constructor ()
      ensures unitsCoordinateByPlayers == map[]
      ensures forall p :: GetCoordinates(p) == None
    {
      unitsCoordinateByPlayers := map[];
    }

    /** `get_coordinates`: the entry stored for `playerName`, if any. */
    function GetCoordinates(playerName: string): Option<seq<(GridCoordinate, Unit)>>
      reads this
    {
      if playerName in unitsCoordinateByPlayers then Some(unitsCoordinateByPlayers[playerName]) else None
    }

    /**
     * `store`: removes the player's entry, then inserts one holding only the new
     * pair, so earlier pairs are dropped. Since the key was just removed the
     * insertion finds no previous value and the call always succeeds.
     */
    method Store(playerName: string, coordinate: GridCoordinate, unit: Unit) returns (r: Result<(), RtsException>)
      modifies this
      ensures r == Ok(())
      ensures GetCoordinates(playerName) == Some([(coordinate, unit)])
      ensures unitsCoordinateByPlayers.Keys == old(unitsCoordinateByPlayers.Keys) + {playerName}
      ensures forall p :: p != playerName ==> GetCoordinates(p) == old(GetCoordinates(p))
    {
      var inner := (coordinate, unit);
      var toBeInserted: seq<(GridCoordinate, Unit)>;
      if playerName in unitsCoordinateByPlayers {
        unitsCoordinateByPlayers := unitsCoordinateByPlayers - {playerName};
        toBeInserted := [inner];
      } else {
        toBeInserted := [inner];
      }
      // `HashMap::insert` returns the value it replaces
      var previous := GetCoordinates(playerName);
      unitsCoordinateByPlayers := unitsCoordinateByPlayers[playerName := toBeInserted];
      if previous.None? {
        r := Ok(());
      } else {
        r := Err(StoreUnitCoordinatesException("Failed to insert new unit"));
      }
    }
  }

  /**
   * The `should_store_and_then_get_units_coordinates_from_player` test: one
   * pair is stored, at (0, 0), whose unit has health 20.
   */
  method ShouldStoreAndThenGet() returns (found: bool, count: nat, coordinate: GridCoordinate, health: int)
    ensures found && count == 1 && coordinate == (0, 0) && health == 20
  {
    var holder := new UnitsHolder();
    var unit := BuildUnit(Classic, 0);
    var _ := holder.Store("tigran", (0, 0), unit);
    var units := holder.GetCoordinates("tigran");
    found := units.Some?;
    count := |units.value|;
    coordinate := units.value[0].0;
    health := units.value[0].1.health;
  }

  /**
   * The same test's guard as written: it fails the test when the stored list is
   * NOT empty, so it fires right after a store has succeeded.
   */
  method StoredListGuardAsWritten() returns (guardFires: bool)
    ensures guardFires
  {
    var holder := new UnitsHolder();
    var unit := BuildUnit(Classic, 0);
    var _ := holder.Store("tigran", (0, 0), unit);
    var units := holder.GetCoordinates("tigran");
    guardFires := units.Some? && |units.value| != 0;
  }

  /** A second store for the same player replaces the first pair instead of adding to it. */
  method SecondStoreReplaces() returns (count: nat, coordinate: GridCoordinate)
    ensures count == 1 && coordinate == (2, 3)
  {
    var holder := new UnitsHolder();
    var first := BuildUnit(Classic, 0);
    var second := BuildUnit(Classic, 1);
    var _ := holder.Store("tigran", (0, 0), first);
    var _ := holder.Store("tigran", (2, 3), second);
    var units := holder.GetCoordinates("tigran");
    count := |units.value|;
    coordinate := units.value[0].0;
  }
}

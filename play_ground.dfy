/**
 * The map of units: an append-only list of cells, each holding a unit and its
 * coordinate. The coordinate of a cell is updated through the identifier of
 * its unit. The source's holder is generic over anything with an identifier;
 * here it holds units.
 */
module PlayGrounds {
  import opened Primitives
  import opened Wrappers
  import opened Exceptions
  import opened Units

  class UnitHolder {
    const t: Option<Unit>
    var coordinate: Coordinate

    /** `UnitHolder::new`: a holder always starts with a unit in it. */
    constructor (t: Unit, coordinate: Coordinate)
      ensures this.t == Some(t) && this.coordinate == coordinate
    {
      this.t := Some(t);
      this.coordinate := coordinate;
    }

    /** Whether the held unit has identifier `id`; an empty holder matches nothing. */
    predicate Is(id: Identifier)
    {
      if t.Some? then t.value.Is(id) else false
    }

    /** `UnitHolder::update`: overwrites the coordinate, and nothing else. */
    method Update(coordinate: Coordinate)
      modifies this`coordinate
      ensures this.coordinate == coordinate
    {
      this.coordinate := coordinate;
    }
  }

  lemma HolderMatchesItsUnit(h: UnitHolder, id: Identifier)
    ensures h.Is(id) <==> h.t.Some? && h.t.value.identifier == id
  {
  }

  /**
   * The `None` branch of `is`: an empty holder matches nothing. No holder is
   * ever empty (the only constructor stores a unit and the slot is never
   * changed), so in the source this branch cannot be reached.
   */
  lemma EmptyHolderMatchesNothing(h: UnitHolder, id: Identifier)
    requires h.t.None?
    ensures !h.Is(id)
  {
  }

  /**
   * `find_cell_by`: the position of the first cell whose unit has identifier
   * `id`, or `None` when no cell matches.
   */
  function FindCellBy(cells: seq<UnitHolder>, id: Identifier): (r: Option<nat>)
    ensures r.Some? ==> r.value < |cells| && cells[r.value].Is(id)
    ensures r.Some? ==> forall j :: 0 <= j < r.value ==> !cells[j].Is(id)
    ensures r.None? <==> forall j :: 0 <= j < |cells| ==> !cells[j].Is(id)
  {
    if cells == [] then None
    else if cells[0].Is(id) then Some(0)
    else match FindCellBy(cells[1..], id)
      case None => None
      case Some(k) => Some(k + 1)
  }

  /** Appending a cell does not change where an earlier match is found. */
  lemma {:induction false} FindCellByStableUnderAppend(cells: seq<UnitHolder>, h: UnitHolder, id: Identifier)
    requires FindCellBy(cells, id).Some?
    ensures FindCellBy(cells + [h], id) == FindCellBy(cells, id)
  {
    if !cells[0].Is(id) {
      assert (cells + [h])[1..] == cells[1..] + [h];
      FindCellByStableUnderAppend(cells[1..], h, id);
    }
  }

  function NotFoundMessage(id: Identifier): string
  {
    "Failed to find cell with identifier " + IntText(id)
  }

  class PlayGround {
    var cells: seq<UnitHolder>

    /** Every cell is its own object: updating one never touches another. */
    ghost predicate Valid()
      reads this
    {
      forall i, j :: 0 <= i < j < |cells| ==> cells[i] != cells[j]
    }

    /** `PlayGround::new`: no cells. */
    constructor ()
      ensures Valid() && cells == []
    {
      cells := [];
    }

    function GetCells(): seq<UnitHolder> reads this { cells }

    /** `add_unit`: appends one fresh cell holding `content` at the origin. */
    method AddUnit(content: Unit)
      requires Valid()
      modifies this
      ensures Valid()
      ensures |cells| == |old(cells)| + 1 && cells[..|old(cells)|] == old(cells)
      ensures fresh(cells[|old(cells)|])
      ensures cells[|old(cells)|].t == Some(content) && cells[|old(cells)|].coordinate == Origin
      ensures forall j :: 0 <= j < |old(cells)| ==> cells[j].coordinate == old(cells[j].coordinate)
    {
      var holder := new UnitHolder(content, Origin);
      cells := cells + [holder];
    }

    /** The observer entry point `update(unit)`: the same append as `add_unit`. */
    method Update(unit: Unit)
      requires Valid()
      modifies this
      ensures Valid()
      ensures |cells| == |old(cells)| + 1 && cells[..|old(cells)|] == old(cells)
      ensures fresh(cells[|old(cells)|])
      ensures cells[|old(cells)|].t == Some(unit) && cells[|old(cells)|].coordinate == Origin
      ensures forall j :: 0 <= j < |old(cells)| ==> cells[j].coordinate == old(cells[j].coordinate)
    {
      AddUnit(unit);
    }

    /**
     * `update_cell`: moves the first cell whose unit has identifier `id` to
     * `coordinate`. With no such cell it reports the identifier and changes
     * nothing. The list of cells itself never changes.
     */
    method UpdateCell(id: Identifier, coordinate: Coordinate) returns (r: Result<(), RtsException>)
      requires Valid()
      modifies cells
      ensures cells == old(cells)
      ensures FindCellBy(cells, id).None? ==>
        && r == Err(UpdatePlayGroundException(NotFoundMessage(id)))
        && forall j :: 0 <= j < |cells| ==> cells[j].coordinate == old(cells[j].coordinate)
      ensures FindCellBy(cells, id).Some? ==>
        && r == Ok(())
        && cells[FindCellBy(cells, id).value].coordinate == coordinate
        && forall j :: 0 <= j < |cells| && j != FindCellBy(cells, id).value ==>
             cells[j].coordinate == old(cells[j].coordinate)
    {
      var cell := FindCellBy(cells, id);
      if cell.None? {
        return Err(UpdatePlayGroundException(NotFoundMessage(id)));
      }
      cells[cell.value].Update(coordinate);
      r := Ok(());
    }
  }

  /**
   * A client: buy-and-place a unit, move it, then try to move an identifier
   * that was never placed.
   */
  method MoveUnitScenario() returns (hit: Result<(), RtsException>, moved: Coordinate,
                                     miss: Result<(), RtsException>, cellCount: nat)
    ensures hit == Ok(())
    ensures moved == Coordinate(0x4040_0000, 0x4080_0000)
    ensures miss == Err(UpdatePlayGroundException(NotFoundMessage(8)))
    ensures cellCount == 1
  {
    var unit := new Unit.From(7, 20, 10, 5, 15, []);
    var ground := new PlayGround();
    ground.AddUnit(unit);
    // (3.0, 4.0) as f32 bit patterns
    hit := ground.UpdateCell(7, Coordinate(0x4040_0000, 0x4080_0000));
    miss := ground.UpdateCell(8, Origin);
    moved := ground.cells[0].coordinate;
    cellCount := |ground.cells|;
  }
}

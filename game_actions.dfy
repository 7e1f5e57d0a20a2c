/** What a player asks the game to do, and what the game records once it is done. */
module GameActions {
  import opened Primitives
  import opened UnitTypes
  import opened Units

  datatype Action =
    | BuyUnit(unitType: UnitType)
    | MoveUnit(identifier: Identifier, coordinate: Coordinate)
    | GiveMoneyBatch
    | EndGame
  {
    /**
     * `Action::get_name`: the text used in log lines and error messages. Which
     * text each action gets is stated by `ActionNames`, `NamePrefix` and
     * `NamesTellActionsApart`.
     */
    function Name(): (s: string)
      ensures |s| > 0
    {
      match this
      case BuyUnit(t) => "Buy new unit " + TypeName(t)
      case GiveMoneyBatch => "Give new money batch to"
      case EndGame => "Game is over !"
      case MoveUnit(i, _) => "Move unit " + IntText(i) + " to "
    }
  }

  lemma ActionNames()
    ensures Action.EndGame.Name() == "Game is over !"
    ensures Action.GiveMoneyBatch.Name() == "Give new money batch to"
    ensures Action.BuyUnit(Classic).Name() == "Buy new unit Classic"
  {
  }

  /** The first two letters of each name. */
  lemma NamePrefix(a: Action)
    ensures |a.Name()| >= 2
    ensures a.Name()[..2] == match a
      case BuyUnit(_) => "Bu"
      case GiveMoneyBatch => "Gi"
      case EndGame => "Ga"
      case MoveUnit(_, _) => "Mo"
  {
  }

  /** Different actions have different names, except two moves of one unit to different places. */
  lemma NamesTellActionsApart(a: Action, b: Action)
    requires a.Name() == b.Name()
    ensures a == b || (a.MoveUnit? && b.MoveUnit? && a.identifier == b.identifier)
  {
    NamePrefix(a);
    NamePrefix(b);
    if a.MoveUnit? && b.MoveUnit? {
      var s, t := IntText(a.identifier), IntText(b.identifier);
      assert |s| == |t| by {
        assert |a.Name()| == 14 + |s| && |b.Name()| == 14 + |t|;
      }
      assert a.Name()[10..10 + |s|] == s;
      assert b.Name()[10..10 + |t|] == t;
      IntTextInjective(a.identifier, b.identifier);
    }
  }

  /** The outcome of an executed action, appended to the game's log. */
  datatype MoveState =
    | BuyUnit(unit: Unit)
    | MoveUnit
    | GiveMoneyBatch
    | EndGame

  /** `MoveState` equality is structural: only `EndGame` equals `EndGame`. */
  lemma EndGameEqualsOnlyItself(m: MoveState)
    ensures m == MoveState.EndGame <==> m.EndGame?
  {
  }
}

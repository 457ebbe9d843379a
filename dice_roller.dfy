/** `DiceRoller`: rolls an ordered list of dice, once or in rounds, and records
    every result in its roll history. */
module Roller {
  import opened Outcomes
  import opened Dice
  import opened History

  /** Index of the first die that cannot be rolled (has no `sides`), or
      `|dice|` when every die can be rolled. */
  function FirstUnrollable(dice: seq<Die>): (k: nat)
    ensures k <= |dice|
    ensures forall i :: 0 <= i < k ==> HasSides(dice[i])
    ensures k < |dice| ==> !HasSides(dice[k])
  {
    if dice == [] || !HasSides(dice[0]) then 0 else 1 + FirstUnrollable(dice[1..])
  }

  /** How one pass over the dice ends, against a history of capacity `cap`:
      the first `add_roll` fails when the capacity is 0, otherwise the pass
      stops at the first die with no `sides`. */
  function RoundOutcome(dice: seq<Die>, cap: int): (out: Outcome)
    ensures out.Pass? <==> FirstUnrollable(dice) == |dice| && (cap == 0 ==> dice == [])
    ensures out == Raise(IndexError) <==> cap == 0 && dice != [] && HasSides(dice[0])
  {
    var k := FirstUnrollable(dice);
    if cap == 0 && k > 0 then Raise(IndexError)
    else if k < |dice| then Raise(AttributeError)
    else Pass
  }

  /** How many results one pass records before it ends. */
  function RoundLength(dice: seq<Die>, cap: int): (n: nat)
    ensures n <= |dice|
    ensures RoundOutcome(dice, cap).Pass? ==> n == |dice|
  {
    if cap == 0 then 0 else FirstUnrollable(dice)
  }

  /** `drawn` is what one pass over `dice` can record: one face of each die,
      in list order, as many as the pass records. */
  predicate RoundDrawn(dice: seq<Die>, cap: int, drawn: seq<int>) {
    |drawn| == RoundLength(dice, cap) &&
    forall i :: 0 <= i < |drawn| ==> IsFace(dice[i], drawn[i])
  }

  /** The rounds one after the other, in the order they were recorded. */
  function Flatten(rounds: seq<seq<int>>): seq<int>
    decreases |rounds|
  {
    if rounds == [] then [] else Flatten(rounds[..|rounds| - 1]) + rounds[|rounds| - 1]
  }

  /** Rounds of equal length `m` give `|rounds| * m` results. */
  lemma {:induction false} FlattenLength(rounds: seq<seq<int>>, m: nat)
    requires forall j :: 0 <= j < |rounds| ==> |rounds[j]| == m
    ensures |Flatten(rounds)| == |rounds| * m
    decreases |rounds|
  {
    if rounds != [] {
      FlattenLength(rounds[..|rounds| - 1], m);
      assert (|rounds| - 1) * m + m == |rounds| * m;
    }
  }

  class DiceRoller {
    var diceList: seq<Die>
    const rollHistory: RollHistory

    ghost predicate Valid()
      reads this, rollHistory
    {
      rollHistory.Valid() && forall d :: d in diceList ==> WellFormed(d)
    }

    constructor (diceList: seq<Die>, rollHistory: RollHistory)
      requires rollHistory.Valid()
      requires forall d :: d in diceList ==> WellFormed(d)
      ensures Valid()
      ensures this.diceList == diceList && this.rollHistory == rollHistory
    {
      this.diceList := diceList;
      this.rollHistory := rollHistory;
    }

    /** `roll()`: roll each die in list order and add its result to the
        history. `drawn` is the results recorded, which are the history's
        new entries; an exception stops the pass where it is raised. */
    method Roll() returns (drawn: seq<int>, out: Outcome)
      requires Valid()
      modifies rollHistory
      ensures Valid()
      ensures out == RoundOutcome(diceList, rollHistory.maxHistorySize)
      ensures RoundDrawn(diceList, rollHistory.maxHistorySize, drawn)
      ensures RecordAll(old(rollHistory.lastRolls), rollHistory.maxHistorySize, drawn) == Ok(rollHistory.lastRolls)
    {
      var cap := rollHistory.maxHistorySize;
      drawn := [];
      var i := 0;
      while i < |diceList|
        invariant 0 <= i <= FirstUnrollable(diceList)
        invariant cap == 0 ==> i == 0
        invariant |drawn| == i
        invariant forall j :: 0 <= j < i ==> IsFace(diceList[j], drawn[j])
        invariant rollHistory.Valid()
        invariant RecordAll(old(rollHistory.lastRolls), cap, drawn) == Ok(rollHistory.lastRolls)
      {
        var r := RollDie(diceList[i]);
        if r.Err? {
          return drawn, Raise(r.error);
        }
        var added := rollHistory.AddRoll(r.value);
        if added.Raise? {
          return drawn, added;
        }
        assert (drawn + [r.value])[..i] == drawn;
        drawn := drawn + [r.value];
        i := i + 1;
      }
      out := Pass;
    }

    /** `roll_multiple_times(n)`: `max(n, 0)` passes, one after the other.
        `rounds` holds each pass's recorded results; the history's new entries
        are the rounds in order. A pass that raises raises on the first pass. */
    method RollMultipleTimes(numberOfRolls: int) returns (rounds: seq<seq<int>>, out: Outcome)
      requires Valid()
      modifies rollHistory
      ensures Valid()
      ensures out == (if numberOfRolls > 0 then RoundOutcome(diceList, rollHistory.maxHistorySize) else Pass)
      ensures out.Pass? ==> |rounds| == Max(numberOfRolls, 0)
      ensures out.Raise? ==> |rounds| == 1
      ensures forall j :: 0 <= j < |rounds| ==> RoundDrawn(diceList, rollHistory.maxHistorySize, rounds[j])
      ensures out.Pass? ==> |Flatten(rounds)| == Max(numberOfRolls, 0) * |diceList|
      ensures RecordAll(old(rollHistory.lastRolls), rollHistory.maxHistorySize, Flatten(rounds))
                == Ok(rollHistory.lastRolls)
    {
      var cap := rollHistory.maxHistorySize;
      rounds := [];
      var i := 1;
      while i <= numberOfRolls
        invariant Valid()
        invariant 1 <= i <= Max(numberOfRolls, 0) + 1
        invariant |rounds| == i - 1
        invariant i > 1 ==> RoundOutcome(diceList, cap) == Pass
        invariant forall j :: 0 <= j < |rounds| ==> RoundDrawn(diceList, cap, rounds[j])
        invariant RecordAll(old(rollHistory.lastRolls), cap, Flatten(rounds)) == Ok(rollHistory.lastRolls)
      {
        var drawn, o := Roll();
        RecordAllConcat(old(rollHistory.lastRolls), cap, Flatten(rounds), drawn);
        assert (rounds + [drawn])[..|rounds|] == rounds;
        rounds := rounds + [drawn];
        if o.Raise? {
          return rounds, o;
        }
        i := i + 1;
      }
      out := Pass;
      FlattenLength(rounds, |diceList|);
    }

    /** The retrieval half of `display_last_rolls(n)`: the rolls it shows. */
    method DisplayLastRolls(n: int) returns (shown: seq<int>)
      ensures shown == rollHistory.GetLastRolls(n)
    {
      shown := rollHistory.GetLastRolls(n);
    }

    /** `save_rolls_to_file`: the file written holds the history. */
    method SaveRollsToFile() returns (file: seq<int>)
      ensures file == rollHistory.lastRolls
    {
      file := rollHistory.SaveToFile();
    }

    /** `load_rolls_from_file`: delegates to the history. */
    method LoadRollsFromFile(file: Option<seq<int>>) returns (out: Outcome)
      requires Valid()
      modifies rollHistory
      ensures Valid()
      ensures match Loaded(old(rollHistory.lastRolls), rollHistory.maxHistorySize, file)
              case Ok(b) => out == Pass && rollHistory.lastRolls == b
              case Err(e) => out == Raise(e) && rollHistory.lastRolls == old(rollHistory.lastRolls)
    {
      out := rollHistory.LoadFromFile(file);
    }
  }

  /** Two fair dice (6 and 10 sides), a fresh history of the default size and
      three passes: six results, recorded pass by pass and in list order
      within a pass. */
  method ThreeRollsOfTwoDice() returns (rounds: seq<seq<int>>, history: seq<int>)
    ensures |rounds| == 3
    ensures forall j :: 0 <= j < 3 ==>
              |rounds[j]| == 2 && 1 <= rounds[j][0] <= 6 && 1 <= rounds[j][1] <= 10
    ensures history == rounds[0] + rounds[1] + rounds[2]
  {
    var h := new RollHistory(DEFAULT_HISTORY_SIZE);
    var roller := new DiceRoller([Fair(6), Fair(10)], h);
    var out;
    rounds, out := roller.RollMultipleTimes(3);
    history := h.lastRolls;
    RecordAllIsWindow([], DEFAULT_HISTORY_SIZE, Flatten(rounds));
    assert Flatten(rounds) == rounds[0] + rounds[1] + rounds[2] by {
      assert rounds[..2][..1] == rounds[..1] && rounds[..1][..0] == [];
      assert Flatten(rounds[..1]) == rounds[0];
      assert Flatten(rounds[..2]) == rounds[0] + rounds[1];
    }
  }
}

# Dice roller model

A Dafny model of the dice-rolling utility in `dice.py`: dice with a side
count (fair, or weighted by a list of probabilities), a roll history that
keeps the most recent results in a first-in first-out buffer and can be saved
to and loaded from a file, and a roller that rolls a list of dice once or
several times and records each result.

- `outcomes.dfy` (module `Outcomes`): `Option`, `Result` and `Outcome`; each
  Python exception the code can raise (`ValueError`, `AttributeError`,
  `IndexError`) becomes an error value, not a precondition.
- `dice.dfy` (module `Dice`): the `Die` datatype with the variants `Fair` and
  `Weighted`, the two constructors' validation as functions, and `RollDie`,
  which returns some face of the die, chosen nondeterministically.
- `roll_history.dfy` (module `History`): the class `RollHistory` (a capacity
  and a `seq<int>` buffer updated in place) and the functions that specify it:
  `Appended` (one `add_roll`), `RecordAll` (many), `Window` (the reference
  definition of a FIFO of capacity c: the last c values seen) and `Loaded`
  (`load_from_file`). A file is `Some(items)` for a file holding `items`, and
  `None` for a missing file.
- `dice_roller.dfy` (module `Roller`): the class `DiceRoller`, whose `Roll` and
  `RollMultipleTimes` are loops that call `RollDie` and `RollHistory.AddRoll`.
  Each method returns the results it recorded, so its contract can state
  exactly how the history changed.

Where the code and its design description disagree, the model follows the
code:

- `get_last_rolls(0)` returns the whole buffer, because the slice is
  `[-0:]`. It does not return an empty list.
- `load_from_file` appends what it reads after the current contents. So a
  history can grow past its capacity. The eviction test is `len == capacity`,
  so once the buffer is longer than its capacity it never evicts again and
  keeps growing (`RecordAllOverfull`, `LoadThenRecord`).
- `WeightedDice` raises only when the weights are malformed. A side count
  outside [1, 100] with matching weights is accepted. The `sides` attribute
  is then never assigned, and rolling that die raises `AttributeError`
  (`WeightedAcceptsOutOfRange`, `RollDie`).
- A capacity is not required to be positive. With capacity 0, every
  `add_roll` pops from an empty array and raises `IndexError`. With a
  negative capacity, the history never evicts. Loading an existing file into
  it raises `ValueError`, because `array.fromfile` refuses a negative count.

## Model

| member | source | states |
|---|---|---|
| `Dice.NewDice` | dice.py:47-51 | succeeds exactly when 1 <= sides <= 100 and otherwise raises ValueError; on success the die keeps `sides` unchanged and its faces are exactly 1..sides |
| `Dice.NewWeightedDice` | dice.py:75-81 | raises ValueError exactly when the weight count differs from `sides` or the weights do not sum to 1; on success `sides` is assigned exactly when it lies in [1, 100] and the weights are kept |
| `Dice.RollDie` | dice.py:53-90 | a roll of a die with `sides` is a value in [1, sides]; a weighted die whose `sides` was never assigned raises AttributeError |
| `Dice.WeightedAcceptsOutOfRange` | dice.py:47-81 | for sides > 100 with that many weights summing to 1, `Dice` refuses while `WeightedDice` accepts a die that has no face to roll |
| `History.Appended` | dice.py:112-121 | `add_roll` fails (IndexError) exactly when capacity is 0 and the buffer is empty; otherwise the new last element is the roll |
| `History.RecordAllIsWindow` | dice.py:112-121 | from a buffer within capacity c >= 1, any run of `add_roll` calls succeeds and leaves the last min(c, n) values seen, in order, so the length stays <= c (FIFO eviction) |
| `History.RecordAllOverfull` | dice.py:119-121 | a buffer longer than its capacity is never evicted from: every `add_roll` only appends |
| `History.RecordAllCapacityZero` | dice.py:108-121 | with capacity 0, a non-empty run of `add_roll` calls on the empty buffer raises IndexError |
| `History.Loaded` | dice.py:135-149 | a missing file leaves the buffer unchanged; a negative capacity raises ValueError; otherwise the old contents are kept as a prefix and exactly the first min(capacity, file length) stored integers follow them |
| `History.SaveLoadRoundTrip` | dice.py:142-159 | the saved contents of a buffer within capacity, loaded into an empty history of that capacity, give the buffer back |
| `History.ReloadDoubles` | tests.py:38-43 | loading the file just saved back into the same history doubles it (100 rolls become 200), past capacity once more than half full |
| `History.LoadThenRecord` | dice.py:112-149 | a load that fills a non-empty history past capacity turns off eviction: later rolls are only appended |
| `History.RollHistory.constructor` | dice.py:108-110 | a new history has the given capacity and an empty buffer |
| `History.RollHistory.AddRoll` | dice.py:112-121 | the new buffer is `Appended` of the old one; on IndexError the buffer is unchanged; capacity 0 keeps the buffer empty |
| `History.RollHistory.GetLastRolls` | dice.py:123-133 | never fails; the result is a suffix of the buffer in chronological order, of length min(n, len) for n > 0, the whole buffer for n = 0, and the buffer without its first -n entries for n < 0 |
| `History.RollHistory.LoadFromFile` | dice.py:135-149 | the new buffer is `Loaded` of the old one; on ValueError the buffer is unchanged |
| `History.RollHistory.SaveToFile` | dice.py:151-159 | the file written holds exactly the current buffer |
| `History.CopyThroughFile` | dice.py:135-159 | saving a history within capacity and loading it into a new history of the same capacity copies its rolls |
| `History.ThreeSlotHistory` | dice.py:112-133 | capacity 3 fed 1, 2, 3, 4 holds [2, 3, 4]; its last 2, 10 and 0 rolls are [3, 4], [2, 3, 4] and [2, 3, 4] |
| `Roller.FirstUnrollable` | dice.py:184-187 | the index of the first die without `sides`: every die before it can be rolled, and the die there (if any) cannot |
| `Roller.RoundOutcome` | dice.py:184-188 | one pass succeeds exactly when every die has `sides` and (for capacity 0) there are no dice; it raises IndexError exactly when the capacity is 0 and the first die can be rolled |
| `Roller.RoundLength` | dice.py:184-188 | a pass records at most one result per die, and one for every die when it succeeds |
| `Roller.FlattenLength` | dice.py:201-203 | passes of m results each give (number of passes) * m results in all |
| `Roller.DiceRoller.constructor` | dice.py:171-175 | the roller keeps the given dice list and history |
| `Roller.DiceRoller.Roll` | dice.py:177-188 | rolls the dice in list order; the recorded results are one face per die, added to the history by successive `add_roll` calls; the outcome is `RoundOutcome`; the dice list is unchanged |
| `Roller.DiceRoller.RollMultipleTimes` | dice.py:190-204 | max(n, 0) passes in order; when they succeed the history receives max(n, 0) * (number of dice) results, pass by pass; a failure raises on the first pass; n <= 0 changes nothing |
| `Roller.DiceRoller.DisplayLastRolls` | dice.py:232-246 | shows the history's `GetLastRolls(n)` and changes nothing |
| `Roller.DiceRoller.SaveRollsToFile` | dice.py:206-217 | the file written holds exactly the history's buffer |
| `Roller.DiceRoller.LoadRollsFromFile` | dice.py:219-230 | the history changes as `LoadFromFile` specifies |
| `Roller.ThreeRollsOfTwoDice` | dice.py:190-204 | two dice (6 and 10 sides) rolled three times give six results, ordered by pass and then by die, each a face of its die |

## Left out

- Randomness: a roll is any face of the die. The uniform distribution of
  `random.randint` and the weighting of `random.choices` are not modelled.
- Floating point: the weights are `real`s that are only stored. The test
  `sum(weights) == 1` is a boolean argument of `NewWeightedDice`. It must be
  false for empty weights, because the sum of an empty list is 0.
- File I/O: the file is modelled by the integers it holds. Not modelled are:
  - the `.bin` name;
  - the 4-byte native-endian encoding;
  - the `ValueError` raised for a trailing partial integer;
  - every I/O error other than a missing file.
- `History.RollHistory.AddRoll`: does not model the `OverflowError` that
  `array('i')` raises for a value outside the 32-bit signed range. The rolls
  the roller records are always in [1, 100].
- Printing: the progress messages and the string join in
  `display_last_rolls` are left out, as are `__str__`, `__repr__` and the
  `main()` demo.
- `DiceRoller` methods return `self` for chaining. The model returns the
  recorded results and the outcome instead.
- The dice list is a `deque` that the web layer shares and mutates between
  calls. The model holds it as a `seq` that the roller never changes.
- main.py (the FastAPI handlers) and its shared roller are not part of this
  model.

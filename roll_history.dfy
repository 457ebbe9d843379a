/** The history of past rolls: a buffer of integers with a capacity, first in
    first out, that can be written to a file and read back.

    The file is modelled by its contents only: `Some(items)` for a file holding
    `items`, `None` for a file that does not exist. */
module History {
  import opened Outcomes

  const DEFAULT_HISTORY_SIZE := 100

  /** What a first-in first-out buffer of capacity `c` holds after seeing `s`:
      the last min(c, |s|) elements of `s`, oldest first. */
  function Window(s: seq<int>, c: nat): seq<int>
  {
    if |s| <= c then s else s[|s| - c..]
  }

  /** The buffer after `add_roll(roll)`: the oldest entry is dropped first when
      the length EQUALS the capacity, and the call fails when that drop is a
      pop from an empty buffer (capacity 0). */
  function Appended(b: seq<int>, cap: int, roll: int): (r: Result<seq<int>>)
    ensures r.Err? <==> cap == 0 && b == []
    ensures r.Err? ==> r.error == IndexError
    ensures r.Ok? ==> r.value != [] && r.value[|r.value| - 1] == roll
  {
    if |b| == cap then
      if b == [] then Err(IndexError) else Ok(b[1..] + [roll])
    else
      Ok(b + [roll])
  }

  /** The buffer after `add_roll` of each of `rolls` in turn, stopping at the
      first call that fails. */
  function RecordAll(b: seq<int>, cap: int, rolls: seq<int>): Result<seq<int>>
    decreases |rolls|
  {
    if rolls == [] then Ok(b)
    else
      match RecordAll(b, cap, rolls[..|rolls| - 1])
      case Err(e) => Err(e)
      case Ok(b1) => Appended(b1, cap, rolls[|rolls| - 1])
  }

  /** The buffer after `load_from_file`: a missing file loads nothing, a
      negative capacity is refused by the read, and otherwise the first
      min(cap, |items|) stored integers are appended after the current
      contents (a short file keeps what was read). */
  function Loaded(b: seq<int>, cap: int, file: Option<seq<int>>): (r: Result<seq<int>>)
    ensures file.None? ==> r == Ok(b)
    ensures r.Err? <==> file.Some? && cap < 0
    ensures r.Err? ==> r.error == ValueError
    ensures r.Ok? ==> |b| <= |r.value| && r.value[..|b|] == b
    ensures r.Ok? && file.Some? ==>
              |r.value| == |b| + Min(cap, |file.value|) && r.value[|b|..] == file.value[..|r.value| - |b|]
  {
    match file
    case None => Ok(b)
    case Some(items) =>
      if cap < 0 then Err(ValueError)
      else Ok(b + items[..Min(cap, |items|)])
  }

  /** Python's normalisation of a slice start `i` against a length `len`. */
  function SliceStart(len: nat, i: int): (k: nat)
    ensures k <= len
  {
    if i < 0 then Max(len + i, 0) else Min(i, len)
  }

  /** One `add_roll` on a window is the window of the longer history. */
  lemma AppendedIsWindow(s: seq<int>, c: int, roll: int)
    requires 1 <= c
    ensures Appended(Window(s, c), c, roll) == Ok(Window(s + [roll], c))
  {
    if |s| >= c {
      assert (s + [roll])[|s| + 1 - c..] == s[|s| - c..][1..] + [roll];
    }
  }

  /** First in, first out: from a buffer within its capacity `c >= 1`, any
      sequence of `add_roll` calls succeeds and leaves the last min(c, n)
      values of everything seen, in order; so the length stays at most `c`. */
  lemma {:induction false} RecordAllIsWindow(b: seq<int>, c: int, rolls: seq<int>)
    requires 1 <= c && |b| <= c
    ensures RecordAll(b, c, rolls) == Ok(Window(b + rolls, c))
    ensures |Window(b + rolls, c)| <= c
  {
    if rolls == [] {
      assert b + rolls == b;
    } else {
      var init := rolls[..|rolls| - 1];
      RecordAllIsWindow(b, c, init);
      AppendedIsWindow(b + init, c, rolls[|rolls| - 1]);
      assert b + init + [rolls[|rolls| - 1]] == b + rolls;
    }
  }

  /** The eviction test is `==`: once a buffer is longer than its capacity,
      `add_roll` never drops anything again and the buffer keeps growing. */
  lemma {:induction false} RecordAllOverfull(b: seq<int>, c: int, rolls: seq<int>)
    requires |b| > c
    ensures RecordAll(b, c, rolls) == Ok(b + rolls)
  {
    if rolls == [] {
      assert b + rolls == b;
    } else {
      var init := rolls[..|rolls| - 1];
      RecordAllOverfull(b, c, init);
      assert b + init + [rolls[|rolls| - 1]] == b + rolls;
    }
  }

  /** With capacity 0 the first `add_roll` fails, and so does every later one. */
  lemma {:induction false} RecordAllCapacityZero(rolls: seq<int>)
    requires rolls != []
    ensures RecordAll([], 0, rolls) == Err(IndexError)
  {
    var init := rolls[..|rolls| - 1];
    if init != [] {
      RecordAllCapacityZero(init);
    }
  }

  /** Recording `xs` then `ys` is recording `xs + ys`. */
  lemma {:induction false} RecordAllConcat(b: seq<int>, c: int, xs: seq<int>, ys: seq<int>)
    ensures RecordAll(b, c, xs + ys) ==
              match RecordAll(b, c, xs)
              case Err(e) => Err(e)
              case Ok(b1) => RecordAll(b1, c, ys)
    decreases |ys|
  {
    if ys == [] {
      assert xs + ys == xs;
    } else {
      var init := ys[..|ys| - 1];
      RecordAllConcat(b, c, xs, init);
      assert (xs + ys)[..|xs + ys| - 1] == xs + init;
    }
  }

  /** Saving a buffer within its capacity and loading the file into a new,
      empty history of the same capacity gives the buffer back. */
  lemma SaveLoadRoundTrip(b: seq<int>, c: int)
    requires |b| <= c
    ensures Loaded([], c, Some(b)) == Ok(b)
  {
    assert b[..Min(c, |b|)] == b;
  }

  /** Loading appends rather than replaces: loading the file just saved from
      the same history doubles it, past its capacity as soon as it is more
      than half full. */
  lemma ReloadDoubles(b: seq<int>, c: int)
    requires |b| <= c
    ensures Loaded(b, c, Some(b)) == Ok(b + b)
    ensures |b + b| > c <==> 2 * |b| > c
  {
    assert b[..Min(c, |b|)] == b;
  }

  /** A load that overfills a non-empty buffer disables eviction for good:
      every later `add_roll` only appends. */
  lemma LoadThenRecord(b: seq<int>, c: int, items: seq<int>, rolls: seq<int>)
    requires 0 <= c <= |items| && b != []
    ensures Loaded(b, c, Some(items)).Ok?
    ensures RecordAll(Loaded(b, c, Some(items)).value, c, rolls)
              == Ok(b + items[..c] + rolls)
  {
    RecordAllOverfull(b + items[..c], c, rolls);
  }

  /** `RollHistory`: the buffer `lastRolls` and its capacity `maxHistorySize`.
      Nothing can put an entry into a history of capacity 0. */
  class RollHistory {
    const maxHistorySize: int
    var lastRolls: seq<int>

    ghost predicate Valid()
      reads this
    {
      maxHistorySize == 0 ==> lastRolls == []
    }

    constructor (maxHistorySize: int)
      ensures Valid()
      ensures this.maxHistorySize == maxHistorySize && lastRolls == []
    {
      this.maxHistorySize := maxHistorySize;
      lastRolls := [];
    }

    /** Drop the oldest entry when full, then append `roll`. */
    method AddRoll(roll: int) returns (out: Outcome)
      requires Valid()
      modifies this
      ensures Valid()
      ensures match Appended(old(lastRolls), maxHistorySize, roll)
              case Ok(b) => out == Pass && lastRolls == b
              case Err(e) => out == Raise(e) && lastRolls == old(lastRolls)
    {
      if |lastRolls| == maxHistorySize {
        if lastRolls == [] {
          return Raise(IndexError);
        }
        lastRolls := lastRolls[1..];
      }
      lastRolls := lastRolls + [roll];
      out := Pass;
    }

    /** `last_rolls[-n:]`: never fails and is always a suffix of the buffer,
        oldest first. A positive `n` gives the last min(n, |lastRolls|)
        entries; `n == 0` gives the whole buffer (as `-0 == 0`); a negative
        `n` drops the first `-n` entries. */
    function GetLastRolls(n: int): (r: seq<int>)
      reads this
      ensures |r| <= |lastRolls| && r == lastRolls[|lastRolls| - |r|..]
      ensures n > 0 ==> |r| == Min(n, |lastRolls|)
      ensures n == 0 ==> r == lastRolls
      ensures n < 0 ==> |r| == Max(|lastRolls| + n, 0)
    {
      lastRolls[SliceStart(|lastRolls|, -n)..]
    }

    /** `load_from_file`, with the file given by its contents. */
    method LoadFromFile(file: Option<seq<int>>) returns (out: Outcome)
      requires Valid()
      modifies this
      ensures Valid()
      ensures match Loaded(old(lastRolls), maxHistorySize, file)
              case Ok(b) => out == Pass && lastRolls == b
              case Err(e) => out == Raise(e) && lastRolls == old(lastRolls)
    {
      match file
      case None =>
        out := Pass;
      case Some(items) =>
        if maxHistorySize < 0 {
          return Raise(ValueError);
        }
        var count := Min(maxHistorySize, |items|);
        lastRolls := lastRolls + items[..count];
        out := Pass;
    }

    /** `save_to_file`: the file holds exactly the current buffer. */
    method SaveToFile() returns (file: seq<int>)
      ensures file == lastRolls
    {
      file := lastRolls;
    }
  }

  /** Save a history and load the file into a new history of the same
      capacity: within capacity, the copy holds the same rolls. */
  method CopyThroughFile(h: RollHistory) returns (copy: RollHistory)
    requires h.Valid() && |h.lastRolls| <= h.maxHistorySize
    ensures copy.maxHistorySize == h.maxHistorySize && copy.lastRolls == h.lastRolls
  {
    var file := h.SaveToFile();
    copy := new RollHistory(h.maxHistorySize);
    var out := copy.LoadFromFile(Some(file));
    SaveLoadRoundTrip(file, h.maxHistorySize);
  }

  /** A history of capacity 3 fed 1, 2, 3, 4 evicts the 1; asking it for the
      last 2, 10 and 0 rolls gives [3, 4], everything, and everything. */
  method ThreeSlotHistory() returns (contents: seq<int>, lastTwo: seq<int>, lastTen: seq<int>, lastZero: seq<int>)
    ensures contents == [2, 3, 4]
    ensures lastTwo == [3, 4] && lastTen == [2, 3, 4] && lastZero == [2, 3, 4]
  {
    var h := new RollHistory(3);
    var out := h.AddRoll(1);
    out := h.AddRoll(2);
    out := h.AddRoll(3);
    out := h.AddRoll(4);
    contents := h.lastRolls;
    lastTwo := h.GetLastRolls(2);
    lastTen := h.GetLastRolls(10);
    lastZero := h.GetLastRolls(0);
  }
}

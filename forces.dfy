/**
 * `Forces`: the target force values of the test bench, read from a file into a list
 * shared by every instance, and a cyclic cursor over that list.
 */
module BenchForces {
  import opened PyRuntime
  import opened CInt

  /** The class-level list `Forces.force_values`, shared by all instances. */
  class ForceStore {
    var values: seq<PyValue>

    constructor ()
      ensures values == []
    {
      values := [];
    }
  }

  /** The `str` cells of one CSV row, as `csv.reader` yields them. */
  function RowCells(row: seq<string>): (r: seq<PyValue>)
    ensures |r| == |row|
    ensures forall k :: 0 <= k < |row| ==> r[k] == PyStr(row[k])
  {
    seq(|row|, k requires 0 <= k < |row| => PyStr(row[k]))
  }

  /** Every cell of every row, row after row. */
  function Cells(rows: seq<seq<string>>): (r: seq<PyValue>)
    ensures forall k :: 0 <= k < |r| ==> r[k].PyStr?
    ensures |r| == 0 <==> forall i :: 0 <= i < |rows| ==> rows[i] == []
  {
    if rows == [] then [] else Cells(rows[..|rows| - 1]) + RowCells(rows[|rows| - 1])
  }

  /** The cursor after one call on a non-empty list of `len` values. */
  function NextCursor(len: nat, i: int): int {
    if i < len then i + 1 else 0
  }

  /** The position of the value a call returns when the cursor stands at `i`. */
  function Position(len: nat, i: int): int {
    if i < len then i else 0
  }

  /** The cursor after `k` calls, starting from 0. */
  function CursorAfter(len: nat, k: nat): int {
    if k == 0 then 0 else NextCursor(len, CursorAfter(len, k - 1))
  }

  /**
   * The cursor runs through 0, 1, ..., len and back to 0: after `k` calls it stands at
   * `k mod (len + 1)`, so the cycle is one call longer than the list.
   */
  lemma {:induction false} CursorAfterCalls(len: nat, k: nat)
    ensures CursorAfter(len, k) == k % (len + 1)
  {
    if k == 0 {
    } else {
      CursorAfterCalls(len, k - 1);
      var q, r := (k - 1) / (len + 1), (k - 1) % (len + 1);
      if r < len {
        DivUnique(k, len + 1, q, r + 1);
      } else {
        DivUnique(k, len + 1, q + 1, 0);
      }
    }
  }

  /**
   * In each cycle the values come out in list order, and after each wrap the first value
   * is returned twice in a row: once by the wrapping call and once by the call after it.
   */
  lemma CycleOrder(len: nat, m: nat, j: nat)
    requires len > 0 && j < len
    ensures Position(len, CursorAfter(len, m * (len + 1) + j)) == j
    ensures Position(len, CursorAfter(len, m * (len + 1) + len)) == 0
    ensures Position(len, CursorAfter(len, (m + 1) * (len + 1))) == 0
  {
    CursorInCycle(len, m, j);
    CursorInCycle(len, m, len);
    CursorInCycle(len, m + 1, 0);
  }

  /** The cursor `j` calls into the `m`-th cycle. */
  lemma CursorInCycle(len: nat, m: nat, j: nat)
    requires j <= len
    ensures CursorAfter(len, m * (len + 1) + j) == j
  {
    CursorAfterCalls(len, m * (len + 1) + j);
    DivUnique(m * (len + 1) + j, len + 1, m, j);
  }

  /**
   * The position the debug message of `getNextForce` reads as written: it indexes with the
   * cursor after the increment, or with 0 after the wrap.
   */
  function PrintedPosition(len: nat, i: int): int {
    if i < len then i + 1 else 0
  }

  /**
   * The message reads one past the value returned while the cursor is inside the list, so
   * it runs past the end exactly when the last value is fetched.
   */
  lemma PrintedPositionPastEnd(len: nat, i: int)
    requires len > 0 && 0 <= i <= len
    ensures PrintedPosition(len, i) >= len <==> i == len - 1
    ensures i < len ==> PrintedPosition(len, i) == Position(len, i) + 1
    ensures i == len ==> PrintedPosition(len, i) == Position(len, i)
  {
  }

  /** The index of the last occurrence of `c` in `p`, or -1. */
  function LastIndex(p: string, c: char): (r: int)
    ensures -1 <= r < |p|
    ensures r >= 0 ==> p[r] == c
    ensures forall k :: r < k < |p| ==> p[k] != c
  {
    if p == [] then -1
    else if p[|p| - 1] == c then |p| - 1
    else LastIndex(p[..|p| - 1], c)
  }

  /**
   * The extension `os.path.splitext` (POSIX) splits off: from the last dot of the last
   * path component to the end, unless the component holds nothing but dots before it
   * (a leading-dot name such as `.csv` has no extension).
   */
  function Extension(p: string): (ext: string)
    ensures ext == [] || (ext[0] == '.' && |ext| <= |p| && ext == p[|p| - |ext|..])
    ensures forall k :: 0 < k < |ext| ==> ext[k] != '.' && ext[k] != '/'
  {
    var sep := LastIndex(p, '/');
    var dot := LastIndex(p, '.');
    if dot > sep && exists k :: sep + 1 <= k < dot && p[k] != '.' then
      assert forall k :: dot < k < |p| ==> p[k] != '.' && p[k] != '/';
      p[dot..]
    else
      []
  }

  /** What `load_forces` does with its argument. */
  datatype LoadAction =
    | WrongType      // quit: the argument is not a `str`
    | NotFound       // quit: "could not find the file path"
    | ReadCsv        // `load_csv`
    | ReadTxt        // `load_txt`, which loads nothing
    | UnknownFormat  // an unsupported extension: nothing is loaded
    | Skip           // nothing at all happens

  /** The loader chosen by the file's extension. */
  function ByExtension(p: string): (a: LoadAction)
    ensures a == ReadCsv <==> Extension(p) == ".csv"
    ensures a == ReadTxt <==> Extension(p) == ".txt"
    ensures a == ReadCsv || a == ReadTxt || a == UnknownFormat
  {
    if Extension(p) == ".csv" then ReadCsv
    else if Extension(p) == ".txt" then ReadTxt
    else UnknownFormat
  }

  /**
   * The dispatch of `load_forces` as written: the `else` that reports a missing file
   * belongs to the debug test, so with debugging off an existing file is reported as
   * missing, and a missing file is passed over silently.
   */
  function DispatchAsWritten(debug: bool, path: PyValue, found: bool): (a: LoadAction)
    ensures a == WrongType <==> !path.PyStr?
    ensures a == NotFound <==> path.PyStr? && found && !debug
    ensures a == Skip <==> path.PyStr? && !found
    ensures path.PyStr? && found && debug ==> a == ByExtension(path.s)
  {
    if !path.PyStr? then WrongType
    else if found then (if debug then ByExtension(path.s) else NotFound)
    else Skip
  }

  /**
   * The dispatch the messages describe: a missing file is reported and ends the program,
   * an existing one is loaded by its extension, whatever the debug setting.
   */
  function Dispatch(path: PyValue, found: bool): (a: LoadAction)
    ensures a == WrongType <==> !path.PyStr?
    ensures a == NotFound <==> path.PyStr? && !found
    ensures path.PyStr? && found ==> a == ByExtension(path.s)
    ensures a != Skip
  {
    if !path.PyStr? then WrongType
    else if found then ByExtension(path.s)
    else NotFound
  }

  /** The two dispatches differ exactly on a `str` path when debugging is off or the file is missing. */
  lemma DispatchDiscrepancy(debug: bool, path: PyValue, found: bool)
    ensures DispatchAsWritten(debug, path, found) != Dispatch(path, found) <==>
      path.PyStr? && (!found || !debug)
  {
  }

  class Forces {
    /** The shared list every instance reads and `load_csv` appends to. */
    const store: ForceStore
    /** `Settings.DEBUG`. */
    const debug: bool
    /** `self.index`. */
    var index: int

    ghost predicate Valid()
      reads this, store
    {
      0 <= index <= |store.values|
    }

    constructor (shared: ForceStore, debugSetting: bool)
      ensures Valid() && store == shared && debug == debugSetting && index == 0
    {
      store := shared;
      debug := debugSetting;
      index := 0;
    }

    /**
     * `getNextForce` as written: with debugging on, the message printed after the cursor
     * has moved indexes one past the value returned, which is past the end of the list
     * when the last value is reached, and the call raises instead of returning it.
     */
    method GetNextForceAsWritten() returns (r: Outcome<PyValue>)
      requires Valid()
      modifies this`index
      ensures Valid()
      ensures |store.values| == 0 ==> r == Quit && index == old(index)
      ensures |store.values| > 0 ==> index == NextCursor(|store.values|, old(index))
      ensures |store.values| > 0 && debug && PrintedPosition(|store.values|, old(index)) >= |store.values| ==>
        r == Raise(IndexError)
      ensures |store.values| > 0 && !(debug && PrintedPosition(|store.values|, old(index)) >= |store.values|) ==>
        r == Return(store.values[Position(|store.values|, old(index))])
    {
      var length := |store.values|;
      if length == 0 {
        return Quit;
      }
      if index < length {
        index := index + 1;
        if debug && index >= length {
          return Raise(IndexError);
        }
        r := Return(store.values[index - 1]);
      } else {
        index := 0;
        r := Return(store.values[index]);
      }
    }

    /**
     * `getNextForce` with the debug message showing the value returned: an empty list
     * ends the program; otherwise the value at the cursor is returned and the cursor
     * moves on, wrapping to 0 (and returning the first value) once it has passed the end.
     */
    method GetNextForce() returns (r: Outcome<PyValue>)
      requires Valid()
      modifies this`index
      ensures Valid()
      ensures |store.values| == 0 ==> r == Quit && index == old(index)
      ensures |store.values| > 0 ==>
        index == NextCursor(|store.values|, old(index))
        && r == Return(store.values[Position(|store.values|, old(index))])
    {
      var length := |store.values|;
      if length == 0 {
        return Quit;
      }
      if index < length {
        index := index + 1;
        r := Return(store.values[index - 1]);
      } else {
        index := 0;
        r := Return(store.values[index]);
      }
    }

    /**
     * `load_csv` on the rows `csv.reader` yields for the file: every cell of every row is
     * appended, in order, to the shared list; the program ends if the list is still empty.
     */
    method LoadCsv(rows: seq<seq<string>>) returns (r: Outcome<()>)
      requires Valid()
      modifies store`values
      ensures Valid()
      ensures store.values == old(store.values) + Cells(rows)
      ensures r == (if |store.values| == 0 then Quit else Return(()))
    {
      for i := 0 to |rows|
        invariant store.values == old(store.values) + Cells(rows[..i])
        invariant Valid()
      {
        for j := 0 to |rows[i]|
          invariant store.values == old(store.values) + Cells(rows[..i]) + RowCells(rows[i][..j])
          invariant Valid()
        {
          assert RowCells(rows[i][..j + 1]) == RowCells(rows[i][..j]) + [PyStr(rows[i][j])];
          store.values := store.values + [PyStr(rows[i][j])];
        }
        assert rows[..i + 1][..i] == rows[..i];
        assert rows[i][..|rows[i]|] == rows[i];
      }
      assert rows[..|rows|] == rows;
      if |store.values| == 0 {
        return Quit;
      }
      r := Return(());
    }

    /**
     * `load_forces`, with the missing-file branch where its message places it: a
     * non-`str` argument or a missing file ends the program, a `.csv` file is loaded
     * from `rows` (its contents), and any other file loads nothing.
     */
    method LoadForces(path: PyValue, found: bool, rows: seq<seq<string>>) returns (r: Outcome<()>)
      requires Valid()
      modifies store`values
      ensures Valid()
      ensures Dispatch(path, found) == WrongType || Dispatch(path, found) == NotFound ==>
        r == Quit && store.values == old(store.values)
      ensures Dispatch(path, found) == ReadCsv ==>
        store.values == old(store.values) + Cells(rows)
        && r == (if |store.values| == 0 then Quit else Return(()))
      ensures Dispatch(path, found) == ReadTxt || Dispatch(path, found) == UnknownFormat ==>
        r == Return(()) && store.values == old(store.values)
    {
      match Dispatch(path, found)
      case WrongType => r := Quit;
      case NotFound => r := Quit;
      case ReadCsv => r := LoadCsv(rows);
      case ReadTxt => r := Return(());
      case UnknownFormat => r := Return(());
    }
  }
}

/** The rows of the host's System V tables, and the order the planner sorts them in. */
module IpcRows {
  const KEYS := 0x1_0000_0000_0000_0000

  /** Keys are unsigned 64-bit; their arithmetic wraps. */
  type Key = k: int | 0 <= k < KEYS

  function Plus(a: Key, b: Key): Key { (a + b) % KEYS }
  function Minus(a: Key, b: Key): Key { (a - b) % KEYS }

  const CONTROL_SEGMENT_BYTES := 56
  const SEMAPHORES_PER_SET := 20
  const KEY_SPAN: Key := 1024

  datatype SharedRow = SharedRow(id: int, key: Key, owner: string, attachments: int, size: int, creatorPid: int)

  datatype SemRow = SemRow(id: int, key: Key, mode: string, owner: string, semaphores: int, createdAt: string)

  /** A PostgreSQL control segment of this user, as far as its row can tell. */
  predicate Control(row: SharedRow, user: string) {
    row.owner == user && row.size == CONTROL_SEGMENT_BYTES && row.creatorPid > 1
  }

  predicate LiveControl(row: SharedRow, user: string, alive: int -> bool) {
    Control(row, user) && (row.attachments > 0 || alive(row.creatorPid))
  }

  predicate DeadControl(row: SharedRow, user: string, alive: int -> bool) {
    Control(row, user) && row.attachments <= 0 && !alive(row.creatorPid)
  }

  /** A semaphore set with the owner, mode and size of a PostgreSQL one. */
  predicate Eligible(row: SemRow, user: string) {
    row.key > 0 && row.owner == user && row.mode == "--ra-------" && row.semaphores == SEMAPHORES_PER_SET
  }

  /** The kernel never hands out one id twice, nor one nonzero key. */
  ghost predicate KernelDistinct(rows: seq<SemRow>) {
    && (forall i, j :: 0 <= i < j < |rows| ==> rows[i].id != rows[j].id)
    && (forall i, j :: 0 <= i < j < |rows| && rows[i].key > 0 ==> rows[i].key != rows[j].key)
  }

  // ---------- sorting by key ----------

  ghost predicate Sorted(rows: seq<SemRow>) {
    forall i, j :: 0 <= i < j < |rows| ==> rows[i].key < rows[j].key
  }

  ghost predicate DistinctKeys(rows: seq<SemRow>) {
    forall i, j :: 0 <= i < j < |rows| ==> rows[i].key != rows[j].key
  }

  function Insert(row: SemRow, rows: seq<SemRow>): seq<SemRow> {
    if rows == [] || row.key <= rows[0].key then [row] + rows else [rows[0]] + Insert(row, rows[1..])
  }

  /** The library sort. */
  function SortByKey(rows: seq<SemRow>): seq<SemRow> {
    if rows == [] then [] else Insert(rows[0], SortByKey(rows[1..]))
  }

  lemma {:induction false} InsertSorts(row: SemRow, rows: seq<SemRow>)
    requires Sorted(rows) && forall r :: r in rows ==> r.key != row.key
    ensures Sorted(Insert(row, rows))
    ensures forall r :: r in Insert(row, rows) <==> r == row || r in rows
    decreases |rows|
  {
    if rows != [] && row.key > rows[0].key {
      InsertSorts(row, rows[1..]);
      var rest := Insert(row, rows[1..]);
      forall r | r in rest ensures rows[0].key < r.key {
        if r != row { assert r in rows[1..]; }
      }
      assert rows == [rows[0]] + rows[1..];
    }
  }

  lemma {:induction false} SortSorts(rows: seq<SemRow>)
    requires DistinctKeys(rows)
    ensures Sorted(SortByKey(rows))
    ensures forall r :: r in SortByKey(rows) <==> r in rows
    decreases |rows|
  {
    if rows != [] {
      SortSorts(rows[1..]);
      assert rows == [rows[0]] + rows[1..];
      InsertSorts(rows[0], SortByKey(rows[1..]));
    }
  }

  /** Strictly sorted rows are determined by which rows they are. */
  lemma {:induction false} SortedUnique(a: seq<SemRow>, b: seq<SemRow>)
    requires Sorted(a) && Sorted(b) && forall r :: r in a <==> r in b
    ensures a == b
    decreases |a|
  {
    if a != [] { assert a[0] in a; }
    if b != [] { assert b[0] in b; }
    if a != [] {
      assert a[0] in b && b[0] in a;
      var j :| 0 <= j < |b| && b[j] == a[0];
      var i :| 0 <= i < |a| && a[i] == b[0];
      assert i == 0 && j == 0;
      forall r ensures r in a[1..] <==> r in b[1..] {
        TailHas(a, r);
        TailHas(b, r);
      }
      SortedUnique(a[1..], b[1..]);
    }
  }

  lemma TailHas(a: seq<SemRow>, r: SemRow)
    requires Sorted(a) && a != []
    ensures r in a[1..] <==> r in a && r != a[0]
  {
    assert a == [a[0]] + a[1..];
  }
}

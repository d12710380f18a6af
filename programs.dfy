/** The compute-program table `programs` (an `unordered_map<int, GLuint>`) as
    values: what each operation does to it, and what follows over sequences
    of operations. */
module ProgramTable {
  import opened Basics

  type Table = map<int, uint32>

  /** The key `create_compute_shader` stores under: `programs.size() + 1`,
      evaluated before the subscript inserts anything. */
  function CreateKey(t: Table): int {
    |t| + 1
  }

  /** `programs[programs.size() + 1] = program`: the program is stored under
      the key, every other entry is as it was, and the table grows only when
      the key was not live already (otherwise the old program is lost). */
  function AfterCreate(t: Table, program: uint32): (r: Table)
    ensures CreateKey(t) in r && r[CreateKey(t)] == program
    ensures forall k :: k != CreateKey(t) ==> (k in r <==> k in t)
    ensures forall k :: k != CreateKey(t) && k in t ==> r[k] == t[k]
    ensures |r| == if CreateKey(t) in t then |t| else |t| + 1
  {
    var key := CreateKey(t);
    var r := t[key := program];
    if key in t then
      assert r.Keys == t.Keys;
      r
    else
      assert r.Keys == t.Keys + {key};
      r
  }

  /** `operator[]` as a read: the value (0 when absent) and the table after
      the read, which has `id` default-inserted with 0 when it was absent. */
  function Subscript(t: Table, id: int): (r: (uint32, Table))
    ensures id in r.1 && r.1[id] == r.0
    ensures id in t ==> r.0 == t[id] && r.1 == t
    ensures id !in t ==> r.0 == 0 && r.1 == t[id := 0]
    ensures |r.1| == if id in t then |t| else |t| + 1
  {
    if id in t then (t[id], t)
    else
      assert t[id := 0].Keys == t.Keys + {id};
      (0, t[id := 0])
  }

  /** `remove_compute_shader`'s table effect: read `programs[id]` (which may
      default-insert), then erase `id`. Either way `id` ends absent and no
      other entry changes. */
  function AfterRemove(t: Table, id: int): (r: Table)
    ensures id !in r
    ensures forall k :: k != id ==> (k in r <==> k in t)
    ensures forall k :: k != id && k in r ==> r[k] == t[k]
  {
    Subscript(t, id).1 - {id}
  }

  /** A lookup of an absent id grows the table by one and so moves the key
      the next create will use. */
  lemma LookupShiftsCreateKey(t: Table, id: int)
    requires id !in t
    ensures CreateKey(Subscript(t, id).1) == CreateKey(t) + 1
    ensures CreateKey(t) in t ==> CreateKey(Subscript(t, id).1) != CreateKey(t)
  {
  }

  // ---------------------------------------------------------------------------
  // Sequences of operations
  // ---------------------------------------------------------------------------

  /** The table-visible operations: create (with the program handle it got),
      `set_compute_shader`, `remove_compute_shader`, `run_compute_shader`. */
  datatype TableOp = Create(program: uint32) | Use(id: int) | Remove(id: int) | Run(id: int)

  /** The one key an operation may touch: the create key for a create and
      the id for the other three. */
  function OpKey(t: Table, op: TableOp): int {
    if op.Create? then CreateKey(t) else op.id
  }

  /** One operation as the source performs it. It touches only its own key:
      a create stores the program there, a remove leaves it absent, and a
      lookup makes it present and keeps a live entry as it was. */
  function Step(t: Table, op: TableOp): (r: Table)
    ensures forall k :: k != OpKey(t, op) ==> (k in r <==> k in t)
    ensures forall k :: k != OpKey(t, op) && k in t ==> r[k] == t[k]
    ensures op.Create? ==> OpKey(t, op) in r && r[OpKey(t, op)] == op.program
    ensures op.Remove? ==> OpKey(t, op) !in r
    ensures (op.Use? || op.Run?) ==> OpKey(t, op) in r && (OpKey(t, op) in t ==> r[OpKey(t, op)] == t[OpKey(t, op)])
    ensures (op.Use? || op.Run?) && OpKey(t, op) !in t ==> r[OpKey(t, op)] == 0
  {
    match op
    case Create(p) => AfterCreate(t, p)
    case Use(id) => Subscript(t, id).1
    case Remove(id) => AfterRemove(t, id)
    case Run(id) => Subscript(t, id).1
  }

  /** Operations applied in order. Lookups alone (`set_compute_shader` and
      `run_compute_shader`) never lose or change a stored program. */
  function Steps(t: Table, ops: seq<TableOp>): (r: Table)
    ensures (forall n :: 0 <= n < |ops| ==> ops[n].Use? || ops[n].Run?) ==>
              forall k :: k in t ==> k in r && r[k] == t[k]
    decreases |ops|
  {
    if |ops| == 0 then t
    else
      assert forall n :: 0 <= n < |ops[1..]| ==> ops[1..][n] == ops[n + 1];
      Steps(Step(t, ops[0]), ops[1..])
  }

  /** As written: two creates, removing the first, and a third create store
      the third program under key 2 and lose the second program, although key 2
      was never removed. */
  lemma CreateAfterRemoveOverwrites(p1: uint32, p2: uint32, p3: uint32)
    ensures Steps(map[], [Create(p1), Create(p2)]) == map[1 := p1, 2 := p2]
    ensures Steps(map[], [Create(p1), Create(p2), Remove(1), Create(p3)]) == map[2 := p3]
  {
    var ops := [Create(p1), Create(p2), Remove(1), Create(p3)];
    var t1 := AfterCreate(map[], p1);
    assert t1 == map[1 := p1];
    var t2 := AfterCreate(t1, p2);
    assert t2 == map[1 := p1, 2 := p2];
    var t3 := AfterRemove(t2, 1);
    assert t3 == map[2 := p2];
    assert |t3| == 1 by { assert t3.Keys == {2}; }
    var t4 := AfterCreate(t3, p3);
    assert t4 == map[2 := p3];
    assert Steps(map[], [Create(p1), Create(p2)]) == Steps(t1, [Create(p2)]) by {
      assert [Create(p1), Create(p2)][1..] == [Create(p2)];
    }
    assert Steps(t1, [Create(p2)]) == Steps(t2, []) by {
      assert [Create(p2)][1..] == [];
    }
    assert Steps(map[], ops) == Steps(t1, ops[1..]);
    assert ops[1..][1..] == ops[2..] && ops[2..][1..] == ops[3..] && ops[3..][1..] == [];
    assert Steps(t1, ops[1..]) == Steps(t2, ops[2..]);
    assert Steps(t2, ops[2..]) == Steps(t3, ops[3..]);
    assert Steps(t3, ops[3..]) == Steps(t4, []);
  }

  /** As written, without any remove: a lookup of an absent id grows the
      table, so the next create's key lands on that live entry, and the create
      after it lands there again and loses the program the first one stored. */
  lemma LookupPushesCreateOntoLiveKey(p1: uint32, p2: uint32, p3: uint32)
    ensures Steps(map[], [Create(p1), Use(3), Create(p2)]) == map[1 := p1, 3 := p2]
    ensures Steps(map[], [Create(p1), Use(3), Create(p2), Create(p3)]) == map[1 := p1, 3 := p3]
  {
    var ops := [Create(p1), Use(3), Create(p2), Create(p3)];
    var t1 := AfterCreate(map[], p1);
    assert t1 == map[1 := p1];
    var t2 := Subscript(t1, 3).1;
    assert t2 == map[1 := p1, 3 := 0];
    assert |t2| == 2 by { assert t2.Keys == {1, 3}; }
    var t3 := AfterCreate(t2, p2);
    assert t3 == map[1 := p1, 3 := p2];
    assert |t3| == 2 by { assert t3.Keys == {1, 3}; }
    var t4 := AfterCreate(t3, p3);
    assert t4 == map[1 := p1, 3 := p3];
    assert ops[1..][1..] == ops[2..] && ops[2..][1..] == ops[3..] && ops[3..][1..] == [];
    assert ops[..3][1..] == ops[1..3] && ops[1..3][1..] == ops[2..3] && ops[2..3][1..] == [];
    assert Steps(map[], ops[..3]) == Steps(t1, ops[1..3]);
    assert Steps(t1, ops[1..3]) == Steps(t2, ops[2..3]);
    assert Steps(t2, ops[2..3]) == Steps(t3, []);
    assert ops[..3] == [Create(p1), Use(3), Create(p2)];
    assert Steps(map[], ops) == Steps(t1, ops[1..]);
    assert Steps(t1, ops[1..]) == Steps(t2, ops[2..]);
    assert Steps(t2, ops[2..]) == Steps(t3, ops[3..]);
    assert Steps(t3, ops[3..]) == Steps(t4, []);
  }

  /** No operation in the list is a remove of key k. (In the as-written
      table a create can still overwrite k: that is the defect shown above.) */
  predicate NoRemoveOf(ops: seq<TableOp>, k: int) {
    forall n :: 0 <= n < |ops| ==> ops[n] != Remove(k)
  }

  // ---------------------------------------------------------------------------
  // Corrected table: create takes its key from a counter (as the raytracer
  // registry's nextID does) instead of `programs.size() + 1`. Lookups and
  // removes are the source's own, default insert included.
  // ---------------------------------------------------------------------------

  datatype CountedTable = CountedTable(table: Table, next: int)

  /** One operation on the corrected table. The counter never goes down, a
      create stores under the counter, and every live key below the counter
      that the operation does not remove keeps its program. */
  function StepFixed(s: CountedTable, op: TableOp): (r: CountedTable)
    ensures r.next == if op.Create? then s.next + 1 else s.next
    ensures op.Create? ==> s.next in r.table && r.table[s.next] == op.program
    ensures forall k :: k in s.table && k < s.next && op != Remove(k) ==> k in r.table && r.table[k] == s.table[k]
  {
    match op
    case Create(p) => CountedTable(s.table[s.next := p], s.next + 1)
    case Use(id) => CountedTable(Subscript(s.table, id).1, s.next)
    case Remove(id) => CountedTable(AfterRemove(s.table, id), s.next)
    case Run(id) => CountedTable(Subscript(s.table, id).1, s.next)
  }

  function StepsFixed(s: CountedTable, ops: seq<TableOp>): CountedTable
    decreases |ops|
  {
    if |ops| == 0 then s else StepsFixed(StepFixed(s, ops[0]), ops[1..])
  }

  /** Corrected: every key a create handed out lies below the counter, and a
      live program under such a key stays there, unchanged, through any
      operations that do not remove that key. */
  lemma {:induction false} FixedKeepsLivePrograms(s: CountedTable, ops: seq<TableOp>, k: int)
    requires k in s.table && k < s.next && NoRemoveOf(ops, k)
    ensures k in StepsFixed(s, ops).table && StepsFixed(s, ops).table[k] == s.table[k]
    decreases |ops|
  {
    if |ops| > 0 {
      var s' := StepFixed(s, ops[0]);
      assert ops[0] != Remove(k);
      assert k in s'.table && s'.table[k] == s.table[k] && k < s'.next;
      assert NoRemoveOf(ops[1..], k) by {
        forall n | 0 <= n < |ops[1..]| ensures ops[1..][n] != Remove(k) {
          assert ops[1..][n] == ops[n + 1];
        }
      }
      FixedKeepsLivePrograms(s', ops[1..], k);
    }
  }

  /** The as-written table fails the same property on the trace of
      CreateAfterRemoveOverwrites: key 2 is live after the first two creates,
      the rest never removes it, and yet its program changes. */
  lemma AsWrittenLosesLivePrograms(p1: uint32, p2: uint32, p3: uint32)
    requires p2 != p3
    ensures var t := Steps(map[], [Create(p1), Create(p2)]);
            && 2 in t && NoRemoveOf([Remove(1), Create(p3)], 2)
            && 2 in Steps(t, [Remove(1), Create(p3)])
            && Steps(t, [Remove(1), Create(p3)])[2] != t[2]
  {
    CreateAfterRemoveOverwrites(p1, p2, p3);
    var t := Steps(map[], [Create(p1), Create(p2)]);
    var rest := [Remove(1), Create(p3)];
    var t3 := AfterRemove(t, 1);
    assert t3 == map[2 := p2];
    assert |t3| == 1 by { assert t3.Keys == {2}; }
    assert AfterCreate(t3, p3) == map[2 := p3];
    assert rest[1..] == [Create(p3)] && rest[1..][1..] == [];
    assert Steps(t, rest) == Steps(t3, rest[1..]);
    assert Steps(t3, rest[1..]) == Steps(AfterCreate(t3, p3), []);
  }
}

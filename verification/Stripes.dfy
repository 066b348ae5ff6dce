/** The striped lock table: `lock_batch`'s plan, and why nothing deadlocks. */
module Stripes {
  import opened Ids
  import opened Accounting

  predicate Increasing(s: seq<nat>) {
    forall i, j :: 0 <= i < j < |s| ==> s[i] < s[j]
  }

  predicate Ascending(s: seq<nat>) {
    forall i, j :: 0 <= i < j < |s| ==> s[i] <= s[j]
  }

  /** `plan` takes exactly the stripes the batch needs, each once, in stripe
      order. */
  ghost predicate IsPlan(plan: seq<nat>, ids: seq<BlockId>, n: nat)
    requires n > 0
  {
    Increasing(plan) &&
    forall k :: k in plan <==> exists i :: 0 <= i < |ids| && StripeOf(ids[i], n) == k
  }

  /** The two leading bytes are enough to reach every stripe of a table of up to 65536,
      and blocks that share them share their stripe. */
  lemma EveryStripeIsUsed(n: nat, k: nat, rest: seq<byte>) returns (id: BlockId)
    requires k < n <= 65536 && |rest| == 14
    ensures StripeOf(id, n) == k && id[2..] == rest
  {
    var high: int, low: int := k / 256, k % 256;
    id := [high, low] + rest;
    assert id[0] == high && id[1] == low;
    InTable(k, high, low, n);
  }

  lemma InTable(k: nat, high: nat, low: nat, n: nat)
    requires k < n && k == high * 256 + low
    ensures (high * 256 + low) % n == k
  {
  }

  lemma LeadingBytesDecide(a: BlockId, b: BlockId, n: nat)
    requires n > 0 && a[..2] == b[..2]
    ensures StripeOf(a, n) == StripeOf(b, n)
  {
    assert a[0] == a[..2][0] && a[1] == a[..2][1] && b[0] == b[..2][0] && b[1] == b[..2][1];
  }

  lemma InsertIsPermutation(r: seq<nat>, j: nat, x: nat)
    requires j <= |r|
    ensures multiset(r[..j] + [x] + r[j..]) == multiset(r) + multiset{x}
  {
    assert r == r[..j] + r[j..];
  }

  lemma InsertIsAscending(r: seq<nat>, j: nat, x: nat)
    requires Ascending(r) && j <= |r|
    requires (forall k :: 0 <= k < j ==> r[k] <= x) && (j < |r| ==> x < r[j])
    ensures Ascending(r[..j] + [x] + r[j..])
  {
    var out := r[..j] + [x] + r[j..];
    forall a, b | 0 <= a < b < |out| ensures out[a] <= out[b] {
      assert out[a] == if a < j then r[a] else if a == j then x else r[a - 1];
      assert out[b] == if b < j then r[b] else if b == j then x else r[b - 1];
    }
  }

  method Insert(r: seq<nat>, x: nat) returns (out: seq<nat>)
    requires Ascending(r)
    ensures Ascending(out) && multiset(out) == multiset(r) + multiset{x}
  {
    var j := 0;
    while j < |r| && r[j] <= x
      invariant 0 <= j <= |r| && forall k :: 0 <= k < j ==> r[k] <= x
    {
      j := j + 1;
    }
    out := r[..j] + [x] + r[j..];
    InsertIsPermutation(r, j, x);
    InsertIsAscending(r, j, x);
  }

  /** The sort of the wanted indices, one insertion at a time. */
  method SortAscending(s: seq<nat>) returns (r: seq<nat>)
    ensures Ascending(r) && multiset(r) == multiset(s)
  {
    r := [];
    for i := 0 to |s|
      invariant Ascending(r) && multiset(r) == multiset(s[..i])
    {
      r := Insert(r, s[i]);
      assert s[..i + 1] == s[..i] + [s[i]];
    }
    assert s[..|s|] == s;
  }

  /** Collapses runs of equal neighbours. */
  method Dedup(s: seq<nat>) returns (r: seq<nat>)
    requires Ascending(s)
    ensures Increasing(r) && forall k :: k in r <==> k in s
  {
    r := [];
    for i := 0 to |s|
      invariant Increasing(r) && (forall k :: k in r <==> k in s[..i])
      invariant i > 0 ==> r != [] && r[|r| - 1] == s[i - 1]
    {
      assert s[..i + 1] == s[..i] + [s[i]];
      if r == [] || r[|r| - 1] != s[i] {
        forall m | 0 <= m < |r| ensures r[m] < s[i] { assert r[m] in r && r[m] in s[..i]; }
        r := r + [s[i]];
      }
    }
    assert s[..|s|] == s;
  }

  /** `lock_batch` up to its acquisition loop: the stripe index of every id,
      sorted on the index and deduplicated. */
  method LockPlan(ids: seq<BlockId>, n: nat) returns (wanted: seq<nat>)
    requires n > 0
    ensures IsPlan(wanted, ids, n)
    ensures forall id :: id in ids ==> StripeOf(id, n) in wanted
  {
    var indices: seq<nat> := [];
    for i := 0 to |ids|
      invariant |indices| == i && forall k :: 0 <= k < i ==> indices[k] == StripeOf(ids[k], n)
    {
      indices := indices + [StripeOf(ids[i], n)];
    }
    var sorted := SortAscending(indices);
    wanted := Dedup(sorted);
    forall k ensures k in wanted <==> exists i :: 0 <= i < |ids| && StripeOf(ids[i], n) == k {
      assert k in sorted <==> k in multiset(sorted);
      assert k in indices <==> k in multiset(indices);
      if i :| 0 <= i < |ids| && StripeOf(ids[i], n) == k { assert indices[i] == k; }
    }
  }

  /** The plan is a property of the locks and not of the batch: two batches that
      need the same stripes take them in the same order. */
  lemma {:induction false} PlanIsUnique(p: seq<nat>, q: seq<nat>)
    requires Increasing(p) && Increasing(q) && forall k :: k in p <==> k in q
    ensures p == q
    decreases |p|
  {
    assert (p != [] ==> p[0] in q) && (q != [] ==> q[0] in p);
    if p != [] && q != [] {
      assert p == [p[0]] + p[1..] && q == [q[0]] + q[1..];
      assert p[0] !in p[1..] && q[0] !in q[1..];
      forall k ensures k in p[1..] <==> k in q[1..] {
        assert (k in p <==> k == p[0] || k in p[1..]) && (k in q <==> k == q[0] || k in q[1..]);
      }
      PlanIsUnique(p[1..], q[1..]);
    }
  }

  // ------------------------------------------------------------- deadlock

  type TaskId = nat

  /** A task is a list of critical sections still to run. Each takes the stripes
      of its plan in order, then the database writer lock, the leaf; a record
      transaction is a section with an empty plan. */
  datatype Task = Task(sections: seq<seq<nat>>, held: nat, inTx: bool, committed: bool)

  datatype Table = Table(stripes: map<nat, TaskId>, db: Option<TaskId>, tasks: map<TaskId, Task>)

  datatype Step = TakeStripe(t: TaskId) | TakeDb(t: TaskId) | Commit(t: TaskId) | Release(t: TaskId)

  predicate Unfinished(s: Table, t: TaskId) { t in s.tasks && s.tasks[t].sections != [] }

  predicate Wants(s: Table, t: TaskId) {
    Unfinished(s, t) && !s.tasks[t].committed && s.tasks[t].held < |s.tasks[t].sections[0]|
  }

  function Wanted(s: Table, t: TaskId): nat
    requires Wants(s, t)
  {
    s.tasks[t].sections[0][s.tasks[t].held]
  }

  predicate Enabled(s: Table, a: Step) {
    match a
    case TakeStripe(t) => Wants(s, t) && Wanted(s, t) !in s.stripes
    case TakeDb(t) =>
      Unfinished(s, t) && !s.tasks[t].committed && !s.tasks[t].inTx &&
      s.tasks[t].held == |s.tasks[t].sections[0]| && s.db.None?
    case Commit(t) => Unfinished(s, t) && s.tasks[t].inTx
    case Release(t) => Unfinished(s, t) && s.tasks[t].committed && !s.tasks[t].inTx
  }

  function Next(s: Table, a: Step): Table
    requires Enabled(s, a)
  {
    var x := s.tasks[a.t];
    match a
    case TakeStripe(t) =>
      s.(stripes := s.stripes[Wanted(s, t) := t], tasks := s.tasks[t := x.(held := x.held + 1)])
    case TakeDb(t) => s.(db := Some(t), tasks := s.tasks[t := x.(inTx := true)])
    case Commit(t) => s.(db := None, tasks := s.tasks[t := x.(inTx := false, committed := true)])
    case Release(t) =>
      s.(stripes := map k | k in s.stripes && s.stripes[k] != t :: s.stripes[k],
         tasks := s.tasks[t := Task(x.sections[1..], 0, false, false)])
  }

  /** Every plan still to run is in strict stripe order. */
  ghost predicate Planned(s: Table) {
    forall t, i :: t in s.tasks && 0 <= i < |s.tasks[t].sections| ==> Increasing(s.tasks[t].sections[i])
  }

  ghost predicate TaskInv(s: Table, t: TaskId)
    requires t in s.tasks
  {
    var x := s.tasks[t];
    && (x.sections == [] ==> x.held == 0 && !x.inTx && !x.committed)
    && (x.sections != [] ==> x.held <= |x.sections[0]|)
    && (x.inTx ==> s.db == Some(t) && !x.committed && x.held == |x.sections[0]|)
    && (x.committed ==> x.held == |x.sections[0]|)
  }

  /** Stripes and the writer lock are held by exactly the tasks that took them. */
  ghost predicate LockInv(s: Table) {
    && Planned(s)
    && (forall t :: t in s.tasks ==> TaskInv(s, t))
    && (s.db.Some? ==> s.db.value in s.tasks && s.tasks[s.db.value].inTx)
    && (forall k :: k in s.stripes ==>
          var t := s.stripes[k];
          t in s.tasks && s.tasks[t].sections != [] && s.tasks[t].held <= |s.tasks[t].sections[0]| &&
          k in s.tasks[t].sections[0][..s.tasks[t].held])
  }

  lemma StepKeepsLocks(s: Table, a: Step)
    requires LockInv(s) && Enabled(s, a)
    ensures LockInv(Next(s, a))
  {
    var s', x := Next(s, a), s.tasks[a.t];
    assert TaskInv(s, a.t);
    forall t, i | t in s'.tasks && 0 <= i < |s'.tasks[t].sections| ensures Increasing(s'.tasks[t].sections[i]) {
      if a.Release? && t == a.t { assert s'.tasks[t].sections[i] == x.sections[i + 1]; }
    }
    forall t | t in s'.tasks ensures TaskInv(s', t) {
      if t != a.t { assert TaskInv(s, t); }
    }
    if a.TakeStripe? {
      assert x.sections[0][..x.held + 1] == x.sections[0][..x.held] + [Wanted(s, a.t)];
    }
  }

  /** A stripe a task holds is below the one it waits for. */
  lemma HeldBelowWanted(s: Table, k: nat, t: TaskId)
    requires LockInv(s) && k in s.stripes && s.stripes[k] == t && Wants(s, t)
    ensures k < Wanted(s, t)
  {
    var x := s.tasks[t];
    var i :| 0 <= i < x.held && x.sections[0][i] == k;
  }

  /** Highest stripe any plan in the table could name, plus one. */
  ghost predicate Below(s: Table, n: nat) {
    forall t, i, j :: t in s.tasks && 0 <= i < |s.tasks[t].sections| && 0 <= j < |s.tasks[t].sections[i]| ==>
      s.tasks[t].sections[i][j] < n
  }

  /** Following the chain of holders from a waiting task ends at one that can
      move: each holder waits for a higher stripe. */
  lemma {:induction false} ChainEnds(s: Table, t: TaskId, n: nat) returns (a: Step)
    requires LockInv(s) && Below(s, n) && Unfinished(s, t)
    requires forall u :: Unfinished(s, u) ==> Wants(s, u)
    ensures Enabled(s, a)
    decreases n - Wanted(s, t)
  {
    var w := Wanted(s, t);
    if w !in s.stripes {
      a := TakeStripe(t);
    } else {
      var u := s.stripes[w];
      HeldBelowWanted(s, w, u);
      a := ChainEnds(s, u, n);
    }
  }

  /** No deadlock: with any number of tasks over any sections, every state with
      unfinished work has a step that can be taken. */
  lemma NoDeadlock(s: Table, n: nat) returns (a: Step)
    requires LockInv(s) && Below(s, n) && exists t :: Unfinished(s, t)
    ensures Enabled(s, a)
  {
    if t :| Unfinished(s, t) && s.tasks[t].inTx {
      a := Commit(t);
    } else if t :| Unfinished(s, t) && s.tasks[t].committed {
      a := Release(t);
    } else if t :| Unfinished(s, t) && !Wants(s, t) {
      assert TaskInv(s, t);
      a := TakeDb(t);
    } else {
      var t :| Unfinished(s, t);
      a := ChainEnds(s, t, n);
    }
  }

  // ------------------------------------------------------------ every run

  /** Tasks about to run, holding nothing. */
  ghost predicate Start(s: Table) {
    && s.stripes == map[] && s.db.None?
    && (forall t :: t in s.tasks ==> s.tasks[t] == Task(s.tasks[t].sections, 0, false, false))
  }

  ghost predicate IsRun(s: Table, run: seq<Step>)
    decreases |run|
  {
    run == [] || (Enabled(s, run[0]) && IsRun(Next(s, run[0]), run[1..]))
  }

  ghost function Exec(s: Table, run: seq<Step>): Table
    requires IsRun(s, run)
    decreases |run|
  {
    if run == [] then s else Exec(Next(s, run[0]), run[1..])
  }

  /** Steps the sections of one task take: one per stripe, then the writer lock,
      the commit and the release. */
  function SectionWork(sections: seq<seq<nat>>): nat {
    if sections == [] then 0 else |sections[0]| + 3 + SectionWork(sections[1..])
  }

  function TaskWork(x: Task): nat {
    var done := x.held + (if x.inTx then 1 else 0) + (if x.committed then 2 else 0);
    if done <= SectionWork(x.sections) then SectionWork(x.sections) - done else 0
  }

  function Weigh(): (TaskId, Task) -> nat { (t: TaskId, x: Task) => TaskWork(x) }

  /** Steps left over all tasks. */
  ghost function Work(tasks: map<TaskId, Task>): nat { SumOver(tasks, Weigh()) }

  /** Every step is one unit of work done. */
  lemma StepWorks(s: Table, a: Step)
    requires LockInv(s) && Enabled(s, a)
    ensures Work(Next(s, a).tasks) + 1 == Work(s.tasks)
  {
    var s' := Next(s, a);
    assert TaskInv(s, a.t);
    assert TaskWork(s'.tasks[a.t]) == TaskWork(s.tasks[a.t]) - 1;
    SumPut(s.tasks, Weigh(), a.t, s'.tasks[a.t]);
  }

  lemma StepKeepsBelow(s: Table, a: Step, n: nat)
    requires Enabled(s, a) && Below(s, n)
    ensures Below(Next(s, a), n)
  {
    var s' := Next(s, a);
    forall t, i, j | t in s'.tasks && 0 <= i < |s'.tasks[t].sections| && 0 <= j < |s'.tasks[t].sections[i]|
      ensures s'.tasks[t].sections[i][j] < n
    {
      if a.Release? && t == a.t { assert s'.tasks[t].sections[i] == s.tasks[t].sections[i + 1]; }
    }
  }

  lemma {:induction false} RunKeepsLocks(s: Table, run: seq<Step>, n: nat)
    requires LockInv(s) && Below(s, n) && IsRun(s, run)
    ensures LockInv(Exec(s, run)) && Below(Exec(s, run), n)
    ensures Work(Exec(s, run).tasks) + |run| == Work(s.tasks)
    decreases |run|
  {
    if run != [] {
      StepKeepsLocks(s, run[0]);
      StepKeepsBelow(s, run[0], n);
      StepWorks(s, run[0]);
      RunKeepsLocks(Next(s, run[0]), run[1..], n);
    }
  }

  /** Every section locks the plan of some batch of block ids: a whole batch for
      a close, a single id for one decrement or bump, none for a record
      transaction. */
  ghost predicate FromBatches(s: Table, n: nat)
    requires n > 0
  {
    forall t, i :: t in s.tasks && 0 <= i < |s.tasks[t].sections| ==>
      exists ids :: IsPlan(s.tasks[t].sections[i], ids, n)
  }

  lemma BatchesArePlanned(s: Table, n: nat)
    requires n > 0 && FromBatches(s, n)
    ensures Planned(s) && Below(s, n)
  {
    forall t, i, j | t in s.tasks && 0 <= i < |s.tasks[t].sections| && 0 <= j < |s.tasks[t].sections[i]|
      ensures s.tasks[t].sections[i][j] < n
    {
      var ids :| IsPlan(s.tasks[t].sections[i], ids, n);
      assert s.tasks[t].sections[i][j] in s.tasks[t].sections[i];
    }
  }

  /** From any number of tasks over any batches, colliding ids and repeated ids
      included, in every state of every interleaving: work is left exactly when some
      task can move, and each move is one of a number fixed at the start, so every
      schedule that keeps moving finishes every task. */
  lemma EveryScheduleFinishes(s: Table, run: seq<Step>, n: nat)
    requires n > 0 && Start(s) && FromBatches(s, n) && IsRun(s, run)
    ensures (exists t :: Unfinished(Exec(s, run), t)) <==> (exists a :: Enabled(Exec(s, run), a))
    ensures |run| <= Work(s.tasks)
  {
    BatchesArePlanned(s, n);
    RunKeepsLocks(s, run, n);
    if exists t :: Unfinished(Exec(s, run), t) {
      var a := NoDeadlock(Exec(s, run), n);
    }
    if a :| Enabled(Exec(s, run), a) {
      assert Unfinished(Exec(s, run), a.t);
    }
  }

  // ------------------------------------- without the sort, without the dedup

  /** Two tasks that name the same two stripes in opposite orders. */
  function Crossed(a: nat, b: nat): Table {
    Table(map[], None, map[0 := Task([[a, b]], 0, false, false), 1 := Task([[b, a]], 0, false, false)])
  }

  /** Whatever the two stripes are, taking them in the order a batch happens to
      name them reaches a state in which neither task can ever move. */
  lemma UnsortedPlansDeadlock(a: nat, b: nat)
    requires a != b
    ensures var run := [TakeStripe(0), TakeStripe(1)];
            && Start(Crossed(a, b)) && IsRun(Crossed(a, b), run)
            && Unfinished(Exec(Crossed(a, b), run), 0) && Unfinished(Exec(Crossed(a, b), run), 1)
            && forall x :: !Enabled(Exec(Crossed(a, b), run), x)
  {
    var s0 := Crossed(a, b);
    var s1 := Next(s0, TakeStripe(0));
    var s2 := Next(s1, TakeStripe(1));
    var run := [TakeStripe(0), TakeStripe(1)];
    assert run[1..] == [TakeStripe(1)] && run[1..][1..] == [];
    assert IsRun(s1, run[1..]);
    assert Exec(s0, run) == s2;
  }

  /** A batch that names one stripe twice and is not deduplicated waits for
      itself. */
  lemma RepeatedStripeDeadlocks(a: nat)
    ensures var s := Table(map[], None, map[0 := Task([[a, a]], 0, false, false)]);
            var run := [TakeStripe(0)];
            Start(s) && IsRun(s, run) && Unfinished(Exec(s, run), 0) && forall x :: !Enabled(Exec(s, run), x)
  {
    var s := Table(map[], None, map[0 := Task([[a, a]], 0, false, false)]);
    var run := [TakeStripe(0)];
    assert run[1..] == [];
    assert Exec(s, run) == Next(s, TakeStripe(0));
  }
}

/**
 * The workflow agent (backend/agents/workflow_agent.py): merges tasks by
 * name, attaches deadlines, and sorts the result stably by priority rank and
 * then due date, a missing due date counting as latest.
 *
 * Due dates are opaque ordered instants (`nat`); `None` plays `datetime.max`.
 */
module WorkflowAgent {
  import opened Wrappers

  /** A task dict; `None` is a missing `duration` / `priority` key. */
  datatype TaskSpec = TaskSpec(name: string, duration: Option<string>, priority: Option<string>)

  /** A deadline dict. */
  datatype DeadlineSpec = DeadlineSpec(taskName: string, dueDate: Option<nat>)

  /** One entry of the returned schedule. */
  datatype Scheduled = Scheduled(task: string, duration: string, priority: string, dueDate: Option<nat>, slot: string)

  datatype Schedule = Schedule(schedule: seq<Scheduled>, totalTasks: nat, recommendations: seq<string>)

  // ---------------------------------------------------------------------------
  // `{t["name"]: t for t in tasks}`: insertion-ordered, a later task with the
  // same name replaces the value but keeps the first position.
  // ---------------------------------------------------------------------------

  /** The first position holding `name`. */
  function IndexOfName(ts: seq<TaskSpec>, name: string): (r: Option<nat>)
    ensures r.Some? ==> r.value < |ts| && ts[r.value].name == name
    ensures r.Some? ==> forall k :: 0 <= k < r.value ==> ts[k].name != name
    ensures r.None? ==> forall k :: 0 <= k < |ts| ==> ts[k].name != name
  {
    if ts == [] then None
    else if ts[0].name == name then Some(0)
    else match IndexOfName(ts[1..], name)
      case None => None
      case Some(k) => Some(k + 1)
  }

  function Upsert(d: seq<TaskSpec>, t: TaskSpec): (r: seq<TaskSpec>) {
    match IndexOfName(d, t.name)
    case Some(k) => d[k := t]
    case None => d + [t]
  }

  function TaskDict(tasks: seq<TaskSpec>): seq<TaskSpec> {
    if tasks == [] then [] else Upsert(TaskDict(tasks[..|tasks| - 1]), tasks[|tasks| - 1])
  }

  ghost predicate NamesDistinct(d: seq<TaskSpec>) {
    forall i, j :: 0 <= i < j < |d| ==> d[i].name != d[j].name
  }

  /** The last position holding `name`. */
  function LastIndexOfName(ts: seq<TaskSpec>, name: string): (r: Option<nat>)
    ensures r.Some? ==> r.value < |ts| && ts[r.value].name == name
    ensures r.Some? ==> forall k :: r.value < k < |ts| ==> ts[k].name != name
    ensures r.None? <==> IndexOfName(ts, name).None?
  {
    if ts == [] then None
    else if ts[|ts| - 1].name == name then Some(|ts| - 1)
    else
      var r := LastIndexOfName(ts[..|ts| - 1], name);
      assert IndexOfName(ts, name).None? <==> r.None? by {
        if IndexOfName(ts, name).Some? {
          var i := IndexOfName(ts, name).value;
          assert ts[..|ts| - 1][i].name == name;
        }
        if r.Some? {
          assert ts[r.value].name == name;
        }
      }
      r
  }

  /** Appending a task does not move the first occurrence of a name already present. */
  lemma {:induction false} IndexOfNameAppend(ts: seq<TaskSpec>, t: TaskSpec, name: string)
    ensures IndexOfName(ts, name).Some? ==> IndexOfName(ts + [t], name) == IndexOfName(ts, name)
    ensures IndexOfName(ts, name).None? && t.name == name ==> IndexOfName(ts + [t], name) == Some(|ts|)
    ensures IndexOfName(ts, name).None? && t.name != name ==> IndexOfName(ts + [t], name).None?
  {
    if ts != [] {
      assert (ts + [t])[1..] == ts[1..] + [t];
      IndexOfNameAppend(ts[1..], t, name);
    }
  }

  /** Two lists with the same names position by position find every name at the same place. */
  lemma {:induction false} IndexOfSameNames(a: seq<TaskSpec>, b: seq<TaskSpec>, name: string)
    requires |a| == |b| && forall k :: 0 <= k < |a| ==> a[k].name == b[k].name
    ensures IndexOfName(a, name) == IndexOfName(b, name)
  {
    if a != [] {
      IndexOfSameNames(a[1..], b[1..], name);
    }
  }

  /** The keys of the comprehension: each name once, exactly the names of the tasks. */
  lemma {:induction false} TaskDictNames(tasks: seq<TaskSpec>)
    ensures NamesDistinct(TaskDict(tasks))
    ensures forall n :: IndexOfName(TaskDict(tasks), n).Some? <==> IndexOfName(tasks, n).Some?
  {
    if tasks != [] {
      var init, t := tasks[..|tasks| - 1], tasks[|tasks| - 1];
      assert tasks == init + [t];
      TaskDictNames(init);
      var d := TaskDict(init);
      var r := TaskDict(tasks);
      match IndexOfName(d, t.name)
      case Some(p) =>
        assert r == d[p := t];
        forall n
          ensures IndexOfName(r, n).Some? <==> IndexOfName(tasks, n).Some?
        {
          IndexOfSameNames(r, d, n);
          IndexOfNameAppend(init, t, n);
        }
      case None =>
        assert r == d + [t];
        forall n
          ensures IndexOfName(r, n).Some? <==> IndexOfName(tasks, n).Some?
        {
          IndexOfNameAppend(d, t, n);
          IndexOfNameAppend(init, t, n);
        }
    }
  }

  /** Each value is the last task of its name. */
  lemma {:induction false} TaskDictValues(tasks: seq<TaskSpec>)
    ensures forall k :: 0 <= k < |TaskDict(tasks)| ==>
              var d := TaskDict(tasks);
              LastIndexOfName(tasks, d[k].name).Some? && tasks[LastIndexOfName(tasks, d[k].name).value] == d[k]
  {
    if tasks != [] {
      var init, t := tasks[..|tasks| - 1], tasks[|tasks| - 1];
      TaskDictValues(init);
      TaskDictNames(init);
      var d := TaskDict(init);
      var r := TaskDict(tasks);
      forall k | 0 <= k < |r|
        ensures LastIndexOfName(tasks, r[k].name).Some? && tasks[LastIndexOfName(tasks, r[k].name).value] == r[k]
      {
        match IndexOfName(d, t.name)
        case Some(p) =>
          if k == p {
            assert r[k] == t;
          } else {
            assert r[k] == d[k] && d[k].name != d[p].name;
          }
        case None =>
          if k == |d| {
            assert r[k] == t;
          } else {
            assert r[k] == d[k];
          }
      }
    }
  }

  /** The keys appear in the order of their first occurrence among the tasks. */
  lemma {:induction false} TaskDictOrder(tasks: seq<TaskSpec>)
    ensures forall k1, k2 :: 0 <= k1 < k2 < |TaskDict(tasks)| ==>
              var d := TaskDict(tasks);
              IndexOfName(tasks, d[k1].name).Some? && IndexOfName(tasks, d[k2].name).Some? &&
              IndexOfName(tasks, d[k1].name).value < IndexOfName(tasks, d[k2].name).value
  {
    if tasks != [] {
      var init, t := tasks[..|tasks| - 1], tasks[|tasks| - 1];
      assert tasks == init + [t];
      TaskDictOrder(init);
      TaskDictNames(init);
      TaskDictNames(tasks);
      var d := TaskDict(init);
      var r := TaskDict(tasks);
      forall k | 0 <= k < |d|
        ensures IndexOfName(init, d[k].name).Some?
        ensures IndexOfName(tasks, d[k].name) == IndexOfName(init, d[k].name)
      {
        assert IndexOfName(d, d[k].name).Some?;
        IndexOfNameAppend(init, t, d[k].name);
      }
      forall k1, k2 | 0 <= k1 < k2 < |r|
        ensures IndexOfName(tasks, r[k1].name).Some? && IndexOfName(tasks, r[k2].name).Some?
        ensures IndexOfName(tasks, r[k1].name).value < IndexOfName(tasks, r[k2].name).value
      {
        match IndexOfName(d, t.name)
        case Some(p) =>
          assert r == d[p := t];
          assert r[k1].name == d[k1].name && r[k2].name == d[k2].name;
        case None =>
          assert r == d + [t];
          assert r[k1] == d[k1];
          if k2 == |d| {
            IndexOfNameAppend(init, t, t.name);
          } else {
            assert r[k2] == d[k2];
          }
      }
    }
  }

  // ---------------------------------------------------------------------------
  // `{d["task_name"]: d["due_date"] for d in deadlines}`: the last one wins.
  // ---------------------------------------------------------------------------

  /** The last position holding a deadline for `name`. */
  function LastDeadlineIndex(ds: seq<DeadlineSpec>, name: string): (r: Option<nat>)
    ensures r.Some? ==> r.value < |ds| && ds[r.value].taskName == name
    ensures r.Some? ==> forall k :: r.value < k < |ds| ==> ds[k].taskName != name
    ensures r.None? ==> forall k :: 0 <= k < |ds| ==> ds[k].taskName != name
  {
    if ds == [] then None
    else if ds[|ds| - 1].taskName == name then Some(|ds| - 1)
    else LastDeadlineIndex(ds[..|ds| - 1], name)
  }

  function DeadlineDict(ds: seq<DeadlineSpec>): map<string, Option<nat>> {
    if ds == [] then map[]
    else DeadlineDict(ds[..|ds| - 1])[ds[|ds| - 1].taskName := ds[|ds| - 1].dueDate]
  }

  /** Every named task has an entry, holding the due date of its last deadline. */
  lemma {:induction false} DeadlineDictLastWins(ds: seq<DeadlineSpec>, name: string)
    ensures name in DeadlineDict(ds) <==> LastDeadlineIndex(ds, name).Some?
    ensures name in DeadlineDict(ds) ==> DeadlineDict(ds)[name] == ds[LastDeadlineIndex(ds, name).value].dueDate
  {
    if ds != [] {
      DeadlineDictLastWins(ds[..|ds| - 1], name);
    }
  }

  /** `deadline_dict.get(name)`: the last deadline's due date, `None` without one. */
  function DueDateFor(m: map<string, Option<nat>>, name: string): Option<nat> {
    if name in m then m[name] else None
  }

  // ---------------------------------------------------------------------------
  // The entries and their sort key.
  // ---------------------------------------------------------------------------

  /** `{"high": 0, "medium": 1, "low": 2}.get(priority, 1)`. */
  function PriorityRank(p: string): (r: nat)
    ensures r <= 2
    ensures r == 0 <==> p == "high"
  {
    if p == "high" then 0 else if p == "low" then 2 else 1
  }

  function Entry(t: TaskSpec, m: map<string, Option<nat>>): (e: Scheduled)
    ensures e.slot == "Morning" <==> e.priority == "high"
  {
    var priority := t.priority.GetOr("medium");
    Scheduled(t.name, t.duration.GetOr("1 hour"), priority, DueDateFor(m, t.name),
              if t.priority == Some("high") then "Morning" else "Afternoon")
  }

  function Entries(d: seq<TaskSpec>, m: map<string, Option<nat>>): (es: seq<Scheduled>)
    ensures |es| == |d|
    ensures forall k :: 0 <= k < |d| ==> es[k] == Entry(d[k], m)
  {
    seq(|d|, k requires 0 <= k < |d| => Entry(d[k], m))
  }

  /** The sort key `(rank, due_date or datetime.max)`. */
  datatype Key = Key(rank: nat, due: Option<nat>)

  function KeyOf(e: Scheduled): Key {
    Key(PriorityRank(e.priority), e.dueDate)
  }

  /** Tuple order; a missing due date is later than every present one. */
  predicate KeyLess(a: Key, b: Key) {
    || a.rank < b.rank
    || (a.rank == b.rank && a.due.Some? && (b.due.None? || a.due.value < b.due.value))
  }

  ghost predicate Sorted(s: seq<Scheduled>) {
    forall i, j :: 0 <= i < j < |s| ==> !KeyLess(KeyOf(s[j]), KeyOf(s[i]))
  }

  /** The entries whose key is `k`, in order. */
  function WithKey(s: seq<Scheduled>, k: Key): (r: seq<Scheduled>)
    ensures forall i :: 0 <= i < |r| ==> KeyOf(r[i]) == k
  {
    if s == [] then []
    else (if KeyOf(s[0]) == k then [s[0]] else []) + WithKey(s[1..], k)
  }

  lemma {:induction false} WithKeyAppend(a: seq<Scheduled>, b: seq<Scheduled>, k: Key)
    ensures WithKey(a + b, k) == WithKey(a, k) + WithKey(b, k)
  {
    if a == [] {
      assert a + b == b;
    } else {
      assert (a + b)[0] == a[0];
      assert (a + b)[1..] == a[1..] + b;
      WithKeyAppend(a[1..], b, k);
    }
  }

  /** Python's `list.sort` is stable: insert after every entry whose key is not larger. */
  function InsertStable(s: seq<Scheduled>, x: Scheduled): (r: seq<Scheduled>)
    ensures |r| == |s| + 1
    ensures multiset(r) == multiset(s) + multiset{x}
  {
    if s == [] then [x]
    else if KeyLess(KeyOf(x), KeyOf(s[0])) then [x] + s
    else
      assert s == [s[0]] + s[1..];
      [s[0]] + InsertStable(s[1..], x)
  }

  function SortStable(s: seq<Scheduled>): (r: seq<Scheduled>)
    ensures |r| == |s|
    ensures multiset(r) == multiset(s)
  {
    if s == [] then []
    else
      assert s == s[..|s| - 1] + [s[|s| - 1]];
      InsertStable(SortStable(s[..|s| - 1]), s[|s| - 1])
  }

  /** Every entry of `InsertStable(s, x)` is `x` or an entry of `s`. */
  lemma InsertStableMembers(s: seq<Scheduled>, x: Scheduled, j: nat)
    requires j < |InsertStable(s, x)|
    ensures InsertStable(s, x)[j] == x || InsertStable(s, x)[j] in s
  {
    var y := InsertStable(s, x)[j];
    assert y in multiset(InsertStable(s, x));
  }

  lemma {:induction false} InsertStableSorted(s: seq<Scheduled>, x: Scheduled)
    requires Sorted(s)
    ensures Sorted(InsertStable(s, x))
  {
    if s != [] && !KeyLess(KeyOf(x), KeyOf(s[0])) {
      var rest := InsertStable(s[1..], x);
      InsertStableSorted(s[1..], x);
      forall j | 0 <= j < |rest|
        ensures !KeyLess(KeyOf(rest[j]), KeyOf(s[0]))
      {
        InsertStableMembers(s[1..], x, j);
        if rest[j] != x {
          var i :| 0 <= i < |s[1..]| && s[1..][i] == rest[j];
          assert s[i + 1] == rest[j];
        }
      }
      assert InsertStable(s, x) == [s[0]] + rest;
    }
  }

  /** In a sorted list whose head key exceeds `k`, no entry has key `k`. */
  lemma {:induction false} NoneWithSmallerKey(s: seq<Scheduled>, k: Key)
    requires Sorted(s)
    requires s != [] ==> KeyLess(k, KeyOf(s[0]))
    ensures WithKey(s, k) == []
  {
    if s != [] {
      if |s| > 1 {
        assert !KeyLess(KeyOf(s[1]), KeyOf(s[0]));
      }
      NoneWithSmallerKey(s[1..], k);
    }
  }

  /** Inserting `x` adds it after every entry with the same key. */
  lemma {:induction false} InsertStableWithKey(s: seq<Scheduled>, x: Scheduled, k: Key)
    requires Sorted(s)
    ensures WithKey(InsertStable(s, x), k) == WithKey(s, k) + (if KeyOf(x) == k then [x] else [])
  {
    if s == [] {
      WithKeySingle(x, k);
    } else if KeyLess(KeyOf(x), KeyOf(s[0])) {
      InsertFrontWithKey(s, x, k);
    } else {
      SortedTail(s);
      InsertStableWithKey(s[1..], x, k);
      InsertBehindHeadWithKey(s, x, k);
    }
  }

  /** `x` goes first: it is the last entry with its key because every key of `s` is larger. */
  lemma InsertFrontWithKey(s: seq<Scheduled>, x: Scheduled, k: Key)
    requires Sorted(s) && s != [] && KeyLess(KeyOf(x), KeyOf(s[0]))
    ensures WithKey(InsertStable(s, x), k) == WithKey(s, k) + (if KeyOf(x) == k then [x] else [])
  {
    assert InsertStable(s, x) == [x] + s;
    WithKeyAppend([x], s, k);
    WithKeySingle(x, k);
    if KeyOf(x) == k {
      NoneWithSmallerKey(s, k);
    }
  }

  /** `x` goes behind the head: the head's contribution comes first on both sides. */
  lemma InsertBehindHeadWithKey(s: seq<Scheduled>, x: Scheduled, k: Key)
    requires s != [] && !KeyLess(KeyOf(x), KeyOf(s[0]))
    requires WithKey(InsertStable(s[1..], x), k) == WithKey(s[1..], k) + (if KeyOf(x) == k then [x] else [])
    ensures WithKey(InsertStable(s, x), k) == WithKey(s, k) + (if KeyOf(x) == k then [x] else [])
  {
    assert InsertStable(s, x) == [s[0]] + InsertStable(s[1..], x);
    assert s == [s[0]] + s[1..];
    ConsWithKey(s[0], InsertStable(s[1..], x), s[1..], if KeyOf(x) == k then [x] else [], k);
  }

  /** Putting the same entry in front of two lists keeps a relation between their key-`k` entries. */
  lemma ConsWithKey(h: Scheduled, a: seq<Scheduled>, b: seq<Scheduled>, extra: seq<Scheduled>, k: Key)
    requires WithKey(a, k) == WithKey(b, k) + extra
    ensures WithKey([h] + a, k) == WithKey([h] + b, k) + extra
  {
    WithKeyAppend([h], a, k);
    WithKeyAppend([h], b, k);
    AppendAssoc(WithKey([h], k), WithKey(b, k), extra);
  }

  lemma AppendAssoc<T>(a: seq<T>, b: seq<T>, c: seq<T>)
    ensures a + (b + c) == (a + b) + c
  {
  }

  lemma WithKeySingle(x: Scheduled, k: Key)
    ensures WithKey([x], k) == (if KeyOf(x) == k then [x] else [])
  {
    assert [x][1..] == [];
  }

  lemma SortedTail(s: seq<Scheduled>)
    requires s != [] && Sorted(s)
    ensures Sorted(s[1..])
  {
    forall i, j | 0 <= i < j < |s| - 1
      ensures !KeyLess(KeyOf(s[1..][j]), KeyOf(s[1..][i]))
    {
      assert s[1..][i] == s[i + 1] && s[1..][j] == s[j + 1];
    }
  }

  lemma {:induction false} SortStableSorted(s: seq<Scheduled>)
    ensures Sorted(SortStable(s))
  {
    if s != [] {
      SortStableSorted(s[..|s| - 1]);
      InsertStableSorted(SortStable(s[..|s| - 1]), s[|s| - 1]);
    }
  }

  /** Sorting keeps, for every key, the entries carrying it in their original order. */
  lemma {:induction false} SortStableWithKey(s: seq<Scheduled>, k: Key)
    ensures WithKey(SortStable(s), k) == WithKey(s, k)
  {
    if s != [] {
      var init, last := s[..|s| - 1], s[|s| - 1];
      assert s == init + [last];
      var sortedInit := SortStable(init);
      assert SortStable(s) == InsertStable(sortedInit, last);
      SortStableSorted(init);
      SortStableWithKey(init, k);
      InsertStableWithKey(sortedInit, last, k);
      WithKeyAppend(init, [last], k);
      assert WithKey([last], k) == (if KeyOf(last) == k then [last] else []) by {
        assert [last][1..] == [];
      }
    }
  }

  /**
   * The stable sort: sorted by key, and for every key the entries carrying
   * it appear in their original order.
   */
  lemma SortStableCorrect(s: seq<Scheduled>)
    ensures Sorted(SortStable(s))
    ensures forall k :: WithKey(SortStable(s), k) == WithKey(s, k)
  {
    SortStableSorted(s);
    forall k
      ensures WithKey(SortStable(s), k) == WithKey(s, k)
    {
      SortStableWithKey(s, k);
    }
  }

  const Recommendations: seq<string> := [
    "Schedule high-priority tasks in the morning",
    "Include breaks between tasks",
    "Allocate buffer time for unexpected work"
  ]

  /** `optimize_schedule(tasks, deadlines)`. */
  function OptimizeSchedule(tasks: seq<TaskSpec>, deadlines: seq<DeadlineSpec>): (r: Schedule)
    ensures var es := Entries(TaskDict(tasks), DeadlineDict(deadlines));
            && r.totalTasks == |r.schedule| == |TaskDict(tasks)| <= |tasks|
            && Sorted(r.schedule)
            && multiset(r.schedule) == multiset(es)
            && (forall k :: WithKey(r.schedule, k) == WithKey(es, k))
    ensures forall i :: 0 <= i < |r.schedule| ==> (r.schedule[i].slot == "Morning" <==> r.schedule[i].priority == "high")
    ensures r.recommendations == Recommendations
  {
    var d := TaskDict(tasks);
    var es := Entries(d, DeadlineDict(deadlines));
    SortStableCorrect(es);
    TaskDictSize(tasks);
    var sorted := SortStable(es);
    forall i | 0 <= i < |sorted|
      ensures sorted[i].slot == "Morning" <==> sorted[i].priority == "high"
    {
      assert sorted[i] in multiset(es);
    }
    Schedule(sorted, |sorted|, Recommendations)
  }

  lemma {:induction false} TaskDictSize(tasks: seq<TaskSpec>)
    ensures |TaskDict(tasks)| <= |tasks|
  {
    if tasks != [] {
      TaskDictSize(tasks[..|tasks| - 1]);
    }
  }

  /** Every schedule entry is the entry of some dict key. */
  lemma EntryOfSomeKey(tasks: seq<TaskSpec>, deadlines: seq<DeadlineSpec>, j: nat)
    requires j < |OptimizeSchedule(tasks, deadlines).schedule|
    ensures exists k :: 0 <= k < |TaskDict(tasks)| &&
              OptimizeSchedule(tasks, deadlines).schedule[j] == Entry(TaskDict(tasks)[k], DeadlineDict(deadlines))
  {
    var es := Entries(TaskDict(tasks), DeadlineDict(deadlines));
    var sched := OptimizeSchedule(tasks, deadlines).schedule;
    assert sched[j] in multiset(es);
    var k :| 0 <= k < |es| && es[k] == sched[j];
  }

  /** Every task's name gets an entry. */
  lemma ScheduleCoversTasks(tasks: seq<TaskSpec>, deadlines: seq<DeadlineSpec>, i: nat)
    requires i < |tasks|
    ensures var sched := OptimizeSchedule(tasks, deadlines).schedule;
            exists j :: 0 <= j < |sched| && sched[j].task == tasks[i].name
  {
    var d := TaskDict(tasks);
    var es := Entries(d, DeadlineDict(deadlines));
    var sched := OptimizeSchedule(tasks, deadlines).schedule;
    TaskDictNames(tasks);
    assert IndexOfName(tasks, tasks[i].name).Some?;
    var k := IndexOfName(d, tasks[i].name).value;
    assert es[k] in multiset(sched);
    var j :| 0 <= j < |sched| && sched[j] == es[k];
  }

  /** No name gets two entries. */
  lemma ScheduleNamesDistinct(tasks: seq<TaskSpec>, deadlines: seq<DeadlineSpec>, j1: nat, j2: nat)
    requires j1 < j2 < |OptimizeSchedule(tasks, deadlines).schedule|
    ensures OptimizeSchedule(tasks, deadlines).schedule[j1].task != OptimizeSchedule(tasks, deadlines).schedule[j2].task
  {
    var d := TaskDict(tasks);
    var m := DeadlineDict(deadlines);
    var es := Entries(d, m);
    var sched := OptimizeSchedule(tasks, deadlines).schedule;
    TaskDictNames(tasks);
    EntryOfSomeKey(tasks, deadlines, j1);
    EntryOfSomeKey(tasks, deadlines, j2);
    var k1 :| 0 <= k1 < |d| && sched[j1] == Entry(d[k1], m);
    var k2 :| 0 <= k2 < |d| && sched[j2] == Entry(d[k2], m);
    EntriesDistinct(d, m);
    PermutationOfDistinct(sched, es, j1, j2);
    assert k1 != k2;
  }

  /** The fields of an entry: those of the last task of its name, and the due date of the last deadline naming it. */
  lemma ScheduleEntryFields(tasks: seq<TaskSpec>, deadlines: seq<DeadlineSpec>, j: nat)
    requires j < |OptimizeSchedule(tasks, deadlines).schedule|
    ensures var e := OptimizeSchedule(tasks, deadlines).schedule[j];
            && LastIndexOfName(tasks, e.task).Some?
            && var t := tasks[LastIndexOfName(tasks, e.task).value];
            && e.duration == t.duration.GetOr("1 hour")
            && e.priority == t.priority.GetOr("medium")
            && e.dueDate == (match LastDeadlineIndex(deadlines, t.name)
                             case None => None
                             case Some(x) => deadlines[x].dueDate)
  {
    var d := TaskDict(tasks);
    var m := DeadlineDict(deadlines);
    TaskDictValues(tasks);
    EntryOfSomeKey(tasks, deadlines, j);
    var k :| 0 <= k < |d| && OptimizeSchedule(tasks, deadlines).schedule[j] == Entry(d[k], m);
    DeadlineDictLastWins(deadlines, d[k].name);
  }

  /** Distinct dict keys give distinct entries. */
  lemma EntriesDistinct(d: seq<TaskSpec>, m: map<string, Option<nat>>)
    requires NamesDistinct(d)
    ensures forall k1, k2 :: 0 <= k1 < k2 < |d| ==> Entries(d, m)[k1] != Entries(d, m)[k2]
  {
  }

  /** Two equal entries at different positions occur at least twice. */
  lemma RepeatCountsTwice<T>(a: seq<T>, j1: nat, j2: nat)
    requires j1 < j2 < |a|
    ensures a[j1] == a[j2] ==> multiset(a)[a[j1]] >= 2
  {
    if a[j1] == a[j2] {
      var x := a[j1];
      var rest := a[..j1] + a[j1 + 1..];
      assert a == a[..j1] + [x] + a[j1 + 1..];
      assert rest[j2 - 1] == a[j2];
      assert x in rest;
      assert multiset(a) == multiset(rest) + multiset{x};
    }
  }

  /** A permutation of a list without repeats has no repeats either. */
  lemma PermutationOfDistinct<T>(a: seq<T>, b: seq<T>, j1: nat, j2: nat)
    requires multiset(a) == multiset(b)
    requires forall k1, k2 :: 0 <= k1 < k2 < |b| ==> b[k1] != b[k2]
    requires j1 < j2 < |a|
    ensures a[j1] != a[j2]
  {
    RepeatCountsTwice(a, j1, j2);
    DistinctCountAtMostOne(b, a[j1]);
  }

  lemma {:induction false} DistinctCountAtMostOne<T>(b: seq<T>, x: T)
    requires forall k1, k2 :: 0 <= k1 < k2 < |b| ==> b[k1] != b[k2]
    ensures multiset(b)[x] <= 1
  {
    if b != [] {
      DistinctCountAtMostOne(b[1..], x);
      assert b == [b[0]] + b[1..];
      if b[0] == x {
        assert x !in b[1..];
        assert multiset(b[1..])[x] == 0;
      }
    }
  }

  /** The fixed request the scheduling handler sends. */
  const HandlerTasks: seq<TaskSpec> := [
    TaskSpec("Task 1", Some("2 hours"), Some("high")),
    TaskSpec("Task 2", Some("1 hour"), Some("medium"))
  ]
  const HandlerDeadlines: seq<DeadlineSpec> := [DeadlineSpec("Task 1", None), DeadlineSpec("Task 2", None)]
}

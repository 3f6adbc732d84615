/**
  The pure queries over the task store: the status filter and the sort on
  priority value that list_tasks applies, and the per-status counts that
  get_statistics reports. Python's `sorted` is stable, so the sort here is a
  stable insertion sort: tasks of equal priority keep the store's order.
 */
module Listing {
  import opened TaskModel

  /** The stored tasks in the store's iteration order, which is the insertion order of their ids. */
  function Lookup(keys: seq<string>, m: map<string, Task>): seq<Task>
    requires forall k :: k in keys ==> k in m
  {
    seq(|keys|, i requires 0 <= i < |keys| => m[keys[i]])
  }

  /** The tasks listed by Lookup over keys that cover m are exactly the values of m. */
  lemma LookupMembers(keys: seq<string>, m: map<string, Task>)
    requires forall k :: k in keys <==> k in m
    ensures forall t :: t in Lookup(keys, m) <==> t in m.Values
  {
    var s := Lookup(keys, m);
    forall t | t in m.Values ensures t in s {
      var k :| k in m && m[k] == t;
      var i :| 0 <= i < |keys| && keys[i] == k;
      assert s[i] == t;
    }
  }

  /** The optional status filter of list_tasks: no status keeps every task. */
  predicate Matches(t: Task, status: Option<TaskStatus>)
  {
    status.None? || t.status == status.value
  }

  /** The tasks of s that pass the status filter, in order. */
  function Select(s: seq<Task>, status: Option<TaskStatus>): seq<Task>
  {
    if s == [] then []
    else (if Matches(s[0], status) then [s[0]] else []) + Select(s[1..], status)
  }

  /** The tasks of s with priority p, in order. */
  function WithPriority(s: seq<Task>, p: TaskPriority): seq<Task>
  {
    if s == [] then []
    else (if s[0].priority == p then [s[0]] else []) + WithPriority(s[1..], p)
  }

  /** Non-decreasing by priority value: HIGH tasks first, LOW tasks last. */
  ghost predicate SortedByPriority(s: seq<Task>)
  {
    forall i, j :: 0 <= i < j < |s| ==> PriorityValue(s[i].priority) <= PriorityValue(s[j].priority)
  }

  /** Inserts t after every task whose priority value is at most t's. */
  function Insert(r: seq<Task>, t: Task): (o: seq<Task>)
    ensures multiset(o) == multiset(r) + multiset{t}
  {
    if r == [] || PriorityValue(r[|r| - 1].priority) <= PriorityValue(t.priority) then r + [t]
    else
      assert r == r[..|r| - 1] + [r[|r| - 1]];
      Insert(r[..|r| - 1], t) + [r[|r| - 1]]
  }

  /** Every task of s has priority value at most v. */
  ghost predicate AtMost(s: seq<Task>, v: nat)
  {
    forall i :: 0 <= i < |s| ==> PriorityValue(s[i].priority) <= v
  }

  lemma {:induction false} InsertAtMost(r: seq<Task>, t: Task, v: nat)
    requires AtMost(r, v) && PriorityValue(t.priority) <= v
    ensures AtMost(Insert(r, t), v)
  {
    if r != [] && PriorityValue(r[|r| - 1].priority) > PriorityValue(t.priority) {
      InsertAtMost(r[..|r| - 1], t, v);
    }
  }

  /** Inserting into a sorted sequence keeps it sorted. */
  lemma {:induction false} InsertKeepsSorted(r: seq<Task>, t: Task)
    requires SortedByPriority(r)
    ensures SortedByPriority(Insert(r, t))
  {
    if r != [] && PriorityValue(r[|r| - 1].priority) > PriorityValue(t.priority) {
      var init, last := r[..|r| - 1], r[|r| - 1];
      InsertKeepsSorted(init, t);
      InsertAtMost(init, t, PriorityValue(last.priority));
    }
  }

  /** The `sorted(tasks, key=priority.value)` of list_tasks. */
  function SortByPriority(s: seq<Task>): (o: seq<Task>)
    ensures multiset(o) == multiset(s)
    ensures SortedByPriority(o)
  {
    if s == [] then []
    else
      assert s == s[..|s| - 1] + [s[|s| - 1]];
      InsertKeepsSorted(SortByPriority(s[..|s| - 1]), s[|s| - 1]);
      Insert(SortByPriority(s[..|s| - 1]), s[|s| - 1])
  }

  lemma {:induction false} SelectConcat(a: seq<Task>, b: seq<Task>, status: Option<TaskStatus>)
    ensures Select(a + b, status) == Select(a, status) + Select(b, status)
  {
    if a != [] {
      SelectConcat(a[1..], b, status);
      assert (a + b)[1..] == a[1..] + b;
    } else {
      assert a + b == b;
    }
  }

  lemma {:induction false} WithPriorityConcat(a: seq<Task>, b: seq<Task>, p: TaskPriority)
    ensures WithPriority(a + b, p) == WithPriority(a, p) + WithPriority(b, p)
  {
    if a != [] {
      WithPriorityConcat(a[1..], b, p);
      assert (a + b)[1..] == a[1..] + b;
    } else {
      assert a + b == b;
    }
  }

  /** A task is listed exactly when it is in s and passes the filter. */
  lemma {:induction false} SelectMembers(s: seq<Task>, status: Option<TaskStatus>)
    ensures forall t :: t in Select(s, status) <==> t in s && Matches(t, status)
  {
    if s != [] {
      SelectMembers(s[1..], status);
      assert s == [s[0]] + s[1..];
    }
  }

  /** Inserting t changes the priority-p subsequence only by appending t when t has priority p. */
  lemma {:induction false} InsertIsStable(r: seq<Task>, t: Task, p: TaskPriority)
    ensures WithPriority(Insert(r, t), p) == WithPriority(r, p) + WithPriority([t], p)
  {
    if r == [] || PriorityValue(r[|r| - 1].priority) <= PriorityValue(t.priority) {
      WithPriorityConcat(r, [t], p);
    } else {
      var init, last := r[..|r| - 1], r[|r| - 1];
      InsertIsStable(init, t, p);
      WithPriorityConcat(Insert(init, t), [last], p);
      assert r == init + [last];
      WithPriorityConcat(init, [last], p);
      // last and t have different priorities, so at most one of them has priority p
      assert last.priority != t.priority;
    }
  }

  /** The sort is stable: for every priority, its tasks appear in the order of the input. */
  lemma {:induction false} SortIsStable(s: seq<Task>, p: TaskPriority)
    ensures WithPriority(SortByPriority(s), p) == WithPriority(s, p)
  {
    if s != [] {
      var init, last := s[..|s| - 1], s[|s| - 1];
      SortIsStable(init, p);
      InsertIsStable(SortByPriority(init), last, p);
      assert s == init + [last];
      WithPriorityConcat(init, [last], p);
    }
  }

  /** A task is listed exactly when it is stored and passes the status filter. */
  lemma ListedMembers(keys: seq<string>, m: map<string, Task>, status: Option<TaskStatus>)
    requires forall k :: k in keys <==> k in m
    ensures forall t :: t in SortByPriority(Select(Lookup(keys, m), status)) <==> t in m.Values && Matches(t, status)
  {
    var selected := Select(Lookup(keys, m), status);
    var listed := SortByPriority(selected);
    LookupMembers(keys, m);
    SelectMembers(Lookup(keys, m), status);
    forall t ensures t in listed <==> t in selected {
      assert t in listed <==> t in multiset(listed);
      assert t in selected <==> t in multiset(selected);
    }
  }

  /** Stability for every priority at once. */
  lemma SortIsStableForAll(s: seq<Task>)
    ensures forall p :: WithPriority(SortByPriority(s), p) == WithPriority(s, p)
  {
    forall p ensures WithPriority(SortByPriority(s), p) == WithPriority(s, p) {
      SortIsStable(s, p);
    }
  }

  /** Each count is the length of the list list_tasks returns for that status. */
  lemma CountsAgreeWithListing(s: seq<Task>)
    ensures forall status :: CountStatus(s, status) == |SortByPriority(Select(s, Some(status)))|
    ensures |s| == |SortByPriority(Select(s, None))|
  {
    forall status ensures CountStatus(s, status) == |SortByPriority(Select(s, Some(status)))| {
      assert |multiset(SortByPriority(Select(s, Some(status))))| == |multiset(Select(s, Some(status)))|;
    }
    SelectAll(s);
    assert |multiset(SortByPriority(Select(s, None)))| == |multiset(Select(s, None))|;
  }

  /** No status filter keeps every task. */
  lemma {:induction false} SelectAll(s: seq<Task>)
    ensures Select(s, None) == s
  {
    if s != [] {
      SelectAll(s[1..]);
      assert s == [s[0]] + s[1..];
    }
  }

  /** The number of tasks of s with the given status, as `len([t for t in tasks if t.status == status])`. */
  function CountStatus(s: seq<Task>, status: TaskStatus): nat
  {
    |Select(s, Some(status))|
  }

  /** Every task has exactly one of the five statuses, so the five counts add up to the total. */
  lemma {:induction false} StatusCountsPartition(s: seq<Task>)
    ensures CountStatus(s, Pending) + CountStatus(s, Processing) + CountStatus(s, Completed)
            + CountStatus(s, Failed) + CountStatus(s, Retrying) == |s|
  {
    if s != [] {
      StatusCountsPartition(s[1..]);
    }
  }
}

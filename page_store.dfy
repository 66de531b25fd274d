/** The task collection owned by the page component: the add, toggle and
    delete transitions on the three sequences, the updater callbacks that
    apply them key by key, and the component state they are applied to. */
module TodoCollection {
  import opened TodoTypes
  import opened Seqs

  /** `Object.keys(todos)`, in the order the initial state declares them. */
  const Keys: seq<TodoType> := [Daily, Weekly, Yearly]

  /** `Object.values(todos).flat()`: every task, daily first, then weekly, then yearly. */
  function Flatten(l: TodoList): (r: seq<Todo>)
    ensures |r| == |l.daily| + |l.weekly| + |l.yearly|
    ensures multiset(r) == multiset(l.daily) + multiset(l.weekly) + multiset(l.yearly)
  {
    l.daily + l.weekly + l.yearly
  }

  /** Every task is stored under the key its own `kind` names. */
  predicate Partitioned(l: TodoList)
  {
    forall k, t :: t in l.Get(k) ==> t.kind == k
  }

  /** No task in the collection carries `id`. */
  predicate Absent(l: TodoList, id: string)
  {
    forall t :: t in Flatten(l) ==> t.id != id
  }

  /** How many tasks of `s` carry `id`. */
  function CountId(s: seq<Todo>, id: string): nat
  {
    if s == [] then 0 else (if s[0].id == id then 1 else 0) + CountId(s[1..], id)
  }

  /** No id occurs twice anywhere in the collection. */
  ghost predicate UniqueIds(l: TodoList)
  {
    forall x :: CountId(Flatten(l), x) <= 1
  }

  // ---------------------------------------------------------------------
  // addTodo

  /** `addTodo`: builds the new task (not completed) and appends it to the
      sequence its type names. */
  function Added(l: TodoList, id: string, title: string, dueDate: Option<Date>,
                   reminder: Option<Date>, kind: TodoType, priority: Priority,
                   repeatDays: Option<seq<string>>): (r: TodoList)
    ensures |r.Get(kind)| == |l.Get(kind)| + 1
    ensures r.Get(kind)[..|l.Get(kind)|] == l.Get(kind)
    ensures r.Get(kind)[|l.Get(kind)|] ==
      Todo(id, title, false, dueDate, kind, reminder, priority, repeatDays)
    ensures forall k :: k != kind ==> r.Get(k) == l.Get(k)
  {
    var newTodo := Todo(id, title, false, dueDate, kind, reminder, priority, repeatDays);
    l.With(kind, l.Get(kind) + [newTodo])
  }

  // ---------------------------------------------------------------------
  // toggleTodo

  /** The per-task step of `toggleTodo`: a task with the given id has its
      `completed` flag negated; any other task is returned as it is. */
  function Flip(t: Todo, id: string): (r: Todo)
    ensures r.completed == (if t.id == id then !t.completed else t.completed)
    ensures r.(completed := t.completed) == t
  {
    if t.id == id then t.(completed := !t.completed) else t
  }

  /** `s.map(todo => Flip(todo, id))`. */
  function ToggleAll(s: seq<Todo>, id: string): (r: seq<Todo>)
    ensures |r| == |s|
    ensures forall i :: 0 <= i < |s| ==> r[i] == Flip(s[i], id)
  {
    if s == [] then [] else [Flip(s[0], id)] + ToggleAll(s[1..], id)
  }

  /** The state `toggleTodo(id)` produces: every sequence mapped by Flip.
      Lengths and order are kept and only `completed` of matching tasks changes. */
  function Toggled(l: TodoList, id: string): (r: TodoList)
    ensures forall k :: |r.Get(k)| == |l.Get(k)|
    ensures forall k, i :: 0 <= i < |l.Get(k)| ==> r.Get(k)[i] == Flip(l.Get(k)[i], id)
  {
    TodoList(ToggleAll(l.daily, id), ToggleAll(l.weekly, id), ToggleAll(l.yearly, id))
  }

  /** The updater `toggleTodo` passes to `setTodos`: copy `prev`, then
      replace each key's sequence by its mapped version, one key at a time. */
  method ToggleNext(prev: TodoList, id: string) returns (next: TodoList)
    ensures next == Toggled(prev, id)
  {
    next := prev;
    for i := 0 to |Keys|
      invariant next.daily == if 0 < i then ToggleAll(prev.daily, id) else prev.daily
      invariant next.weekly == if 1 < i then ToggleAll(prev.weekly, id) else prev.weekly
      invariant next.yearly == if 2 < i then ToggleAll(prev.yearly, id) else prev.yearly
    {
      var key := Keys[i];
      next := next.With(key, ToggleAll(next.Get(key), id));
    }
  }

  // ---------------------------------------------------------------------
  // deleteTodo

  /** The filter predicate of `deleteTodo`: `todo => todo.id !== id`. */
  function KeepOther(id: string): (keep: Todo -> bool)
    ensures forall t :: keep(t) <==> t.id != id
  {
    (t: Todo) => t.id != id
  }

  /** `s.filter(todo => todo.id !== id)`. */
  function RemoveId(s: seq<Todo>, id: string): (r: seq<Todo>)
    ensures |r| <= |s|
    ensures forall t :: t in r <==> t in s && t.id != id
  {
    Filter(s, KeepOther(id))
  }

  /** The state `deleteTodo(id)` produces: every sequence filtered. */
  function Deleted(l: TodoList, id: string): (r: TodoList)
    ensures forall k :: |r.Get(k)| <= |l.Get(k)|
    ensures forall k, t :: t in r.Get(k) <==> t in l.Get(k) && t.id != id
  {
    TodoList(RemoveId(l.daily, id), RemoveId(l.weekly, id), RemoveId(l.yearly, id))
  }

  /** The updater `deleteTodo` passes to `setTodos`: copy `prev`, then
      replace each key's sequence by its filtered version, one key at a time. */
  method DeleteNext(prev: TodoList, id: string) returns (next: TodoList)
    ensures next == Deleted(prev, id)
  {
    next := prev;
    for i := 0 to |Keys|
      invariant next.daily == if 0 < i then RemoveId(prev.daily, id) else prev.daily
      invariant next.weekly == if 1 < i then RemoveId(prev.weekly, id) else prev.weekly
      invariant next.yearly == if 2 < i then RemoveId(prev.yearly, id) else prev.yearly
    {
      var key := Keys[i];
      next := next.With(key, RemoveId(next.Get(key), id));
    }
  }

  // ---------------------------------------------------------------------
  // Properties of the transitions

  /** Adding files the new task under its own type, so the partition is kept. */
  lemma {:induction false} AddedPartition(l: TodoList, id: string, title: string,
                                          dueDate: Option<Date>, reminder: Option<Date>,
                                          kind: TodoType, priority: Priority,
                                          repeatDays: Option<seq<string>>)
    ensures Partitioned(l) ==>
      Partitioned(Added(l, id, title, dueDate, reminder, kind, priority, repeatDays))
  {
    if !Partitioned(l) { return; }
    var a := Added(l, id, title, dueDate, reminder, kind, priority, repeatDays);
    forall k, t | t in a.Get(k) ensures t.kind == k {
      if k == kind {
        assert a.Get(k) == l.Get(k) + [a.Get(k)[|l.Get(k)|]];
      }
    }
  }

  /** Toggling never moves a task or changes its type: the partition is kept. */
  lemma {:induction false} ToggledPartition(l: TodoList, id: string)
    ensures Partitioned(l) ==> Partitioned(Toggled(l, id))
  {
    if !Partitioned(l) { return; }
    var g := Toggled(l, id);
    forall k, t | t in g.Get(k) ensures t.kind == k {
      var i :| 0 <= i < |g.Get(k)| && g.Get(k)[i] == t;
      assert l.Get(k)[i] in l.Get(k);
    }
  }

  /** Deleting only removes tasks: the partition is kept. */
  lemma {:induction false} DeletedPartition(l: TodoList, id: string)
    ensures Partitioned(l) ==> Partitioned(Deleted(l, id))
  {
  }

  /** Toggling the same id twice restores the collection. */
  lemma {:induction false} ToggleTwiceRestores(l: TodoList, id: string)
    ensures Toggled(Toggled(l, id), id) == l
  {
    forall s | s in [l.daily, l.weekly, l.yearly] ensures ToggleAll(ToggleAll(s, id), id) == s {
      var r := ToggleAll(ToggleAll(s, id), id);
      assert |r| == |s|;
      forall i | 0 <= i < |s| ensures r[i] == s[i] {
        assert r[i] == Flip(Flip(s[i], id), id);
      }
    }
    assert l.daily in [l.daily, l.weekly, l.yearly];
    assert l.weekly in [l.daily, l.weekly, l.yearly];
    assert l.yearly in [l.daily, l.weekly, l.yearly];
  }

  /** Toggling an id no task carries changes nothing. */
  lemma {:induction false} ToggleAbsentIsNoOp(l: TodoList, id: string)
    requires Absent(l, id)
    ensures Toggled(l, id) == l
  {
    forall s | s in [l.daily, l.weekly, l.yearly] ensures ToggleAll(s, id) == s {
      forall i | 0 <= i < |s| ensures ToggleAll(s, id)[i] == s[i] {
        assert s[i] in Flatten(l);
      }
    }
    assert l.daily in [l.daily, l.weekly, l.yearly];
    assert l.weekly in [l.daily, l.weekly, l.yearly];
    assert l.yearly in [l.daily, l.weekly, l.yearly];
  }

  /** Deleting leaves, in each sequence, exactly the tasks with another id,
      every copy of each, in their original relative order. */
  lemma {:induction false} DeleteKeepsOthersInOrder(l: TodoList, id: string, k: TodoType, t: Todo)
    ensures IsSubsequence(Deleted(l, id).Get(k), l.Get(k))
    ensures t in Deleted(l, id).Get(k) ==> t.id != id
    ensures t.id != id ==> multiset(Deleted(l, id).Get(k))[t] == multiset(l.Get(k))[t]
  {
    assert Deleted(l, id).Get(k) == Filter(l.Get(k), KeepOther(id));
    FilterIsSubsequence(l.Get(k), KeepOther(id));
    FilterCount(l.Get(k), KeepOther(id), t);
  }

  /** Deleting an id no task carries changes nothing. */
  lemma {:induction false} DeleteAbsentIsNoOp(l: TodoList, id: string)
    requires Absent(l, id)
    ensures Deleted(l, id) == l
  {
    forall s | s in [l.daily, l.weekly, l.yearly] ensures RemoveId(s, id) == s {
      forall i | 0 <= i < |s| ensures KeepOther(id)(s[i]) {
        assert s[i] in Flatten(l);
      }
      FilterKeepsAll(s, KeepOther(id));
    }
    assert l.daily in [l.daily, l.weekly, l.yearly];
    assert l.weekly in [l.daily, l.weekly, l.yearly];
    assert l.yearly in [l.daily, l.weekly, l.yearly];
  }

  // ---------------------------------------------------------------------
  // Counting ids

  lemma {:induction false} CountIdConcat(a: seq<Todo>, b: seq<Todo>, x: string)
    ensures CountId(a + b, x) == CountId(a, x) + CountId(b, x)
  {
    if a == [] {
      assert a + b == b;
    } else {
      CountIdConcat(a[1..], b, x);
      assert (a + b)[1..] == a[1..] + b;
    }
  }

  /** An id is counted zero times exactly when no task carries it. */
  lemma {:induction false} CountIdZero(s: seq<Todo>, x: string)
    ensures CountId(s, x) == 0 <==> forall t :: t in s ==> t.id != x
  {
    if s != [] {
      CountIdZero(s[1..], x);
      assert forall t :: t in s <==> t == s[0] || t in s[1..];
    }
  }

  lemma {:induction false} ToggleAllCount(s: seq<Todo>, id: string, x: string)
    ensures CountId(ToggleAll(s, id), x) == CountId(s, x)
  {
    if s != [] {
      ToggleAllCount(s[1..], id, x);
      assert ToggleAll(s, id)[1..] == ToggleAll(s[1..], id);
    }
  }

  lemma {:induction false} RemoveIdCount(s: seq<Todo>, id: string, x: string)
    ensures CountId(RemoveId(s, id), x) == if x == id then 0 else CountId(s, x)
    ensures |RemoveId(s, id)| == |s| - CountId(s, id)
  {
    if s != [] {
      RemoveIdCount(s[1..], id, x);
      if s[0].id == id {
        assert RemoveId(s, id) == RemoveId(s[1..], id);
      } else {
        assert RemoveId(s, id) == [s[0]] + RemoveId(s[1..], id);
        assert RemoveId(s, id)[1..] == RemoveId(s[1..], id);
      }
    }
  }

  /** Adding counts the new task's id once more and every other id as before. */
  lemma {:induction false} AddedCounts(l: TodoList, id: string, title: string,
                                       dueDate: Option<Date>, reminder: Option<Date>,
                                       kind: TodoType, priority: Priority,
                                       repeatDays: Option<seq<string>>, x: string)
    ensures CountId(Flatten(Added(l, id, title, dueDate, reminder, kind, priority, repeatDays)), x)
            == CountId(Flatten(l), x) + (if x == id then 1 else 0)
  {
    var newTodo := Todo(id, title, false, dueDate, kind, reminder, priority, repeatDays);
    var a := Added(l, id, title, dueDate, reminder, kind, priority, repeatDays);
    assert CountId([newTodo], x) == (if x == id then 1 else 0) by {
      assert [newTodo][1..] == [];
    }
    assert a.Get(kind) == l.Get(kind) + [newTodo];
    CountIdConcat(l.Get(kind), [newTodo], x);
    CountIdConcat(l.daily, l.weekly, x);
    CountIdConcat(l.daily + l.weekly, l.yearly, x);
    CountIdConcat(a.daily, a.weekly, x);
    CountIdConcat(a.daily + a.weekly, a.yearly, x);
  }

  /** Toggling changes no id's count. */
  lemma {:induction false} ToggledCounts(l: TodoList, id: string, x: string)
    ensures CountId(Flatten(Toggled(l, id)), x) == CountId(Flatten(l), x)
  {
    var g := Toggled(l, id);
    ToggleAllCount(l.daily, id, x);
    ToggleAllCount(l.weekly, id, x);
    ToggleAllCount(l.yearly, id, x);
    CountIdConcat(l.daily, l.weekly, x);
    CountIdConcat(l.daily + l.weekly, l.yearly, x);
    CountIdConcat(g.daily, g.weekly, x);
    CountIdConcat(g.daily + g.weekly, g.yearly, x);
  }

  /** Deleting drops the deleted id's count to zero, keeps every other
      count, and shrinks the collection by the number of tasks removed. */
  lemma {:induction false} DeletedCounts(l: TodoList, id: string, x: string)
    ensures CountId(Flatten(Deleted(l, id)), x) == if x == id then 0 else CountId(Flatten(l), x)
    ensures |Flatten(Deleted(l, id))| == |Flatten(l)| - CountId(Flatten(l), id)
  {
    var d := Deleted(l, id);
    RemoveIdCount(l.daily, id, x);
    RemoveIdCount(l.weekly, id, x);
    RemoveIdCount(l.yearly, id, x);
    CountIdConcat(l.daily, l.weekly, x);
    CountIdConcat(l.daily + l.weekly, l.yearly, x);
    CountIdConcat(d.daily, d.weekly, x);
    CountIdConcat(d.daily + d.weekly, d.yearly, x);
    CountIdConcat(l.daily, l.weekly, id);
    CountIdConcat(l.daily + l.weekly, l.yearly, id);
  }

  /** Deleting an id that occurs exactly once lowers the total by one and
      leaves no task with that id. */
  lemma {:induction false} DeleteUniqueRemovesOne(l: TodoList, id: string)
    requires CountId(Flatten(l), id) == 1
    ensures |Flatten(Deleted(l, id))| == |Flatten(l)| - 1
    ensures Absent(Deleted(l, id), id)
  {
    DeletedCounts(l, id, id);
    CountIdZero(Flatten(Deleted(l, id)), id);
  }

  /** Ids stay pairwise distinct when the added id is fresh. */
  lemma {:induction false} AddedUniqueIds(l: TodoList, id: string, title: string,
                                          dueDate: Option<Date>, reminder: Option<Date>,
                                          kind: TodoType, priority: Priority,
                                          repeatDays: Option<seq<string>>)
    ensures UniqueIds(l) && Absent(l, id) ==>
      UniqueIds(Added(l, id, title, dueDate, reminder, kind, priority, repeatDays))
  {
    if !(UniqueIds(l) && Absent(l, id)) { return; }
    CountIdZero(Flatten(l), id);
    var a := Added(l, id, title, dueDate, reminder, kind, priority, repeatDays);
    forall x ensures CountId(Flatten(a), x) <= 1 {
      AddedCounts(l, id, title, dueDate, reminder, kind, priority, repeatDays, x);
    }
  }

  /** Toggling keeps ids pairwise distinct. */
  lemma {:induction false} ToggledUniqueIds(l: TodoList, id: string)
    ensures UniqueIds(l) ==> UniqueIds(Toggled(l, id))
  {
    if !UniqueIds(l) { return; }
    forall x ensures CountId(Flatten(Toggled(l, id)), x) <= 1 {
      ToggledCounts(l, id, x);
    }
  }

  /** Deleting keeps ids pairwise distinct. */
  lemma {:induction false} DeletedUniqueIds(l: TodoList, id: string)
    ensures UniqueIds(l) ==> UniqueIds(Deleted(l, id))
  {
    if !UniqueIds(l) { return; }
    forall x ensures CountId(Flatten(Deleted(l, id)), x) <= 1 {
      DeletedCounts(l, id, x);
    }
  }

  // ---------------------------------------------------------------------
  // The component state

  /** The `todos` state of the page: three sequences replaced wholesale by
      `setTodos` after each transition. */
  class TodoStore {
    var daily: seq<Todo>
    var weekly: seq<Todo>
    var yearly: seq<Todo>

    function Todos(): TodoList
      reads this
    {
      TodoList(daily, weekly, yearly)
    }

    /** `useState({ daily: [], weekly: [], yearly: [] })`. */
    constructor ()
      ensures Todos() == TodoList([], [], [])
      ensures Partitioned(Todos()) && UniqueIds(Todos())
    {
      daily, weekly, yearly := [], [], [];
    }

    /** `setTodos(next)`. */
    method SetTodos(next: TodoList)
      modifies this
      ensures Todos() == next
    {
      daily, weekly, yearly := next.daily, next.weekly, next.yearly;
    }

    /** `addTodo`: the id is supplied by the caller; the acknowledgement
        toast is returned instead of being shown. */
    method AddTodo(id: string, title: string, dueDate: Option<Date>, reminder: Option<Date>,
                   kind: TodoType, priority: Priority, repeatDays: Option<seq<string>>)
      returns (ack: Toast)
      modifies this
      ensures Todos() == Added(old(Todos()), id, title, dueDate, reminder,
                                                kind, priority, repeatDays)
      ensures old(Partitioned(Todos())) ==> Partitioned(Todos())
      ensures old(UniqueIds(Todos()) && Absent(Todos(), id)) ==> UniqueIds(Todos())
      ensures ack == Toast("Task Added", title, AddedStyle)
    {
      AddedPartition(Todos(), id, title, dueDate, reminder, kind, priority, repeatDays);
      AddedUniqueIds(Todos(), id, title, dueDate, reminder, kind, priority, repeatDays);
      SetTodos(Added(Todos(), id, title, dueDate, reminder, kind, priority, repeatDays));
      ack := Toast("Task Added", title, AddedStyle);
    }

    /** `toggleTodo`. */
    method ToggleTodo(id: string)
      modifies this
      ensures Todos() == Toggled(old(Todos()), id)
      ensures old(Partitioned(Todos())) ==> Partitioned(Todos())
      ensures old(UniqueIds(Todos())) ==> UniqueIds(Todos())
    {
      ToggledPartition(Todos(), id);
      ToggledUniqueIds(Todos(), id);
      var next := ToggleNext(Todos(), id);
      SetTodos(next);
    }

    /** `deleteTodo`. */
    method DeleteTodo(id: string)
      modifies this
      ensures Todos() == Deleted(old(Todos()), id)
      ensures old(Partitioned(Todos())) ==> Partitioned(Todos())
      ensures old(UniqueIds(Todos())) ==> UniqueIds(Todos())
    {
      DeletedPartition(Todos(), id);
      DeletedUniqueIds(Todos(), id);
      var next := DeleteNext(Todos(), id);
      SetTodos(next);
    }
  }
}

/** One run of the page's reminder scan: which tasks raise a toast at time
    `now`, in what order, and with which heading, description and style.
    The timer that repeats the scan every minute is not modelled; `now`
    is a parameter in milliseconds since the epoch. */
module Reminders {
  import opened TodoTypes
  import opened Seqs
  import opened TodoCollection

  const ImportantHeading: string := "🔥 Important Task!"
  const ReminderHeading: string := "Reminder"

  /** A task raises a toast when its reminder is set, has passed and the
      task is not completed: never before the reminder's day has begun, and
      always once that day is over. */
  function IsDue(t: Todo, now: int): (due: bool)
    ensures due ==> t.reminder.Some? && !t.completed && t.reminder.value.day * DayMs <= now
    ensures t.reminder.Some? && !t.completed && (t.reminder.value.day + 1) * DayMs <= now ==> due
  {
    t.reminder.Some? && Timestamp(t.reminder.value) <= now && !t.completed
  }

  function DueAt(now: int): (keep: Todo -> bool)
    ensures forall t :: keep(t) <==> IsDue(t, now)
  {
    (t: Todo) => IsDue(t, now)
  }

  /** The toast raised for a due task. */
  function ToastFor(t: Todo): (n: Toast)
    ensures n.description == t.title
    ensures n.heading == ImportantHeading <==> t.priority == VeryImportant
    ensures n.heading == ReminderHeading <==> t.priority != VeryImportant
    ensures n.style == VeryImportantStyle <==> t.priority == VeryImportant
    ensures n.style == ImportantStyle <==> t.priority == Important
    ensures n.style == OrdinaryStyle <==> (t.priority == Normal || t.priority == Optional)
  {
    var heading := if t.priority == VeryImportant then ImportantHeading else ReminderHeading;
    var style :=
      match t.priority
      case VeryImportant => VeryImportantStyle
      case Important => ImportantStyle
      case Normal => OrdinaryStyle
      case Optional => OrdinaryStyle;
    Toast(heading, t.title, style)
  }

  /** The toasts for the due tasks of `s`, in the order of `s`. */
  function NotificationsOf(s: seq<Todo>, now: int): (r: seq<Toast>)
    ensures |r| == |Filter(s, DueAt(now))|
    ensures forall i :: 0 <= i < |r| ==> r[i] == ToastFor(Filter(s, DueAt(now))[i])
  {
    var due := Filter(s, DueAt(now));
    seq(|due|, i requires 0 <= i < |due| => ToastFor(due[i]))
  }

  /** The toasts one scan of the whole collection raises. */
  function Notifications(l: TodoList, now: int): (r: seq<Toast>)
    ensures |r| <= |Flatten(l)|
    ensures forall i :: 0 <= i < |r| ==>
      exists t :: t in Flatten(l) && IsDue(t, now) && r[i] == ToastFor(t)
  {
    var due := Filter(Flatten(l), DueAt(now));
    var r := NotificationsOf(Flatten(l), now);
    assert forall i :: 0 <= i < |r| ==> r[i] == ToastFor(due[i]) && due[i] in due;
    assert forall i :: 0 <= i < |r| ==> due[i] in Flatten(l) && IsDue(due[i], now);
    r
  }

  lemma {:induction false} NotificationsOfConcat(a: seq<Todo>, b: seq<Todo>, now: int)
    ensures NotificationsOf(a + b, now) == NotificationsOf(a, now) + NotificationsOf(b, now)
  {
    FilterConcat(a, b, DueAt(now));
  }

  /** Scanning one more task appends its toast exactly when it is due. */
  lemma NotificationsOfSnoc(s: seq<Todo>, t: Todo, now: int)
    ensures NotificationsOf(s + [t], now) ==
      NotificationsOf(s, now) + (if IsDue(t, now) then [ToastFor(t)] else [])
  {
    NotificationsOfConcat(s, [t], now);
    assert Filter([t], DueAt(now)) == (if IsDue(t, now) then [t] else []) + Filter([t][1..], DueAt(now));
    assert [t][1..] == [];
  }

  /** `checkReminders`: walks the flattened collection and emits one toast
      per due task. It reads the collection and changes nothing. */
  method CheckReminders(todos: TodoList, now: int) returns (toasts: seq<Toast>)
    ensures toasts == Notifications(todos, now)
  {
    var all := Flatten(todos);
    toasts := [];
    for i := 0 to |all|
      invariant toasts == NotificationsOf(all[..i], now)
    {
      assert all[..i + 1] == all[..i] + [all[i]];
      NotificationsOfSnoc(all[..i], all[i], now);
      if IsDue(all[i], now) {
        toasts := toasts + [ToastFor(all[i])];
      }
    }
    assert all[..|all|] == all;
  }

  /** The scan raises exactly the due tasks' toasts, one per due task
      (every copy of it), and keeps their order in the collection. */
  lemma {:induction false} ScanSelectsDue(l: TodoList, now: int, t: Todo)
    ensures IsSubsequence(Filter(Flatten(l), DueAt(now)), Flatten(l))
    ensures multiset(Filter(Flatten(l), DueAt(now)))[t] ==
            if IsDue(t, now) then multiset(Flatten(l))[t] else 0
    ensures |Notifications(l, now)| == |Filter(Flatten(l), DueAt(now))|
  {
    FilterIsSubsequence(Flatten(l), DueAt(now));
    FilterCount(Flatten(l), DueAt(now), t);
  }

  /** Daily tasks are announced first, then weekly, then yearly. */
  lemma {:induction false} ScanOrder(l: TodoList, now: int)
    ensures Notifications(l, now) ==
      NotificationsOf(l.daily, now) + NotificationsOf(l.weekly, now) + NotificationsOf(l.yearly, now)
  {
    NotificationsOfConcat(l.daily, l.weekly, now);
    NotificationsOfConcat(l.daily + l.weekly, l.yearly, now);
  }

  /** A due task stays due until it is completed or deleted: a later scan
      selects every task an earlier one selected, every copy of it, and so
      raises at least as many toasts. Nothing records that a toast was
      already shown. */
  lemma {:induction false} ScanRepeats(s: seq<Todo>, now: int, later: int)
    requires now <= later
    ensures multiset(Filter(s, DueAt(now))) <= multiset(Filter(s, DueAt(later)))
    ensures |NotificationsOf(s, now)| <= |NotificationsOf(s, later)|
  {
    forall x ensures multiset(Filter(s, DueAt(now)))[x] <= multiset(Filter(s, DueAt(later)))[x] {
      FilterCount(s, DueAt(now), x);
      FilterCount(s, DueAt(later), x);
    }
    if s != [] {
      ScanRepeats(s[1..], now, later);
      assert s == [s[0]] + s[1..];
      NotificationsOfConcat([s[0]], s[1..], now);
      NotificationsOfConcat([s[0]], s[1..], later);
      assert Filter([s[0]], DueAt(now)) == if IsDue(s[0], now) then [s[0]] else [];
      assert Filter([s[0]], DueAt(later)) == if IsDue(s[0], later) then [s[0]] else [];
    }
  }

  /** A single pending task whose reminder has passed raises exactly one
      toast carrying its title; one whose reminder lies ahead raises none. */
  lemma {:induction false} SingleTaskScan(t: Todo, now: int)
    requires t.reminder.Some? && !t.completed
    ensures Timestamp(t.reminder.value) <= now ==>
      Notifications(TodoList([t], [], []), now) == [ToastFor(t)]
    ensures now < Timestamp(t.reminder.value) ==>
      Notifications(TodoList([t], [], []), now) == []
  {
    assert Flatten(TodoList([t], [], [])) == [t];
    assert Filter([t], DueAt(now)) == if IsDue(t, now) then [t] else [] by {
      assert [t][1..] == [];
    }
  }

  // ---------------------------------------------------------------------
  // The scan as written

  datatype ScanOutcome = Finished(toasts: seq<Toast>) | ReferenceError(name: string)

  /** The scan exactly as app/page.tsx writes it. The toast's `className`
      calls `cn`, which that file neither imports nor declares, so building
      the toast for the first due task throws before `toast` runs and the
      walk stops there. */
  function ScanAsWritten(s: seq<Todo>, now: int): (r: ScanOutcome)
    ensures r == Finished([]) || r == ReferenceError("cn")
    ensures r.Finished? <==> forall i :: 0 <= i < |s| ==> !IsDue(s[i], now)
  {
    if s == [] then Finished([])
    else if IsDue(s[0], now) then ReferenceError("cn")
    else ScanAsWritten(s[1..], now)
  }

  /** When no task of `s` is due, the scan selects nothing. */
  lemma {:induction false} NothingDue(s: seq<Todo>, now: int)
    requires forall i :: 0 <= i < |s| ==> !IsDue(s[i], now)
    ensures Filter(s, DueAt(now)) == []
  {
    if s != [] {
      NothingDue(s[1..], now);
    }
  }

  /** As written, the scan never shows a toast: it finishes quietly when
      nothing is due and throws whenever the intended scan would notify. */
  lemma {:induction false} ScanAsWrittenNeverNotifies(s: seq<Todo>, now: int)
    ensures ScanAsWritten(s, now) ==
      if NotificationsOf(s, now) == [] then Finished([]) else ReferenceError("cn")
  {
    var due := Filter(s, DueAt(now));
    if i :| 0 <= i < |s| && IsDue(s[i], now) {
      assert s[i] in due;
    } else {
      NothingDue(s, now);
    }
  }

  /** A task whose reminder passed a minute ago: the intended scan raises
      one toast, the scan as written throws instead. */
  lemma OverdueTaskCounterexample()
    ensures var t := Todo("k3x9", "Buy milk", false, None, Daily,
                          Some(Date(0, 600, 0)), Normal, None);
            var now := 601 * MinuteMs;
            Notifications(TodoList([t], [], []), now) == [Toast(ReminderHeading, "Buy milk", OrdinaryStyle)]
            && ScanAsWritten(Flatten(TodoList([t], [], [])), now) == ReferenceError("cn")
  {
    var t := Todo("k3x9", "Buy milk", false, None, Daily, Some(Date(0, 600, 0)), Normal, None);
    SingleTaskScan(t, 601 * MinuteMs);
    assert Flatten(TodoList([t], [], [])) == [t];
  }
}

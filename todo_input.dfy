/** The task input form (app/components/TodoInput.tsx): its eight state
    fields, the submit rule that turns them into one `onAdd` call, the
    repeat-day checkboxes and the type selector. */
module TodoInputForm {
  import opened TodoTypes
  import opened Seqs

  // ---------------------------------------------------------------------
  // String.prototype.trim

  /** The ECMAScript WhiteSpace and LineTerminator code points, which `trim` strips. */
  predicate IsJsSpace(c: char)
  {
    c == '\t' || c == '\n' || c == '\U{000B}' || c == '\U{000C}' || c == '\r' ||
    c == ' ' || c == '\U{00A0}' || c == '\U{1680}' || ('\U{2000}' <= c <= '\U{200A}') ||
    c == '\U{2028}' || c == '\U{2029}' || c == '\U{202F}' || c == '\U{205F}' ||
    c == '\U{3000}' || c == '\U{FEFF}'
  }

  /** `s` without its leading white space. */
  function TrimStart(s: string): (r: string)
    ensures |r| <= |s| && r == s[|s| - |r|..]
    ensures forall i :: 0 <= i < |s| - |r| ==> IsJsSpace(s[i])
    ensures r == [] || !IsJsSpace(r[0])
  {
    if s != [] && IsJsSpace(s[0]) then TrimStart(s[1..]) else s
  }

  /** `s` without its trailing white space. */
  function TrimEnd(s: string): (r: string)
    ensures |r| <= |s| && r == s[..|r|]
    ensures forall i :: |r| <= i < |s| ==> IsJsSpace(s[i])
    ensures r == [] || !IsJsSpace(r[|r| - 1])
  {
    if s != [] && IsJsSpace(s[|s| - 1]) then TrimEnd(s[..|s| - 1]) else s
  }

  /** `s.trim()`: the piece of `s` that starts where its leading white
      space ends and neither starts nor ends with white space; a string
      already in that form is returned as it is. */
  function Trim(s: string): (r: string)
    ensures |r| <= |TrimStart(s)| <= |s| && r == s[|s| - |TrimStart(s)|..][..|r|]
    ensures forall i :: |s| - |TrimStart(s)| + |r| <= i < |s| ==> IsJsSpace(s[i])
    ensures r == [] || (!IsJsSpace(r[0]) && !IsJsSpace(r[|r| - 1]))
    ensures s == [] || (!IsJsSpace(s[0]) && !IsJsSpace(s[|s| - 1])) ==> r == s
  {
    TrimEnd(TrimStart(s))
  }

  /** `s.trim()` is the empty (falsy) string exactly when every character of `s` is white space. */
  lemma {:induction false} TrimEmptyIff(s: string)
    ensures Trim(s) == [] <==> forall i :: 0 <= i < |s| ==> IsJsSpace(s[i])
  {
    var ts := TrimStart(s);
    if Trim(s) == [] {
      assert ts == [];
    }
    if forall i :: 0 <= i < |s| ==> IsJsSpace(s[i]) {
      if ts != [] {
        assert ts[0] == s[|s| - |ts|];
      }
    }
  }

  // ---------------------------------------------------------------------
  // "HH:MM".split(':').map(Number)

  /** `s.split(sep)` for a one-character separator. */
  function Split(s: string, sep: char): (parts: seq<string>)
    ensures |parts| >= 1
    ensures forall i :: 0 <= i < |parts| ==> sep !in parts[i]
  {
    if s == [] then [""]
    else
      var rest := Split(s[1..], sep);
      if s[0] == sep then [""] + rest else [[s[0]] + rest[0]] + rest[1..]
  }

  /** `parts.join(sep)`. */
  function Join(parts: seq<string>, sep: char): string
    requires |parts| >= 1
  {
    if |parts| == 1 then parts[0] else parts[0] + [sep] + Join(parts[1..], sep)
  }

  /** Splitting loses nothing: joining the parts with the separator gives back the string. */
  lemma {:induction false} SplitJoin(s: string, sep: char)
    ensures Join(Split(s, sep), sep) == s
  {
    if s != [] {
      SplitJoin(s[1..], sep);
      var rest := Split(s[1..], sep);
      if s[0] == sep {
        assert ([""] + rest)[1..] == rest;
      } else {
        var parts := [[s[0]] + rest[0]] + rest[1..];
        if |rest| > 1 {
          assert parts[1..] == rest[1..];
          assert Join(rest, sep) == rest[0] + [sep] + Join(rest[1..], sep);
        }
        assert s == [s[0]] + s[1..];
      }
    }
  }

  predicate IsDigit(c: char)
  {
    '0' <= c <= '9'
  }

  predicate AllDigits(s: string)
  {
    forall i :: 0 <= i < |s| ==> IsDigit(s[i])
  }

  function Pow10(n: nat): nat
  {
    if n == 0 then 1 else 10 * Pow10(n - 1)
  }

  /** `Number(s)` for a string of decimal digits (the empty string gives 0):
      a value below 10 to the number of digits. */
  function DecimalValue(s: string): (v: nat)
    requires AllDigits(s)
    ensures v < Pow10(|s|)
  {
    if s == [] then 0 else DecimalValue(s[..|s| - 1]) * 10 + ((s[|s| - 1] as int) - ('0' as int))
  }

  /** A time of day as the time input reports it: "HH:MM", 24-hour clock. */
  predicate WellFormedTime(s: string)
  {
    |s| == 5 && IsDigit(s[0]) && IsDigit(s[1]) && s[2] == ':' && IsDigit(s[3]) && IsDigit(s[4]) &&
    DecimalValue(s[..2]) < 24 && DecimalValue(s[3..]) < 60
  }

  /** A string without the separator splits into itself. */
  lemma {:induction false} SplitNoSeparator(s: string, sep: char)
    requires sep !in s
    ensures Split(s, sep) == [s]
  {
    if s != [] {
      SplitNoSeparator(s[1..], sep);
      assert [s[0]] + s[1..] == s;
    }
  }

  /** Splitting at a leading separator-free piece and one separator. */
  lemma {:induction false} SplitAfter(a: string, b: string, sep: char)
    requires sep !in a
    ensures Split(a + [sep] + b, sep) == [a] + Split(b, sep)
  {
    if a == [] {
      assert a + [sep] + b == [sep] + b;
      assert ([sep] + b)[1..] == b;
    } else {
      SplitAfter(a[1..], b, sep);
      assert (a + [sep] + b)[1..] == a[1..] + [sep] + b;
      assert [a[0]] + a[1..] == a;
    }
  }

  /** A well-formed time splits into its hour and minute digits. */
  lemma SplitTime(s: string)
    requires WellFormedTime(s)
    ensures Split(s, ':') == [s[..2], s[3..]]
  {
    assert s == s[..2] + [':'] + s[3..];
    SplitAfter(s[..2], s[3..], ':');
    SplitNoSeparator(s[3..], ':');
  }

  /** `const [hours, minutes] = reminderTime.split(':').map(Number)`. */
  function ParseTime(time: string): (hm: (int, int))
    requires WellFormedTime(time)
    ensures 0 <= hm.0 < 24 && 0 <= hm.1 < 60
  {
    SplitTime(time);
    var parts := Split(time, ':');
    (DecimalValue(parts[0]), DecimalValue(parts[1]))
  }

  /** Two decimal digits, zero-padded. */
  function TwoDigits(n: int): string
    requires 0 <= n < 100
  {
    [('0' as int + n / 10) as char, ('0' as int + n % 10) as char]
  }

  /** How the time input spells a time of day. */
  function FormatTime(hours: int, minutes: int): string
    requires 0 <= hours < 24 && 0 <= minutes < 60
  {
    TwoDigits(hours) + ":" + TwoDigits(minutes)
  }

  /** Parsing is a bijection between well-formed "HH:MM" strings and
      (hours, minutes) pairs: both round trips are the identity. */
  lemma {:induction false} TimeRoundTrip(hours: int, minutes: int, s: string)
    requires 0 <= hours < 24 && 0 <= minutes < 60
    ensures WellFormedTime(FormatTime(hours, minutes))
    ensures ParseTime(FormatTime(hours, minutes)) == (hours, minutes)
    ensures WellFormedTime(s) ==> FormatTime(ParseTime(s).0, ParseTime(s).1) == s
  {
    var f := FormatTime(hours, minutes);
    assert f[..2] == TwoDigits(hours) && f[3..] == TwoDigits(minutes);
    TwoDigitsValue(hours);
    TwoDigitsValue(minutes);
    assert WellFormedTime(f);
    SplitTime(f);
    if WellFormedTime(s) {
      var hm := ParseTime(s);
      SplitTime(s);
      DigitPair(s[..2]);
      DigitPair(s[3..]);
      assert s == s[..2] + ":" + s[3..];
    }
  }

  lemma TwoDigitsValue(n: int)
    requires 0 <= n < 100
    ensures AllDigits(TwoDigits(n)) && DecimalValue(TwoDigits(n)) == n
  {
    var t := TwoDigits(n);
    assert t[0] as int == '0' as int + n / 10;
    assert t[1] as int == '0' as int + n % 10;
    assert t[..1] == [t[0]] && t[..1][..0] == [];
    assert DecimalValue(t[..1]) == n / 10;
  }

  lemma DigitPair(s: string)
    requires |s| == 2 && AllDigits(s)
    ensures DecimalValue(s) < 100 && TwoDigits(DecimalValue(s)) == s
  {
    assert s[..1] == [s[0]] && s[..1][..0] == [];
    var d0, d1 := s[0] as int - '0' as int, s[1] as int - '0' as int;
    assert DecimalValue(s[..1]) == d0;
    assert DecimalValue(s) == d0 * 10 + d1;
    assert (d0 * 10 + d1) / 10 == d0 && (d0 * 10 + d1) % 10 == d1;
  }

  /** `new Date(reminder)` followed by `setHours(hours, minutes)`: a copy of
      the picked date on the same day, with the time of day taken from
      `time` and the seconds and milliseconds kept. */
  function CombineReminder(d: Date, time: string): (r: Date)
    requires WellFormedTime(time)
    ensures r.day == d.day && r.millis == d.millis
    ensures r.minuteOfDay / 60 == ParseTime(time).0 && r.minuteOfDay % 60 == ParseTime(time).1
  {
    var hm := ParseTime(time);
    d.(minuteOfDay := hm.0 * 60 + hm.1)
  }

  // ---------------------------------------------------------------------
  // Submission

  /** The arguments of one `onAdd` call. */
  datatype AddRequest = AddRequest(
    title: string,
    dueDate: Option<Date>,
    reminder: Option<Date>,
    kind: TodoType,
    priority: Priority,
    repeatDays: Option<seq<string>>)

  /** `repeatDays.length > 0 ? repeatDays : undefined`. */
  function RepeatDaysArg(days: seq<string>): (r: Option<seq<string>>)
    ensures r.Some? <==> |days| > 0
    ensures r.Some? ==> r.value == days
  {
    if |days| > 0 then Some(days) else None
  }

  /** The `onAdd` call `handleSubmit` makes from the form fields, or None
      when the trimmed title is empty and nothing is added. */
  function SubmitRequest(title: string, dueDate: Option<Date>, reminder: Option<Date>,
                         reminderTime: string, kind: TodoType, priority: Priority,
                         repeatDays: seq<string>): (r: Option<AddRequest>)
    requires reminder.Some? ==> WellFormedTime(reminderTime)
    ensures r.None? <==> Trim(title) == []
    ensures r.Some? ==>
      r.value.title == title && r.value.dueDate == dueDate &&
      r.value.kind == kind && r.value.priority == priority
    ensures r.Some? ==> (r.value.reminder.None? <==> reminder.None?)
    ensures r.Some? && reminder.Some? ==>
      r.value.reminder == Some(CombineReminder(reminder.value, reminderTime))
    ensures r.Some? ==> (r.value.repeatDays.Some? <==> |repeatDays| > 0)
    ensures r.Some? && r.value.repeatDays.Some? ==> r.value.repeatDays.value == repeatDays
  {
    if Trim(title) == [] then None
    else if reminder.Some? then
      Some(AddRequest(title, dueDate, Some(CombineReminder(reminder.value, reminderTime)),
                      kind, priority, RepeatDaysArg(repeatDays)))
    else
      Some(AddRequest(title, dueDate, reminder, kind, priority, RepeatDaysArg(repeatDays)))
  }

  /** A title that is all white space is never submitted. */
  lemma {:induction false} SubmitTitle(title: string, dueDate: Option<Date>, reminder: Option<Date>,
                                       reminderTime: string, kind: TodoType, priority: Priority,
                                       repeatDays: seq<string>)
    requires reminder.Some? ==> WellFormedTime(reminderTime)
    ensures SubmitRequest(title, dueDate, reminder, reminderTime, kind, priority, repeatDays).None?
            <==> forall i :: 0 <= i < |title| ==> IsJsSpace(title[i])
  {
    TrimEmptyIff(title);
  }

  // ---------------------------------------------------------------------
  // Repeat-day checkboxes

  /** The filter predicate of the unchecked box: `d => d !== day`. */
  function OtherDay(day: string): (keep: string -> bool)
    ensures forall d :: keep(d) <==> d != day
  {
    (d: string) => d != day
  }

  /** The new `repeatDays` after the checkbox of `day` reports `checked`:
      appended when checked, every copy filtered out when unchecked. */
  function DaysAfterCheck(days: seq<string>, day: string, checked: bool): (r: seq<string>)
    ensures checked ==> |r| == |days| + 1 && r[..|days|] == days && r[|days|] == day
    ensures !checked ==> day !in r
  {
    if checked then days + [day] else Filter(days, OtherDay(day))
  }

  /** Unchecking a day keeps every other day, every copy of it, in its
      original relative order. */
  lemma {:induction false} UncheckKeepsOthers(days: seq<string>, day: string, other: string)
    requires other != day
    ensures IsSubsequence(DaysAfterCheck(days, day, false), days)
    ensures multiset(DaysAfterCheck(days, day, false))[other] == multiset(days)[other]
  {
    FilterIsSubsequence(days, OtherDay(day));
    FilterCount(days, OtherDay(day), other);
  }

  // ---------------------------------------------------------------------
  // The component state

  /** The eight `useState` fields of the form. */
  class TodoForm {
    var title: string
    var dueDate: Option<Date>
    var reminder: Option<Date>
    var reminderTime: string
    var kind: TodoType
    var priority: Priority
    var repeatDays: seq<string>
    var showRepeatDays: bool

    /** Holds in every state the handlers can reach: the time field is a
        well-formed time of day, and the repeat-day panel is shown only
        while the type is daily. */
    ghost predicate Valid()
      reads this
    {
      WellFormedTime(reminderTime) && (showRepeatDays ==> kind == Daily)
    }

    /** The initial field values. The type starts as daily but the
        repeat-day panel starts hidden. */
    constructor ()
      ensures Valid()
      ensures title == "" && dueDate == None && reminder == None && reminderTime == "12:00"
      ensures kind == Daily && priority == Normal && repeatDays == [] && !showRepeatDays
    {
      title, dueDate, reminder, reminderTime := "", None, None, "12:00";
      kind, priority, repeatDays, showRepeatDays := Daily, Normal, [], false;
      TimeRoundTrip(12, 0, "12:00");
      assert FormatTime(12, 0) == "12:00";
    }

    /** The title input's change handler. */
    method EditTitle(value: string)
      modifies this`title
      ensures title == value
      ensures old(Valid()) ==> Valid()
    {
      title := value;
    }

    /** The type selector's change handler: the panel is shown exactly when
        the new type is daily. */
    method SelectType(value: TodoType)
      modifies this`kind, this`showRepeatDays
      ensures kind == value && (showRepeatDays <==> value == Daily)
      ensures old(Valid()) ==> Valid()
    {
      kind := value;
      showRepeatDays := value == Daily;
    }

    /** The priority selector's change handler. */
    method SelectPriority(value: Priority)
      modifies this`priority
      ensures priority == value
      ensures old(Valid()) ==> Valid()
    {
      priority := value;
    }

    /** The due-date calendar's selection handler (None when deselected). */
    method SelectDueDate(value: Option<Date>)
      modifies this`dueDate
      ensures dueDate == value
      ensures old(Valid()) ==> Valid()
    {
      dueDate := value;
    }

    /** The reminder calendar's selection handler (None when deselected). */
    method SelectReminder(value: Option<Date>)
      modifies this`reminder
      ensures reminder == value
      ensures old(Valid()) ==> Valid()
    {
      reminder := value;
    }

    /** The time input's change handler. */
    method EditReminderTime(value: string)
      requires WellFormedTime(value)
      modifies this`reminderTime
      ensures reminderTime == value
      ensures old(Valid()) ==> Valid()
    {
      reminderTime := value;
    }

    /** The change handler of the checkbox of `day`. */
    method CheckDay(day: string, checked: bool)
      modifies this`repeatDays
      ensures repeatDays == DaysAfterCheck(old(repeatDays), day, checked)
      ensures old(Valid()) ==> Valid()
    {
      if checked {
        repeatDays := repeatDays + [day];
      } else {
        repeatDays := Filter(repeatDays, OtherDay(day));
      }
    }

    /** `handleSubmit`: returns the `onAdd` call it makes, if any. On a
        blank title nothing changes; otherwise title, due date, reminder and
        repeat days are cleared, and type, priority, time and panel stay. */
    method Submit() returns (call: Option<AddRequest>)
      requires reminder.Some? ==> WellFormedTime(reminderTime)
      modifies this
      ensures call == SubmitRequest(old(title), old(dueDate), old(reminder), old(reminderTime),
                                    old(kind), old(priority), old(repeatDays))
      ensures call.None? ==> unchanged(this)
      ensures call.Some? ==> title == "" && dueDate == None && reminder == None && repeatDays == []
      ensures kind == old(kind) && priority == old(priority)
      ensures reminderTime == old(reminderTime) && showRepeatDays == old(showRepeatDays)
      ensures old(Valid()) ==> Valid()
    {
      call := SubmitRequest(title, dueDate, reminder, reminderTime, kind, priority, repeatDays);
      if call.Some? {
        title := "";
        dueDate := None;
        reminder := None;
        repeatDays := [];
      }
      assert reminderTime == old(reminderTime) && kind == old(kind);
      assert showRepeatDays == old(showRepeatDays);
    }
  }
}

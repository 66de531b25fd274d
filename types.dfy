/** The data model shared by the page and the input form: a task, the three
    task sequences, the date values the pickers produce, and the toast
    events handed to the notification sink. */
module TodoTypes {

  datatype Option<+T> = None | Some(value: T)

  /** The four priority levels, most urgent first. */
  datatype Priority = VeryImportant | Important | Normal | Optional

  /** The recurrence type; it also names the sequence a task is stored in.
      (The source calls this field `type`, a Dafny keyword, hence `kind`.) */
  datatype TodoType = Daily | Weekly | Yearly

  const MinuteMs: int := 60000
  const DayMs: int := 1440 * MinuteMs

  type MinuteOfDay = m: int | 0 <= m < 1440
  type MillisOfMinute = x: int | 0 <= x < 60000

  /** A JavaScript `Date` reduced to what the core uses: a calendar day
      (days since the epoch, local time), the minute of that day, and the
      seconds and milliseconds within that minute. */
  datatype Date = Date(day: int, minuteOfDay: MinuteOfDay, millis: MillisOfMinute)

  /** The instant a date denotes, in milliseconds since the epoch. */
  function Timestamp(d: Date): (ms: int)
    ensures d.day * DayMs <= ms < (d.day + 1) * DayMs
  {
    d.day * DayMs + d.minuteOfDay * MinuteMs + d.millis
  }

  /** Distinct dates denote distinct instants, and the instant order is the
      lexicographic order on (day, minute, millis). */
  lemma {:induction false} TimestampOrder(a: Date, b: Date)
    ensures Timestamp(a) <= Timestamp(b) <==>
      a.day < b.day ||
      (a.day == b.day && (a.minuteOfDay < b.minuteOfDay ||
                          (a.minuteOfDay == b.minuteOfDay && a.millis <= b.millis)))
    ensures Timestamp(a) == Timestamp(b) <==> a == b
  {
    if a.day < b.day {
      assert Timestamp(a) < (a.day + 1) * DayMs <= b.day * DayMs <= Timestamp(b);
    } else if a.day > b.day {
      assert Timestamp(b) < (b.day + 1) * DayMs <= a.day * DayMs <= Timestamp(a);
    }
  }

  datatype Todo = Todo(
    id: string,
    title: string,
    completed: bool,
    dueDate: Option<Date>,
    kind: TodoType,
    reminder: Option<Date>,
    priority: Priority,
    repeatDays: Option<seq<string>>)

  /** The whole collection: one ordered sequence per recurrence type. */
  datatype TodoList = TodoList(daily: seq<Todo>, weekly: seq<Todo>, yearly: seq<Todo>)
  {
    /** The sequence stored under `key` (`todos[key]`). */
    function Get(key: TodoType): seq<Todo>
    {
      match key
      case Daily => daily
      case Weekly => weekly
      case Yearly => yearly
    }

    /** The collection with the sequence under `key` replaced (`{ ...todos, [key]: s }`). */
    function With(key: TodoType, s: seq<Todo>): (r: TodoList)
      ensures r.Get(key) == s
      ensures forall k :: k != key ==> r.Get(k) == Get(k)
    {
      match key
      case Daily => this.(daily := s)
      case Weekly => this.(weekly := s)
      case Yearly => this.(yearly := s)
    }
  }

  /** The styling of a toast; the source spells each as a class string. */
  datatype ToastStyle =
    | VeryImportantStyle   // purple border and background
    | ImportantStyle       // blue border and background
    | OrdinaryStyle        // emerald border and background
    | AddedStyle           // green border and background, for "Task Added"

  /** One call of the notification sink: heading, description and style. */
  datatype Toast = Toast(heading: string, description: string, style: ToastStyle)
}

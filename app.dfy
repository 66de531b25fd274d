/** The page's wiring of the form to the store (`<TodoInput onAdd={addTodo} />`):
    a successful submit adds exactly the task the form describes. */
module TaskMaster {
  import opened TodoTypes
  import opened TodoCollection
  import opened TodoInputForm

  /** One submit of the form with `onAdd` bound to the store's `addTodo`.
      The id the source draws from `Math.random` is supplied by the caller.
      A refused submit changes neither the form nor the store; a successful
      one adds the described task and clears the title, dates and days. */
  method SubmitForm(form: TodoForm, store: TodoStore, id: string) returns (ack: Option<Toast>)
    requires form.reminder.Some? ==> WellFormedTime(form.reminderTime)
    modifies form, store
    ensures var call := SubmitRequest(old(form.title), old(form.dueDate), old(form.reminder),
                                      old(form.reminderTime), old(form.kind), old(form.priority),
                                      old(form.repeatDays));
      match call
      case None => ack == None && store.Todos() == old(store.Todos()) && unchanged(form)
      case Some(req) =>
        && ack == Some(Toast("Task Added", req.title, AddedStyle))
        && store.Todos() == Added(old(store.Todos()), id, req.title, req.dueDate, req.reminder,
                                  req.kind, req.priority, req.repeatDays)
        && form.title == "" && form.dueDate == None && form.reminder == None
        && form.repeatDays == []
    ensures form.kind == old(form.kind) && form.priority == old(form.priority)
    ensures form.reminderTime == old(form.reminderTime)
    ensures form.showRepeatDays == old(form.showRepeatDays)
    ensures old(form.Valid()) ==> form.Valid()
  {
    var call := form.Submit();
    match call
    case None =>
      ack := None;
    case Some(req) =>
      var toast := store.AddTodo(id, req.title, req.dueDate, req.reminder, req.kind,
                                 req.priority, req.repeatDays);
      ack := Some(toast);
  }

  /** A fresh page: type "Buy milk", submit, then tick the new task. The
      task lands in the daily list, not completed and without dates;
      ticking it completes it and changes nothing else. The collection
      then holds that one task and nothing more. */
  method BuyMilkScenario() returns (added: Todo, ticked: Todo, todos: TodoList)
    ensures added == Todo("a1", "Buy milk", false, None, Daily, None, Normal, None)
    ensures ticked == added.(completed := true)
    ensures todos == TodoList([ticked], [], [])
  {
    var form := new TodoForm();
    var store := new TodoStore();
    form.EditTitle("Buy milk");
    TrimEmptyIff("Buy milk");
    assert !IsJsSpace("Buy milk"[0]);
    var ack := SubmitForm(form, store, "a1");
    assert |store.daily| == 1;
    added := store.daily[0];
    store.ToggleTodo("a1");
    ticked := store.daily[0];
    todos := store.Todos();
  }
}

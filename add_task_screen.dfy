/**
 * The add-task form (screens/AddTaskScreen.tsx): the form fields the screen
 * keeps in React state, the reminder/due-date coupling, and the submit handler
 * that validates the name, looks up the signed-in user, writes the task record
 * to the `tasks` collection and navigates back.
 *
 * Dates are millisecond timestamps, which is what the `>` on two JavaScript
 * `Date` values compares. The Firestore write, the navigation and the console
 * are entries of an effect log; the signed-in user is a parameter.
 *
 * The pure functions over `Form` are the specification; `FormController` is
 * the screen itself, whose handlers update its fields one after another.
 */
module AddTaskScreen {
  import opened Wrappers
  import JsString

  /** A point in time, in milliseconds since the epoch. */
  type Timestamp = int

  const DefaultCategory: string := "Work"
  const EmptyNameError: string := "Task name cannot be empty."
  const DueDateRaisedWarning: string := "Due date updated to match reminder date."
  const NoUserMessage: string := "No user logged in"
  const TasksCollection: string := "tasks"

  /** The record written to the store (the `Task` type of the screen). */
  datatype Task = Task(
    name: string,
    description: string,
    category: string,
    dueDate: Timestamp,
    reminderDate: Timestamp,
    createdBy: string)

  /** What the screen does to the world outside its own state. */
  datatype Effect =
    | AddDocument(collection: string, task: Task)  // firestore().collection(..).add(..)
    | GoBack                                      // navigation.goBack()
    | ConsoleError(message: string)               // console.error(..)

  /** The form's state. */
  datatype Form = Form(
    name: string,
    description: string,
    category: string,
    dueDate: Timestamp,
    reminderDate: Timestamp,
    nameError: string,
    dueDateWarning: string)

  /** The date-coupling rule the screen tries to keep: the task is not due before its reminder. */
  predicate DueCoversReminder(f: Form)
  {
    f.dueDate >= f.reminderDate
  }

  /** What `name.trim() === ''` tests. */
  predicate IsBlank(name: string)
  {
    JsString.Trim(name) == ""
  }

  function Max(a: int, b: int): int
  {
    if a >= b then a else b
  }

  /**
   * The form as the screen opens it. The due and reminder dates come from two
   * separate clock readings, so they need not be equal.
   */
  function Opened(dueNow: Timestamp, reminderNow: Timestamp): (f: Form)
    ensures f.name == "" && f.description == "" && f.category == DefaultCategory
    ensures f.nameError == "" && f.dueDateWarning == ""
    ensures f.dueDate == dueNow && f.reminderDate == reminderNow
    ensures DueCoversReminder(f) <==> dueNow >= reminderNow
  {
    Form("", "", DefaultCategory, dueNow, reminderNow, "", "")
  }

  /**
   * A reminder date was picked. A date later than the due date drags the due
   * date along and raises the warning; any other date leaves the due date and
   * the current warning (whatever it says) as they were.
   */
  function ReminderChanged(f: Form, date: Timestamp): (r: Form)
    ensures r.reminderDate == date
    ensures r.dueDate == Max(f.dueDate, date)
    ensures DueCoversReminder(r)
    ensures r.dueDate != f.dueDate <==> date > f.dueDate
    ensures r.dueDateWarning == if date > f.dueDate then DueDateRaisedWarning else f.dueDateWarning
    ensures r.(reminderDate := f.reminderDate, dueDate := f.dueDate, dueDateWarning := f.dueDateWarning) == f
  {
    var picked := f.(reminderDate := date);
    if date > f.dueDate then picked.(dueDate := date, dueDateWarning := DueDateRaisedWarning) else picked
  }

  /**
   * A due date was confirmed in the picker. It is taken as it is, even when it
   * falls before the reminder, and the warning is cleared.
   */
  function DueConfirmed(f: Form, date: Timestamp): (r: Form)
    ensures r.dueDate == date && r.dueDateWarning == ""
    ensures r.reminderDate == f.reminderDate
    ensures r.(dueDate := f.dueDate, dueDateWarning := f.dueDateWarning) == f
    ensures DueCoversReminder(r) <==> date >= f.reminderDate
  {
    f.(dueDate := date, dueDateWarning := "")
  }

  /** The form after a submit, and the effects the submit had, in order. */
  datatype Submission = Submission(form: Form, effects: seq<Effect>)

  /** The record a submit writes: the form's fields, untrimmed, owned by `email`. */
  function Record(f: Form, email: string): Task
  {
    Task(f.name, f.description, f.category, f.dueDate, f.reminderDate, email)
  }

  /** Whether `effects` holds a write of some record. */
  predicate WritesTask(effects: seq<Effect>)
  {
    exists i :: 0 <= i < |effects| && effects[i].AddDocument?
  }

  /**
   * Pressing "Add Task" with the signed-in user `user` (its e-mail address);
   * `writeAccepted` says whether the store accepts the write (when it does not,
   * the awaited call throws and nothing after it runs).
   */
  function Submit(f: Form, user: Option<string>, writeAccepted: bool): (r: Submission)
    // a blank name only sets the name error
    ensures IsBlank(f.name) ==> r.form == f.(nameError := EmptyNameError) && r.effects == []
    // any other name clears both messages, whether or not someone is signed in
    ensures !IsBlank(f.name) ==> r.form == f.(nameError := "", dueDateWarning := "")
    // no dates, text or category change
    ensures r.form.(nameError := f.nameError, dueDateWarning := f.dueDateWarning) == f
    // a record is written exactly when the name is not blank and someone is signed in
    ensures WritesTask(r.effects) <==> !IsBlank(f.name) && user.Some?
    // nothing is written or navigated to without a user; the absence is only logged
    ensures user.None? ==> GoBack !in r.effects && !WritesTask(r.effects)
    ensures !IsBlank(f.name) && user.None? ==> r.effects == [ConsoleError(NoUserMessage)]
    // the one record written is the form as it stands, owned by the user
    ensures WritesTask(r.effects) ==> user.Some? && r.effects[0] == AddDocument(TasksCollection, Record(f, user.value))
    ensures forall i :: 0 < i < |r.effects| ==> !r.effects[i].AddDocument?
    // the screen navigates back only once the write has gone through
    ensures GoBack in r.effects <==> WritesTask(r.effects) && writeAccepted
    ensures GoBack in r.effects ==> r.effects == [r.effects[0], GoBack]
    // a rejected write ends the submit right after the attempt
    ensures WritesTask(r.effects) && !writeAccepted ==> |r.effects| == 1
  {
    if IsBlank(f.name) then
      Submission(f.(nameError := EmptyNameError), [])
    else
      var cleared := f.(nameError := "", dueDateWarning := "");
      match user
      case None => Submission(cleared, [ConsoleError(NoUserMessage)])
      case Some(email) =>
        var write := AddDocument(TasksCollection, Record(f, email));
        var effects := if writeAccepted then [write, GoBack] else [write];
        assert effects[0].AddDocument?;
        Submission(cleared, effects)
  }

  /** A user action on the form. */
  datatype Event =
    | NameTyped(text: string)
    | DescriptionTyped(text: string)
    | CategoryPicked(value: string)
    | ReminderPicked(date: Timestamp)
    | DuePicked(date: Timestamp)
    | AddPressed(user: Option<string>, writeAccepted: bool)

  /** The form after one user action. */
  function Step(f: Form, e: Event): Form
  {
    match e
    case NameTyped(text) => f.(name := text)
    case DescriptionTyped(text) => f.(description := text)
    case CategoryPicked(value) => f.(category := value)
    case ReminderPicked(date) => ReminderChanged(f, date)
    case DuePicked(date) => DueConfirmed(f, date)
    case AddPressed(user, writeAccepted) => Submit(f, user, writeAccepted).form
  }

  /** The form after a sequence of user actions, in order. */
  function Run(f: Form, events: seq<Event>): Form
    decreases |events|
  {
    if events == [] then f else Step(Run(f, events[..|events| - 1]), events[|events| - 1])
  }

  /** Only picking a due date can break the date-coupling rule. */
  lemma StepKeepsCovering(f: Form, e: Event)
    requires DueCoversReminder(f) && !e.DuePicked?
    ensures DueCoversReminder(Step(f, e))
  {
  }

  /**
   * A form that keeps the date-coupling rule keeps it through any actions
   * that do not pick a due date; in particular through any number of reminder
   * changes.
   */
  lemma {:induction false} RunWithoutDuePicksKeepsCovering(f: Form, events: seq<Event>)
    requires DueCoversReminder(f)
    requires forall i :: 0 <= i < |events| ==> !events[i].DuePicked?
    ensures DueCoversReminder(Run(f, events))
    decreases |events|
  {
    if events != [] {
      var prefix := events[..|events| - 1];
      RunWithoutDuePicksKeepsCovering(f, prefix);
      StepKeepsCovering(Run(f, prefix), events[|events| - 1]);
    }
  }

  /**
   * Whatever the form held before, once a reminder date has been picked and
   * no due date has been picked since, the due date is not before the reminder.
   */
  lemma {:induction false} ReminderPickRestoresCovering(f: Form, events: seq<Event>, k: nat)
    requires k < |events| && events[k].ReminderPicked?
    requires forall i :: k < i < |events| ==> !events[i].DuePicked?
    ensures DueCoversReminder(Run(f, events))
    decreases |events|
  {
    var prefix := events[..|events| - 1];
    if k < |events| - 1 {
      ReminderPickRestoresCovering(f, prefix, k);
      StepKeepsCovering(Run(f, prefix), events[|events| - 1]);
    }
  }

  /**
   * From the opened form, any actions other than due-date picks keep the due
   * date at or after the reminder, provided the first clock reading was not
   * earlier than the second (as when both readings fall in the same millisecond).
   */
  lemma FromOpenedWithoutDuePicks(dueNow: Timestamp, reminderNow: Timestamp, events: seq<Event>)
    requires dueNow >= reminderNow
    requires forall i :: 0 <= i < |events| ==> !events[i].DuePicked?
    ensures DueCoversReminder(Run(Opened(dueNow, reminderNow), events))
  {
    RunWithoutDuePicksKeepsCovering(Opened(dueNow, reminderNow), events);
  }

  /** The due date set directly is never corrected: the rule is not an invariant of the whole form. */
  lemma DuePickCanBreakCovering(f: Form, date: Timestamp)
    requires date < f.reminderDate
    ensures !DueCoversReminder(Run(f, [DuePicked(date)]))
  {
    assert [DuePicked(date)][..0] == [];
  }

  /** A submit does not check the dates: a record due before its reminder is written as it is. */
  lemma SubmitWritesUncoveredDates(f: Form, email: string)
    requires !IsBlank(f.name) && !DueCoversReminder(f)
    ensures var t := Submit(f, Some(email), true).effects[0].task; t.dueDate < t.reminderDate
  {
  }

  /**
   * The screen: the fields it keeps in state and the log of its effects.
   * Each handler runs to completion before the next begins.
   */
  class FormController {
    var name: string
    var description: string
    var category: string
    var dueDate: Timestamp
    var reminderDate: Timestamp
    var nameError: string
    var dueDateWarning: string
    var effects: seq<Effect>

    /** The form's state as a value. */
    function Snapshot(): Form
      reads this
    {
      Form(name, description, category, dueDate, reminderDate, nameError, dueDateWarning)
    }

    constructor (dueNow: Timestamp, reminderNow: Timestamp)
      ensures Snapshot() == Opened(dueNow, reminderNow) && effects == []
    {
      name, description, category := "", "", DefaultCategory;
      dueDate, reminderDate := dueNow, reminderNow;
      nameError, dueDateWarning := "", "";
      effects := [];
    }

    method TypeName(text: string)
      modifies this
      ensures Snapshot() == Step(old(Snapshot()), NameTyped(text)) && effects == old(effects)
    {
      name := text;
    }

    method TypeDescription(text: string)
      modifies this
      ensures Snapshot() == Step(old(Snapshot()), DescriptionTyped(text)) && effects == old(effects)
    {
      description := text;
    }

    method PickCategory(value: string)
      modifies this
      ensures Snapshot() == Step(old(Snapshot()), CategoryPicked(value)) && effects == old(effects)
    {
      category := value;
    }

    /** handleReminderDateChange */
    method ChangeReminderDate(date: Timestamp)
      modifies this
      ensures Snapshot() == ReminderChanged(old(Snapshot()), date) && effects == old(effects)
    {
      reminderDate := date;
      if date > dueDate {
        dueDate := date;
        dueDateWarning := DueDateRaisedWarning;
      }
    }

    /** The due-date picker's confirmation. */
    method ConfirmDueDate(date: Timestamp)
      modifies this
      ensures Snapshot() == DueConfirmed(old(Snapshot()), date) && effects == old(effects)
    {
      dueDate := date;
      dueDateWarning := "";
    }

    /** addTask */
    method AddTask(user: Option<string>, writeAccepted: bool)
      modifies this
      ensures Snapshot() == Submit(old(Snapshot()), user, writeAccepted).form
      ensures effects == old(effects) + Submit(old(Snapshot()), user, writeAccepted).effects
    {
      if JsString.Trim(name) == "" {
        nameError := EmptyNameError;
        return;
      }
      nameError := "";
      dueDateWarning := "";
      if user.None? {
        effects := effects + [ConsoleError(NoUserMessage)];
        return;
      }
      var task := Task(name, description, category, dueDate, reminderDate, user.value);
      effects := effects + [AddDocument(TasksCollection, task)];
      if !writeAccepted {
        return;
      }
      effects := effects + [GoBack];
    }
  }
}

/**
 * A follow-up task for a customer (com.crm.core.Task). Times are whole minutes
 * on one clock; the task id is supplied by the caller instead of a random UUID.
 */
module Tasks {
  import opened Wrappers

  const MinutesPerHour: int := 60

  datatype Priority = Low | Medium | High

  /** The rank of a priority in declaration order: LOW < MEDIUM < HIGH. */
  function Rank(p: Priority): nat {
    match p
    case Low => 0
    case Medium => 1
    case High => 2
  }

  /** How long before the due date the default reminder fires, for each priority. */
  function ReminderLead(p: Priority): (lead: int)
    ensures 12 * MinutesPerHour <= lead <= 48 * MinutesPerHour
    ensures p == Medium ==> lead == 24 * MinutesPerHour
  {
    match p
    case High => 48 * MinutesPerHour
    case Low => 12 * MinutesPerHour
    case Medium => 24 * MinutesPerHour
  }

  /** A more urgent task is reminded at least as early as a less urgent one. */
  lemma ReminderLeadMonotone(p: Priority, q: Priority)
    requires Rank(p) <= Rank(q)
    ensures ReminderLead(p) <= ReminderLead(q)
  {
  }

  /** The state of a task at one moment: what the store keeps and the scheduler reads. */
  datatype TaskData = TaskData(
    id: string,
    customerId: string,
    description: string,
    dueDate: int,
    completed: bool,
    priority: Priority,
    reminderTime: Option<int>)

  /** The task is still open. */
  predicate IsPending(t: TaskData) {
    !t.completed
  }

  /** The task is done. */
  predicate IsCompleted(t: TaskData) {
    t.completed
  }

  /** Selects the tasks whose id is `id`. */
  function HasId(id: string): TaskData -> bool {
    (t: TaskData) => t.id == id
  }

  class Task {
    const id: string
    const customerId: string
    var description: string
    var dueDate: int
    var completed: bool
    var priority: Priority
    var reminderTime: Option<int>

    /** The task's current state as a value. */
    function Data(): TaskData
      reads this
    {
      TaskData(id, customerId, description, dueDate, completed, priority, reminderTime)
    }

    /** A new open task of medium priority, reminded 24 hours before it is due. */
    constructor (id: string, customerId: string, description: string, dueDate: int)
      ensures Data() == TaskData(id, customerId, description, dueDate, false, Medium, Some(dueDate - 24 * MinutesPerHour))
      ensures !completed && reminderTime.Some? && reminderTime.value < dueDate
    {
      this.id := id;
      this.customerId := customerId;
      this.description := description;
      this.dueDate := dueDate;
      this.completed := false;
      this.priority := Medium;
      this.reminderTime := Some(dueDate - 24 * MinutesPerHour);
    }

    /** A new open task whose reminder lead follows its priority: 48h for HIGH, 12h for LOW, 24h otherwise. */
    constructor WithPriority(id: string, customerId: string, description: string, dueDate: int, priority: Priority)
      ensures Data() == TaskData(id, customerId, description, dueDate, false, priority, Some(dueDate - ReminderLead(priority)))
      ensures !completed && reminderTime.Some? && reminderTime.value < dueDate
    {
      this.id := id;
      this.customerId := customerId;
      this.description := description;
      this.dueDate := dueDate;
      this.completed := false;
      this.priority := priority;
      match priority {
        case High => this.reminderTime := Some(dueDate - 48 * MinutesPerHour);
        case Low => this.reminderTime := Some(dueDate - 12 * MinutesPerHour);
        case Medium => this.reminderTime := Some(dueDate - 24 * MinutesPerHour);
      }
    }

    method SetDescription(description: string)
      modifies this
      ensures Data() == old(Data()).(description := description)
    {
      this.description := description;
    }

    method SetDueDate(dueDate: int)
      modifies this
      ensures Data() == old(Data()).(dueDate := dueDate)
    {
      this.dueDate := dueDate;
    }

    method SetCompleted(completed: bool)
      modifies this
      ensures Data() == old(Data()).(completed := completed)
    {
      this.completed := completed;
    }

    method SetPriority(priority: Priority)
      modifies this
      ensures Data() == old(Data()).(priority := priority)
    {
      this.priority := priority;
    }

    /** Replaces the reminder time; `None` stands for a null reminder, which the scheduler skips. */
    method SetReminderTime(reminderTime: Option<int>)
      modifies this
      ensures Data() == old(Data()).(reminderTime := reminderTime)
    {
      this.reminderTime := reminderTime;
    }
  }
}

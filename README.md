# CRM store, reminder scheduler and entity records in Dafny

This project models the core of a single-user customer-relationship-management
application written in Java (package `com.crm`). It does not model the JavaFX user
interface. The core has three parts.

- **The entity records** `Customer`, `Task` and `Communication`
  (`core/*.java`). Each is a Dafny `class`. Fields without a setter in Java
  (`id`, `customerId`, a communication's `timestamp`) are `const`. The other fields
  are `var`s changed by setter methods. Each class has a `Data()` function that
  returns its current state as a value (`CustomerData`, `TaskData`,
  `CommunicationData`). A task's constructors derive the reminder time from the
  priority: 48, 24 or 12 hours before the due date (`Tasks.ReminderLead`).
  A communication's tags form an ordered list. `AddTag` appends to it and
  `RemoveTag` removes the first occurrence, as `java.util.List.remove(Object)` does
  (`Collections.RemoveFirst`).
- **The in-memory store** `CRMManager` (`patterns/CRMManager.java`), a class with
  three map fields:
  - `customers`, keyed by customer id;
  - `communications` and `tasks`, per-customer lists keyed by customer id.

  Add, update and delete are methods whose postconditions give the complete new
  state, including what stays unchanged. The object invariant `Valid()` says that
  every entry is filed under the id it refers to. The queries scan a `HashMap`,
  whose iteration order is unspecified. So a query over all customers picks the
  next key nondeterministically, and its result is specified as a multiset
  (`Collections.Gather`). A query restricted to one customer returns an exact
  sequence: that customer's list, filtered in order (`Collections.Filter`). Observer
  callbacks appear as an appended log of `StoreEvent`s. Of the settings map, only
  the `notificationsEnabled` flag is kept. It may be absent (`None`).
- **The reminder poller** `TaskScheduler` (`util/TaskScheduler.java`). One tick is
  the pure fold `Scheduler.CheckAll`, built from `Scheduler.CheckTask`. It runs over
  the pending tasks and a state made of the notified keys and the notices sent so
  far. The method `TaskScheduler.CheckPendingTasks` is proved to compute exactly
  this fold, with the current time `now` passed in. The lemmas prove these
  properties:
  - a reminder or overdue alert fires exactly under the source's conditions
    (`CheckTask`);
  - a second tick at the same time sends nothing (`CheckTwiceSendsNothing`);
  - between clears, each task gets at most one reminder and at most one overdue
    alert (`AtMostOnceBetweenClears`);
  - clearing a task's keys lets both notifications fire again (`ClearReenables`).

  Reminder keys (the task id) and overdue keys (`"overdue-"` + id) share one list.
  `OverdueKey` never equals the id it is built from. A task whose id itself began
  with `"overdue-"` could still block another task's overdue alert. The source's
  random UUIDs never have that form.

Times are whole minutes on one clock, held as `int`. Ids are strings supplied by the
caller. Java's `type` field of a communication is named `kind`, because `type` is a
Dafny keyword. The factory `CRMFactory` only forwards to the constructors, so its
methods are the constructors modelled here.

Files:
- `wrappers.dfy`: `Option`, for Java references that may be null.
- `collections.dfy`: the filter, first-match, replace and remove operations on lists,
  and the multiset gathered from a map of lists.
- `text.dfy`: ASCII lower-casing and `String.contains`.
- `customer.dfy`, `task.dfy`, `communication.dfy`: the three entity records.
- `manager.dfy`: the store.
- `scheduler.dfy`: the poller.

## Model

| member | source | states |
|---|---|---|
| `Tasks.ReminderLead` | CW/src/main/java/com/crm/core/Task.java:40-49 | the reminder lead is between 12 and 48 hours; MEDIUM (the default branch) gets 24 hours |
| `Tasks.ReminderLeadMonotone` | CW/src/main/java/com/crm/core/Task.java:40-49 | a higher priority never gets a later reminder than a lower one (48h HIGH, 24h MEDIUM, 12h LOW) |
| `Tasks.Task.constructor` | CW/src/main/java/com/crm/core/Task.java:20-28 | a new task is open, has MEDIUM priority and is reminded 24 hours before it is due, so strictly before the due date |
| `Tasks.Task.WithPriority` | CW/src/main/java/com/crm/core/Task.java:31-50 | a new task is open, keeps the given priority, and is reminded `ReminderLead(priority)` before it is due, so strictly before the due date |
| `Tasks.Task.SetDescription` | CW/src/main/java/com/crm/core/Task.java:58 | changes only the description |
| `Tasks.Task.SetDueDate` | CW/src/main/java/com/crm/core/Task.java:61 | changes only the due date; the reminder time is not recomputed |
| `Tasks.Task.SetCompleted` | CW/src/main/java/com/crm/core/Task.java:64 | changes only the completed flag; the due date and reminder time stay |
| `Tasks.Task.SetPriority` | CW/src/main/java/com/crm/core/Task.java:67 | changes only the priority; the reminder time is not recomputed |
| `Tasks.Task.SetReminderTime` | CW/src/main/java/com/crm/core/Task.java:70 | changes only the reminder time, which may become null (`None`) |
| `Customers.Customer.constructor` | CW/src/main/java/com/crm/core/Customer.java:19-26 | stores name, email, phone and role as given, with empty notes |
| `Customers.Customer.WithNotes` | CW/src/main/java/com/crm/core/Customer.java:29-36 | stores all five fields exactly as given |
| `Customers.Customer.SetName` | CW/src/main/java/com/crm/core/Customer.java:42 | changes only the name; the id is a `const` |
| `Customers.Customer.SetEmail` | CW/src/main/java/com/crm/core/Customer.java:45 | changes only the e-mail address |
| `Customers.Customer.SetPhone` | CW/src/main/java/com/crm/core/Customer.java:48 | changes only the phone number |
| `Customers.Customer.SetRole` | CW/src/main/java/com/crm/core/Customer.java:51 | changes only the role |
| `Customers.Customer.SetNotes` | CW/src/main/java/com/crm/core/Customer.java:54 | changes only the notes |
| `Communications.Communication.constructor` | CW/src/main/java/com/crm/core/Communication.java:16-23 | a new communication carries the given fields, the current time as timestamp, and no tags |
| `Communications.Communication.SetKind` | CW/src/main/java/com/crm/core/Communication.java:31 | changes only the type; tags, id, customer and timestamp stay |
| `Communications.Communication.SetNotes` | CW/src/main/java/com/crm/core/Communication.java:36 | changes only the notes; the tags stay |
| `Communications.Communication.AddTag` | CW/src/main/java/com/crm/core/Communication.java:39 | the tag list grows by one, the earlier tags keep their order, and the new tag is last |
| `Communications.Communication.RemoveTag` | CW/src/main/java/com/crm/core/Communication.java:40 | removes exactly one occurrence (the first) when the tag is present; leaves the list unchanged when it is absent |
| `Collections.RemoveFirst` | CW/src/main/java/com/crm/core/Communication.java:40 | List.remove(Object): the elements before the first occurrence stay in place, the rest shift left by one, and the multiset loses one copy; unchanged when absent |
| `Collections.RemoveFirstNoDup` | CW/src/main/java/com/crm/util/TaskScheduler.java:164-167 | on a list without duplicates, removing a key removes every occurrence and keeps the list duplicate-free |
| `Collections.FindFirst` | CW/src/main/java/com/crm/patterns/CRMManager.java:209-215 | the first index whose element matches, or none exactly when no element matches |
| `Collections.ReplaceFirst` | CW/src/main/java/com/crm/patterns/CRMManager.java:209-215 | replaces only the first matching element; the length is unchanged and the list is unchanged when nothing matches |
| `Collections.Filter` | CW/src/main/java/com/crm/patterns/CRMManager.java:250-254 | the kept elements all satisfy the test, come from the list, and are no more than the list |
| `Collections.AppendMatching` | CW/src/main/java/com/crm/patterns/CRMManager.java:250-254 | the inner scan loop appends exactly the matching elements of one list, in order |
| `Collections.CollectAll` | CW/src/main/java/com/crm/patterns/CRMManager.java:225-231 | the nested scan over every key (in any order) collects exactly the multiset of matching stored elements |
| `Collections.CountMatching` | CW/src/main/java/com/crm/patterns/CRMManager.java:301-305 | the counting loop counts exactly the matching elements of one list |
| `Collections.GatherPick` | CW/src/main/java/com/crm/patterns/CRMManager.java:225 | a HashMap scan may visit the keys in any order without changing what it collects |
| `Collections.GatherMember` | CW/src/main/java/com/crm/patterns/CRMManager.java:225-231 | an element is collected exactly when it matches and is stored under some scanned key |
| `Collections.GatherSplit` | CW/src/main/java/com/crm/patterns/CRMManager.java:299-305 | a test and its negation split the stored elements: their counts add up to the total |
| `Text.Contains` | CW/src/main/java/com/crm/patterns/CRMManager.java:83 | String.contains: true exactly when the needle occurs at some position; the empty string is contained in every string |
| `Text.Lower` | CW/src/main/java/com/crm/patterns/CRMManager.java:77 | toLowerCase on ASCII: same length, letters lower-cased one by one, no upper-case letter left |
| `Manager.CRMManager.constructor` | CW/src/main/java/com/crm/patterns/CRMManager.java:25-34 | an empty, valid store with notifications enabled |
| `Manager.CRMManager.GetCustomer` | CW/src/main/java/com/crm/patterns/CRMManager.java:66-68 | a customer is returned exactly when the id is stored, and it has that id |
| `Manager.CRMManager.GetCustomerCommunications` | CW/src/main/java/com/crm/patterns/CRMManager.java:161-163 | an unknown customer gets an empty list; every returned communication belongs to the customer |
| `Manager.CRMManager.GetCustomerTasks` | CW/src/main/java/com/crm/patterns/CRMManager.java:219-221 | an unknown customer gets an empty list; every returned task belongs to the customer |
| `Manager.CRMManager.AddCustomer` | CW/src/main/java/com/crm/patterns/CRMManager.java:44-47 | afterwards the id maps to the customer and every other id maps to what it did before; one CUSTOMER_ADDED event |
| `Manager.CRMManager.UpdateCustomer` | CW/src/main/java/com/crm/patterns/CRMManager.java:49-54 | a no-op (no event) for an unknown id; otherwise replaces only that entry and emits CUSTOMER_UPDATED |
| `Manager.CRMManager.DeleteCustomer` | CW/src/main/java/com/crm/patterns/CRMManager.java:56-64 | removes the customer and its communication and task lists together; an unknown id leaves all three maps unchanged |
| `Manager.CRMManager.AddCommunication` | CW/src/main/java/com/crm/patterns/CRMManager.java:138-145 | appends at the end of the customer's list, starting from an empty list when there was none; other customers' lists are unchanged |
| `Manager.CRMManager.UpdateCommunication` | CW/src/main/java/com/crm/patterns/CRMManager.java:147-159 | replaces only the first entry with the same id in the customer's list; a no-op (no event) without a list or a match |
| `Manager.CRMManager.AddTask` | CW/src/main/java/com/crm/patterns/CRMManager.java:196-203 | appends at the end of the customer's list, starting from an empty list when there was none; other customers' lists are unchanged |
| `Manager.CRMManager.UpdateTask` | CW/src/main/java/com/crm/patterns/CRMManager.java:205-217 | replaces only the first entry with the same id and keeps every list's length; a no-op (no event) without a list or a match |
| `Manager.CRMManager.GetPendingTasks` | CW/src/main/java/com/crm/patterns/CRMManager.java:223-233 | returns exactly the stored tasks that are not completed, with their multiplicity |
| `Manager.CRMManager.SearchTasks` | CW/src/main/java/com/crm/patterns/CRMManager.java:236-258 | a non-empty customer id restricts the result to that customer's list, in order; otherwise every list is scanned; completed tasks are dropped unless shown |
| `Manager.CRMManager.SearchCommunications` | CW/src/main/java/com/crm/patterns/CRMManager.java:166-193 | a non-empty customer id restricts the result to that customer's list, in order; otherwise every list is scanned; only communications matching type and tag are kept |
| `Manager.CRMManager.SearchCustomers` | CW/src/main/java/com/crm/patterns/CRMManager.java:75-94 | only stored customers that match the role are returned; with a non-empty term, each of them contains the term (ignoring case) in its name, e-mail, phone, role or notes; every role-matching customer whose name contains the term is returned |
| `Manager.CRMManager.FilterCustomers` | CW/src/main/java/com/crm/patterns/CRMManager.java:97-101 | returns exactly the stored customers that satisfy the predicate |
| `Manager.CRMManager.FilterTasks` | CW/src/main/java/com/crm/patterns/CRMManager.java:261-271 | returns exactly the stored tasks that satisfy the predicate |
| `Manager.CRMManager.GetCommunicationStats` | CW/src/main/java/com/crm/patterns/CRMManager.java:283-292 | totalCommunications is the number of stored communications, the sum of the list sizes |
| `Manager.CRMManager.GetTaskCompletionStats` | CW/src/main/java/com/crm/patterns/CRMManager.java:294-309 | totalTasks is the number of stored tasks, completedTasks the number of completed ones, and completedTasks <= totalTasks |
| `Manager.CRMManager.SetNotificationsEnabled` | CW/src/main/java/com/crm/patterns/CRMManager.java:274-276 | sets the flag the scheduler reads and changes nothing else |
| `Manager.ReplaceAtFirstMatch` | CW/src/main/java/com/crm/patterns/CRMManager.java:210-213 | the loop's `set(i, …)` at the first match is exactly ReplaceFirst |
| `Manager.SearchCustomersUnfiltered` | CW/src/main/java/com/crm/patterns/CRMManager.java:76-89 | with a null or empty term and a null or "All Roles" role, every customer is returned |
| `Manager.SearchCustomersByRole` | CW/src/main/java/com/crm/patterns/CRMManager.java:78-89 | searching by a role alone is filtering with hasRole |
| `Manager.SearchCustomersByText` | CW/src/main/java/com/crm/patterns/CRMManager.java:82-91 | a term search returns exactly the customers found by one of the five field tests (nameContains, emailContains, phoneContains, and the same test on role and notes) that also match the role; an empty term keeps every role-matching customer |
| `Manager.RecentCommunicationMonotone` | CW/src/main/java/com/crm/patterns/CRMManager.java:120-127 | a customer with a communication later than the cut-off `days` back still has one for any larger `days` |
| `Manager.SearchTasksShowingCompleted` | CW/src/main/java/com/crm/patterns/CRMManager.java:251 | with showCompleted, every task of the selected customers is returned |
| `Manager.SearchTasksHidingCompleted` | CW/src/main/java/com/crm/patterns/CRMManager.java:223-258 | without showCompleted and without a customer id, searchTasks returns the same multiset as getPendingTasks |
| `Manager.SearchCommunicationsUnfiltered` | CW/src/main/java/com/crm/patterns/CRMManager.java:181-184 | with a null or "All Types" type and an empty tag search, every communication of the selected customers is returned |
| `Manager.CompletedPlusPendingIsTotal` | CW/src/main/java/com/crm/patterns/CRMManager.java:294-309 | completed tasks plus pending tasks make up all stored tasks |
| `Manager.HasPendingTasksIffPending` | CW/src/main/java/com/crm/patterns/CRMManager.java:129-135 | hasPendingTasks holds exactly when getPendingTasks would return a task of that customer |
| `Scheduler.OverdueKey` | CW/src/main/java/com/crm/util/TaskScheduler.java:96 | the overdue key starts with "overdue-" and differs from the task id |
| `Scheduler.OverdueKeyInjective` | CW/src/main/java/com/crm/util/TaskScheduler.java:96 | different tasks have different overdue keys |
| `Scheduler.CheckTask` | CW/src/main/java/com/crm/util/TaskScheduler.java:83-100 | a reminder is sent exactly when the task is open, has a reminder time, reminderTime < now < dueDate and its id is not recorded, and then the id is recorded; an overdue alert is sent exactly when the task is open, dueDate < now and "overdue-"+id is not recorded, and then that key is recorded; nothing fires when dueDate == now; keys and notices only grow, and only this task's keys are added |
| `Scheduler.CheckAll` | CW/src/main/java/com/crm/util/TaskScheduler.java:80-101 | a tick only appends keys and notices, never records a key twice, and notifies only scanned tasks |
| `Scheduler.ClearKeys` | CW/src/main/java/com/crm/util/TaskScheduler.java:164-167 | removes the task's id and its overdue key (all copies, given no duplicates) and keeps every other key |
| `Scheduler.CheckAllSettles` | CW/src/main/java/com/crm/util/TaskScheduler.java:87-99 | after a tick, every notification due for a scanned task has its key recorded |
| `Scheduler.SettledTickIsNoOp` | CW/src/main/java/com/crm/util/TaskScheduler.java:87-99 | a tick over tasks whose due notifications are all recorded changes nothing |
| `Scheduler.CheckTwiceSendsNothing` | CW/src/main/java/com/crm/util/TaskScheduler.java:80-101 | a second tick at the same time over the same pending tasks, in any order, sends nothing and records nothing |
| `Scheduler.CheckTaskAccounted` | CW/src/main/java/com/crm/util/TaskScheduler.java:83-100 | one task's check keeps every sent notice covered by its recorded key, at most one per key |
| `Scheduler.CheckAllAccounted` | CW/src/main/java/com/crm/util/TaskScheduler.java:80-101 | a whole tick keeps every sent notice covered by its recorded key |
| `Scheduler.RoundsAccounted` | CW/src/main/java/com/crm/util/TaskScheduler.java:49-55 | repeated ticks keep every sent notice covered by its recorded key |
| `Scheduler.AtMostOnceBetweenClears` | CW/src/main/java/com/crm/util/TaskScheduler.java:87-99 | between clears, over any number of ticks, each task gets at most one reminder and at most one overdue alert |
| `Scheduler.ClearReenables` | CW/src/main/java/com/crm/util/TaskScheduler.java:160-167 | after clearing a task, its reminder and overdue alert fire again exactly when their time conditions hold |
| `Scheduler.TaskScheduler.constructor` | CW/src/main/java/com/crm/util/TaskScheduler.java:37-40 | a new scheduler bound to the store, with no keys recorded and nothing sent |
| `Scheduler.TaskScheduler.SendReminder` | CW/src/main/java/com/crm/util/TaskScheduler.java:108-127 | hands one reminder for the task to the user and records no key |
| `Scheduler.TaskScheduler.SendOverdueReminder` | CW/src/main/java/com/crm/util/TaskScheduler.java:132-158 | hands one overdue alert for the task to the user and records no key |
| `Scheduler.TaskScheduler.CheckPendingTasks` | CW/src/main/java/com/crm/util/TaskScheduler.java:71-102 | with notifications null or false nothing changes; otherwise it scans exactly the store's pending tasks and its new state is the fold CheckAll over them; the key list stays duplicate-free |
| `Scheduler.TaskScheduler.ClearNotificationStatus` | CW/src/main/java/com/crm/util/TaskScheduler.java:164-167 | removes both of the task's keys, keeps every other key and keeps the list duplicate-free |

## Left out

- The JavaFX user interface, the application entry point and sample data are not part of this model.
- Aliasing between the store and entity objects: the store keeps value snapshots. In Java, changing an entity through a setter after adding it also changes what the store holds. Here a changed entity reaches the store only through an add or update call.
- Identifiers are supplied by the caller instead of coming from `UUID.randomUUID()`. `LocalDateTime` is an integer count of minutes. A communication's timestamp is the `now` argument of its constructor, and the scheduler's clock is the `now` argument of `CheckPendingTasks`.
- `toLowerCase` lower-cases only the ASCII letters A to Z. Unicode case mapping is not modelled.
- Null string fields in entities, and the NullPointerException they would raise in the searches or the constructors, are not modelled: entity strings and the due date are never null. Null is modelled only where the source tests for it: the search parameters, `reminderTime`, and the `notificationsEnabled` setting.
- Observer registration (`registerObserver`, `removeObserver`) and running the callbacks are not modelled. Callbacks might re-enter the store. Each notification is recorded as one `StoreEvent` in `events`, whether or not an observer is registered.
- The singleton `getInstance` and its `synchronized` are not modelled. Neither is the general settings map (`updateSetting`/`getSetting` with any key and value, the unused `reminderTimeInHours`, and a ClassCastException from a non-Boolean flag). Only the `notificationsEnabled` flag is kept, as `Option<bool>`.
- `java.util.Timer`, `start`, `setNotificationHandler`, `stop`, `Platform.runLater`, `Alert`, the `System.out` messages and the customer-name lookup inside `sendReminder` and `sendOverdueReminder` are not modelled. A send is modelled as appending a `Notice` to `sent`.
- `HashMap` iteration order is not modelled. The list-valued queries over all customers (`GetPendingTasks`, `SearchTasks`, `SearchCommunications`, `FilterTasks`) are specified by the multiset of their result. The order of the result across customers is unspecified.
- Manager.CRMManager.SearchCustomers: returns a set of customer values, not a list. Under `Valid()` every customer is filed under its own id, so distinct entries are distinct values, and only the list order is lost.
- Manager.CRMManager.FilterCustomers: returns a set of customer values, not a list. Under `Valid()` no two stored customers are equal values, so nothing is lost except the list order.
- Manager.CRMManager.GetCommunicationStats: returns the count itself, not a one-entry map keyed by "totalCommunications".
- `hasRecentCommunication` is modelled as the predicate `CRMManager.HasRecentCommunication` with an explicit `now`. It has no contract of its own; `RecentCommunicationMonotone` states how it depends on `days`. `getAllCustomers` (`GetAllCustomers`) is used only by `SearchCustomersUnfiltered`. `nameContains`, `emailContains`, `phoneContains` and `hasRole` are predicate values used by the search lemmas. The predicates are values rather than closures over the store.
- The `toString` methods and the getters are not modelled separately. A getter is a field read.

/**
 * The reminder poller (com.crm.util.TaskScheduler). On every tick it scans the
 * store's pending tasks and decides, per task, whether a reminder fires (the
 * reminder time has passed but the task is not yet due) and whether an overdue
 * alert fires (the due date has passed). It suppresses repeats by recording the
 * task id, or "overdue-" followed by the task id, in a list of notified keys.
 *
 * The decision is modelled as a fold over the pending tasks on a pair (notified
 * keys, notices sent so far); the timer is left out and the current time `now`
 * is an input.
 */
module Scheduler {
  import opened Wrappers
  import opened Collections
  import opened Tasks
  import opened Manager

  const OverduePrefix: string := "overdue-"

  /** The key under which the overdue alert of task `taskId` is recorded. */
  function OverdueKey(taskId: string): (k: string)
    ensures k != taskId
    ensures OverduePrefix <= k
  {
    OverduePrefix + taskId
  }

  /** Different tasks have different overdue keys. */
  lemma OverdueKeyInjective(a: string, b: string)
    requires OverdueKey(a) == OverdueKey(b)
    ensures a == b
  {
    assert a == OverdueKey(a)[|OverduePrefix|..];
    assert b == OverdueKey(b)[|OverduePrefix|..];
  }

  /** A notification handed to the user: sendReminder or sendOverdueReminder. */
  datatype Notice = Reminder(task: TaskData) | OverdueAlert(task: TaskData)

  /** The notified keys, in the order they were recorded, and the notices sent so far. */
  datatype SchedulerState = SchedulerState(notified: seq<string>, sent: seq<Notice>)

  /** One tick: the pending tasks the store returned and the time of the tick. */
  datatype Round = Round(pending: seq<TaskData>, now: int)

  /** The time test for a reminder: the task is open and `now` lies strictly between its reminder time and its due date. */
  predicate ReminderDue(t: TaskData, now: int) {
    !t.completed && t.reminderTime.Some? && t.reminderTime.value < now && now < t.dueDate
  }

  /** The time test for an overdue alert: the task is open and its due date lies strictly before `now`. */
  predicate OverdueDue(t: TaskData, now: int) {
    !t.completed && t.dueDate < now
  }

  /** What one task of the scan does: at most one reminder, then at most one overdue alert. */
  function CheckTask(s: SchedulerState, t: TaskData, now: int): (r: SchedulerState)
    ensures s.notified <= r.notified && s.sent <= r.sent
    ensures Reminder(t) in r.sent[|s.sent|..] <==> ReminderDue(t, now) && t.id !in s.notified
    ensures OverdueAlert(t) in r.sent[|s.sent|..] <==> OverdueDue(t, now) && OverdueKey(t.id) !in s.notified
    ensures ReminderDue(t, now) ==> t.id in r.notified
    ensures OverdueDue(t, now) ==> OverdueKey(t.id) in r.notified
    ensures t.dueDate == now ==> r == s
    ensures forall k | k in r.notified[|s.notified|..] :: k == t.id || k == OverdueKey(t.id)
    ensures forall n | n in r.sent[|s.sent|..] :: n.task == t
    ensures NoDup(s.notified) ==> NoDup(r.notified)
  {
    var s1 :=
      if ReminderDue(t, now) && t.id !in s.notified
      then SchedulerState(s.notified + [t.id], s.sent + [Reminder(t)])
      else s;
    if OverdueDue(t, now) && OverdueKey(t.id) !in s1.notified
    then SchedulerState(s1.notified + [OverdueKey(t.id)], s1.sent + [OverdueAlert(t)])
    else s1
  }

  /** One tick over the pending tasks `ts`, in the order the store returned them. */
  function CheckAll(s: SchedulerState, ts: seq<TaskData>, now: int): (r: SchedulerState)
    ensures s.notified <= r.notified && s.sent <= r.sent
    ensures NoDup(s.notified) ==> NoDup(r.notified)
    ensures forall n | n in r.sent[|s.sent|..] :: n.task in ts
    decreases |ts|
  {
    if ts == [] then s
    else
      var init, last := ts[..|ts| - 1], ts[|ts| - 1];
      var q := CheckAll(s, init, now);
      var r := CheckTask(q, last, now);
      assert r.sent[|s.sent|..] == q.sent[|s.sent|..] + r.sent[|q.sent|..];
      r
  }

  /** Successive ticks. */
  function RunRounds(s: SchedulerState, rounds: seq<Round>): SchedulerState
    decreases |rounds|
  {
    if rounds == [] then s
    else
      var last := rounds[|rounds| - 1];
      CheckAll(RunRounds(s, rounds[..|rounds| - 1]), last.pending, last.now)
  }

  /** clearNotificationStatus on the key list: drops the task's reminder key and its overdue key. */
  function ClearKeys(notified: seq<string>, taskId: string): (r: seq<string>)
    ensures NoDup(notified) ==> NoDup(r) && taskId !in r && OverdueKey(taskId) !in r
    ensures forall k | k in notified && k != taskId && k != OverdueKey(taskId) :: k in r
    ensures forall k | k in r :: k in notified
  {
    var r1 := RemoveFirst(notified, taskId);
    var r2 := RemoveFirst(r1, OverdueKey(taskId));
    RemoveFirstKeepsOthers(notified, taskId);
    RemoveFirstKeepsOthers(r1, OverdueKey(taskId));
    if NoDup(notified) then
      RemoveFirstNoDup(notified, taskId);
      RemoveFirstNoDup(r1, OverdueKey(taskId));
      r2
    else
      r2
  }

  /** The task's key state allows no further notice at time `now`: whatever is due has been recorded. */
  predicate Settled(s: SchedulerState, t: TaskData, now: int) {
    && (ReminderDue(t, now) ==> t.id in s.notified)
    && (OverdueDue(t, now) ==> OverdueKey(t.id) in s.notified)
  }

  /** After a tick, every task it scanned is settled for that time. */
  lemma {:induction false} CheckAllSettles(s: SchedulerState, ts: seq<TaskData>, now: int)
    ensures forall t | t in ts :: Settled(CheckAll(s, ts, now), t, now)
    decreases |ts|
  {
    if ts != [] {
      var init, last := ts[..|ts| - 1], ts[|ts| - 1];
      CheckAllSettles(s, init, now);
      var q := CheckAll(s, init, now);
      var r := CheckTask(q, last, now);
      assert ts == init + [last];
      forall t | t in ts ensures Settled(r, t, now) {
        if t != last {
          assert t in init;
          assert Settled(q, t, now);
          PrefixMembers(q.notified, r.notified);
        }
      }
    }
  }

  /** A tick over tasks that are all settled sends nothing and records nothing. */
  lemma {:induction false} SettledTickIsNoOp(s: SchedulerState, ts: seq<TaskData>, now: int)
    requires forall t | t in ts :: Settled(s, t, now)
    ensures CheckAll(s, ts, now) == s
    decreases |ts|
  {
    if ts != [] {
      var init := ts[..|ts| - 1];
      assert forall t | t in init :: t in ts;
      SettledTickIsNoOp(s, init, now);
    }
  }

  /**
   * Idempotence: a second tick at the same time over the same pending tasks, in
   * any order, sends nothing and records nothing.
   */
  lemma CheckTwiceSendsNothing(s: SchedulerState, ts: seq<TaskData>, again: seq<TaskData>, now: int)
    requires multiset(again) == multiset(ts)
    ensures CheckAll(CheckAll(s, ts, now), again, now) == CheckAll(s, ts, now)
  {
    CheckAllSettles(s, ts, now);
    forall t | t in again ensures Settled(CheckAll(s, ts, now), t, now) {
      assert t in multiset(ts);
    }
    SettledTickIsNoOp(CheckAll(s, ts, now), again, now);
  }

  /** How many reminders for task `id` have been sent. */
  function CountReminders(sent: seq<Notice>, id: string): nat
    decreases |sent|
  {
    if sent == [] then 0
    else
      var n := sent[|sent| - 1];
      CountReminders(sent[..|sent| - 1], id) + if n.Reminder? && n.task.id == id then 1 else 0
  }

  /** How many overdue alerts for task `id` have been sent. */
  function CountAlerts(sent: seq<Notice>, id: string): nat
    decreases |sent|
  {
    if sent == [] then 0
    else
      var n := sent[|sent| - 1];
      CountAlerts(sent[..|sent| - 1], id) + if n.OverdueAlert? && n.task.id == id then 1 else 0
  }

  /** Every notice sent is covered by its recorded key, and no key covers more than one notice. */
  ghost predicate Accounted(s: SchedulerState) {
    forall id ::
      && CountReminders(s.sent, id) <= (if id in s.notified then 1 else 0)
      && CountAlerts(s.sent, id) <= (if OverdueKey(id) in s.notified then 1 else 0)
  }

  /** Appending one notice adds one to the count of its own kind and task. */
  lemma CountSnoc(sent: seq<Notice>, n: Notice, id: string)
    ensures CountReminders(sent + [n], id) == CountReminders(sent, id) + if n.Reminder? && n.task.id == id then 1 else 0
    ensures CountAlerts(sent + [n], id) == CountAlerts(sent, id) + if n.OverdueAlert? && n.task.id == id then 1 else 0
  {
    assert (sent + [n])[..|sent|] == sent;
  }

  /** One task of the scan keeps every notice accounted for. */
  lemma CheckTaskAccounted(s: SchedulerState, t: TaskData, now: int)
    requires Accounted(s)
    ensures Accounted(CheckTask(s, t, now))
  {
    var s1 :=
      if ReminderDue(t, now) && t.id !in s.notified
      then SchedulerState(s.notified + [t.id], s.sent + [Reminder(t)])
      else s;
    forall id ensures
      && CountReminders(s1.sent, id) <= (if id in s1.notified then 1 else 0)
      && CountAlerts(s1.sent, id) <= (if OverdueKey(id) in s1.notified then 1 else 0)
    {
      if s1 != s {
        CountSnoc(s.sent, Reminder(t), id);
      }
    }
    var r := CheckTask(s, t, now);
    forall id ensures
      && CountReminders(r.sent, id) <= (if id in r.notified then 1 else 0)
      && CountAlerts(r.sent, id) <= (if OverdueKey(id) in r.notified then 1 else 0)
    {
      if r != s1 {
        CountSnoc(s1.sent, OverdueAlert(t), id);
        if OverdueKey(id) == OverdueKey(t.id) {
          OverdueKeyInjective(id, t.id);
        }
      }
    }
  }

  /** A whole tick keeps every notice accounted for. */
  lemma {:induction false} CheckAllAccounted(s: SchedulerState, ts: seq<TaskData>, now: int)
    requires Accounted(s)
    ensures Accounted(CheckAll(s, ts, now))
    decreases |ts|
  {
    if ts != [] {
      CheckAllAccounted(s, ts[..|ts| - 1], now);
      CheckTaskAccounted(CheckAll(s, ts[..|ts| - 1], now), ts[|ts| - 1], now);
    }
  }

  /**
   * Between clears, however many ticks run and whatever they scan, every task
   * gets at most one reminder and at most one overdue alert.
   */
  lemma {:induction false} AtMostOnceBetweenClears(notified: seq<string>, rounds: seq<Round>, id: string)
    ensures CountReminders(RunRounds(SchedulerState(notified, []), rounds).sent, id) <= 1
    ensures CountAlerts(RunRounds(SchedulerState(notified, []), rounds).sent, id) <= 1
  {
    RoundsAccounted(SchedulerState(notified, []), rounds);
  }

  lemma {:induction false} RoundsAccounted(s: SchedulerState, rounds: seq<Round>)
    requires Accounted(s)
    ensures Accounted(RunRounds(s, rounds))
    decreases |rounds|
  {
    if rounds != [] {
      var last := rounds[|rounds| - 1];
      RoundsAccounted(s, rounds[..|rounds| - 1]);
      CheckAllAccounted(RunRounds(s, rounds[..|rounds| - 1]), last.pending, last.now);
    }
  }

  /** Once a task's keys are cleared, both its notifications can fire again. */
  lemma ClearReenables(s: SchedulerState, t: TaskData, now: int)
    requires NoDup(s.notified)
    ensures var c := SchedulerState(ClearKeys(s.notified, t.id), s.sent);
      && (Reminder(t) in CheckTask(c, t, now).sent[|c.sent|..] <==> ReminderDue(t, now))
      && (OverdueAlert(t) in CheckTask(c, t, now).sent[|c.sent|..] <==> OverdueDue(t, now))
  {
  }

  /** A key found in a list is still found once the list has grown. */
  lemma PrefixMembers<T>(a: seq<T>, b: seq<T>)
    requires a <= b
    ensures forall x | x in a :: x in b
  {
    assert forall i | 0 <= i < |a| :: a[i] == b[i];
  }

  class TaskScheduler {
    const crmManager: CRMManager
    var notifiedTaskIds: seq<string>
    var sent: seq<Notice>

    /** Every add is guarded by a membership test, so no key is recorded twice. */
    ghost predicate Valid()
      reads this
    {
      NoDup(notifiedTaskIds)
    }

    function State(): SchedulerState
      reads this
    {
      SchedulerState(notifiedTaskIds, sent)
    }

    constructor (crmManager: CRMManager)
      ensures Valid()
      ensures this.crmManager == crmManager && notifiedTaskIds == [] && sent == []
    {
      this.crmManager := crmManager;
      notifiedTaskIds := [];
      sent := [];
    }

    /** sendReminder: hands a reminder for `task` to the user. */
    method SendReminder(task: TaskData)
      modifies this
      ensures sent == old(sent) + [Reminder(task)] && notifiedTaskIds == old(notifiedTaskIds)
    {
      sent := sent + [Reminder(task)];
    }

    /** sendOverdueReminder: hands an overdue alert for `task` to the user. */
    method SendOverdueReminder(task: TaskData)
      modifies this
      ensures sent == old(sent) + [OverdueAlert(task)] && notifiedTaskIds == old(notifiedTaskIds)
    {
      sent := sent + [OverdueAlert(task)];
    }

    /**
     * checkPendingTasks at time `now`: nothing happens unless notifications are
     * switched on; otherwise the pending tasks, in the order the store returns
     * them (`examined`), are checked one by one.
     */
    method CheckPendingTasks(now: int) returns (ghost examined: seq<TaskData>)
      requires Valid()
      modifies this
      ensures Valid()
      ensures crmManager.notificationsEnabled != Some(true) ==> examined == [] && State() == old(State())
      ensures crmManager.notificationsEnabled == Some(true) ==>
        multiset(examined) == Gather(crmManager.tasks, crmManager.tasks.Keys, IsPending)
      ensures State() == CheckAll(old(State()), examined, now)
    {
      examined := [];
      if crmManager.notificationsEnabled.None? || !crmManager.notificationsEnabled.value {
        return;
      }
      var pendingTasks := crmManager.GetPendingTasks();
      examined := pendingTasks;
      var i := 0;
      while i < |pendingTasks|
        invariant 0 <= i <= |pendingTasks|
        invariant State() == CheckAll(old(State()), pendingTasks[..i], now)
        invariant Valid()
      {
        var task := pendingTasks[i];
        assert pendingTasks[..i + 1][..i] == pendingTasks[..i];
        if ReminderDue(task, now) && task.id !in notifiedTaskIds {
          SendReminder(task);
          notifiedTaskIds := notifiedTaskIds + [task.id];
        }
        if OverdueDue(task, now) && OverdueKey(task.id) !in notifiedTaskIds {
          SendOverdueReminder(task);
          notifiedTaskIds := notifiedTaskIds + [OverdueKey(task.id)];
        }
        i := i + 1;
      }
      assert pendingTasks[..i] == pendingTasks;
    }

    /** clearNotificationStatus: forgets both keys of task `taskId`, so its notifications can fire again. */
    method ClearNotificationStatus(taskId: string)
      requires Valid()
      modifies this
      ensures Valid()
      ensures notifiedTaskIds == ClearKeys(old(notifiedTaskIds), taskId)
      ensures taskId !in notifiedTaskIds && OverdueKey(taskId) !in notifiedTaskIds
      ensures sent == old(sent)
    {
      ghost var before := notifiedTaskIds;
      notifiedTaskIds := RemoveFirst(notifiedTaskIds, taskId);
      notifiedTaskIds := RemoveFirst(notifiedTaskIds, OverdueKey(taskId));
      assert notifiedTaskIds == ClearKeys(before, taskId);
    }
  }
}

/**
 * The application's in-memory store (com.crm.patterns.CRMManager): customers
 * keyed by id, and per-customer lists of communications and tasks keyed by
 * customer id. Observer callbacks are recorded as an event log; the settings map
 * is reduced to the one setting the scheduler reads, `notificationsEnabled`,
 * which may be absent (`None`, a null lookup).
 */
module Manager {
  import opened Wrappers
  import opened Collections
  import opened Text
  import opened Customers
  import opened Tasks
  import opened Communications

  /** What the store tells its observers after each change. */
  datatype StoreEvent =
    | CustomerAdded(customer: CustomerData)
    | CustomerUpdated(customer: CustomerData)
    | CustomerDeleted(customer: CustomerData)
    | CommunicationAdded(communication: CommunicationData)
    | CommunicationUpdated(communication: CommunicationData)
    | TaskAdded(task: TaskData)
    | TaskUpdated(task: TaskData)

  /** The two counters of getTaskCompletionStats. */
  datatype TaskStats = TaskStats(totalTasks: nat, completedTasks: nat)

  const AllRoles: string := "All Roles"
  const AllTypes: string := "All Types"
  const MinutesPerDay: int := 24 * MinutesPerHour

  /** A search is restricted to one customer when it names a non-null, non-empty customer id. */
  predicate Restricts(customerId: Option<string>) {
    customerId.Some? && customerId.value != ""
  }

  /** searchCustomers' text test: an empty (lower-cased) term, or one of the five text fields contains it, ignoring case. */
  predicate MatchesSearch(c: CustomerData, termLower: string) {
    || termLower == ""
    || Contains(Lower(c.name), termLower)
    || Contains(Lower(c.email), termLower)
    || Contains(Lower(c.phone), termLower)
    || Contains(Lower(c.role), termLower)
    || Contains(Lower(c.notes), termLower)
  }

  /** searchCustomers' role test: no role, the "All Roles" choice, or exactly the customer's role. */
  predicate MatchesRole(c: CustomerData, role: Option<string>) {
    role.None? || role.value == AllRoles || c.role == role.value
  }

  /** nameContains: the name contains `text`, ignoring case. */
  function NameContains(text: string): CustomerData -> bool {
    (c: CustomerData) => Contains(Lower(c.name), Lower(text))
  }

  /** emailContains: the e-mail address contains `text`, ignoring case. */
  function EmailContains(text: string): CustomerData -> bool {
    (c: CustomerData) => Contains(Lower(c.email), Lower(text))
  }

  /** phoneContains: the phone number contains `text`, ignoring case. */
  function PhoneContains(text: string): CustomerData -> bool {
    (c: CustomerData) => Contains(Lower(c.phone), Lower(text))
  }

  /** The role contains `text`, ignoring case: searchCustomers' fourth text test. */
  function RoleContains(text: string): CustomerData -> bool {
    (c: CustomerData) => Contains(Lower(c.role), Lower(text))
  }

  /** The notes contain `text`, ignoring case: searchCustomers' fifth text test. */
  function NotesContains(text: string): CustomerData -> bool {
    (c: CustomerData) => Contains(Lower(c.notes), Lower(text))
  }

  /** searchCustomers' role test as a predicate value. */
  function RoleMatches(role: Option<string>): CustomerData -> bool {
    (c: CustomerData) => MatchesRole(c, role)
  }

  /** hasRole: the role is exactly `role`. */
  function HasRole(role: string): CustomerData -> bool {
    (c: CustomerData) => c.role == role
  }

  /** searchTasks' test: every task when completed ones are shown, otherwise only the open ones. */
  function TaskFilter(showCompleted: bool): TaskData -> bool {
    (t: TaskData) => showCompleted || !t.completed
  }

  /** searchCommunications' type test: no type, the "All Types" choice, or exactly the communication's type. */
  predicate KindMatches(kind: string, wanted: Option<string>) {
    wanted.None? || wanted.value == AllTypes || kind == wanted.value
  }

  /** searchCommunications' tag test: no tag search, an empty one, or some tag contains it, ignoring case. */
  predicate TagMatches(tags: seq<string>, tagSearch: Option<string>) {
    || tagSearch.None?
    || tagSearch.value == ""
    || exists i :: 0 <= i < |tags| && Contains(Lower(tags[i]), Lower(tagSearch.value))
  }

  /** searchCommunications' combined test. */
  function CommunicationFilter(kind: Option<string>, tagSearch: Option<string>): CommunicationData -> bool {
    (c: CommunicationData) => KindMatches(c.kind, kind) && TagMatches(c.tags, tagSearch)
  }

  class CRMManager {
    var customers: map<string, CustomerData>
    var communications: map<string, seq<CommunicationData>>
    var tasks: map<string, seq<TaskData>>
    var notificationsEnabled: Option<bool>
    var events: seq<StoreEvent>

    /**
     * Every customer is stored under its own id, and every communication and
     * task is stored in the list of the customer it refers to.
     */
    ghost predicate Valid()
      reads this
    {
      && (forall id | id in customers :: customers[id].id == id)
      && (forall id | id in communications :: forall c | c in communications[id] :: c.customerId == id)
      && (forall id | id in tasks :: forall t | t in tasks[id] :: t.customerId == id)
    }

    /** An empty store with notifications switched on. */
    constructor ()
      ensures Valid()
      ensures customers == map[] && communications == map[] && tasks == map[]
      ensures notificationsEnabled == Some(true) && events == []
    {
      customers := map[];
      communications := map[];
      tasks := map[];
      notificationsEnabled := Some(true);
      events := [];
    }

    /** getCustomer: the customer stored under `id`, or none (a null result). */
    function GetCustomer(id: string): (r: Option<CustomerData>)
      reads this
      ensures r.Some? <==> id in customers
      ensures Valid() && r.Some? ==> r.value.id == id
    {
      if id in customers then Some(customers[id]) else None
    }

    /** getCustomerCommunications: the customer's communications in insertion order, or an empty list. */
    function GetCustomerCommunications(customerId: string): (r: seq<CommunicationData>)
      reads this
      ensures customerId !in communications ==> r == []
      ensures Valid() ==> forall c | c in r :: c.customerId == customerId
    {
      if customerId in communications then communications[customerId] else []
    }

    /** getCustomerTasks: the customer's tasks in insertion order, or an empty list. */
    function GetCustomerTasks(customerId: string): (r: seq<TaskData>)
      reads this
      ensures customerId !in tasks ==> r == []
      ensures Valid() ==> forall t | t in r :: t.customerId == customerId
    {
      if customerId in tasks then tasks[customerId] else []
    }

    /** getAllCustomers: every stored customer. */
    function GetAllCustomers(): set<CustomerData>
      reads this
    {
      customers.Values
    }

    /** addCustomer: stores `customer` under its id, replacing whatever was there. */
    method AddCustomer(customer: CustomerData)
      requires Valid()
      modifies this
      ensures Valid()
      ensures GetCustomer(customer.id) == Some(customer)
      ensures forall id | id != customer.id :: GetCustomer(id) == old(GetCustomer(id))
      ensures customers == old(customers)[customer.id := customer]
      ensures communications == old(communications) && tasks == old(tasks)
      ensures notificationsEnabled == old(notificationsEnabled)
      ensures events == old(events) + [CustomerAdded(customer)]
    {
      customers := customers[customer.id := customer];
      events := events + [CustomerAdded(customer)];
    }

    /** updateCustomer: replaces the customer with the same id; does nothing when the id is unknown. */
    method UpdateCustomer(customer: CustomerData)
      requires Valid()
      modifies this
      ensures Valid()
      ensures customer.id !in old(customers) ==> customers == old(customers) && events == old(events)
      ensures customer.id in old(customers) ==>
        && customers == old(customers)[customer.id := customer]
        && events == old(events) + [CustomerUpdated(customer)]
      ensures customers.Keys == old(customers.Keys)
      ensures communications == old(communications) && tasks == old(tasks)
      ensures notificationsEnabled == old(notificationsEnabled)
    {
      if customer.id in customers {
        customers := customers[customer.id := customer];
        events := events + [CustomerUpdated(customer)];
      }
    }

    /** deleteCustomer: removes the customer with its communications and tasks; does nothing when the id is unknown. */
    method DeleteCustomer(customerId: string)
      requires Valid()
      modifies this
      ensures Valid()
      ensures customerId !in old(customers) ==>
        && customers == old(customers) && communications == old(communications) && tasks == old(tasks)
        && events == old(events)
      ensures customerId in old(customers) ==>
        && customers == old(customers) - {customerId}
        && communications == old(communications) - {customerId}
        && tasks == old(tasks) - {customerId}
        && events == old(events) + [CustomerDeleted(old(customers)[customerId])]
      ensures GetCustomer(customerId) == None
      ensures notificationsEnabled == old(notificationsEnabled)
    {
      if customerId in customers {
        var customer := customers[customerId];
        customers := customers - {customerId};
        communications := communications - {customerId};
        tasks := tasks - {customerId};
        events := events + [CustomerDeleted(customer)];
      }
    }

    /** addCommunication: appends to the list of the communication's customer, creating the list first if needed. */
    method AddCommunication(communication: CommunicationData)
      requires Valid()
      modifies this
      ensures Valid()
      ensures communications ==
        old(communications)[communication.customerId := old(GetCustomerCommunications(communication.customerId)) + [communication]]
      ensures forall id | id != communication.customerId :: GetCustomerCommunications(id) == old(GetCustomerCommunications(id))
      ensures customers == old(customers) && tasks == old(tasks)
      ensures notificationsEnabled == old(notificationsEnabled)
      ensures events == old(events) + [CommunicationAdded(communication)]
    {
      var customerId := communication.customerId;
      if customerId !in communications {
        communications := communications[customerId := []];
      }
      communications := communications[customerId := communications[customerId] + [communication]];
      events := events + [CommunicationAdded(communication)];
    }

    /**
     * updateCommunication: in the list of the communication's customer, replaces the
     * first entry with the same id; does nothing when there is no list or no such entry.
     */
    method UpdateCommunication(communication: CommunicationData)
      requires Valid()
      modifies this
      ensures Valid()
      ensures communication.customerId !in old(communications) ==> communications == old(communications)
      ensures communication.customerId in old(communications) ==>
        communications == old(communications)[communication.customerId :=
          ReplaceFirst(old(communications)[communication.customerId], Communications.HasId(communication.id), communication)]
      ensures communications.Keys == old(communications.Keys)
      ensures events == old(events) +
        if communication.customerId in old(communications)
           && FindFirst(old(communications)[communication.customerId], Communications.HasId(communication.id)).Some?
        then [CommunicationUpdated(communication)] else []
      ensures customers == old(customers) && tasks == old(tasks)
      ensures notificationsEnabled == old(notificationsEnabled)
    {
      var customerId := communication.customerId;
      if customerId in communications {
        var list := communications[customerId];
        var i := 0;
        while i < |list|
          invariant 0 <= i <= |list|
          invariant communications == old(communications) && events == old(events)
          invariant forall j :: 0 <= j < i ==> !Communications.HasId(communication.id)(list[j])
        {
          if list[i].id == communication.id {
            ReplaceAtFirstMatch(list, Communications.HasId(communication.id), i, communication);
            UpdateMembers(list, i, communication);
            communications := communications[customerId := list[i := communication]];
            events := events + [CommunicationUpdated(communication)];
            break;
          }
          i := i + 1;
        }
      }
    }

    /** addTask: appends to the list of the task's customer, creating the list first if needed. */
    method AddTask(task: TaskData)
      requires Valid()
      modifies this
      ensures Valid()
      ensures tasks == old(tasks)[task.customerId := old(GetCustomerTasks(task.customerId)) + [task]]
      ensures forall id | id != task.customerId :: GetCustomerTasks(id) == old(GetCustomerTasks(id))
      ensures customers == old(customers) && communications == old(communications)
      ensures notificationsEnabled == old(notificationsEnabled)
      ensures events == old(events) + [TaskAdded(task)]
    {
      var customerId := task.customerId;
      if customerId !in tasks {
        tasks := tasks[customerId := []];
      }
      tasks := tasks[customerId := tasks[customerId] + [task]];
      events := events + [TaskAdded(task)];
    }

    /**
     * updateTask: in the list of the task's customer, replaces the first entry with
     * the same id; does nothing when there is no list or no such entry.
     */
    method UpdateTask(task: TaskData)
      requires Valid()
      modifies this
      ensures Valid()
      ensures task.customerId !in old(tasks) ==> tasks == old(tasks)
      ensures task.customerId in old(tasks) ==>
        tasks == old(tasks)[task.customerId := ReplaceFirst(old(tasks)[task.customerId], Tasks.HasId(task.id), task)]
      ensures tasks.Keys == old(tasks.Keys)
      ensures forall id | id in tasks :: |tasks[id]| == |old(tasks)[id]|
      ensures events == old(events) +
        if task.customerId in old(tasks) && FindFirst(old(tasks)[task.customerId], Tasks.HasId(task.id)).Some?
        then [TaskUpdated(task)] else []
      ensures customers == old(customers) && communications == old(communications)
      ensures notificationsEnabled == old(notificationsEnabled)
    {
      var customerId := task.customerId;
      if customerId in tasks {
        var list := tasks[customerId];
        var i := 0;
        while i < |list|
          invariant 0 <= i <= |list|
          invariant tasks == old(tasks) && events == old(events)
          invariant forall j :: 0 <= j < i ==> !Tasks.HasId(task.id)(list[j])
        {
          if list[i].id == task.id {
            ReplaceAtFirstMatch(list, Tasks.HasId(task.id), i, task);
            UpdateMembers(list, i, task);
            tasks := tasks[customerId := list[i := task]];
            events := events + [TaskUpdated(task)];
            break;
          }
          i := i + 1;
        }
      }
    }

    /** getPendingTasks: every stored task that is not completed, in an unspecified order. */
    method GetPendingTasks() returns (pending: seq<TaskData>)
      ensures multiset(pending) == Gather(tasks, tasks.Keys, IsPending)
      ensures forall t :: t in pending <==> !t.completed && exists id :: id in tasks && t in tasks[id]
    {
      pending := CollectAll(tasks, IsPending);
      forall t ensures t in pending <==> !t.completed && exists id :: id in tasks && t in tasks[id] {
        GatherMember(tasks, tasks.Keys, IsPending, t);
      }
    }

    /**
     * searchTasks: the tasks of the named customer, or of every customer when no
     * customer id is given, keeping completed ones only when `showCompleted`.
     */
    method SearchTasks(customerId: Option<string>, showCompleted: bool) returns (results: seq<TaskData>)
      ensures Restricts(customerId) ==> results == Filter(GetCustomerTasks(customerId.value), TaskFilter(showCompleted))
      ensures !Restricts(customerId) ==> multiset(results) == Gather(tasks, tasks.Keys, TaskFilter(showCompleted))
      ensures Valid() && Restricts(customerId) ==> forall t | t in results :: t.customerId == customerId.value
      ensures !showCompleted ==> forall t | t in results :: !t.completed
    {
      if Restricts(customerId) {
        results := AppendMatching([], GetCustomerTasks(customerId.value), TaskFilter(showCompleted));
      } else {
        results := CollectAll(tasks, TaskFilter(showCompleted));
        forall t | t in results ensures showCompleted || !t.completed {
          assert t in multiset(results);
          GatherMember(tasks, tasks.Keys, TaskFilter(showCompleted), t);
        }
      }
    }

    /**
     * searchCommunications: the communications of the named customer, or of every
     * customer when no customer id is given, that match the type and the tag search.
     */
    method SearchCommunications(customerId: Option<string>, kind: Option<string>, tagSearch: Option<string>)
      returns (results: seq<CommunicationData>)
      ensures Restricts(customerId) ==>
        results == Filter(GetCustomerCommunications(customerId.value), CommunicationFilter(kind, tagSearch))
      ensures !Restricts(customerId) ==>
        multiset(results) == Gather(communications, communications.Keys, CommunicationFilter(kind, tagSearch))
      ensures Valid() && Restricts(customerId) ==> forall c | c in results :: c.customerId == customerId.value
    {
      if Restricts(customerId) {
        results := AppendMatching([], GetCustomerCommunications(customerId.value), CommunicationFilter(kind, tagSearch));
      } else {
        results := CollectAll(communications, CommunicationFilter(kind, tagSearch));
      }
    }

    /** searchCustomers: the customers that match the search term (ignoring case) and the role. */
    function SearchCustomers(searchTerm: Option<string>, role: Option<string>): (r: set<CustomerData>)
      reads this
      ensures r <= customers.Values
      ensures forall c | c in r :: MatchesRole(c, role)
      ensures forall c | c in r && searchTerm.Some? && searchTerm.value != "" ::
        || Contains(Lower(c.name), Lower(searchTerm.value))
        || Contains(Lower(c.email), Lower(searchTerm.value))
        || Contains(Lower(c.phone), Lower(searchTerm.value))
        || Contains(Lower(c.role), Lower(searchTerm.value))
        || Contains(Lower(c.notes), Lower(searchTerm.value))
      ensures forall c | c in customers.Values && MatchesRole(c, role) && searchTerm.Some? && Contains(Lower(c.name), Lower(searchTerm.value)) :: c in r
    {
      var termLower := Lower(if searchTerm.Some? then searchTerm.value else "");
      set c | c in customers.Values && MatchesSearch(c, termLower) && MatchesRole(c, role)
    }

    /** filterCustomers: the customers that satisfy `filter`. */
    function FilterCustomers(filter: CustomerData -> bool): (r: set<CustomerData>)
      reads this
      ensures r <= customers.Values
      ensures forall c | c in r :: filter(c)
      ensures forall c | c in customers.Values && filter(c) :: c in r
    {
      set c | c in customers.Values && filter(c)
    }

    /** hasPendingTasks: the customer has a task that is not completed. */
    predicate HasPendingTasks(customer: CustomerData)
      reads this
    {
      exists t | t in GetCustomerTasks(customer.id) :: !t.completed
    }

    /** hasRecentCommunication: some communication of the customer is later than `days` days before `now`. */
    predicate HasRecentCommunication(customer: CustomerData, days: int, now: int)
      reads this
    {
      exists c | c in GetCustomerCommunications(customer.id) :: c.timestamp > now - days * MinutesPerDay
    }

    /** getCommunicationStats: the number of stored communications, the sum of the list sizes. */
    method GetCommunicationStats() returns (totalCommunications: nat)
      ensures totalCommunications == |Gather(communications, communications.Keys, Always)|
    {
      totalCommunications := 0;
      var remaining := communications.Keys;
      while remaining != {}
        invariant remaining <= communications.Keys
        invariant totalCommunications + |Gather(communications, remaining, Always)|
                  == |Gather(communications, communications.Keys, Always)|
        decreases remaining
      {
        var k :| k in remaining;
        GatherPick(communications, remaining, k, Always);
        FilterKeepsAll(communications[k], Always);
        totalCommunications := totalCommunications + |communications[k]|;
        remaining := remaining - {k};
      }
    }

    /** getTaskCompletionStats: the number of stored tasks and how many of them are completed. */
    method GetTaskCompletionStats() returns (stats: TaskStats)
      ensures stats.totalTasks == |Gather(tasks, tasks.Keys, Always)|
      ensures stats.completedTasks == |Gather(tasks, tasks.Keys, IsCompleted)|
      ensures stats.completedTasks <= stats.totalTasks
    {
      var total, completed := 0, 0;
      var remaining := tasks.Keys;
      while remaining != {}
        invariant remaining <= tasks.Keys
        invariant total + |Gather(tasks, remaining, Always)| == |Gather(tasks, tasks.Keys, Always)|
        invariant completed + |Gather(tasks, remaining, IsCompleted)| == |Gather(tasks, tasks.Keys, IsCompleted)|
        invariant completed <= total
        decreases remaining
      {
        var k :| k in remaining;
        var list := tasks[k];
        total := total + |list|;
        var done := CountMatching(list, IsCompleted);
        completed := completed + done;
        GatherPick(tasks, remaining, k, Always);
        GatherPick(tasks, remaining, k, IsCompleted);
        FilterKeepsAll(list, Always);
        remaining := remaining - {k};
      }
      stats := TaskStats(total, completed);
    }

    /** filterTasks: every stored task that satisfies `filter`, in an unspecified order. */
    method FilterTasks(filter: TaskData -> bool) returns (results: seq<TaskData>)
      ensures multiset(results) == Gather(tasks, tasks.Keys, filter)
      ensures forall t | t in results :: filter(t)
    {
      results := CollectAll(tasks, filter);
      forall t | t in results ensures filter(t) {
        assert t in multiset(results);
        GatherMember(tasks, tasks.Keys, filter, t);
      }
    }

    /** updateSetting("notificationsEnabled", …): `None` stands for removing the setting (a null value). */
    method SetNotificationsEnabled(enabled: Option<bool>)
      modifies this
      ensures notificationsEnabled == enabled
      ensures customers == old(customers) && communications == old(communications) && tasks == old(tasks)
      ensures events == old(events)
    {
      notificationsEnabled := enabled;
    }
  }

  /** At the first match `i`, replacing position `i` is what ReplaceFirst does. */
  lemma ReplaceAtFirstMatch<T>(s: seq<T>, p: T -> bool, i: nat, x: T)
    requires i < |s| && p(s[i])
    requires forall j :: 0 <= j < i ==> !p(s[j])
    ensures FindFirst(s, p) == Some(i)
    ensures ReplaceFirst(s, p, x) == s[i := x]
  {
  }

  /** With no search term and no role filter, searchCustomers returns every customer. */
  lemma SearchCustomersUnfiltered(m: CRMManager, searchTerm: Option<string>, role: Option<string>)
    requires searchTerm.None? || searchTerm.value == ""
    requires role.None? || role.value == AllRoles
    ensures m.SearchCustomers(searchTerm, role) == m.GetAllCustomers()
  {
  }

  /** Searching by a role alone, without a term, is filtering with hasRole. */
  lemma SearchCustomersByRole(m: CRMManager, role: string)
    requires role != AllRoles
    ensures m.SearchCustomers(None, Some(role)) == m.FilterCustomers(HasRole(role))
    ensures m.SearchCustomers(Some(""), Some(role)) == m.FilterCustomers(HasRole(role))
  {
  }

  /**
   * Searching by a term finds exactly the customers that one of the five field tests
   * (name, e-mail, phone, role, notes) finds, and among them those matching the role.
   */
  lemma SearchCustomersByText(m: CRMManager, term: string, role: Option<string>)
    ensures m.SearchCustomers(Some(term), role) ==
      (m.FilterCustomers(NameContains(term)) + m.FilterCustomers(EmailContains(term))
       + m.FilterCustomers(PhoneContains(term)) + m.FilterCustomers(RoleContains(term))
       + m.FilterCustomers(NotesContains(term)))
      * m.FilterCustomers(RoleMatches(role))
  {
    if term == "" {
      assert Lower(term) == "";
      forall c | c in m.customers.Values ensures NameContains(term)(c) {
        assert OccursAt(Lower(c.name), Lower(term), 0);
      }
    }
  }

  /** A longer look-back window never loses a recent communication. */
  lemma RecentCommunicationMonotone(m: CRMManager, customer: CustomerData, shorter: int, longer: int, now: int)
    requires shorter <= longer
    requires m.HasRecentCommunication(customer, shorter, now)
    ensures m.HasRecentCommunication(customer, longer, now)
  {
    var c :| c in m.GetCustomerCommunications(customer.id) && c.timestamp > now - shorter * MinutesPerDay;
    assert shorter * MinutesPerDay <= longer * MinutesPerDay;
  }

  /** With completed tasks shown, searchTasks keeps every task of the selected customers. */
  lemma SearchTasksShowingCompleted(m: CRMManager, customerId: string)
    ensures Filter(m.GetCustomerTasks(customerId), TaskFilter(true)) == m.GetCustomerTasks(customerId)
    ensures Gather(m.tasks, m.tasks.Keys, TaskFilter(true)) == Gather(m.tasks, m.tasks.Keys, Always)
  {
    FilterKeepsAll(m.GetCustomerTasks(customerId), TaskFilter(true));
    GatherSameFilter(m.tasks, m.tasks.Keys, TaskFilter(true), Always);
  }

  /** Without completed tasks and without a customer id, searchTasks returns what getPendingTasks returns. */
  lemma SearchTasksHidingCompleted(m: CRMManager)
    ensures Gather(m.tasks, m.tasks.Keys, TaskFilter(false)) == Gather(m.tasks, m.tasks.Keys, IsPending)
  {
    GatherSameFilter(m.tasks, m.tasks.Keys, TaskFilter(false), IsPending);
  }

  /** With no type and no tag search, searchCommunications keeps every communication of the selected customers. */
  lemma SearchCommunicationsUnfiltered(m: CRMManager, customerId: string, kind: Option<string>, tagSearch: Option<string>)
    requires kind.None? || kind.value == AllTypes
    requires tagSearch.None? || tagSearch.value == ""
    ensures Filter(m.GetCustomerCommunications(customerId), CommunicationFilter(kind, tagSearch))
            == m.GetCustomerCommunications(customerId)
    ensures Gather(m.communications, m.communications.Keys, CommunicationFilter(kind, tagSearch))
            == Gather(m.communications, m.communications.Keys, Always)
  {
    FilterKeepsAll(m.GetCustomerCommunications(customerId), CommunicationFilter(kind, tagSearch));
    GatherSameFilter(m.communications, m.communications.Keys, CommunicationFilter(kind, tagSearch), Always);
  }

  /** Every stored task is either completed or pending: the completed count plus the pending count is the total. */
  lemma CompletedPlusPendingIsTotal(m: CRMManager)
    ensures |Gather(m.tasks, m.tasks.Keys, IsCompleted)| + |Gather(m.tasks, m.tasks.Keys, IsPending)|
            == |Gather(m.tasks, m.tasks.Keys, Always)|
  {
    GatherSplit(m.tasks, m.tasks.Keys, IsCompleted, IsPending);
  }

  /** hasPendingTasks holds of a customer exactly when getPendingTasks would return one of its tasks. */
  lemma HasPendingTasksIffPending(m: CRMManager, customer: CustomerData)
    requires m.Valid()
    ensures m.HasPendingTasks(customer) <==>
            exists t :: t in Gather(m.tasks, m.tasks.Keys, IsPending) && t.customerId == customer.id
  {
    if m.HasPendingTasks(customer) {
      var t :| t in m.GetCustomerTasks(customer.id) && !t.completed;
      GatherMember(m.tasks, m.tasks.Keys, IsPending, t);
    }
    if exists t :: t in Gather(m.tasks, m.tasks.Keys, IsPending) && t.customerId == customer.id {
      var t :| t in Gather(m.tasks, m.tasks.Keys, IsPending) && t.customerId == customer.id;
      GatherMember(m.tasks, m.tasks.Keys, IsPending, t);
      var k :| k in m.tasks && t in m.tasks[k];
      assert t in m.GetCustomerTasks(customer.id);
    }
  }
}

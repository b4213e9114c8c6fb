/**
 The persisted rows of the employee/task tracker: the `users`, `employees`
 and `tasks` tables, the task status enumeration, and the table constraints
 (uniqueness, the tasks-to-employee relationship) as predicates over maps
 from primary key to row.
 */
module Models {

  datatype Option<T> = None | Some(value: T)

  /** A point in time (creation stamps, due dates); its encoding is irrelevant here. */
  type Timestamp = int

  /** The closed set of task states; any state may follow any other. */
  datatype TaskStatus = Pending | Ongoing | Completed

  /** The string each status is stored and exchanged as. */
  function StatusValue(s: TaskStatus): string
  {
    match s
    case Pending => "pending"
    case Ongoing => "ongoing"
    case Completed => "completed"
  }

  /** Reads a status back from its string; any other string is not a status. */
  function ParseStatus(v: string): (r: Option<TaskStatus>)
    ensures r.Some? <==> v in {"pending", "ongoing", "completed"}
  {
    if v == "pending" then Some(Pending)
    else if v == "ongoing" then Some(Ongoing)
    else if v == "completed" then Some(Completed)
    else None
  }

  lemma StatusRoundTrip(s: TaskStatus)
    ensures ParseStatus(StatusValue(s)) == Some(s)
  {
  }

  lemma ParseStatusInverse(v: string)
    ensures ParseStatus(v).Some? ==> StatusValue(ParseStatus(v).value) == v
  {
  }

  /** There are exactly three statuses, and their stored strings are distinct. */
  lemma {:induction false} ExactlyThreeStatuses()
    ensures (set s: TaskStatus | true :: StatusValue(s)) == {"pending", "ongoing", "completed"}
  {
    var values := set s: TaskStatus | true :: StatusValue(s);
    assert StatusValue(Pending) in values && StatusValue(Ongoing) in values && StatusValue(Completed) in values;
  }

  /** The status a task row receives when its insert does not name one. */
  const DefaultStatus: TaskStatus := Pending

  /** A row of `users`. */
  datatype User = User(id: int, username: string, hashedPassword: string, createdAt: Timestamp)

  /** A row of `employees`; every text column is NOT NULL. */
  datatype Employee = Employee(
    id: int,
    name: string,
    email: string,
    department: string,
    position: string,
    createdAt: Timestamp)

  /**
   A row of `tasks`. `title` is NOT NULL; `description`, `status`, `dueDate`
   and `employeeId` are nullable columns, `employeeId` naming an employee row.
   */
  datatype Task = Task(
    id: int,
    title: string,
    description: Option<string>,
    status: Option<TaskStatus>,
    dueDate: Option<Timestamp>,
    employeeId: Option<int>,
    createdAt: Timestamp)

  /** Each table is keyed by its rows' primary keys. */
  predicate UsersKeyed(users: map<int, User>)
  {
    forall k | k in users :: users[k].id == k
  }

  predicate EmployeesKeyed(employees: map<int, Employee>)
  {
    forall k | k in employees :: employees[k].id == k
  }

  predicate TasksKeyed(tasks: map<int, Task>)
  {
    forall k | k in tasks :: tasks[k].id == k
  }

  /** The UNIQUE constraint on `users.username`. */
  predicate UsernamesUnique(users: map<int, User>)
  {
    forall i, j | i in users && j in users && users[i].username == users[j].username :: i == j
  }

  /** The UNIQUE constraint on `employees.email`. */
  predicate EmailsUnique(employees: map<int, Employee>)
  {
    forall i, j | i in employees && j in employees && employees[i].email == employees[j].email :: i == j
  }

  predicate EmailTaken(employees: map<int, Employee>, email: string)
  {
    exists k | k in employees :: employees[k].email == email
  }

  predicate UsernameTaken(users: map<int, User>, username: string)
  {
    exists k | k in users :: users[k].username == username
  }

  /** Referential integrity: every assigned task names a live employee. */
  predicate TasksReferToEmployees(tasks: map<int, Task>, employees: map<int, Employee>)
  {
    forall k | k in tasks && tasks[k].employeeId.Some? :: tasks[k].employeeId.value in employees
  }

  /** The `Employee.tasks` relationship: the tasks whose `employeeId` is that employee's id. */
  function TasksOf(tasks: map<int, Task>, employeeId: int): (r: map<int, Task>)
    ensures forall k :: k in r <==> k in tasks && tasks[k].employeeId == Some(employeeId)
    ensures forall k | k in r :: r[k] == tasks[k]
  {
    map k | k in tasks && tasks[k].employeeId == Some(employeeId) :: tasks[k]
  }

  /** The `Task.employee` relationship, the other side of `TasksOf`. */
  function EmployeeOf(employees: map<int, Employee>, employeeId: Option<int>): (r: Option<Employee>)
    ensures r.Some? <==> employeeId.Some? && employeeId.value in employees
    ensures EmployeesKeyed(employees) && r.Some? ==> Some(r.value.id) == employeeId && r.value in employees.Values
  {
    match employeeId
    case Some(k) => if k in employees then Some(employees[k]) else None
    case None => None
  }

  /** An employee owns no task exactly when no task row names its id. */
  lemma {:induction false} NoTasksIff(tasks: map<int, Task>, employeeId: int)
    ensures TasksOf(tasks, employeeId) == map[] <==>
            forall k | k in tasks :: tasks[k].employeeId != Some(employeeId)
  {
    if exists k | k in tasks :: tasks[k].employeeId == Some(employeeId) {
      var k :| k in tasks && tasks[k].employeeId == Some(employeeId);
      assert k in TasksOf(tasks, employeeId);
    }
  }

  /** The two sides of the relationship agree: a task belongs to `e` exactly when its employee is `e`. */
  lemma RelationshipIsSymmetric(tasks: map<int, Task>, employees: map<int, Employee>, k: int, e: int)
    requires EmployeesKeyed(employees) && k in tasks && e in employees
    ensures k in TasksOf(tasks, e) <==> EmployeeOf(employees, tasks[k].employeeId) == Some(employees[e])
  {
  }
}

/**
 Request payloads and response shapes of the tracker's API. A create
 payload carries every required field; an update payload is a patch whose
 fields are each absent (not sent), sent as null, or sent with a value.
 Responses are built from rows by reading their attributes; a response
 whose required field has no value in the row cannot be built.
 */
module Schemas {
  import opened Models

  /** One field of a partial update: `Absent` when the client did not send it. */
  datatype Patch<T> = Absent | Null | Value(value: T) {
    /** The value the field carries once sent; `None` for an explicit null. */
    function Sent(): Option<T>
      requires !Absent?
    {
      if Null? then None else Some(value)
    }
  }

  // ----- users -----

  /** Registration payload: both fields are required. */
  datatype UserCreate = UserCreate(username: string, password: string)

  /** A user as the API returns it: no password and no hash. */
  datatype UserOut = UserOut(id: int, username: string, createdAt: Timestamp)

  /** The user response: the row's id, username and creation stamp. */
  function UserView(u: User): (r: UserOut)
    ensures r.id == u.id && r.username == u.username && r.createdAt == u.createdAt
  {
    UserOut(u.id, u.username, u.createdAt)
  }

  /** The response does not depend on the stored hash, so it cannot reveal it. */
  lemma UserViewHidesHash(u: User, otherHash: string)
    ensures UserView(u) == UserView(u.(hashedPassword := otherHash))
  {
  }

  // ----- employees -----

  /** The employee fields every create payload carries (also the creation payload itself). */
  datatype EmployeeBase = EmployeeBase(name: string, email: string, department: string, position: string)

  type EmployeeCreate = EmployeeBase

  /** Employee patch: every field optional, and each may be sent as null. */
  datatype EmployeeUpdate = EmployeeUpdate(
    name: Patch<string>,
    email: Patch<string>,
    department: Patch<string>,
    position: Patch<string>)

  const NoEmployeeChanges := EmployeeUpdate(Absent, Absent, Absent, Absent)

  datatype EmployeeField = NameField | EmailField | DepartmentField | PositionField

  /** One `field = value` entry of an employee patch's sent fields; `None` is null. */
  datatype EmployeeAssignment =
    | SetName(name: Option<string>)
    | SetEmail(email: Option<string>)
    | SetDepartment(department: Option<string>)
    | SetPosition(position: Option<string>)
  {
    function Field(): EmployeeField
    {
      match this
      case SetName(_) => NameField
      case SetEmail(_) => EmailField
      case SetDepartment(_) => DepartmentField
      case SetPosition(_) => PositionField
    }
  }

  /**
   The sent fields of an employee patch, in declaration order, leaving out
   those the client did not send (`exclude_unset`).
   */
  function EmployeeUpdateData(p: EmployeeUpdate): (d: seq<EmployeeAssignment>)
    ensures |d| <= 4
    ensures d == [] <==> p == NoEmployeeChanges
  {
    (if p.name.Absent? then [] else [SetName(p.name.Sent())])
    + (if p.email.Absent? then [] else [SetEmail(p.email.Sent())])
    + (if p.department.Absent? then [] else [SetDepartment(p.department.Sent())])
    + (if p.position.Absent? then [] else [SetPosition(p.position.Sent())])
  }

  // ----- tasks -----

  /** Task creation payload: no status (the row default applies) and no distinction of null from unsent. */
  datatype TaskCreate = TaskCreate(
    title: string,
    description: Option<string>,
    dueDate: Option<Timestamp>,
    employeeId: Option<int>)

  /** Task patch: every field optional, status free to take any value, employee reassignable or clearable. */
  datatype TaskUpdate = TaskUpdate(
    title: Patch<string>,
    description: Patch<string>,
    status: Patch<TaskStatus>,
    dueDate: Patch<Timestamp>,
    employeeId: Patch<int>)

  const NoTaskChanges := TaskUpdate(Absent, Absent, Absent, Absent, Absent)

  datatype TaskField = TitleField | DescriptionField | StatusField | DueDateField | EmployeeIdField

  /** One `field = value` entry of a task patch's sent fields; `None` is null. */
  datatype TaskAssignment =
    | SetTitle(title: Option<string>)
    | SetDescription(description: Option<string>)
    | SetStatus(status: Option<TaskStatus>)
    | SetDueDate(dueDate: Option<Timestamp>)
    | SetEmployeeId(employeeId: Option<int>)
  {
    function Field(): TaskField
    {
      match this
      case SetTitle(_) => TitleField
      case SetDescription(_) => DescriptionField
      case SetStatus(_) => StatusField
      case SetDueDate(_) => DueDateField
      case SetEmployeeId(_) => EmployeeIdField
    }
  }

  /** The sent fields of a task patch, in declaration order (`exclude_unset`). */
  function TaskUpdateData(p: TaskUpdate): (d: seq<TaskAssignment>)
    ensures |d| <= 5
    ensures d == [] <==> p == NoTaskChanges
  {
    (if p.title.Absent? then [] else [SetTitle(p.title.Sent())])
    + (if p.description.Absent? then [] else [SetDescription(p.description.Sent())])
    + (if p.status.Absent? then [] else [SetStatus(p.status.Sent())])
    + (if p.dueDate.Absent? then [] else [SetDueDate(p.dueDate.Sent())])
    + (if p.employeeId.Absent? then [] else [SetEmployeeId(p.employeeId.Sent())])
  }

  // ----- responses -----

  /** A task as the API returns it: `status` is required, `employee` is the assigned employee if any. */
  datatype TaskOut = TaskOut(
    id: int,
    title: string,
    description: Option<string>,
    status: TaskStatus,
    dueDate: Option<Timestamp>,
    employeeId: Option<int>,
    createdAt: Timestamp,
    employee: Option<EmployeeBase>)

  /** An employee as the API returns it, with the tasks it owns. */
  datatype EmployeeOut = EmployeeOut(
    id: int,
    name: string,
    email: string,
    department: string,
    position: string,
    createdAt: Timestamp,
    tasks: set<TaskOut>)

  function EmployeeBaseOf(e: Employee): EmployeeBase
  {
    EmployeeBase(e.name, e.email, e.department, e.position)
  }

  /** Builds a task response; fails exactly when the row's status is null. */
  function TaskView(t: Task, employees: map<int, Employee>): (r: Option<TaskOut>)
    ensures r.Some? <==> t.status.Some?
    ensures r.Some? ==> r.value.id == t.id && Some(r.value.status) == t.status
    ensures r.Some? ==> && r.value.title == t.title && r.value.description == t.description
                        && r.value.dueDate == t.dueDate && r.value.employeeId == t.employeeId
                        && r.value.createdAt == t.createdAt
    ensures r.Some? ==> (r.value.employee.Some? <==> EmployeeOf(employees, t.employeeId).Some?)
    ensures r.Some? && EmployeeOf(employees, t.employeeId).Some? ==>
              r.value.employee == Some(EmployeeBaseOf(EmployeeOf(employees, t.employeeId).value))
  {
    match t.status
    case None => None
    case Some(s) =>
      var owner := match EmployeeOf(employees, t.employeeId)
        case Some(e) => Some(EmployeeBaseOf(e))
        case None => None;
      Some(TaskOut(t.id, t.title, t.description, s, t.dueDate, t.employeeId, t.createdAt, owner))
  }

  /** Every row of `tasks` can be returned (no null status). */
  predicate Presentable(tasks: map<int, Task>)
  {
    forall k | k in tasks :: tasks[k].status.Some?
  }

  /** Builds the responses for a set of rows: one per row, or none at all if any row cannot be returned. */
  function TaskViews(tasks: map<int, Task>, employees: map<int, Employee>): (r: Option<set<TaskOut>>)
    requires TasksKeyed(tasks)
    ensures r.Some? <==> Presentable(tasks)
    ensures r.Some? ==> forall k | k in tasks :: TaskView(tasks[k], employees).Some? && TaskView(tasks[k], employees).value in r.value
    ensures r.Some? ==> forall o | o in r.value :: o.id in tasks && TaskView(tasks[o.id], employees) == Some(o)
  {
    if Presentable(tasks) then
      Some(set k | k in tasks :: TaskView(tasks[k], employees).value)
    else
      None
  }

  /** Builds an employee response; fails exactly when one of its own tasks cannot be returned. */
  function EmployeeView(e: Employee, tasks: map<int, Task>, employees: map<int, Employee>): (r: Option<EmployeeOut>)
    requires TasksKeyed(tasks)
    ensures r.Some? <==> Presentable(TasksOf(tasks, e.id))
    ensures r.Some? ==> r.value.id == e.id && EmployeeBaseOf(e) == EmployeeBase(r.value.name, r.value.email, r.value.department, r.value.position)
    ensures r.Some? ==> r.value.createdAt == e.createdAt
    ensures r.Some? ==> forall k | k in tasks && tasks[k].employeeId == Some(e.id) ::
              TaskView(tasks[k], employees).Some? && TaskView(tasks[k], employees).value in r.value.tasks
    ensures r.Some? ==> forall o | o in r.value.tasks ::
              o.id in tasks && tasks[o.id].employeeId == Some(e.id) && TaskView(tasks[o.id], employees) == Some(o)
    ensures r.Some? ==> forall o | o in r.value.tasks :: o.employeeId == Some(e.id)
  {
    var owned := TasksOf(tasks, e.id);
    assert forall k | k in tasks && tasks[k].employeeId == Some(e.id) :: k in owned && owned[k] == tasks[k];
    match TaskViews(owned, employees)
    case None => None
    case Some(ts) => Some(EmployeeOut(e.id, e.name, e.email, e.department, e.position, e.createdAt, ts))
  }

  /** Every employee's own tasks can be returned. */
  predicate AllPresentable(employees: map<int, Employee>, tasks: map<int, Task>)
  {
    forall k | k in employees :: Presentable(TasksOf(tasks, employees[k].id))
  }

  /** Builds the responses for every employee, or none at all if any of them cannot be returned. */
  function EmployeeViews(employees: map<int, Employee>, tasks: map<int, Task>): (r: Option<set<EmployeeOut>>)
    requires EmployeesKeyed(employees) && TasksKeyed(tasks)
    ensures r.Some? <==> AllPresentable(employees, tasks)
    ensures r.Some? ==> forall k | k in employees :: EmployeeView(employees[k], tasks, employees).Some? && EmployeeView(employees[k], tasks, employees).value in r.value
    ensures r.Some? ==> forall o | o in r.value :: o.id in employees && EmployeeView(employees[o.id], tasks, employees) == Some(o)
  {
    if AllPresentable(employees, tasks) then
      Some(set k | k in employees :: EmployeeView(employees[k], tasks, employees).value)
    else
      None
  }
}

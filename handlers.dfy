/**
 The request handlers of the tracker over an in-memory store of the three
 tables. Each handler checks its guard (the row exists, the email is free,
 the referenced employee exists, the employee owns no task), then inserts,
 patches or deletes one row and builds the response. A write that a table
 constraint rejects at commit time (a NOT NULL column set to null, a
 duplicate email) leaves the store as it was and is a server error.
 */
module Handlers {
  import opened Models
  import opened Schemas

  /** The outcome of one request: a response body, or the HTTP error it raises. */
  datatype Result<T> = Ok(value: T) | NotFound | BadRequest | ServerError

  /** A response that cannot be built from the row fails validation: a server error. */
  function Respond<T>(v: Option<T>): (r: Result<T>)
    ensures r.Ok? <==> v.Some?
    ensures r.Ok? ==> v == Some(r.value)
    ensures !r.Ok? ==> r == ServerError
  {
    match v
    case Some(x) => Ok(x)
    case None => ServerError
  }

  const EmployeeDeleted := "Employee deleted successfully"
  const TaskDeleted := "Task deleted successfully"

  /**
   The existence checks on a payload's `employee_id` test it for truth, so
   an absent id, a null id and the id 0 all skip the check.
   */
  function ChecksEmployee(employeeId: Option<int>): (b: bool)
    ensures b <==> employeeId !in {None, Some(0)}
  {
    employeeId.Some? && employeeId.value != 0
  }

  /** The same truth test on a patch's `employee_id`: only a sent, non-zero id is checked. */
  function ChecksSentEmployee(employeeId: Patch<int>): (b: bool)
    ensures b <==> employeeId.Value? && employeeId.value != 0
  {
    !employeeId.Absent? && ChecksEmployee(employeeId.Sent())
  }

  // ----- partial updates: the reference semantics, field by field -----

  /** A NOT NULL column under a patch field (a null is rejected separately). */
  function Overlay<T>(current: T, p: Patch<T>): T
  {
    if p.Value? then p.value else current
  }

  /** A nullable column under a patch field: unsent keeps, null clears, a value sets. */
  function OverlayNullable<T>(current: Option<T>, p: Patch<T>): Option<T>
  {
    match p
    case Absent => current
    case Null => None
    case Value(v) => Some(v)
  }

  /** An employee patched by `p`; `None` when `p` nulls one of its NOT NULL columns. */
  function PatchEmployee(e: Employee, p: EmployeeUpdate): (r: Option<Employee>)
    ensures r.None? <==> p.name.Null? || p.email.Null? || p.department.Null? || p.position.Null?
    ensures r.Some? ==> r.value.id == e.id && r.value.createdAt == e.createdAt
  {
    if p.name.Null? || p.email.Null? || p.department.Null? || p.position.Null? then None
    else Some(e.(name := Overlay(e.name, p.name),
                 email := Overlay(e.email, p.email),
                 department := Overlay(e.department, p.department),
                 position := Overlay(e.position, p.position)))
  }

  /** A task patched by `p`; `None` when `p` nulls its NOT NULL title. */
  function PatchTask(t: Task, p: TaskUpdate): (r: Option<Task>)
    ensures r.None? <==> p.title == Null
    ensures r.Some? ==> r.value.id == t.id && r.value.createdAt == t.createdAt
  {
    if p.title.Null? then None
    else Some(t.(title := Overlay(t.title, p.title),
                 description := OverlayNullable(t.description, p.description),
                 status := OverlayNullable(t.status, p.status),
                 dueDate := OverlayNullable(t.dueDate, p.dueDate),
                 employeeId := OverlayNullable(t.employeeId, p.employeeId)))
  }

  /** Only the fields a patch sends change: identity, creation stamp and unsent fields stay. */
  lemma PatchEmployeeChangesOnlySent(e: Employee, p: EmployeeUpdate)
    requires PatchEmployee(e, p).Some?
    ensures var e' := PatchEmployee(e, p).value;
      && e'.id == e.id && e'.createdAt == e.createdAt
      && (p.name.Absent? ==> e'.name == e.name) && (p.name.Value? ==> e'.name == p.name.value)
      && (p.email.Absent? ==> e'.email == e.email) && (p.email.Value? ==> e'.email == p.email.value)
      && (p.department.Absent? ==> e'.department == e.department) && (p.department.Value? ==> e'.department == p.department.value)
      && (p.position.Absent? ==> e'.position == e.position) && (p.position.Value? ==> e'.position == p.position.value)
  {
  }

  lemma EmptyEmployeePatchIsIdentity(e: Employee)
    ensures PatchEmployee(e, NoEmployeeChanges) == Some(e)
  {
  }

  lemma PatchTaskChangesOnlySent(t: Task, p: TaskUpdate)
    requires PatchTask(t, p).Some?
    ensures var t' := PatchTask(t, p).value;
      && t'.id == t.id && t'.createdAt == t.createdAt
      && (p.title.Absent? ==> t'.title == t.title) && (p.title.Value? ==> t'.title == p.title.value)
      && (p.description.Absent? ==> t'.description == t.description)
      && (p.description.Null? ==> t'.description == None)
      && (p.description.Value? ==> t'.description == Some(p.description.value))
      && (p.status.Absent? ==> t'.status == t.status)
      && (p.status.Null? ==> t'.status == None)
      && (p.status.Value? ==> t'.status == Some(p.status.value))
      && (p.dueDate.Absent? ==> t'.dueDate == t.dueDate)
      && (p.dueDate.Null? ==> t'.dueDate == None)
      && (p.dueDate.Value? ==> t'.dueDate == Some(p.dueDate.value))
      && (p.employeeId.Absent? ==> t'.employeeId == t.employeeId)
      && (p.employeeId.Null? ==> t'.employeeId == None)
      && (p.employeeId.Value? ==> t'.employeeId == Some(p.employeeId.value))
  {
  }

  lemma EmptyTaskPatchIsIdentity(t: Task)
    ensures PatchTask(t, NoTaskChanges) == Some(t)
  {
  }

  /** An explicit null `employee_id` unassigns the task; a value reassigns it. */
  lemma PatchTaskAssignment(t: Task, p: TaskUpdate)
    requires !p.title.Null?
    ensures p.employeeId.Null? ==> PatchTask(t, p).value.employeeId == None
    ensures p.employeeId.Value? ==> PatchTask(t, p).value.employeeId == Some(p.employeeId.value)
  {
  }

  /** No status ordering: from any status a patch reaches any other. */
  lemma AnyStatusTransition(t: Task, s: TaskStatus)
    ensures PatchTask(t, NoTaskChanges.(status := Value(s))) == Some(t.(status := Some(s)))
  {
  }

  // ----- partial updates as the handlers run them: a loop over the sent fields -----

  /** One attribute assignment; `None` once a NOT NULL column has been set to null. */
  function AssignEmployee(e: Employee, a: EmployeeAssignment): Option<Employee>
  {
    match a
    case SetName(v) => if v.Some? then Some(e.(name := v.value)) else None
    case SetEmail(v) => if v.Some? then Some(e.(email := v.value)) else None
    case SetDepartment(v) => if v.Some? then Some(e.(department := v.value)) else None
    case SetPosition(v) => if v.Some? then Some(e.(position := v.value)) else None
  }

  /** The assignments of `d` made in order; a null on a NOT NULL column makes the whole write fail. */
  function ApplyEmployeeData(e: Employee, d: seq<EmployeeAssignment>): Option<Employee>
    decreases |d|
  {
    if d == [] then Some(e)
    else match ApplyEmployeeData(e, d[..|d| - 1])
      case None => None
      case Some(r) => AssignEmployee(r, d[|d| - 1])
  }

  /** One further list entry, of at most one assignment, on top of a partial result. */
  function StepEmployee(o: Option<Employee>, s: seq<EmployeeAssignment>): Option<Employee>
    requires |s| <= 1
  {
    if o.None? then None else if s == [] then o else AssignEmployee(o.value, s[0])
  }

  lemma ApplyEmployeeDataSnoc(e: Employee, a: seq<EmployeeAssignment>, s: seq<EmployeeAssignment>)
    requires |s| <= 1
    ensures ApplyEmployeeData(e, a + s) == StepEmployee(ApplyEmployeeData(e, a), s)
  {
    if s == [] {
      assert a + s == a;
    } else {
      assert (a + s)[..|a + s| - 1] == a;
    }
  }

  /** Each sent field of an employee patch, as one step of the loop. */
  lemma StepEmployeeFields(o: Option<Employee>, p: EmployeeUpdate)
    ensures StepEmployee(o, if p.name.Absent? then [] else [SetName(p.name.Sent())]) ==
      if o.None? || p.name.Null? then None else Some(o.value.(name := Overlay(o.value.name, p.name)))
    ensures StepEmployee(o, if p.email.Absent? then [] else [SetEmail(p.email.Sent())]) ==
      if o.None? || p.email.Null? then None else Some(o.value.(email := Overlay(o.value.email, p.email)))
    ensures StepEmployee(o, if p.department.Absent? then [] else [SetDepartment(p.department.Sent())]) ==
      if o.None? || p.department.Null? then None else Some(o.value.(department := Overlay(o.value.department, p.department)))
    ensures StepEmployee(o, if p.position.Absent? then [] else [SetPosition(p.position.Sent())]) ==
      if o.None? || p.position.Null? then None else Some(o.value.(position := Overlay(o.value.position, p.position)))
  {
  }

  /** Running the loop over the sent fields gives the field-by-field patch. */
  lemma {:induction false} EmployeeUpdateDataIsPatch(e: Employee, p: EmployeeUpdate)
    ensures ApplyEmployeeData(e, EmployeeUpdateData(p)) == PatchEmployee(e, p)
  {
    var n := if p.name.Absent? then [] else [SetName(p.name.Sent())];
    var m := if p.email.Absent? then [] else [SetEmail(p.email.Sent())];
    var dp := if p.department.Absent? then [] else [SetDepartment(p.department.Sent())];
    var ps := if p.position.Absent? then [] else [SetPosition(p.position.Sent())];
    assert EmployeeUpdateData(p) == n + m + dp + ps;
    var o1 := StepEmployee(Some(e), n);
    var o2 := StepEmployee(o1, m);
    var o3 := StepEmployee(o2, dp);
    var o4 := StepEmployee(o3, ps);
    assert ApplyEmployeeData(e, n + m + dp + ps) == o4 by {
      assert [] + n == n;
      ApplyEmployeeDataSnoc(e, [], n);
      ApplyEmployeeDataSnoc(e, n, m);
      ApplyEmployeeDataSnoc(e, n + m, dp);
      ApplyEmployeeDataSnoc(e, n + m + dp, ps);
    }
    assert o4 == PatchEmployee(e, p) by {
      StepEmployeeFields(Some(e), p);
      StepEmployeeFields(o1, p);
      StepEmployeeFields(o2, p);
      StepEmployeeFields(o3, p);
    }
  }

  /**
   Sets each sent field of `p` on `e` in turn. `violated` reports that a
   NOT NULL column was set to null, which makes the commit fail.
   */
  method ApplyEmployeeUpdate(e: Employee, p: EmployeeUpdate) returns (r: Employee, violated: bool)
    ensures violated <==> PatchEmployee(e, p).None?
    ensures !violated ==> PatchEmployee(e, p) == Some(r)
  {
    var data := EmployeeUpdateData(p);
    r, violated := e, false;
    for i := 0 to |data|
      invariant ApplyEmployeeData(e, data[..i]) == if violated then None else Some(r)
    {
      ghost var before := if violated then None else Some(r);
      assert ApplyEmployeeData(e, data[..i + 1]) == StepEmployee(before, [data[i]]) by {
        assert data[..i + 1] == data[..i] + [data[i]];
        ApplyEmployeeDataSnoc(e, data[..i], [data[i]]);
      }
      match data[i]
      case SetName(v) => if v.Some? { r := r.(name := v.value); } else { violated := true; }
      case SetEmail(v) => if v.Some? { r := r.(email := v.value); } else { violated := true; }
      case SetDepartment(v) => if v.Some? { r := r.(department := v.value); } else { violated := true; }
      case SetPosition(v) => if v.Some? { r := r.(position := v.value); } else { violated := true; }
    }
    assert ApplyEmployeeData(e, data) == PatchEmployee(e, p) by {
      EmployeeUpdateDataIsPatch(e, p);
    }
    assert data[..|data|] == data;
  }

  function AssignTask(t: Task, a: TaskAssignment): Option<Task>
  {
    match a
    case SetTitle(v) => if v.Some? then Some(t.(title := v.value)) else None
    case SetDescription(v) => Some(t.(description := v))
    case SetStatus(v) => Some(t.(status := v))
    case SetDueDate(v) => Some(t.(dueDate := v))
    case SetEmployeeId(v) => Some(t.(employeeId := v))
  }

  function ApplyTaskData(t: Task, d: seq<TaskAssignment>): Option<Task>
    decreases |d|
  {
    if d == [] then Some(t)
    else match ApplyTaskData(t, d[..|d| - 1])
      case None => None
      case Some(r) => AssignTask(r, d[|d| - 1])
  }

  function StepTask(o: Option<Task>, s: seq<TaskAssignment>): Option<Task>
    requires |s| <= 1
  {
    if o.None? then None else if s == [] then o else AssignTask(o.value, s[0])
  }

  lemma ApplyTaskDataSnoc(t: Task, a: seq<TaskAssignment>, s: seq<TaskAssignment>)
    requires |s| <= 1
    ensures ApplyTaskData(t, a + s) == StepTask(ApplyTaskData(t, a), s)
  {
    if s == [] {
      assert a + s == a;
    } else {
      assert (a + s)[..|a + s| - 1] == a;
    }
  }

  /** Each sent field of a task patch, as one step of the loop. */
  lemma StepTaskFields(o: Option<Task>, p: TaskUpdate)
    ensures StepTask(o, if p.title.Absent? then [] else [SetTitle(p.title.Sent())]) ==
      if o.None? || p.title.Null? then None else Some(o.value.(title := Overlay(o.value.title, p.title)))
    ensures StepTask(o, if p.description.Absent? then [] else [SetDescription(p.description.Sent())]) ==
      if o.None? then None else Some(o.value.(description := OverlayNullable(o.value.description, p.description)))
    ensures StepTask(o, if p.status.Absent? then [] else [SetStatus(p.status.Sent())]) ==
      if o.None? then None else Some(o.value.(status := OverlayNullable(o.value.status, p.status)))
    ensures StepTask(o, if p.dueDate.Absent? then [] else [SetDueDate(p.dueDate.Sent())]) ==
      if o.None? then None else Some(o.value.(dueDate := OverlayNullable(o.value.dueDate, p.dueDate)))
    ensures StepTask(o, if p.employeeId.Absent? then [] else [SetEmployeeId(p.employeeId.Sent())]) ==
      if o.None? then None else Some(o.value.(employeeId := OverlayNullable(o.value.employeeId, p.employeeId)))
  {
  }

  /** Running the loop over the sent fields gives the field-by-field patch. */
  lemma {:induction false} TaskUpdateDataIsPatch(t: Task, p: TaskUpdate)
    ensures ApplyTaskData(t, TaskUpdateData(p)) == PatchTask(t, p)
  {
    var ti := if p.title.Absent? then [] else [SetTitle(p.title.Sent())];
    var de := if p.description.Absent? then [] else [SetDescription(p.description.Sent())];
    var st := if p.status.Absent? then [] else [SetStatus(p.status.Sent())];
    var du := if p.dueDate.Absent? then [] else [SetDueDate(p.dueDate.Sent())];
    var em := if p.employeeId.Absent? then [] else [SetEmployeeId(p.employeeId.Sent())];
    assert TaskUpdateData(p) == ti + de + st + du + em;
    var o1 := StepTask(Some(t), ti);
    var o2 := StepTask(o1, de);
    var o3 := StepTask(o2, st);
    var o4 := StepTask(o3, du);
    var o5 := StepTask(o4, em);
    assert ApplyTaskData(t, ti + de + st + du + em) == o5 by {
      assert [] + ti == ti;
      ApplyTaskDataSnoc(t, [], ti);
      ApplyTaskDataSnoc(t, ti, de);
      ApplyTaskDataSnoc(t, ti + de, st);
      ApplyTaskDataSnoc(t, ti + de + st, du);
      ApplyTaskDataSnoc(t, ti + de + st + du, em);
    }
    assert o5 == PatchTask(t, p) by {
      StepTaskFields(Some(t), p);
      StepTaskFields(o1, p);
      StepTaskFields(o2, p);
      StepTaskFields(o3, p);
      StepTaskFields(o4, p);
    }
  }

  /**
   Sets each sent field of `p` on `t` in turn. `violated` reports that the
   NOT NULL title was set to null, which makes the commit fail.
   */
  method ApplyTaskUpdate(t: Task, p: TaskUpdate) returns (r: Task, violated: bool)
    ensures violated <==> PatchTask(t, p).None?
    ensures !violated ==> PatchTask(t, p) == Some(r)
  {
    var data := TaskUpdateData(p);
    r, violated := t, false;
    for i := 0 to |data|
      invariant ApplyTaskData(t, data[..i]) == if violated then None else Some(r)
    {
      ghost var before := if violated then None else Some(r);
      assert ApplyTaskData(t, data[..i + 1]) == StepTask(before, [data[i]]) by {
        assert data[..i + 1] == data[..i] + [data[i]];
        ApplyTaskDataSnoc(t, data[..i], [data[i]]);
      }
      match data[i]
      case SetTitle(v) => if v.Some? { r := r.(title := v.value); } else { violated := true; }
      case SetDescription(v) => r := r.(description := v);
      case SetStatus(v) => r := r.(status := v);
      case SetDueDate(v) => r := r.(dueDate := v);
      case SetEmployeeId(v) => r := r.(employeeId := v);
    }
    assert ApplyTaskData(t, data) == PatchTask(t, p) by {
      TaskUpdateDataIsPatch(t, p);
    }
    assert data[..|data|] == data;
  }

  // ----- the update-employee email guard -----

  /**
   The guard of the employee update: a sent, non-empty email that differs
   from the current one and is already some employee's email.
   */
  function EmailConflict(employees: map<int, Employee>, current: Employee, p: EmployeeUpdate): (b: bool)
    ensures b ==> p.email.Value? && p.email.value != current.email && EmailTaken(employees, p.email.value)
    ensures !b && p.email.Value? && p.email.value != "" ==>
              p.email.value == current.email || !EmailTaken(employees, p.email.value)
  {
    p.email.Value? && p.email.value != "" && p.email.value != current.email && EmailTaken(employees, p.email.value)
  }

  /**
   Past the guard, the table's UNIQUE constraint can only reject the write
   when the patch sends the empty email, which the guard's truth test lets through.
   */
  lemma GuardKeepsEmailsUnique(employees: map<int, Employee>, id: int, p: EmployeeUpdate)
    requires EmailsUnique(employees) && EmployeesKeyed(employees) && id in employees
    requires !EmailConflict(employees, employees[id], p) && PatchEmployee(employees[id], p).Some?
    requires p.email != Value("")
    ensures EmailsUnique(employees[id := PatchEmployee(employees[id], p).value])
  {
  }

  /** Creating a row from a payload: the new task takes the default status. */
  function NewTask(id: int, p: TaskCreate, now: Timestamp): (t: Task)
    ensures t.id == id && t.createdAt == now
    ensures t.title == p.title && t.description == p.description && t.dueDate == p.dueDate && t.employeeId == p.employeeId
    ensures t.status == Some(Pending)
  {
    Task(id, p.title, p.description, Some(DefaultStatus), p.dueDate, p.employeeId, now)
  }

  /** Creating a row from a payload: the row carries the payload's fields, the new id and the stamp. */
  function NewEmployee(id: int, p: EmployeeCreate, now: Timestamp): (e: Employee)
    ensures e.id == id && e.createdAt == now && EmployeeBaseOf(e) == p
  {
    Employee(id, p.name, p.email, p.department, p.position, now)
  }

  /**
   The three tables with the next primary key each will hand out, and the
   one-way password hash (an opaque function supplied at construction).
   */
  class Store {
    var users: map<int, User>
    var employees: map<int, Employee>
    var tasks: map<int, Task>
    var nextUserId: int
    var nextEmployeeId: int
    var nextTaskId: int
    const hash: string -> string

    /** The store's invariant: keyed tables, fresh keys ahead of all rows, the UNIQUE constraints. */
    ghost predicate Valid()
      reads this
    {
      && UsersKeyed(users) && EmployeesKeyed(employees) && TasksKeyed(tasks)
      && 1 <= nextUserId && 1 <= nextEmployeeId && 1 <= nextTaskId
      && (forall k | k in users :: 1 <= k < nextUserId)
      && (forall k | k in employees :: 1 <= k < nextEmployeeId)
      && (forall k | k in tasks :: 1 <= k < nextTaskId)
      && (forall k | k in tasks && tasks[k].employeeId.Some? :: tasks[k].employeeId.value < nextEmployeeId)
      && UsernamesUnique(users)
      && EmailsUnique(employees)
    }

    /** Referential integrity of `tasks.employee_id`. */
    ghost predicate Referential()
      reads this
    {
      TasksReferToEmployees(tasks, employees)
    }

    twostate predicate Untouched()
      reads this
    {
      && users == old(users) && employees == old(employees) && tasks == old(tasks)
      && nextUserId == old(nextUserId) && nextEmployeeId == old(nextEmployeeId) && nextTaskId == old(nextTaskId)
    }

    constructor (hash: string -> string)
      ensures Valid() && Referential()
      ensures users == map[] && employees == map[] && tasks == map[]
      ensures nextUserId == 1 && nextEmployeeId == 1 && nextTaskId == 1
      ensures this.hash == hash
    {
      users, employees, tasks := map[], map[], map[];
      nextUserId, nextEmployeeId, nextTaskId := 1, 1, 1;
      this.hash := hash;
    }

    // ----- users -----

    /** POST /register */
    method RegisterUser(u: UserCreate, now: Timestamp) returns (r: Result<UserOut>)
      requires Valid()
      modifies this
      ensures Valid() && (old(Referential()) ==> Referential())
      ensures UsernameTaken(old(users), u.username) ==> r == BadRequest && Untouched()
      ensures !UsernameTaken(old(users), u.username) ==>
        var row := User(old(nextUserId), u.username, hash(u.password), now);
        && old(nextUserId) !in old(users)
        && users == old(users)[old(nextUserId) := row]
        && nextUserId == old(nextUserId) + 1
        && employees == old(employees) && tasks == old(tasks)
        && nextEmployeeId == old(nextEmployeeId) && nextTaskId == old(nextTaskId)
        && r == Ok(UserView(row))
    {
      if UsernameTaken(users, u.username) {
        return BadRequest;
      }
      var row := User(nextUserId, u.username, hash(u.password), now);
      users := users[nextUserId := row];
      nextUserId := nextUserId + 1;
      r := Ok(UserView(row));
    }

    // ----- employees -----

    /** GET /employees: every employee, each with its tasks. */
    method ListEmployees() returns (r: Result<set<EmployeeOut>>)
      requires Valid()
      ensures r.Ok? <==> AllPresentable(employees, tasks)
      ensures !r.Ok? ==> r == ServerError
      ensures r.Ok? ==> forall k | k in employees :: EmployeeView(employees[k], tasks, employees).Some? && EmployeeView(employees[k], tasks, employees).value in r.value
      ensures r.Ok? ==> forall o | o in r.value :: o.id in employees && EmployeeView(employees[o.id], tasks, employees) == Some(o)
    {
      r := Respond(EmployeeViews(employees, tasks));
    }

    /** POST /employees */
    method CreateEmployee(p: EmployeeCreate, now: Timestamp) returns (r: Result<EmployeeOut>)
      requires Valid()
      modifies this
      ensures Valid() && (old(Referential()) ==> Referential())
      ensures EmailTaken(old(employees), p.email) ==> r == BadRequest && Untouched()
      ensures !EmailTaken(old(employees), p.email) ==>
        var id := old(nextEmployeeId);
        && id !in old(employees)
        && employees == old(employees)[id := NewEmployee(id, p, now)]
        && nextEmployeeId == id + 1
        && users == old(users) && tasks == old(tasks)
        && nextUserId == old(nextUserId) && nextTaskId == old(nextTaskId)
        && r == Ok(EmployeeOut(id, p.name, p.email, p.department, p.position, now, {}))
    {
      if EmailTaken(employees, p.email) {
        return BadRequest;
      }
      var id := nextEmployeeId;
      var row := NewEmployee(id, p, now);
      assert TasksOf(tasks, id) == map[] by {
        NoTasksIff(tasks, id);
      }
      employees := employees[id := row];
      nextEmployeeId := id + 1;
      ghost var views := TaskViews(TasksOf(tasks, id), employees);
      assert views == Some({}) by {
        assert Presentable(TasksOf(tasks, id));
        assert forall o :: o !in views.value;
        assert views.value == {};
      }
      r := Respond(EmployeeView(row, tasks, employees));
    }

    /** GET /employees/{id} */
    method GetEmployee(id: int) returns (r: Result<EmployeeOut>)
      requires Valid()
      ensures id !in employees ==> r == NotFound
      ensures id in employees ==> r == Respond(EmployeeView(employees[id], tasks, employees))
    {
      if id !in employees {
        return NotFound;
      }
      r := Respond(EmployeeView(employees[id], tasks, employees));
    }

    /** PUT /employees/{id} */
    method UpdateEmployee(id: int, p: EmployeeUpdate) returns (r: Result<EmployeeOut>)
      requires Valid()
      modifies this
      ensures Valid() && (old(Referential()) ==> Referential())
      ensures id !in old(employees) ==> r == NotFound && Untouched()
      ensures id in old(employees) && EmailConflict(old(employees), old(employees)[id], p) ==>
        r == BadRequest && Untouched()
      ensures id in old(employees) && !EmailConflict(old(employees), old(employees)[id], p) ==>
        match PatchEmployee(old(employees)[id], p)
        case None => r == ServerError && Untouched()
        case Some(e') =>
          if EmailsUnique(old(employees)[id := e']) then
            && employees == old(employees)[id := e']
            && users == old(users) && tasks == old(tasks)
            && nextUserId == old(nextUserId) && nextEmployeeId == old(nextEmployeeId) && nextTaskId == old(nextTaskId)
            && r == Respond(EmployeeView(e', tasks, employees))
          else
            r == ServerError && Untouched()
    {
      if id !in employees {
        return NotFound;
      }
      var current := employees[id];
      if EmailConflict(employees, current, p) {
        return BadRequest;
      }
      var patched, violated := ApplyEmployeeUpdate(current, p);
      if violated || !EmailsUnique(employees[id := patched]) {
        return ServerError;
      }
      PatchEmployeeChangesOnlySent(current, p);
      employees := employees[id := patched];
      r := Respond(EmployeeView(patched, tasks, employees));
    }

    /** DELETE /employees/{id}: refused while the employee owns a task. */
    method DeleteEmployee(id: int) returns (r: Result<string>)
      requires Valid()
      modifies this
      ensures Valid() && (old(Referential()) ==> Referential())
      ensures id !in old(employees) ==> r == NotFound && Untouched()
      ensures id in old(employees) && (exists k | k in old(tasks) :: old(tasks)[k].employeeId == Some(id)) ==>
        r == BadRequest && Untouched()
      ensures id in old(employees) && (forall k | k in old(tasks) :: old(tasks)[k].employeeId != Some(id)) ==>
        && employees == old(employees) - {id}
        && users == old(users) && tasks == old(tasks)
        && nextUserId == old(nextUserId) && nextEmployeeId == old(nextEmployeeId) && nextTaskId == old(nextTaskId)
        && r == Ok(EmployeeDeleted)
    {
      if id !in employees {
        return NotFound;
      }
      NoTasksIff(tasks, id);
      if TasksOf(tasks, id) != map[] {
        return BadRequest;
      }
      employees := employees - {id};
      r := Ok(EmployeeDeleted);
    }

    // ----- tasks -----

    /** GET /tasks */
    method ListTasks() returns (r: Result<set<TaskOut>>)
      requires Valid()
      ensures r.Ok? <==> Presentable(tasks)
      ensures !r.Ok? ==> r == ServerError
      ensures r.Ok? ==> forall k | k in tasks :: TaskView(tasks[k], employees).Some? && TaskView(tasks[k], employees).value in r.value
      ensures r.Ok? ==> forall o | o in r.value :: o.id in tasks && TaskView(tasks[o.id], employees) == Some(o)
    {
      r := Respond(TaskViews(tasks, employees));
    }

    /** POST /tasks */
    method CreateTask(p: TaskCreate, now: Timestamp) returns (r: Result<TaskOut>)
      requires Valid()
      modifies this
      ensures Valid()
      ensures old(Referential()) && p.employeeId != Some(0) ==> Referential()
      ensures ChecksEmployee(p.employeeId) && p.employeeId.value !in old(employees) ==> r == NotFound && Untouched()
      ensures !(ChecksEmployee(p.employeeId) && p.employeeId.value !in old(employees)) ==>
        var id := old(nextTaskId);
        && id !in old(tasks)
        && tasks == old(tasks)[id := NewTask(id, p, now)]
        && nextTaskId == id + 1
        && users == old(users) && employees == old(employees)
        && nextUserId == old(nextUserId) && nextEmployeeId == old(nextEmployeeId)
        && r == Respond(TaskView(NewTask(id, p, now), employees))
        && r.Ok? && r.value.id == id && r.value.status == Pending
    {
      if ChecksEmployee(p.employeeId) && p.employeeId.value !in employees {
        return NotFound;
      }
      var id := nextTaskId;
      var row := NewTask(id, p, now);
      tasks := tasks[id := row];
      nextTaskId := id + 1;
      r := Respond(TaskView(row, employees));
    }

    /** GET /tasks/{id} */
    method GetTask(id: int) returns (r: Result<TaskOut>)
      requires Valid()
      ensures id !in tasks ==> r == NotFound
      ensures id in tasks ==> r == Respond(TaskView(tasks[id], employees))
    {
      if id !in tasks {
        return NotFound;
      }
      r := Respond(TaskView(tasks[id], employees));
    }

    /** PUT /tasks/{id} */
    method UpdateTask(id: int, p: TaskUpdate) returns (r: Result<TaskOut>)
      requires Valid()
      modifies this
      ensures Valid()
      ensures old(Referential()) && p.employeeId != Value(0) ==> Referential()
      ensures id !in old(tasks) ==> r == NotFound && Untouched()
      ensures id in old(tasks) && ChecksSentEmployee(p.employeeId) && p.employeeId.value !in old(employees) ==>
        r == NotFound && Untouched()
      ensures id in old(tasks) && !(ChecksSentEmployee(p.employeeId) && p.employeeId.value !in old(employees)) ==>
        match PatchTask(old(tasks)[id], p)
        case None => r == ServerError && Untouched()
        case Some(t') =>
          && tasks == old(tasks)[id := t']
          && users == old(users) && employees == old(employees)
          && nextUserId == old(nextUserId) && nextEmployeeId == old(nextEmployeeId) && nextTaskId == old(nextTaskId)
          && r == Respond(TaskView(t', employees))
    {
      if id !in tasks {
        return NotFound;
      }
      if ChecksSentEmployee(p.employeeId) && p.employeeId.value !in employees {
        return NotFound;
      }
      var patched, violated := ApplyTaskUpdate(tasks[id], p);
      if violated {
        return ServerError;
      }
      PatchTaskChangesOnlySent(tasks[id], p);
      tasks := tasks[id := patched];
      r := Respond(TaskView(patched, employees));
    }

    /** DELETE /tasks/{id}: unconditional once the task exists. */
    method DeleteTask(id: int) returns (r: Result<string>)
      requires Valid()
      modifies this
      ensures Valid() && (old(Referential()) ==> Referential())
      ensures id !in old(tasks) ==> r == NotFound && Untouched()
      ensures id in old(tasks) ==>
        && tasks == old(tasks) - {id}
        && users == old(users) && employees == old(employees)
        && nextUserId == old(nextUserId) && nextEmployeeId == old(nextEmployeeId) && nextTaskId == old(nextTaskId)
        && r == Ok(TaskDeleted)
    {
      if id !in tasks {
        return NotFound;
      }
      tasks := tasks - {id};
      r := Ok(TaskDeleted);
    }
  }
}

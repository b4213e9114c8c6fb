/**
 Request sequences against a fresh store, with what each step returns,
 proved from the handlers' contracts alone.
 */
module Scenarios {
  import opened Models
  import opened Schemas
  import opened Handlers

  const John := EmployeeBase("John Doe", "john.doe@company.com", "Engineering", "Developer")

  /**
   Register, create an employee (id 1) and a task assigned to it (status
   pending); deleting the employee is refused while the task exists and
   succeeds once the task is gone.
   */
  method DeleteGuardScenario(hash: string -> string, now: Timestamp)
    returns (employeeId: int, status: TaskStatus, refused: Result<string>, deleted: Result<string>)
    ensures employeeId == 1 && status == Pending
    ensures refused == BadRequest && deleted == Ok(EmployeeDeleted)
  {
    var s := new Store(hash);
    var u := s.RegisterUser(UserCreate("admin", "admin123"), now);
    var e := s.CreateEmployee(John, now);
    employeeId := e.value.id;
    var t := s.CreateTask(TaskCreate("X", None, None, Some(employeeId)), now);
    status := t.value.status;
    refused := s.DeleteEmployee(employeeId);
    var dt := s.DeleteTask(t.value.id);
    assert s.tasks == map[];
    deleted := s.DeleteEmployee(employeeId);
  }

  /** Unassigning the only task by an explicit null `employee_id` also lifts the delete guard. */
  method UnassignScenario(hash: string -> string, now: Timestamp)
    returns (unassigned: Option<int>, deleted: Result<string>)
    ensures unassigned == None && deleted == Ok(EmployeeDeleted)
  {
    var s := new Store(hash);
    var e := s.CreateEmployee(John, now);
    var t := s.CreateTask(TaskCreate("X", None, None, Some(e.value.id)), now);
    var u := s.UpdateTask(t.value.id, NoTaskChanges.(employeeId := Null));
    unassigned := u.value.employeeId;
    deleted := s.DeleteEmployee(e.value.id);
  }

  /** The second create with the same email is refused and leaves one row with that email. */
  method DuplicateEmailScenario(hash: string -> string, now: Timestamp)
    returns (second: Result<EmployeeOut>, holders: set<int>)
    ensures second == BadRequest && |holders| == 1
  {
    var s := new Store(hash);
    var a := EmployeeBase("A", "a@x.com", "D", "P");
    var first := s.CreateEmployee(a, now);
    second := s.CreateEmployee(a.(name := "B"), now);
    holders := set k | k in s.employees && s.employees[k].email == "a@x.com";
    assert holders == {1};
  }

  /**
   The truth test on `employee_id` lets the id 0 through unchecked: the
   task is stored and names no employee.
   */
  method ZeroEmployeeIdScenario(hash: string -> string, now: Timestamp)
    returns (created: Result<TaskOut>, referential: bool)
    ensures created.Ok? && created.value.employeeId == Some(0) && created.value.employee == None
    ensures !referential
  {
    var s := new Store(hash);
    created := s.CreateTask(TaskCreate("X", None, None, Some(0)), now);
    referential := TasksReferToEmployees(s.tasks, s.employees);
  }

  /**
   An explicit null status is stored (the column is nullable), but the
   task can no longer be returned: the update and every later read of it fail.
   */
  method NullStatusScenario(hash: string -> string, now: Timestamp)
    returns (update: Result<TaskOut>, stored: Option<TaskStatus>, read: Result<TaskOut>)
    ensures update == ServerError && stored == None && read == ServerError
  {
    var s := new Store(hash);
    var t := s.CreateTask(TaskCreate("X", None, None, None), now);
    var id := t.value.id;
    update := s.UpdateTask(id, NoTaskChanges.(status := Null));
    stored := s.tasks[id].status;
    read := s.GetTask(id);
  }
}

# Employee/task tracker: the record store and its request handlers

This project models the core of a small employee/task tracking REST backend.
It has three tables: `users`, `employees` and `tasks`. A task may be assigned
to one employee. The request handlers register users and create, read, patch
and delete employees and tasks. Before each write they check a guard: the row
exists, the email is free, the referenced employee exists, the employee owns
no task. The project proves what each handler returns and how it changes the
store.

- `models.dfy` (module `Models`) holds the rows, the `TaskStatus`
  enumeration and the table constraints as predicates over maps from primary
  key to row. These are the UNIQUE username and email constraints and the
  `Employee.tasks` / `Task.employee` relationship. NOT NULL columns are plain
  values. Nullable columns are `Option`s. The task `status` column is one of
  the nullable ones.
- `schemas.dfy` (module `Schemas`) holds the request payloads and response
  shapes. Each update payload field is a `Patch`: `Absent` (not sent), `Null`
  (sent as null) or `Value(v)`. `EmployeeUpdateData` and `TaskUpdateData`
  list the fields a patch actually sends, in declaration order. A response
  is built from a row. It cannot be built when a field the response requires
  is null in the row.
- `handlers.dfy` (module `Handlers`) holds class `Store`: the three tables as
  maps, one next-id counter per table, and the password hash. It has one
  method per handler, each returning `Ok(body)`, `NotFound`, `BadRequest` or
  `ServerError`. The partial updates are loops that set each sent field on
  the fetched row (`ApplyEmployeeUpdate`, `ApplyTaskUpdate`). Each loop is
  proved equal to a field-by-field reference (`PatchEmployee`, `PatchTask`).
- `scenarios.dfy` (module `Scenarios`) holds request sequences against a
  fresh store. Each one is proved from the handlers' contracts alone.

`Store.Valid()` is the store invariant, kept by every handler:
- every row is stored under its own id;
- every id lies between 1 and the table's counter;
- usernames are unique;
- employee emails are unique;
- every assigned task's employee id lies below the employee counter, so a
  newly created employee owns no task.

`Store.Referential()` says every assigned task names a live employee. Every
handler keeps it, except in one case. The existence checks test
`employee_id` for truth, so an `employee_id` of 0 is never checked
(main.py:190, main.py:233). `CreateTask` and `UpdateTask` therefore keep
`Referential()` only when the payload does not send the id 0.
`Scenarios.ZeroEmployeeIdScenario` shows a task created with the id 0 that
names no employee. Employee ids start at 1, so no employee can have the id 0.

Behaviour that follows from the source and is modelled as such:
- Sending null for a NOT NULL column makes the commit fail. These columns are
  the employee name, email, department and position, and the task title. The
  request is then a `ServerError` and nothing changes.
- An empty email passes the update guard's truth test. This path is
  reachable in the model only, because email validation is left out. In the
  program, `EmailStr` (schemas.py:23, schemas.py:32) rejects the empty
  string before either handler runs. In the model, if another employee
  already has the empty email, the table's UNIQUE constraint fails the
  commit: a `ServerError`. `GuardKeepsEmailsUnique` shows that this is the
  only way the constraint can fire after the guard.
- An explicit null `status` is stored, because the column is nullable. The
  task response requires a status, so every later response that includes
  that task is a `ServerError`. This covers the update itself, `GetTask`,
  `ListTasks`, and the reads of the task's employee.
  `Scenarios.NullStatusScenario` shows it.

Where the code departs from the usual REST conventions, the model follows
the code:
- Duplicate usernames or emails and the delete guard are answered with
  `BadRequest` (HTTP 400), not a separate conflict status.
- The employee-existence check on tasks skips the id 0 and null.

## Model

| member | source | states |
|---|---|---|
| Models.ParseStatus | models.py:7-10 | a string names a status exactly when it is one of "pending", "ongoing", "completed" |
| Models.StatusRoundTrip | models.py:7-10 | reading back a status's stored string gives the same status |
| Models.ParseStatusInverse | models.py:7-10 | a string that reads as a status is that status's stored string |
| Models.ExactlyThreeStatuses | models.py:7-10 | the statuses' stored strings are exactly the three values pending, ongoing, completed |
| Models.TasksOf | models.py:31 | an employee's `tasks` relationship holds exactly the task rows whose `employee_id` is its id, unchanged |
| Models.EmployeeOf | models.py:46 | a task's `employee` relationship exists exactly when its `employee_id` names a stored employee, and then it is that employee |
| Models.NoTasksIff | models.py:30-31 | an employee's `tasks` relationship is empty exactly when no task row names its id (the delete guard's test) |
| Models.RelationshipIsSymmetric | models.py:45-46 | a task is among an employee's `tasks` exactly when that employee is the task's `employee` |
| Schemas.UserView | schemas.py:13-15 | the user response carries the row's id, username and creation stamp |
| Schemas.UserViewHidesHash | schemas.py:13-15 | the user response is the same whatever the stored hash, so it exposes neither password nor hash |
| Schemas.EmployeeUpdateData | main.py:142 | the sent fields of an employee patch: at most four, and none exactly when nothing is sent |
| Schemas.TaskUpdateData | main.py:241 | the sent fields of a task patch: at most five, and none exactly when nothing is sent |
| Schemas.TaskView | schemas.py:61-66 | a task response exists exactly when the row's status is not null; it carries the row's id, title, description, status, due date, `employee_id` and creation stamp, and its `employee` is the fields of the employee the task names, present exactly when that employee exists |
| Schemas.TaskViews | schemas.py:61-66 | a list of task responses exists exactly when no row has a null status; then each row's response is in it and each member is some row's response |
| Schemas.EmployeeView | schemas.py:36-39 | an employee response exists exactly when its own tasks can all be returned; it carries the employee's id, fields and creation stamp, and its tasks are exactly the responses of the task rows that name it |
| Schemas.EmployeeViews | schemas.py:36-39 | a list of employee responses exists exactly when every employee's response does, and then it holds each of them and nothing else |
| Handlers.ChecksEmployee | main.py:190 | the employee-existence check runs exactly when the payload's `employee_id` is neither absent, null nor 0 (the truth test) |
| Handlers.ChecksSentEmployee | main.py:233 | the update's employee-existence check runs exactly when the patch sends a non-zero `employee_id` |
| Handlers.PatchEmployee | main.py:142-146 | the field-by-field employee patch fails exactly when it nulls one of the NOT NULL columns, and keeps the id and creation stamp |
| Handlers.PatchTask | main.py:241-245 | the field-by-field task patch fails exactly when it nulls the title, and keeps the id and creation stamp |
| Handlers.PatchEmployeeChangesOnlySent | main.py:142-144 | an employee patch keeps the id and creation stamp, keeps unsent fields and sets sent ones |
| Handlers.EmptyEmployeePatchIsIdentity | schemas.py:30-34 | an employee patch that sends nothing leaves the employee unchanged |
| Handlers.PatchTaskChangesOnlySent | main.py:241-243 | a task patch keeps the id and creation stamp, keeps unsent fields, sets each sent value, and clears each nullable field sent as null |
| Handlers.EmptyTaskPatchIsIdentity | schemas.py:54-59 | a task patch that sends nothing leaves the task unchanged |
| Handlers.PatchTaskAssignment | schemas.py:59 | an explicit null `employee_id` unassigns the task; a sent id reassigns it |
| Handlers.AnyStatusTransition | schemas.py:57 | a patch moves a task from any status (or none) to any status: no ordering is enforced |
| Handlers.ApplyEmployeeDataSnoc | main.py:143-144 | setting one more field continues from the row the earlier fields produced, and a null set on a NOT NULL column stays a failure |
| Handlers.StepEmployeeFields | main.py:143-144 | setting one sent employee field changes that column alone; a null there fails |
| Handlers.EmployeeUpdateDataIsPatch | main.py:142-144 | setting the sent fields one after another gives the field-by-field patch, and fails exactly when a NOT NULL column is nulled |
| Handlers.ApplyEmployeeUpdate | main.py:142-144 | the setattr loop over the sent fields reports a NOT NULL violation exactly when the patch nulls a NOT NULL column, and otherwise yields the patched employee |
| Handlers.StepTaskFields | main.py:242-243 | setting one sent task field changes that column alone; a null title fails |
| Handlers.ApplyTaskDataSnoc | main.py:242-243 | setting one more task field continues from the row the earlier fields produced |
| Handlers.TaskUpdateDataIsPatch | main.py:241-243 | setting the sent task fields one after another gives the field-by-field patch, and fails exactly when the title is nulled |
| Handlers.ApplyTaskUpdate | main.py:241-243 | the setattr loop reports a violation exactly when the patch nulls the title, and otherwise yields the patched task |
| Handlers.EmailConflict | main.py:134-136 | the update guard fires only for a sent email that differs from the current one and is taken; a sent non-empty email passes it only when it is the current one or free |
| Handlers.GuardKeepsEmailsUnique | main.py:134-140 | once the email guard has let an update through, emails stay unique unless the patch sends an empty email (a case reachable in the model only, since email validation is left out) |
| Handlers.NewEmployee | main.py:99 | a new employee row carries the payload's fields, the new id and the creation stamp |
| Handlers.NewTask | main.py:198 | a new task row carries the payload's title, description, due date and `employee_id`, the new id and the creation stamp, and the default status pending (models.py:39) |
| Handlers.Store.RegisterUser | main.py:62-74 | a taken username gives BadRequest and no change; otherwise exactly one user with a fresh id, the given username and `hash(password)` is added, and the response is that user without the hash |
| Handlers.Store.ListEmployees | main.py:82-83 | the result holds exactly the responses of the stored employees; it fails, with ServerError, only when some employee's task cannot be returned |
| Handlers.Store.CreateEmployee | main.py:92-103 | an email held by any employee gives BadRequest and no change; otherwise exactly one employee with a fresh id and the given fields is added, it owns no task, and emails stay unique |
| Handlers.Store.GetEmployee | main.py:111-117 | an unknown id gives NotFound; otherwise the result is that employee's response, with its tasks |
| Handlers.Store.UpdateEmployee | main.py:126-148 | an unknown id gives NotFound and no change; a non-empty new email that another employee holds gives BadRequest and no change; a null on a NOT NULL column or a duplicate email at commit gives ServerError and no change; otherwise only that employee changes, to the field-by-field patch |
| Handlers.Store.DeleteEmployee | main.py:156-172 | an unknown id gives NotFound; an employee that some task names gives BadRequest; both leave the store unchanged; otherwise exactly that employee is removed, tasks untouched, and referential integrity is kept |
| Handlers.Store.ListTasks | main.py:180-181 | the result holds exactly the responses of the stored tasks; it fails, with ServerError, only when a task has a null status |
| Handlers.Store.CreateTask | main.py:190-202 | a non-zero `employee_id` naming no employee gives NotFound and no change; otherwise exactly one task with a fresh id, the payload's fields and status pending is added; referential integrity is kept unless the payload sends the id 0 |
| Handlers.Store.GetTask | main.py:210-216 | an unknown id gives NotFound; otherwise the result is that task's response |
| Handlers.Store.UpdateTask | main.py:225-247 | an unknown task, or a non-zero sent `employee_id` naming no employee, gives NotFound and no change; a null title gives ServerError and no change; otherwise only that task changes, to the field-by-field patch (an explicit null `employee_id` unassigns it); referential integrity is kept unless the id 0 is sent |
| Handlers.Store.DeleteTask | main.py:255-264 | an unknown id gives NotFound and no change; otherwise exactly that task is removed, unconditionally, and employees are untouched |
| Scenarios.DeleteGuardScenario | main.py:163-172 | after register, create employee (id 1) and create an assigned task (status pending), deleting the employee gives BadRequest; after the task is deleted, it succeeds |
| Scenarios.UnassignScenario | main.py:241-243 | unassigning the only task by a null `employee_id` lets the employee be deleted |
| Scenarios.DuplicateEmailScenario | main.py:92-97 | a second create with the same email gives BadRequest, and exactly one employee holds that email |
| Scenarios.ZeroEmployeeIdScenario | main.py:190-198 | a task created with `employee_id` 0 is stored unchecked, has no employee, and breaks referential integrity |
| Scenarios.NullStatusScenario | models.py:39 | an explicit null status is stored, and the update and later reads of that task give ServerError |

## Left out

- Login and tokens (`authenticate_user`, `create_access_token`, `get_current_user`, main.py:43-59): `auth.py` is not part of this model, and it relies on JWT signing and password hashing. Every domain handler is modelled as if the bearer-token check had passed, so no handler returns an unauthorised result.
- Handlers.Store.RegisterUser: the contract says the stored hash is `hash(password)` for an opaque `hash` supplied to the store. It does not say the plaintext differs from the stored value, because nothing is assumed about the hash function.
- FastAPI routing, dependency injection, CORS set-up (main.py:23-40) and the static root response (main.py:266-276): HTTP plumbing.
- Sessions, commits and transactions: each handler runs as one atomic step on the store, and concurrent requests (including lost updates between concurrent patches) are not modelled.
- Connectivity and other unexpected store failures: only constraint failures at commit are modelled.
- `updated_at` and its ORM `onupdate` hook (models.py:43): the column and the response field are left out because the value is a wall-clock time. `created_at` is the `now` parameter of each insert.
- Email format validation (`EmailStr`) and all request-body validation that happens before a handler runs: payloads reach the handlers as values of the payload types, and any string is accepted as an email.
- Foreign-key enforcement by the database engine (`database.py` is not part of this model): the store does not refuse a task that names no employee. An engine that enforces the foreign key would turn the id-0 writes into server errors.
- Id assignment: each table's counter hands out 1, 2, 3, … and never reuses an id. An engine may reuse the id of a deleted last row.
- List ordering (main.py:82, main.py:180, and the nested `tasks` list of an employee response, schemas.py:39): list results are sets.
- `init_db.py` (a one-off seeding script) and `test_api.py` (an HTTP client script).

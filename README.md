# Todo API core, modelled in Dafny

The repository implements one small todo API six times: in Python, Rust, Go,
Java, Node and Bun. Every backend has a `Todo` entity with the same state
machine:

- a new todo is incomplete;
- marking a completed todo as completed fails, and so does marking an
  incomplete todo as not completed;
- an update replaces the title and the description and keeps the id and the
  completion flag.

The use cases wrap a read-modify-write of a todo repository in a transaction.
This project models that core:

- **Entity and DTOs.** `Domain` holds the shared entity as a value
  (`TodoState`) and as a mutable `Todo` class. The per-language modules
  (`PyTodo`, `RustTodo`, `GoTodo`, `JavaTodo`) give the DTO and serialisation
  round trips. `Uuids` is the canonical lower-case hyphenated text form, and
  `PyUuid` is the Python validator.
- **Repositories.** `Storage` is the abstract table of todos. `Repository` is
  the Go `fakeTodoRepo` as a class with fault injection and a call log; it is
  also the shared repository for all the use cases. `FakeTx` is the Go
  `fakeTx` and the Rust `NoopTransactionService`. `RustTestSupport` is the
  Rust `InMemoryTodoRepository` and `insert_todo`.
- **Use cases.** `Workflow` holds the functional specification of the three
  use-case shapes (modify, delete, create). Every language's use-case method
  is proved equal to it and maps the outcome to its own errors: `PyUsecases`,
  `RustUsecases`, `GoUsecases`, `JavaUsecases`, `NodeUsecases` and
  `BunUsecases`.
- **Transaction runners.**
  - `RustTx` is the Rust context provider and the MySQL transaction runner.
  - `GoTx` is the Go runner, with panic recovery.
  - `PyTx` is the Python context provider and transaction service over a
    session with nested savepoints.
- **Pure mappings.** `RustErrors` maps Rust errors to HTTP responses. The
  persistence mappers are in `PyDataModel`, `GoDataModel`, `BunRepository`
  and `NodeRepository`; `JsTodo` holds the JavaScript `?? null`
  normalisation they share.

The database is an in-memory table that a transaction updates by replaying a
list of writes (`Storage.Apply`). SQL, the ORMs and the drivers are replaced
by that table.

## Model

| member | source | states |
|---|---|---|
| Domain.Created | backend_python/src/todo_api/domain/model/todo.py:16-20 | a new todo carries the given id, title and description and is not completed |
| Domain.Updated | backend_python/src/todo_api/domain/model/todo.py:38-40 | update sets exactly the title and description and keeps id and completion flag |
| Domain.Complete | backend_python/src/todo_api/domain/model/todo.py:42-45 | fails with TodoAlreadyCompleted exactly when the todo is completed, otherwise sets the flag and keeps the content |
| Domain.Uncomplete | backend_python/src/todo_api/domain/model/todo.py:47-50 | fails with TodoNotCompleted exactly when the todo is not completed, otherwise clears the flag and keeps the content |
| Domain.UncompleteUndoesComplete | backend_python/src/todo_api/domain/model/todo.py:42-50 | completing then uncompleting an incomplete todo gives it back unchanged |
| Domain.CompleteUndoesUncomplete | backend_python/src/todo_api/domain/model/todo.py:42-50 | uncompleting then completing a completed todo gives it back unchanged |
| Domain.TransitionsAreNotRepeatable | backend_rust/src/domain/model/todo.rs:67-81 | a successful transition cannot be repeated; the repeat reports the matching domain error |
| Domain.ExactlyOneTransitionApplies | backend_golang/domain/model/todo.go:21-35 | in every state exactly one of the two transitions succeeds |
| Domain.UpdateCommutesWithTransitions | backend_rust/src/domain/model/todo.rs:62-81 | an update neither enables nor disables a transition and commutes with it |
| Domain.Todo.constructor | backend_rust/src/domain/model/todo.rs:23-30 | the new object's state is the created todo |
| Domain.Todo.Reconstruct | backend_rust/src/domain/model/todo.rs:32-44 | the rebuilt object holds exactly the given fields |
| Domain.Todo.Update | backend_rust/src/domain/model/todo.rs:62-65 | the object's new state is the updated todo |
| Domain.Todo.MarkAsCompleted | backend_rust/src/domain/model/todo.rs:67-73 | returns the error of Complete and leaves the state alone, or moves to the completed state |
| Domain.Todo.MarkAsUncompleted | backend_rust/src/domain/model/todo.rs:75-81 | returns the error of Uncomplete and leaves the state alone, or moves to the uncompleted state |
| Domain.ToDto | backend_rust/src/domain/model/todo.rs:83-90 | the DTO carries the id as canonical text and every other field unchanged |
| Uuids.Parse | backend_rust/src/domain/model/todo.rs:93-103 | parsing succeeds exactly on hyphenated hexadecimal UUID text |
| Uuids.ToString | backend_rust/src/domain/model/todo.rs:85 | the text form is 36 characters, hyphenated and lower case; `Uuids.ParseToString`, `Uuids.ToStringParse` and `Uuids.ToStringInjective` prove it is the inverse of parsing |
| Uuids.ParseToString | backend_rust/src/domain/model/todo.rs:83-103 | parsing the text form of a UUID gives the UUID back |
| Uuids.ToStringParse | backend_rust/src/domain/model/todo.rs:83-103 | printing a parsed UUID gives the input text in lower case |
| Uuids.ToStringInjective | backend_rust/src/domain/model/todo.rs:85 | distinct UUIDs have distinct text forms |
| PyUuid.Version | backend_python/src/todo_api/utils/uuid.py:17 | `UUID.version`: `(int >> 76) & 0xf` when the variant bits `(int >> 62) & 0b11` are `0b10`, otherwise None |
| PyUuid.VersionAndVariantBits | backend_python/src/todo_api/utils/uuid.py:17 | in the 128-bit value of a UUID, bits 76-79 are its thirteenth hex digit and bits 62-63 the top two bits of its seventeenth |
| PyUuid.ValidateUuid | backend_python/src/todo_api/utils/uuid.py:14-19 | accepts exactly a UUID value of the requested version and returns it; reports a non-UUID or a wrong version |
| PyUuid.ParseUuid7 | backend_python/src/todo_api/utils/uuid.py:46-47 | succeeds exactly on well-formed UUID text, returning the parsed UUID, else reports the text |
| PyUuid.ValidateUuidAcceptsExactlyRfcVersion | backend_python/src/todo_api/utils/uuid.py:14-19 | for every requested version v, validation accepts exactly the UUIDs with version digit v and the RFC 9562 variant; a version of 16 or more is never accepted |
| PyUuid.ParseUuid7AcceptsEveryVersion | backend_python/src/todo_api/utils/uuid.py:46-47 | parse_uuid7 accepts the text of any UUID, including ones the validator refuses |
| PyTodo.FromDto | backend_python/src/todo_api/domain/model/todo.py:60-67 | succeeds exactly when the id parses and carries every field over |
| PyTodo.FromDtoToDto | backend_python/src/todo_api/domain/model/todo.py:52-67 | from_dto inverts to_dto |
| PyTodo.ToDtoFromDto | backend_python/src/todo_api/domain/model/todo.py:52-67 | to_dto inverts from_dto up to the case of the id text |
| RustTodo.FromDto | backend_rust/src/domain/model/todo.rs:93-103 | the todo carries the parsed id and every other field unchanged |
| RustTodo.FromToDto | backend_rust/src/domain/model/todo.rs:83-103 | the DTO's id always parses and the conversion from the DTO inverts to_dto |
| GoTodo.MarkAsCompleted | backend_golang/domain/model/todo.go:21-27 | a completed todo yields ErrTodoAlreadyCompleted and stays unchanged, otherwise it becomes completed |
| GoTodo.MarkAsNotCompleted | backend_golang/domain/model/todo.go:29-35 | an incomplete todo yields ErrTodoNotCompleted and stays unchanged, otherwise it becomes incomplete |
| GoTodo.CommandUpdateTodo.Update | backend_golang/domain/model/todo.go:37-45 | the command sets the title and description of the todo |
| GoTodo.Serialize | backend_golang/domain/model/todo.go:54-61 | the serialized form carries every field |
| GoTodo.DeserializeTodo | backend_golang/domain/model/todo.go:63-70 | the todo carries every serialized field |
| GoTodo.SerializeRoundTrips | backend_golang/domain/model/todo.go:47-70 | Serialize and DeserializeTodo are inverse in both directions |
| JavaTodo.Construct | backend_java/src/main/java/io/github/ikedadada/backend_java/domain/model/Todo.java:23-28 | a null id or title throws NullPointerException, otherwise the todo holds the arguments |
| JavaTodo.New | backend_java/src/main/java/io/github/ikedadada/backend_java/domain/model/Todo.java:30-32 | a null title throws, otherwise the todo is the created one |
| JavaTodo.GetDescription | backend_java/src/main/java/io/github/ikedadada/backend_java/domain/model/Todo.java:42-44 | the Optional is empty exactly when there is no description |
| JavaTodo.MarkAsCompleted | backend_java/src/main/java/io/github/ikedadada/backend_java/domain/model/Todo.java:50-55 | a completed todo throws TodoAlreadyCompleted and stays unchanged, otherwise it becomes completed |
| JavaTodo.MarkAsUndone | backend_java/src/main/java/io/github/ikedadada/backend_java/domain/model/Todo.java:57-62 | an incomplete todo throws TodoNotCompleted and stays unchanged, otherwise it becomes incomplete |
| JavaTodo.Update | backend_java/src/main/java/io/github/ikedadada/backend_java/domain/model/Todo.java:64-67 | a null title throws and changes nothing, otherwise title and description are replaced |
| JavaTodo.DtoOf | backend_java/src/main/java/io/github/ikedadada/backend_java/domain/model/Todo.java:76-81 | the DTO carries every field, the description through getDescription |
| JavaTodo.ToDomain | backend_java/src/main/java/io/github/ikedadada/backend_java/domain/model/Todo.java:83-86 | fails exactly on a null id or title, and a result maps back to the same DTO |
| JavaTodo.ToDomainDtoOf | backend_java/src/main/java/io/github/ikedadada/backend_java/domain/model/Todo.java:76-86 | toDomain inverts the DTO constructor |
| Storage.Saved | backend_golang/application_service/usecase/test_helper_test.go:45-57 | save stores the todo under its id and keeps every other row |
| Storage.Removed | backend_golang/application_service/usecase/test_helper_test.go:82-90 | delete removes exactly the todo's id |
| Storage.SavedKeepsKeyed | backend_golang/application_service/usecase/test_helper_test.go:45-57 | save keeps every row stored under its own id |
| Storage.RemovedKeepsKeyed | backend_golang/application_service/usecase/test_helper_test.go:82-90 | delete keeps every row stored under its own id |
| Storage.LastSaveWins | backend_golang/application_service/usecase/test_helper_test.go:45-57 | of two saves of one id the second wins |
| Storage.RemoveIsIdempotent | backend_golang/application_service/usecase/test_helper_test.go:82-90 | deleting twice is deleting once, and deleting a missing id changes nothing |
| Storage.RemoveCancelsSave | backend_golang/application_service/usecase/test_helper_test.go:45-90 | a delete after a save of the same id undoes the save |
| Storage.ApplyAppend | backend_rust/src/infrastructure/service/transaction_service.rs:45-67 | replaying two write lists one after the other is replaying their concatenation |
| Repository.Lookup | backend_golang/application_service/usecase/test_helper_test.go:59-68 | an injected error wins; otherwise the stored todo, or not-found |
| Repository.FindAfterSave | backend_golang/application_service/usecase/test_helper_test.go:45-68 | a saved todo is found again |
| Repository.FindAfterDelete | backend_golang/application_service/usecase/test_helper_test.go:59-90 | a deleted id is not found |
| Repository.LookupReturnsRequestedId | backend_golang/application_service/usecase/test_helper_test.go:59-68 | a found todo has the requested id |
| Repository.TodoRepo.constructor | backend_golang/application_service/usecase/test_helper_test.go:25-41 | the fake starts with the given rows, no injected errors and an empty log |
| Repository.TodoRepo.Save | backend_golang/application_service/usecase/test_helper_test.go:45-57 | logs the call; an injected error is returned and stores nothing, otherwise the todo is saved and remembered |
| Repository.TodoRepo.FindById | backend_golang/application_service/usecase/test_helper_test.go:59-68 | logs the call and answers the lookup without changing the store |
| Repository.TodoRepo.FindAll | backend_golang/application_service/usecase/test_helper_test.go:70-80 | an injected error is returned, otherwise a list holding every stored todo exactly once |
| Repository.TodoRepo.Delete | backend_golang/application_service/usecase/test_helper_test.go:82-90 | logs the call; an injected error is returned and deletes nothing, otherwise the id is removed |
| Repository.Enumerate | backend_golang/application_service/usecase/test_helper_test.go:75-79 | the list holds every stored todo once and nothing else |
| Repository.FakeTx.constructor | backend_golang/application_service/usecase/test_helper_test.go:93-102 | the fake transaction returns the configured error and has not run |
| Repository.FakeTx.Noop | backend_rust/src/application/usecase/mod.rs:52-65 | the no-op transaction service never refuses |
| Repository.FakeTx.Enter | backend_golang/application_service/usecase/test_helper_test.go:97-102 | returns the configured error without running the body, otherwise counts one run |
| Workflow.Modify | backend_python/src/todo_api/application_service/usecase/update_todo_usecase.py:37-44 | a failure leaves the store unchanged; success means the id was stored, the edit applied and the result saved |
| Workflow.Delete | backend_python/src/todo_api/application_service/usecase/delete_todo_usecase.py:32-38 | a failure leaves the store unchanged; success removes the found todo |
| Workflow.Create | backend_python/src/todo_api/application_service/usecase/create_todo_usecase.py:34-37 | exactly one save of the created todo; it succeeds exactly when the save does and then the todo is stored |
| Workflow.ModifyPropagatesErrors | backend_golang/application_service/usecase/update_todo_usecase.go:34-51 | each failure (transaction, find, not-found, guard, save) is returned unchanged, with the calls made before it and nothing after it |
| Workflow.GuardViolationSavesNothing | backend_python/src/todo_api/application_service/usecase/mark_as_completed_todo_usecase.py:36-45 | a transition the guard refuses reports the domain error and saves nothing |
| Workflow.ModifiedTodoIsReadBack | backend_rust/src/application/usecase/update_todo_usecase.rs:75-96 | after a modification the returned todo has the requested id and a later find returns it |
| Workflow.UpdateKeepsIdentityAndStatus | backend_rust/src/application/usecase/update_todo_usecase.rs:37-64 | update sets exactly title and description and keeps id and completion flag |
| Workflow.CompleteThenUncompleteRestoresStore | backend_rust/src/application/usecase/mark_as_uncompleted_todo_usecase.rs:59-74 | completing then uncompleting without faults restores the store exactly |
| Workflow.DeleteRemovesRequestedId | backend_rust/src/application/usecase/delete_todo_usecase.rs:54-64 | a successful delete removes the requested id and a later find reports not-found |
| Workflow.SecondDeleteIsNotFound | backend_rust/src/application/usecase/delete_todo_usecase.rs:28-42 | a second delete of the same id reports not-found and changes nothing |
| Workflow.CreatedTodoIsReadBack | backend_rust/src/application/usecase/create_todo_usecase.rs:40-59 | a created todo is incomplete and is found again under its id |
| PyUsecases.Create | backend_python/src/todo_api/application_service/usecase/create_todo_usecase.py:34-37 | equals Workflow.Create, returning a fresh todo or the save error |
| PyUsecases.Change | backend_python/src/todo_api/application_service/usecase/mark_as_completed_todo_usecase.py:36-45 | equals Workflow.Modify with guard errors raised as the domain exception, inside one transaction run |
| PyUsecases.Update | backend_python/src/todo_api/application_service/usecase/update_todo_usecase.py:37-44 | equals Workflow.Modify with an update edit |
| PyUsecases.MarkAsCompleted | backend_python/src/todo_api/application_service/usecase/mark_as_completed_todo_usecase.py:36-45 | equals Workflow.Modify with the complete edit |
| PyUsecases.MarkAsUncompleted | backend_python/src/todo_api/application_service/usecase/mark_as_uncompleted_todo_usecase.py:36-45 | equals Workflow.Modify with the uncomplete edit |
| PyUsecases.Delete | backend_python/src/todo_api/application_service/usecase/delete_todo_usecase.py:32-38 | equals Workflow.Delete, raising its error |
| RustUsecases.ResponseClassifiesFailures | backend_rust/src/application/error.rs:19-36 | success answers the DTO of the todo; not-found, data-access and guard failures become NotFound, Unexpected and Conflict |
| RustUsecases.Create | backend_rust/src/application/usecase/create_todo_usecase.rs:26-30 | for a validated title, equals Workflow.Create mapped to a DTO or a use-case error |
| RustUsecases.Update | backend_rust/src/application/usecase/update_todo_usecase.rs:37-64 | equals Workflow.Modify with an update edit, mapped to a DTO or a use-case error |
| RustUsecases.MarkAsUncompleted | backend_rust/src/application/usecase/mark_as_uncompleted_todo_usecase.rs:29-47 | equals Workflow.Modify with the uncomplete edit; a guard failure becomes Conflict with the guard's text |
| RustUsecases.Delete | backend_rust/src/application/usecase/delete_todo_usecase.rs:28-42 | equals Workflow.Delete, mapped to unit or a use-case error |
| RustTestSupport.InMemoryTodoRepository.constructor | backend_rust/src/application/usecase/mod.rs:22-25 | the repository starts empty |
| RustTestSupport.InMemoryTodoRepository.FindAll | backend_rust/src/application/usecase/mod.rs:29-32 | always succeeds with every stored todo exactly once |
| RustTestSupport.InMemoryTodoRepository.FindById | backend_rust/src/application/usecase/mod.rs:34-37 | fails with NotFound exactly when the id is absent, else returns the stored todo |
| RustTestSupport.InMemoryTodoRepository.Save | backend_rust/src/application/usecase/mod.rs:39-43 | always succeeds and upserts the todo |
| RustTestSupport.InMemoryTodoRepository.Delete | backend_rust/src/application/usecase/mod.rs:45-49 | always succeeds and removes the todo's id |
| RustTestSupport.InsertTodo | backend_rust/src/application/usecase/mod.rs:67-76 | stores a newly created todo under the given id and returns that id |
| RustTestSupport.InsertThenFind | backend_rust/src/application/usecase/mod.rs:67-76 | a todo inserted by the helper is found again, incomplete and with the given fields |
| GoUsecases.ErrorsReturnZero | backend_golang/application_service/usecase/update_todo_usecase.go:34-51 | a use case returns an error exactly when it fails, and then returns the zero todo |
| GoUsecases.Create | backend_golang/application_service/usecase/create_todo_usecase.go:28-34 | equals Workflow.Create, returning the saved todo or the error |
| GoUsecases.Update | backend_golang/application_service/usecase/update_todo_usecase.go:34-51 | equals Workflow.Modify with an update edit inside one transaction run |
| GoUsecases.MarkAsComplete | backend_golang/application_service/usecase/mark_as_complete_todo_usecase.go:28-43 | equals Workflow.Modify with the complete edit |
| GoUsecases.MarkAsNotComplete | backend_golang/application_service/usecase/mark_as_not_complete_todo_usecase.go:28-43 | equals Workflow.Modify with the uncomplete edit |
| GoUsecases.Delete | backend_golang/application_service/usecase/delete_todo_usecase.go:27-38 | equals Workflow.Delete |
| JavaUsecases.Create | backend_java/src/main/java/io/github/ikedadada/backend_java/application_service/usecase/CreateTodoUsecaseImpl.java:13-18 | a null title throws before touching the repository, otherwise equals Workflow.Create |
| JavaUsecases.Update | backend_java/src/main/java/io/github/ikedadada/backend_java/application_service/usecase/UpdateTodoUsecaseImpl.java:22-30 | equals Workflow.Modify with an update edit; a null title throws after the find and saves nothing |
| JavaUsecases.MarkAsCompleted | backend_java/src/main/java/io/github/ikedadada/backend_java/application_service/usecase/MarkAsCompletedTodoUsecaseImpl.java:16-24 | equals Workflow.Modify with the complete edit |
| JavaUsecases.MarkAsNotCompleted | backend_java/src/main/java/io/github/ikedadada/backend_java/application_service/usecase/MarkAsNotCompletedTodoUsecaseImpl.java:22-30 | equals Workflow.Modify with the uncomplete edit |
| JavaUsecases.Delete | backend_java/src/main/java/io/github/ikedadada/backend_java/application_service/usecase/DeleteTodoUsecaseImpl.java:18-24 | equals Workflow.Delete |
| NodeUsecases.StoredDescription | backend_nodejs/src/application_service/usecase/updateTodoUsecase.ts:29 | `description \|\| null` stores no description exactly when none or the empty string was given |
| NodeUsecases.Update | backend_nodejs/src/application_service/usecase/updateTodoUsecase.ts:25-34 | equals Workflow.Modify with an update to the stored description |
| NodeUsecases.ChangeStatus | backend_nodejs/src/application_service/usecase/markAsCompletedTodoUsecase.ts:27-37 | equals Workflow.Modify with the chosen transition; guard errors become DomainConflictError |
| NodeUsecases.MarkAsCompleted | backend_nodejs/src/application_service/usecase/markAsCompletedTodoUsecase.ts:27-37 | equals Workflow.Modify with the complete edit |
| NodeUsecases.MarkAsNotCompleted | backend_nodejs/src/application_service/usecase/markAsNotCompletedTodoUsecase.ts:27-37 | equals Workflow.Modify with the uncomplete edit |
| NodeUsecases.Delete | backend_nodejs/src/application_service/usecase/deleteTodoUsecase.ts:18-23 | equals Workflow.Delete |
| BunUsecases.Create | backend_bun/src/application_service/usecase/createTodoUsecase.ts:20-24 | equals Workflow.Create without a transaction, returning a fresh todo or the save error |
| RustErrors.FromContextError | backend_rust/src/infrastructure/repository/context_provider.rs:29-38 | both context errors become data-access errors, keeping the SQL message |
| RustErrors.FromRepositoryError | backend_rust/src/application/error.rs:29-36 | NotFound maps to NotFound and a data-access error to Unexpected with its source |
| RustErrors.ConflictFrom | backend_rust/src/application/error.rs:19-27 | a domain error becomes Conflict with the domain error's text |
| RustErrors.FromUsecaseError | backend_rust/src/presentation/error.rs:24-33 | each use-case error maps to its own HTTP error kind with the message the source gives |
| RustErrors.FromRejection | backend_rust/src/presentation/error.rs:35-45 | JSON and path rejections are bad requests carrying the rejection's text |
| RustErrors.FromValidRejection | backend_rust/src/presentation/error.rs:47-57 | validation failures are bad requests with the errors' text; wrapped rejections map as above |
| RustErrors.Status | backend_rust/src/presentation/error.rs:59-73 | every error's status lies in the 4xx or 5xx range |
| RustErrors.DecimalString | backend_rust/src/presentation/error.rs:68 | the status text is a non-empty digit string without a leading zero |
| RustErrors.ParseDecimalString | backend_rust/src/presentation/error.rs:68 | the digit string reads back as the status |
| RustErrors.IntoResponse | backend_rust/src/presentation/error.rs:59-73 | the response has the status, a body whose code is the status as digits, and the error's message |
| RustErrors.StatusCodeTexts | backend_rust/src/presentation/error.rs:59-73 | bad request, not found, conflict and internal answer 400, 404, 409 and 500 |
| RustErrors.RepositoryErrorStatus | backend_rust/src/application/error.rs:29-36 | a missing todo answers 404 and every data-access or context failure answers 500 |
| RustErrors.ConflictAnswers409 | backend_rust/src/application/error.rs:19-27 | a domain guard failure answers 409 with the guard's text |
| RustErrors.RejectionsAnswer400 | backend_rust/src/presentation/error.rs:35-57 | every extractor rejection answers 400 |
| RustTx.Begun | backend_rust/src/infrastructure/service/transaction_service.rs:38-43 | BEGIN commits whatever was pending and opens an empty transaction |
| RustTx.Committed | backend_rust/src/infrastructure/service/transaction_service.rs:47-55 | COMMIT makes the visible rows durable and closes the transaction |
| RustTx.RolledBack | backend_rust/src/infrastructure/service/transaction_service.rs:56-67 | ROLLBACK discards pending writes and closes the transaction |
| RustTx.Staged | backend_rust/src/infrastructure/service/transaction_service.rs:45 | the operation's writes become visible in the transaction without touching durable rows |
| RustTx.BeginAndCommitKeepVisible | backend_rust/src/infrastructure/service/transaction_service.rs:38-55 | neither BEGIN nor COMMIT changes what a reader in the connection sees |
| RustTx.Database.constructor | backend_rust/src/infrastructure/service/transaction_service.rs:33-43 | the connection starts with the given rows and no open transaction |
| RustTx.Database.Begin | backend_rust/src/infrastructure/service/transaction_service.rs:38-43 | a failing BEGIN changes nothing, otherwise the state becomes Begun |
| RustTx.Database.Stage | backend_rust/src/infrastructure/service/transaction_service.rs:45 | the state becomes Staged with the operation's writes |
| RustTx.Database.Commit | backend_rust/src/infrastructure/service/transaction_service.rs:47-55 | a failing COMMIT changes nothing, otherwise the state becomes Committed |
| RustTx.Database.Rollback | backend_rust/src/infrastructure/service/transaction_service.rs:56-67 | a failing ROLLBACK changes nothing, otherwise the state becomes RolledBack |
| RustTx.ContextProvider.constructor | backend_rust/src/infrastructure/repository/context_provider.rs:69-72 | no connection is bound and none has been acquired |
| RustTx.ContextProvider.Connection | backend_rust/src/infrastructure/repository/context_provider.rs:97-103 | returns the bound connection, or NoActiveConnection when none is bound |
| RustTx.ContextProvider.Enter | backend_rust/src/infrastructure/repository/context_provider.rs:74-95 | a bound connection is reused; otherwise a failing acquire is reported and a successful one is bound |
| RustTx.ContextProvider.Exit | backend_rust/src/infrastructure/repository/context_provider.rs:87-94 | the scope that acquired the connection unbinds it; a nested scope leaves it bound |
| RustTx.RunScoped | backend_rust/src/infrastructure/repository/context_provider.rs:74-95 | a nested scope runs on the bound connection; an outer one acquires, runs and releases, or reports the acquire error |
| RustTx.DataAccessFailure | backend_rust/src/infrastructure/service/transaction_service.rs:71-79 | a SQL failure surfaces as the use-case error of a data-access repository error |
| RustTx.Run | backend_rust/src/infrastructure/service/transaction_service.rs:24-80 | result and new connection state equal RunEffect, and the provider's binding is restored |
| RustTx.RunOutcomes | backend_rust/src/infrastructure/service/transaction_service.rs:24-80 | an acquire or BEGIN failure touches nothing; an operation error rolls back and returns that error; success commits |
| RustTx.RunIsAllOrNothing | backend_rust/src/infrastructure/service/transaction_service.rs:45-67 | without infrastructure faults a successful run commits the operation's writes and a failed one leaves no pending writes |
| RustTx.InnerRunCommitsOuterWrites | backend_rust/src/infrastructure/service/transaction_service.rs:38-43 | a run nested in an open transaction durably commits the outer writes even when it fails |
| GoTx.WithTx | backend_golang/infrastructure/service/transaction_service.go:27-31 | the context keeps its values and carries the new transaction |
| GoTx.GoDb.constructor | backend_golang/infrastructure/service/transaction_service.go:15-17 | the database starts with the given rows and no transaction begun |
| GoTx.GoDb.Begin | backend_golang/infrastructure/service/transaction_service.go:20 | hands out a new transaction and leaves the rows alone |
| GoTx.GoDb.Commit | backend_golang/infrastructure/service/transaction_service.go:32 | a failing commit changes nothing, otherwise the writes are applied |
| GoTx.Run | backend_golang/infrastructure/service/transaction_service.go:19-33 | error and rows equal RunEffect of the function's body run in a context that carries the new transaction |
| GoTx.RunOutcomes | backend_golang/infrastructure/service/transaction_service.go:19-33 | a returned error or a recovered panic changes nothing and is reported; success commits, or reports the commit error |
| GoTx.RunsComposeWrites | backend_golang/infrastructure/service/transaction_service.go:19-33 | two successful runs have the effect of one run of their concatenated writes |
| PyTx.Pushed | backend_python/src/todo_api/infrastructure/repository/context_provider.py:19-31 | begin or begin_nested adds one level |
| PyTx.StagedIn | backend_python/src/todo_api/infrastructure/repository/context_provider.py:19-31 | writes go to the innermost level and leave the outer levels alone |
| PyTx.Released | backend_python/src/todo_api/infrastructure/repository/context_provider.py:22-23 | releasing a savepoint removes one level |
| PyTx.Popped | backend_python/src/todo_api/infrastructure/repository/context_provider.py:22-23 | rolling back a level drops it and keeps the levels below |
| PyTx.FlattenSnoc | backend_python/src/todo_api/infrastructure/repository/context_provider.py:19-31 | the writes of a stack are those of its lower levels followed by its top |
| PyTx.EmptyLevelIsInvisible | backend_python/src/todo_api/infrastructure/repository/context_provider.py:19-31 | opening a level changes nothing a reader sees |
| PyTx.StagedInIsVisible | backend_python/src/todo_api/infrastructure/repository/context_provider.py:19-31 | staged writes are visible in the session at once |
| PyTx.ReleaseKeepsVisible | backend_python/src/todo_api/infrastructure/repository/context_provider.py:22-23 | releasing a savepoint keeps what the session sees |
| PyTx.SavepointOutcomes | backend_python/src/todo_api/infrastructure/repository/context_provider.py:19-24 | a released savepoint keeps its writes in the outer level; a rolled-back one restores the outer levels exactly |
| PyTx.Store.constructor | backend_python/src/todo_api/infrastructure/repository/context_provider.py:13-15 | the store holds the given committed rows |
| PyTx.Session.constructor | backend_python/src/todo_api/infrastructure/repository/context_provider.py:26 | a new session has no open level and is not closed |
| PyTx.Session.Begin | backend_python/src/todo_api/infrastructure/repository/context_provider.py:22-30 | opens a level |
| PyTx.Session.Stage | backend_python/src/todo_api/infrastructure/repository/context_provider.py:23 | adds the writes to the innermost level |
| PyTx.Session.CommitLevel | backend_python/src/todo_api/infrastructure/repository/context_provider.py:19-31 | the outermost commit applies its writes to the store; an inner one releases into the level below |
| PyTx.Session.RollbackLevel | backend_python/src/todo_api/infrastructure/repository/context_provider.py:19-31 | drops the innermost level |
| PyTx.Session.Close | backend_python/src/todo_api/infrastructure/repository/context_provider.py:34 | closing discards every level |
| PyTx.ContextProviderImpl.constructor | backend_python/src/todo_api/infrastructure/repository/context_provider.py:13-15 | no session is bound |
| PyTx.ContextProviderImpl.Current | backend_python/src/todo_api/infrastructure/repository/context_provider.py:36-40 | returns the bound session, or raises RuntimeError when none is bound |
| PyTx.ContextProviderImpl.Enter | backend_python/src/todo_api/infrastructure/repository/context_provider.py:17-31 | reuses a bound session with a new savepoint, or binds a fresh session with a new transaction |
| PyTx.ContextProviderImpl.Exit | backend_python/src/todo_api/infrastructure/repository/context_provider.py:17-34 | the outer scope commits or rolls back, closes and unbinds; a nested one releases or rolls back its savepoint |
| PyTx.Transaction | backend_python/src/todo_api/infrastructure/repository/context_provider.py:17-34 | an outer transaction commits exactly the body's writes when it succeeds and nothing otherwise; a nested one keeps or drops them in the outer level |
| PyTx.SessionProvider.constructor | backend_python/tests/infrastructure/service/test_transaction_service.py:17-20 | no session is bound and no run is marked |
| PyTx.SessionProvider.SessionEnter | backend_python/tests/infrastructure/service/test_transaction_service.py:22-32 | reuses the bound session or binds a fresh one |
| PyTx.SessionProvider.SessionExit | backend_python/tests/infrastructure/service/test_transaction_service.py:33-35 | the scope that created the session closes and unbinds it |
| PyTx.SessionProvider.Use | backend_python/tests/infrastructure/service/test_transaction_service.py:42-47 | binds the session and hands back the previous binding |
| PyTx.SessionProvider.Reset | backend_python/tests/infrastructure/service/test_transaction_service.py:48-49 | restores the previous binding |
| PyTx.SessionProvider.MarkSuccess | backend_python/src/todo_api/infrastructure/service/transaction_service.py:29 | counts one success |
| PyTx.SessionProvider.MarkFailure | backend_python/src/todo_api/infrastructure/service/transaction_service.py:26 | counts one failure |
| PyTx.RunInSession | backend_python/src/todo_api/infrastructure/service/transaction_service.py:19-30 | begins or nests by whether the session is in a transaction, commits or rolls back the body's writes, and marks exactly one success or failure |
| PyTx.Run | backend_python/src/todo_api/infrastructure/service/transaction_service.py:16-30 | an outermost run commits exactly the body's writes on success and nothing on failure; binding restored, one mark recorded |
| PyDataModel.ToDomain | backend_python/src/todo_api/infrastructure/repository/data_model/todo.py:19-26 | succeeds exactly when the stored id parses and carries every column over |
| PyDataModel.FromDomain | backend_python/src/todo_api/infrastructure/repository/data_model/todo.py:28-36 | the row holds the id as text and every other field |
| PyDataModel.ToDomainFromDomain | backend_python/src/todo_api/infrastructure/repository/data_model/todo.py:19-36 | reading back a written row gives the todo |
| PyDataModel.FromDomainToDomain | backend_python/src/todo_api/infrastructure/repository/data_model/todo.py:19-36 | writing back a read row gives the row with its id in lower case |
| GoDataModel.ToModel | backend_golang/infrastructure/repository/data_model/todo.go:20-29 | the todo has the parsed id and every other column |
| GoDataModel.FromModel | backend_golang/infrastructure/repository/data_model/todo.go:31-39 | the row holds the id as parseable text and every other field |
| GoDataModel.ToModelFromModel | backend_golang/infrastructure/repository/data_model/todo.go:20-39 | reading back a written row gives the todo |
| GoDataModel.FromModelToModel | backend_golang/infrastructure/repository/data_model/todo.go:20-39 | writing back a read row gives the row with its id in lower case |
| JsTodo.OrNull | backend_nodejs/src/infrastructure/repository/todoRepository.ts:21 | `?? null` keeps a string and turns null and undefined into null |
| JsTodo.FromColumn | backend_nodejs/src/infrastructure/repository/todoRepository.ts:32 | a column value read back is never undefined and keeps its string |
| JsTodo.Normalized | backend_nodejs/src/infrastructure/repository/todoRepository.ts:16-35 | normalisation only replaces an undefined description by null |
| BunRepository.ToRow | backend_bun/src/infrastructure/repository/todoRepository.ts:14-22 | the row stores completed as 1 or 0 and the description or null |
| BunRepository.FromRow | backend_bun/src/infrastructure/repository/todoRepository.ts:24-31 | a todo is completed exactly when the column is 1 |
| BunRepository.FromRowToRow | backend_bun/src/infrastructure/repository/todoRepository.ts:14-31 | a written todo reads back normalised |
| BunRepository.ToRowFromRow | backend_bun/src/infrastructure/repository/todoRepository.ts:14-31 | a row with flag 0 or 1 round-trips; any other flag comes back as 0 |
| BunRepository.Save | backend_bun/src/infrastructure/repository/todoRepository.ts:36-58 | upsert: the todo's row is replaced or inserted and the other rows stay |
| BunRepository.FindById | backend_bun/src/infrastructure/repository/todoRepository.ts:60-68 | a missing id throws RepositoryNotFoundError naming the id, else the mapped row |
| BunRepository.FindAfterSave | backend_bun/src/infrastructure/repository/todoRepository.ts:36-68 | a saved todo is found again, normalised |
| NodeRepository.ToRow | backend_nodejs/src/infrastructure/repository/todoRepository.ts:16-26 | the row has the todo's fields, `created_at` from the first clock read and `updated_at` from the second |
| NodeRepository.FromRow | backend_nodejs/src/infrastructure/repository/todoRepository.ts:28-35 | the todo has the row's fields, with a null description for a missing one |
| NodeRepository.FromRowToRow | backend_nodejs/src/infrastructure/repository/todoRepository.ts:16-35 | a written todo reads back normalised |
| NodeRepository.ToRowFromRow | backend_nodejs/src/infrastructure/repository/todoRepository.ts:16-35 | a read row writes back unchanged apart from both timestamps |
| NodeRepository.Save | backend_nodejs/src/infrastructure/repository/todoRepository.ts:40-48 | upsert: the todo's row is replaced or inserted and the other rows stay |
| NodeRepository.SaveOverwritesCreatedAt | backend_nodejs/src/infrastructure/repository/todoRepository.ts:43-47 | saving an existing todo resets its created_at to the save's first clock read |
| NodeRepository.FindById | backend_nodejs/src/infrastructure/repository/todoRepository.ts:50-57 | a missing id throws RepositoryNotFoundError naming the id, else the mapped row |
| NodeRepository.FindAfterSave | backend_nodejs/src/infrastructure/repository/todoRepository.ts:40-57 | a saved todo is found again, normalised |

## Quirks of the code that the model keeps

The model follows the code in each of these cases, except for the two Java
use cases below. As written, neither compiles. For those two the model takes
the evident meaning.

- The Rust runner (`transaction_service.rs`) sends a plain `BEGIN` even
  when a transaction is already open on the connection. MySQL answers that
  `BEGIN` by committing the open transaction, so the outer writes become
  durable even when the inner run then fails
  (`RustTx.InnerRunCommitsOuterWrites`). The Python runner nests with
  savepoints instead (`PyTx.SavepointOutcomes`).
- In Python, `TransactionServiceImpl.Run` calls `session()`, `use()`,
  `mark_success()` and `mark_failure()` on its provider.
  `ContextProviderImpl` defines none of these; it has only
  `transaction()` and `current()`. `PyTx.Run` is therefore stated against a
  provider shaped like the test stub, with success and failure counters.
- `parse_uuid7` does not check the version of the UUID it parses; only
  `validate_uuid(v, 7)` does (`PyUuid.ParseUuid7AcceptsEveryVersion`).
- The Node update use case stores `description || null`, so an empty
  description becomes no description (`NodeUsecases.StoredDescription`).
- Java's `MarkAsNotCompletedTodoUsecaseImpl.java:26` calls
  `markAsNotCompleted`, which `Todo.java` does not define, so the call does not
  compile. The model calls the entity method `markAsUndone`.
- Java's `UpdateTodoUsecaseImpl.java:26` passes an `Optional<String>` to
  `update(String, @Nullable String)` (`Todo.java:64`), which does not compile.
  The model passes the value the Optional holds, or null when it is empty.
- Node's `save` writes `created_at` on update as well as on insert
  (`NodeRepository.SaveOverwritesCreatedAt`).

## Left out

**Other backends and parts of the repository**
- The read use cases (get one, get all) of every backend. They have no state
  change beyond the find that `Repository.TodoRepo.FindAll` and
  `FindById` already model.
- The Rust mark-as-completed use case and `domain/model/errors.rs` are not
  part of this model. The text a domain error displays is a parameter
  (`guardText`).
- The Node and Bun entity (`fromPrimitives`/`toPrimitives`) is not part of
  this model. The repositories are modelled on the primitives, and the use
  cases on the shared entity.
- The Node and Bun context providers and transaction services, and Java's
  `TransactionServiceImpl` and repositories, are not part of this model.
- HTTP handlers, routing and middleware are not modelled, apart from the
  Rust error-to-response mapping.

**Infrastructure**
- SQL, Prisma, SQLAlchemy and the drivers are replaced by an in-memory table
  and lists of writes. The model does not cover:
  - column length limits;
  - MySQL collation;
  - the case-insensitive matching of ids.
- Async execution, concurrency, mutex locking and context variables across
  tasks. A single thread of control is modelled.
- UUID generation, random ids and clocks are parameters.
  - Node's two `new Date()` reads in `toTodoDatamodel` are the parameters
    `created` and `updated`.
  - Bun and Node keep ids as strings in the repositories, while their use
    cases take a `Uuid`.

**Error paths and weaker contracts**
- RustTx.Run: after a failing COMMIT or ROLLBACK, the model keeps the
  pending writes and the open transaction. The server's actual state after
  such a failure is not modelled.
- PyTx.Session.CommitLevel: a commit never fails. Database errors raised
  during commit are not modelled.
- GoTx.Run: a failed `Begin` is not checked, as in the source, so the model's
  `Begin` always succeeds.
- Uuids.Parse: accepts only the hyphenated 8-4-4-4-12 layout, in either
  case. Rust's `Uuid::parse_str` (`todo.rs:95`) and Go's
  `uuid.Parse`/`uuid.MustParse` also accept the simple 32-digit form, the
  braced form and the `urn:uuid:` form. Python's `UUID()` is looser still
  (see `PyUuid.ParseUuid7` below). None of these other forms is modelled. The
  members below inherit this restriction.
- RustTodo.FromDto: requires id text in the hyphenated form. `parse_str`
  would also accept the other forms. On text that does not parse at all the
  source panics, because it unwraps the parse.
- GoDataModel.ToModel: requires hyphenated id text. `uuid.MustParse`
  accepts the other forms too, and panics on bad input instead of returning
  an error.
- PyUuid.ParseUuid7: accepts only the 8-4-4-4-12 layout. Python's `UUID(hex)`
  (`uuid.py:46-47`) first deletes every `urn:` and every `uuid:`, strips `{`
  and `}` from both ends and deletes every `-`, wherever it stands. It then
  accepts any 32 characters that `int(_, 16)` reads. So
  `0123-4567-89ab-cdef-0123-4567-89ab-cdef`, `uuid:` followed by a canonical
  UUID, and `{{` + 32 hex digits + `}}` all parse in Python, and the model
  reports them as badly formed.
- PyTodo.FromDto: inherits the restriction of `PyUuid.ParseUuid7`.
- PyDataModel.ToDomain: inherits the restriction of `PyUuid.ParseUuid7`.
- PyUuid.ValidateUuid: the `Literal[1, 3, 4, 5, 6, 7, 8]` annotation on the
  version is a static typing hint, not a precondition. The model accepts any
  version number.

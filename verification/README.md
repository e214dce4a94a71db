# CRM API gateway: validators and request dispatch

This project models the core of a CRM API gateway written in Go with gin. The gateway receives
HTTP requests for fourteen resource families and forwards each one to a gRPC backend service. The
families are super-admins, admins, support teachers, attendances, schedules, managers, students,
teachers, branches, events, groups, tasks, lessons and join-events.

The model has two parts.

- **Field validators** (`pkg/validations.go`), module `Validations`.
  - `ValidateFullName`, `ValidatePassword`, `ValidatePhone` and `ValidateDay` are pure Dafny
    functions over strings of runes. As Dafny functions they are deterministic and touch no state.
  - Go's byte length is `ByteLen`, the sum of the UTF-8 widths of the runes.
  - `strings.Split` on one space is `Split`.
  - `strings.EqualFold` against a lower-case ASCII word is `EqualFold`. Its fold classes include
    U+017F (long s) and U+212A (Kelvin sign).
  - `regexp.MatchString` is `MatchString` on the two patterns used. The compile error is always
    nil because both patterns are valid constants.
  - The lemmas state what the validators actually enforce. The password charset and the phone
    format are never enforced, because the source discards the match result and tests only the
    compile error.
- **Request dispatch** (`api/handler/*.go`), modules `Resources`, `Dispatch`, `Handlers` and
  `HandlerFiles`.
  - The fourteen handler files repeat one guard sequence. First the handler decodes the body or
    reads the path id. Super-admins and admins then run the validator chain name → password →
    phone. Handlers that take a path id check it with `uuid.Validate`. List handlers parse the
    page and then the limit. Finally there is one backend call and one written response.
  - `Resources.Describe` gives each file's descriptor. It records which operations exist, whether
    validators run, whether the list forwards `search`, how Create and Delete succeed, and every
    fixed message.
  - `Dispatch` holds one trace function per operation, returning the backend call (if any) and
    the response. It also holds the theorems about them.
  - `Handlers` is the imperative form:
    - a `Backend` gRPC client that logs every call;
    - a gin `Context` that records the responses written;
    - a `Handler` whose methods run the guards with early returns;
    - each method is proved to make exactly the call and write exactly the response of its
      trace function.
  - `HandlerFiles` states, file by file, the facts that distinguish the fourteen handler files.

These collaborators are not part of this model and stay uninterpreted:

- gin's `ShouldBindJSON`, `Param` and `Query`, and the `ParsePageQueryParam` /
  `ParseLimitQueryParam` helpers. Their outcomes on one request are the fields of a `Request`.
- `uuid.Validate`. It is a function supplied to the `Handler`. All that is assumed of it, and
  only where stated, is that it accepts the canonical string form of section 3 of RFC 4122.
- The gRPC backends. They are an arbitrary `answer` function fixed when the `Backend` is built.
- `handleResponse`, `handleGrpcErrWithDescription` and `c.JSON`. They are recorded with their
  arguments as `Response` values.

## Model

| member | source | states |
|---|---|---|
| Validations.Split | pkg/validations.go:10 | `strings.Split` always yields at least one piece |
| Validations.SplitCount | pkg/validations.go:10 | splitting gives one more piece than there are separators |
| Validations.SplitJoin | pkg/validations.go:10 | joining the pieces with the separator restores the string (the pieces partition it) |
| Validations.SplitPiecesAreSeparatorFree | pkg/validations.go:10 | no piece contains the separator |
| Validations.Utf8Width | pkg/validations.go:21 | a rune takes 1 to 4 bytes, and 1 exactly when it is ASCII |
| Validations.ByteLen | pkg/validations.go:21 | Go's `len` of a string of n runes lies between n and 4n bytes |
| Validations.AsciiByteLen | pkg/validations.go:21 | on ASCII text, byte length equals rune count |
| Validations.ValidateFullName | pkg/validations.go:9-15 | a full name passes iff it contains a space character, and otherwise fails with "full name's length must be 2" |
| Validations.FullNameRejections | pkg/validations.go:10 | "", "John" and "John\tSmith" fail: only a space separates, a tab does not |
| Validations.FullNameAcceptances | pkg/validations.go:10 | "John Smith" and "John " (trailing space) pass |
| Validations.ValidatePassword | pkg/validations.go:17-32 | passes iff the byte length is 8 to 30; blank gives the blank error before any length check; other out-of-range lengths give the length error; the charset error is never returned |
| Validations.PasswordLengthCountsBytes | pkg/validations.go:18-23 | the bound counts bytes: 4 Cyrillic letters (8 bytes) pass, 3 (6 bytes) and 7 ASCII letters fail, "" is blank |
| Validations.PasswordCharsetIsInert | pkg/validations.go:25-31 | "pass word!" does not match the charset pattern yet passes: the match result is discarded |
| Validations.ValidatePhone | pkg/validations.go:34-41 | every phone passes |
| Validations.PhoneFormatIsInert | pkg/validations.go:35-40 | "12345" does not match `^\+998\d{9}$` yet passes; "+998901234567" matches |
| Validations.MatchString | pkg/validations.go:25 | `regexp.MatchString` on the two patterns: the compile error is always nil; a match implies ASCII text of at least one rune, and for the phone pattern 13 runes starting with '+' |
| Validations.ToLowerAscii | pkg/validations.go:44 | ASCII lower-casing, the reference for the case-insensitive test, keeps the length |
| Validations.EqualFold | pkg/validations.go:44 | `strings.EqualFold` against a lower-case ASCII word holds iff the lengths agree and every rune folds (A–Z lowered, ſ to s, K to k) to the word's letter at the same position |
| Validations.EqualFoldAscii | pkg/validations.go:44 | on ASCII text, `EqualFold` against a lower-case word holds iff the text lower-cases to that word |
| Validations.ValidateDay | pkg/validations.go:43-45 | for every input, a day is rejected iff it has six runes that fold, one by one, to "sunday" |
| Validations.ValidateDayAscii | pkg/validations.go:43-45 | an ASCII day is rejected iff it lower-cases to "sunday" |
| Validations.DayRejections | pkg/validations.go:43-45 | "Sunday", "SUNDAY", "sUnDaY" and "ſunday" are rejected |
| Validations.DayAcceptances | pkg/validations.go:43-45 | "monday", "sunday " and "" are accepted |
| Dispatch.FirstInvalid | api/handler/super_admins.go:33-46 | the validator chain lets a body through iff the name has a space and the password has 8 to 30 bytes; a rejection names the full name exactly when the name has no space; it never names the phone |
| Dispatch.ValidatorChainOrder | api/handler/admins.go:33-47 | name first, then password (blank before length), then phone; the first failure is reported with its description; the phone step never fails |
| Dispatch.CreateTrace | api/handler/super_admins.go:25-55 | Create calls the backend iff the body decoded and, where the file validates, passed the chain; the call carries the decoded body to the resource's backend; without a call the response is an error |
| Dispatch.GetByIdTrace | api/handler/super_admins.go:70-90 | GetById calls the backend iff `uuid.Validate` accepts the path id, with that id; without a call the response is an error |
| Dispatch.UpdateTrace | api/handler/super_admins.go:105-135 | Update calls the backend iff the body decoded and, where the file validates, passed the chain, with that body; without a call the response is an error |
| Dispatch.DeleteTrace | api/handler/super_admins.go:150-169 | Delete calls the backend iff `uuid.Validate` accepts the path id, with that id; without a call the response is an error |
| Dispatch.GetAllTrace | api/handler/super_admins.go:186-215 | the list calls the backend iff page and limit both parsed, with offset `(page-1)*limit`, the limit, and the search only where the file forwards it; without a call the response is an error |
| Dispatch.Handle | api/handler/super_admins.go:25-215 | the generic dispatcher only ever calls the backend of the descriptor's own resource |
| Dispatch.NoCallUnlessGuardsPass | api/handler/super_admins.go:25-215 | for every operation, the backend is called iff every guard (decode, validators where present, uuid, page and limit) passed |
| Dispatch.CallIsIntended | api/handler/super_admins.go:48 | the call made is the operation's own: the resource's backend, the decoded body or path id, and for lists offset `(page-1)*limit`, limit, and search only where the file forwards it |
| Dispatch.ErrorIffFailure | api/handler/students.go:24-182 | a response reports an error (400, or a non-nil error to `handleGrpcErrWithDescription`) iff a guard failed or the backend returned an error |
| Dispatch.DecodeFailureStops | api/handler/super_admins.go:28-31 | a decode failure ends Create with the bind error and Update with a 400 carrying the error, with no validator run and no call |
| Dispatch.InvalidIdRejected | api/handler/super_admins.go:73-76 | an id `uuid.Validate` rejects gives 400 with the error text in GetById and Delete, and no call |
| Dispatch.CanonicalIdReachesBackend | api/handler/super_admins.go:70-82 | when `uuid.Validate` accepts the RFC 4122 string form, such an id reaches the backend with that id |
| Dispatch.BackendFailureResponse | api/handler/super_admins.go:84-87 | a backend error gives 400 with the error text and the operation's message; Create passes the error to `handleGrpcErrWithDescription` |
| Dispatch.BackendSuccessResponse | api/handler/super_admins.go:88-89 | a backend success gives 200 with the response and the operation's message; Create answers as its descriptor says; Delete sends the constant text where the file does |
| Dispatch.PageParsedBeforeLimit | api/handler/super_admins.go:189-199 | a page failure is reported whatever the limit; a limit failure only after the page parsed; neither calls the backend |
| Dispatch.Offset | api/handler/super_admins.go:202 | `(page-1)*limit` is 0 for page 1, and for a positive limit it is non-negative iff page ≥ 1 |
| Dispatch.OffsetWindow | api/handler/super_admins.go:201-205 | for page ≥ 1 and limit > 0 the offset is a non-negative multiple of limit, page is recovered from it, page 1 gives 0 and consecutive pages are adjacent windows |
| Dispatch.OffsetExamples | api/handler/super_admins.go:202 | on the modelled unbounded integers (1,10) → 0, (3,20) → 40 and (0,10) → −10: no handler clamps the page |
| Handlers.Backend.Invoke | api/handler/super_admins.go:48 | one remote call is appended to the call log and answered by the backend |
| Handlers.Context.Write | api/handler/super_admins.go:54 | a response is appended to those written |
| Handlers.Handler.Create | api/handler/super_admins.go:25-55 | decode, validator chain where the descriptor asks, one `Create` call, one response: exactly the call and response of `CreateTrace` |
| Handlers.Handler.GetById | api/handler/super_admins.go:70-90 | uuid gate, one `GetById` call, one response: exactly those of `GetByIdTrace` |
| Handlers.Handler.Update | api/handler/super_admins.go:105-135 | decode (400 on failure), validator chain where asked, one `Update` call, one response: exactly those of `UpdateTrace` |
| Handlers.Handler.Delete | api/handler/super_admins.go:150-169 | uuid gate, one `Delete` call, one response: exactly those of `DeleteTrace` |
| Handlers.Handler.GetAll | api/handler/super_admins.go:186-215 | page then limit parsing, one `GetAll` call with the offset window, one response: exactly those of `GetAllTrace` |
| Handlers.Handler.Serve | api/handler/super_admins.go:25-215 | serving one request adds at most one backend call, adds one iff every guard passed, and writes exactly one response |
| Handlers.ServeRequest | api/handler/students.go:24-182 | one request on a fresh client and context: at most one call, made iff the guards pass, and it is the intended call; one response, an error response iff a guard or the backend failed |
| Resources.Describe | api/handler/super_admins.go:25-215 | each file's descriptor: only super-admins and admins validate; join-events has no Update and no list; lessons has no Delete; attendances, schedules, tasks and lessons send no search |
| Resources.UpdateOf | api/handler/join_events.go:1-107 | every file but join-events defines an Update handler, with its messages |
| Resources.DeleteOf | api/handler/lessons.go:1-147 | every file but lessons defines a Delete handler, with its messages and success data |
| Resources.ListOf | api/handler/attendances.go:154-180 | every file but join-events defines a list handler; those of attendances, schedules, tasks and lessons send no search |
| HandlerFiles.SuperAdminsFile | api/handler/super_admins.go:25-215 | five operations; the backend is reached iff the body validates; Create answers 201 with the raw response; Delete answers with the response; the list forwards search |
| HandlerFiles.AdminsFile | api/handler/admins.go:25-216 | five operations; validates; Create answers 201 "Adminstrator is created" with the response; the list forwards search |
| HandlerFiles.SupportTeachersFile | api/handler/support_teachers.go:24-182 | five operations; no validation; Create passes a nil error with "Support teacher created successfully"; Delete answers with the response; the list forwards search |
| HandlerFiles.AttendancesFile | api/handler/attendances.go:24-180 | five operations; no validation; Delete answers with the constant text "Attendance deleted successfully"; the list sends no search |
| HandlerFiles.SchedulesFile | api/handler/schedules.go:24-180 | five operations; no validation; Delete answers with the response; the list sends no search |
| HandlerFiles.ManagersFile | api/handler/managers.go:24-182 | five operations; no validation; Delete answers with the constant text "Manager deleted successfully"; the list forwards search |
| HandlerFiles.StudentsFile | api/handler/students.go:24-182 | five operations; no validation on Create or Update; Create passes a nil error with "Student created successfully"; the list forwards search |
| HandlerFiles.TeachersFile | api/handler/teachers.go:24-182 | five operations; no validation; Create passes a nil error with "Teacher created successfully"; the list forwards search |
| HandlerFiles.BranchesFile | api/handler/branches.go:24-185 | five operations; no validation; Create answers 201 "Branch created successfully" with the response; Delete answers with the constant text; the list forwards search |
| HandlerFiles.EventsFile | api/handler/events.go:24-183 | five operations; no validation; Create passes a nil error with "Event created successfully"; the list forwards search |
| HandlerFiles.GroupsFile | api/handler/groups.go:24-182 | five operations; no validation; Create passes a nil error with "Group created successfully"; the list forwards search |
| HandlerFiles.TasksFile | api/handler/tasks.go:24-180 | five operations; no validation; Create passes a nil error with "Task created successfully"; the list sends no search |
| HandlerFiles.LessonsFile | api/handler/lessons.go:1-147 | Create, GetById, Update and GetAll only (no Delete); no validation; the list sends no search |
| HandlerFiles.JoinEventsFile | api/handler/join_events.go:1-107 | Create, GetById and Delete only; no validation; GetById and Delete answer 200 with the response |
| HandlerFiles.OnlyAdministratorsValidate | api/handler/admins.go:33-46 | exactly the super-admin and admin handlers run the validator chain |

## Left out

- gRPC client construction (`pkg/grpc_client/client.go`), route registration and CORS
  (`api/router.go`), configuration (`config/config.go`) and process start-up (`cmd/main.go`).
  These are I/O and framework wiring. Which routes exist is captured per handler file by the
  descriptors.
- The internals of `handleResponse` and `handleGrpcErrWithDescription` are not part of this
  model. No gRPC-code-to-HTTP-status mapping is assumed; responses are recorded with their
  arguments.
- `ParsePageQueryParam` and `ParseLimitQueryParam` are not part of this model. Their outcomes are
  inputs, and no `page ≥ 1` or `limit > 0` check is assumed. `Dispatch.OffsetWindow` therefore
  states its facts under that hypothesis, and `Dispatch.OffsetExamples` shows the unclamped case.
- gin's JSON binding and google/uuid internals are outcomes in `Request` and a function parameter.
- Logging through `h.log`, and the request context passed to each gRPC call (deadlines,
  cancellation), are not modelled.
- Dispatch.Offset: computed on unbounded signed integers. The integer type of
  `ParsePageQueryParam`, `ParseLimitQueryParam` and the request's `Offset` field is not part of
  the model, so neither overflow nor unsigned wrap-around of `(page-1)*limit` is modelled; the
  negative offset for page 0 holds only on signed integers.
- Strings are sequences of Unicode scalar values, so a Go string holding invalid UTF-8 cannot be
  represented. The validators only see fields bound from JSON, and gin's JSON binding replaces
  invalid bytes with U+FFFD, so they are covered. The path id (`c.Param`) and the `search` query
  (`c.Query`) are percent-decoded and can hold invalid UTF-8. That case is outside the model, but
  the handlers never examine either string: the id goes to `uuid.Validate` (uninterpreted here)
  and to the backend, and the search goes to the backend.
- Validations.EqualFold: defined only for a second operand of lower-case ASCII letters, the only
  form the source uses (`"sunday"`).
- Handlers.Handler.Create and Handlers.Handler.Update: the validator chain runs as one pure guard
  (`Dispatch.IdentityCheck`, which is `Dispatch.FirstInvalid`) rather than three statements. The
  phone step can never fail, so a separate statement for it would be dead code. Its order and
  first-failure behaviour are stated by `Dispatch.ValidatorChainOrder`.
- Request bodies other than the identity fields the validators read are kept opaque in
  `Body.rest`, and backend responses are opaque `Entity` values.
- No handler maps gRPC codes to HTTP statuses, and none checks page ≥ 1 before computing the
  offset. The model follows the handlers and assumes neither.

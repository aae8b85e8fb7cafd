# Employee management: error taxonomy, validation, store, auth and the client's error parsing

A Dafny model of the core of a small Express/Mongoose employee-management service and of its React client's error utilities:

- **The server's error taxonomy** (`ServerErrors`). Each `AppError` subclass has a status and a code. The central error handler classifies a caught failure with an if-chain in which the last matching branch wins. It then answers with the envelope `{success: false, error: {message, code, details?, stack?}}`.
- **The employee validator** (`EmployeeValidation`). Every check runs, without stopping at the first failure. Each failure contributes a `{field, message, value}` entry, and any failure throws `ValidationError("Validation failed", details)`.
- **The Employee schema** (`EmployeeModel`):
  - casting, with the `trim` setter on the name and the `lowercase` setter on the email;
  - the `required` checks;
  - timestamps;
  - the unique email index.
- **The employees routes** (`EmployeeQuery`, `EmployeeStore`). The collection is a class with a map from id to record, updated in place by create, update and delete; update and delete answer a missing id with `NotFound`. The list query filters by a case-insensitive search, sorts, then applies skip and limit. It also reports `total` and `totalPages = ceil(total / limit)`.
- **Registration and login** (`AuthRoutes`). The user collection is a class and register's guards run in their fixed order. Login answers an unknown email and a wrong password with the same message. Password hashing and token signing are abstract functions.
- **The authentication gate** (`AuthGate`). It takes the token as `split(" ")[1]` of the `Authorization` header and maps the verifier's failures to `AuthenticationError`s.
- **The client** (`ApiClient`, `ClientErrors`):
  - the request interceptor that attaches `Bearer <token>`;
  - `parseError`;
  - `showError`, modelled as a decision about screen state or an alert;
  - `formatValidationErrors`.
- **End-to-end properties** (`Pipeline`), which connect the pieces:
  - the client parser reads back the message, code, status and details of the envelope the server sends, with absent details read as `[]`;
  - a refused body reaches the wire as a 400 listing every violation;
  - a header the interceptor writes is admitted by the gate;
  - a freshly registered user can log in and pass the gate.

`Text` and `Json` model the JavaScript built-ins the core relies on:
- `String.prototype.trim`, `toLowerCase` and `split`;
- `Array.prototype.join`;
- the `Number` and `isNumeric` reading of a request field.

`Wrappers` holds the `Option` type.

## Model

| member | source | states |
|---|---|---|
| ServerErrors.NewAppError | backend/middleware/errorHandler.js:4-12 | an application error carries exactly the message, status and code it was built with, and no details |
| ServerErrors.CodesDistinct | backend/middleware/errorHandler.js:14-43 | no two error kinds share an error code |
| ServerErrors.ValidationError | backend/middleware/errorHandler.js:14-19 | status 400, code `VALIDATION_ERROR`, the given message and the given details list |
| ServerErrors.AuthenticationError | backend/middleware/errorHandler.js:21-25 | status 401, code `AUTH_ERROR`, message defaulting to "Authentication failed", no details |
| ServerErrors.AuthorizationError | backend/middleware/errorHandler.js:27-31 | status 403, code `AUTHORIZATION_ERROR`, message defaulting to "Access denied" |
| ServerErrors.NotFoundError | backend/middleware/errorHandler.js:33-37 | status 404, code `NOT_FOUND`, message "<resource> not found" with resource defaulting to "Resource" |
| ServerErrors.DatabaseError | backend/middleware/errorHandler.js:39-43 | status 500, code `DATABASE_ERROR`, message defaulting to "Database operation failed" |
| ServerErrors.Thrown | backend/middleware/errorHandler.js:4-12 | a thrown application error reaches the handler under the name "Error", with no driver code and its own fields intact |
| ServerErrors.IssueDetails | backend/middleware/errorHandler.js:78-81 | one `{field, message}` detail per schema issue, in order, with path and message carried over |
| ServerErrors.Classify | backend/middleware/errorHandler.js:62-92 | the last matching branch wins: token expiry, then malformed token, then schema validation, then duplicate key, then bad ObjectId; an unrecognised failure passes through unchanged; every recognised one becomes a validation or authentication error |
| ServerErrors.ErrorResponse | backend/middleware/errorHandler.js:94-108 | the envelope is never a success and always has a non-empty message and code; a classified error of a known kind gives exactly that kind's status and code; details are present iff the error has them; the stack is present iff running in development |
| ServerErrors.UnrecognisedPassesThrough | backend/middleware/errorHandler.js:94-97 | an unrecognised failure falls back to status 500, code `INTERNAL_ERROR` and message "Internal Server Error" wherever its own value is missing or falsy |
| ServerErrors.ThrownKeepsKind | backend/middleware/errorHandler.js:94-108 | a thrown application error of any kind reaches the wire with its kind's status and code, its own message and its own details |
| ClientErrors.ParseError | frontend/src/utils/errorHandler.js:4-47 | the status is present iff there was a response; the new envelope gives the message, the code and the details (defaulting to `[]`); the legacy body gives its message and no code; any other response gives "Server error (<status>)"; no response with a request gives `NETWORK_ERROR`; otherwise the local message or the default, with `UNKNOWN_ERROR`; every non-envelope message is non-empty |
| ClientErrors.NetworkIgnoresLocalMessage | frontend/src/utils/errorHandler.js:34-40 | a network failure parses the same whatever its local message says |
| ClientErrors.DetailLines | frontend/src/utils/errorHandler.js:105 | one line "field: message" per detail, in order |
| ClientErrors.FormatValidationErrors | frontend/src/utils/errorHandler.js:101-107 | the result is null exactly when no details array is given, and otherwise the detail lines joined by newlines |
| ClientErrors.FormattedLinesReadBack | frontend/src/utils/errorHandler.js:104-106 | splitting the formatted text at newlines gives back each detail's line, when fields and messages hold no newline |
| ClientErrors.AlertText | frontend/src/utils/errorHandler.js:63-72 | the alert is the message alone without details, and otherwise the message, "\n\nDetails:\n" and the formatted detail lines |
| ClientErrors.ShowError | frontend/src/utils/errorHandler.js:50-75 | returns the parsed error; sets the error text iff a setter is given; sets details iff a details setter is given and details were parsed; alerts iff there is no error setter |
| ClientErrors.NonEnvelopeKeepsDetails | frontend/src/utils/errorHandler.js:59-61 | a failure that is not an envelope never touches the displayed details |
| EmployeeValidation.Check | backend/middleware/validateEmployee.js:6-18 | a validator adds nothing iff it passes; each entry it adds is `{field, message, value}` for its own field |
| EmployeeValidation.NameChecks | backend/middleware/validateEmployee.js:6 | the name chain reports nothing iff the name is not empty, and at most one entry, about the name and carrying its value; a failure is "Name is required." |
| EmployeeValidation.MobileChecks | backend/middleware/validateEmployee.js:7-11 | the mobile chain reports nothing iff the mobile is ten digits, and at most two entries, about the mobile and carrying its value; an empty mobile gets "Mobile is required." and "Mobile must be 10 digits.", any other wrong mobile only the latter |
| EmployeeValidation.EmailChecks | backend/middleware/validateEmployee.js:12 | the email chain reports nothing iff `isEmail` accepts the email text, and at most one entry, about the email and carrying its value; a failure is "Valid email is required." |
| EmployeeValidation.PositionChecks | backend/middleware/validateEmployee.js:13 | the position chain reports nothing iff the position is not empty, and at most one entry, about the position and carrying its value; a failure is "Position is required." |
| EmployeeValidation.SalaryChecks | backend/middleware/validateEmployee.js:14-18 | the salary chain reports nothing iff the salary is numeric and at least zero, and at most two entries, about the salary and carrying its value; "Salary must be a number." when not numeric and "Salary must be positive." when not at least zero, both when both fail |
| EmployeeValidation.Violations | backend/middleware/validateEmployee.js:5-22 | no violation iff every rule of every field holds; at most seven entries, one per failing check |
| EmployeeValidation.ViolationsMeaning | backend/middleware/validateEmployee.js:5-28 | each field is reported iff one of its rules fails (name and position empty, mobile not ten digits, email rejected, salary not a number or negative); each entry carries the submitted value; entries come in field order |
| EmployeeValidation.ValidateEmployee | backend/middleware/validateEmployee.js:21-32 | passes iff there are no violations; otherwise throws "Validation failed" with the complete violation list |
| EmployeeValidation.SalaryBoundary | backend/middleware/validateEmployee.js:14-18 | a numeric salary is accepted iff it is at least zero, and otherwise gives exactly "Salary must be positive." |
| EmployeeValidation.EmptyMobileReportedTwice | backend/middleware/validateEmployee.js:7-11 | an empty mobile is reported both as required and as not ten digits, since the chain does not stop at the first failure |
| EmployeeValidation.NonNumericSalaryReportedTwice | backend/middleware/validateEmployee.js:14-18 | a missing salary, or text that reads as no number, fails both the number rule and the non-negative rule |
| EmployeeValidation.AllBadChains | backend/test-validation-errors.js:14-20 | for the all-invalid body, each field's validators report exactly the expected entry |
| EmployeeValidation.AllFieldsReported | backend/test-validation-errors.js:14-20 | the all-invalid body yields all five field errors, in field order |
| Json.NumericHasNumber | backend/middleware/validateEmployee.js:14-17 | a value that passes the numeric check has a number, and that number is read from its text |
| EmployeeModel.WellFormedIsFixed | backend/models/Employee.js:7-21 | a stored record is a fixed point of the setters: trimming its name and lower-casing its email change nothing |
| EmployeeModel.CastName | backend/models/Employee.js:7-11 | an absent name stays absent; a sent name becomes the trim of its text, and so has no surrounding whitespace |
| EmployeeModel.CastEmail | backend/models/Employee.js:16-21 | an absent email stays absent; a sent email becomes the lower-casing of its text, and so has no upper-case letter |
| EmployeeModel.DraftOf | backend/models/Employee.js:5-30 | each sent path is kept and each absent path stays absent: the name trimmed, the email lower-cased, mobile and position as their text, the salary as its number cast |
| EmployeeModel.CastText | backend/models/Employee.js:8 | the cast to String keeps exactly the sent paths, each as the same text the validator checked |
| EmployeeModel.CastNumber | backend/models/Employee.js:27 | the cast to Number gives no value for an absent path or the empty string, and otherwise the number JavaScript reads; a number is kept as it is; text that is not a number is also given no value here, although Mongoose refuses it with a `CastError`, but the validator rejects every such salary first |
| EmployeeModel.RequiredIssues | backend/models/Employee.js:7-29 | no schema issue iff every required path is present and, for the text paths, non-empty |
| EmployeeModel.Materialise | backend/models/Employee.js:5-31 | the saved record has the new id, both timestamps set to now and the draft's name, mobile, email, position and salary; it is well formed whenever the cast name is trimmed and the cast email lower case |
| EmployeeModel.Merged | backend/routes/employees.js:81-85 | an update keeps the id and `createdAt`, stamps `updatedAt`, and takes each field from the body when sent and from the stored record otherwise |
| EmployeeModel.MergedWellFormed | backend/routes/employees.js:81-85 | updating a well-formed record with any body keeps it well formed: update still runs the setters |
| EmployeeModel.ValidatedDraftPresent | backend/models/Employee.js:7-29 | a body that passes the validator fails the schema only on a name made of whitespace, with "Name is required"; its salary is present and non-negative |
| EmployeeModel.SchemaFailure | backend/middleware/errorHandler.js:76-81 | a schema failure reaches the handler named "ValidationError" carrying its issues |
| EmployeeModel.DuplicateKey | backend/models/Employee.js:16-21 | a unique-index violation carries driver code 11000, its key, and a name no named branch matches |
| EmployeeModel.BadObjectId | backend/middleware/errorHandler.js:62-63 | a malformed id reaches the handler named "CastError" without a driver code |
| EmployeeQuery.SelectMembers | backend/routes/employees.js:38-44 | a record is selected iff it is stored and the search occurs, ignoring case, in its name, email or position |
| EmployeeQuery.EmptySearchSelectsAll | backend/routes/employees.js:38-44 | the empty search matches every record |
| EmployeeQuery.FilterMembers | backend/routes/employees.js:36-44 | the filtered records are exactly the stored records that match, and there are no more of them than stored |
| EmployeeQuery.SortKeyOf | backend/routes/employees.js:46-54 | "salary" and only "salary" sorts by salary descending; "name" sorts by name; the other text and number paths sort ascending by the path they name; no sort leaves natural order |
| EmployeeQuery.LexLeTotal | backend/routes/employees.js:57 | the text order is total |
| EmployeeQuery.LexLeTransitive | backend/routes/employees.js:57 | the text order is transitive |
| EmployeeQuery.LeTotal | backend/routes/employees.js:47-58 | any two records are comparable under every sort option |
| EmployeeQuery.LeTransitive | backend/routes/employees.js:47-58 | every sort option's order is transitive |
| EmployeeQuery.SortByPermutes | backend/routes/employees.js:58 | sorting is a permutation |
| EmployeeQuery.SortBySorted | backend/routes/employees.js:58 | the sorted sequence is ordered by the sort option |
| EmployeeQuery.UnsortedKeepsOrder | backend/routes/employees.js:47 | an empty sort option keeps natural order |
| EmployeeQuery.CeilDiv | backend/routes/employees.js:69 | the page count is the least number of pages that holds every match |
| EmployeeQuery.PageOf | backend/routes/employees.js:59-60 | the page holds at most `limit` records, as many as remain after the skip, each the record at the skipped position plus its index |
| EmployeeQuery.List | backend/routes/employees.js:31-71 | `total` counts every match regardless of paging; `page` echoes the request; `totalPages` is the ceiling of total over limit; the page holds at most `limit` records |
| EmployeeQuery.ListedSlice | backend/routes/employees.js:56-60 | the page is the run of the filtered, sorted matches that starts after `(page - 1) * limit`, and holds `limit` of them or, on the last page, all that remain |
| EmployeeQuery.FirstPageByDefault | backend/routes/employees.js:34 | with no `page` parameter the listing is the first `limit` ranked matches, or all of them when there are fewer |
| EmployeeQuery.ListedRecordsMatch | backend/routes/employees.js:56-60 | every listed record is stored and matches the search |
| EmployeeQuery.ListedInOrder | backend/routes/employees.js:56-60 | the listed page is ordered by the requested sort |
| EmployeeQuery.BeyondLastPage | backend/routes/employees.js:59-69 | a page past `totalPages` is empty while `total` still counts every match |
| EmployeeQuery.PagesCover | backend/routes/employees.js:59-69 | entry `j` of page `k + 1` is match number `k * limit + j`, and that page is at most `totalPages`: the pages cover every match |
| EmployeeStore.EmployeeNotFound | backend/routes/employees.js:87-89 | the missing-record failure is a NotFound error "Employee not found" that the handler passes through |
| EmployeeStore.CreateOutcome | backend/routes/employees.js:14-26 | create succeeds exactly when the body passes validation and the schema's required checks and its cast email is unused; a validator failure, a schema failure with the schema's issues, or a duplicate email key is thrown otherwise; success is 201 "Employee created successfully" carrying the draft saved under the next id with both timestamps set to now, well formed |
| EmployeeStore.UpdateOutcome | backend/routes/employees.js:77-97 | update succeeds exactly when the body passes validation, the id names a stored record and the merged email belongs to no other record; otherwise, in that order, the validator failure, a cast error for a malformed id, NotFound for an unknown id, or a duplicate email key; success is 200 "Employee updated successfully" with the stored record merged with the body |
| EmployeeStore.DeleteOutcome | backend/routes/employees.js:102-116 | a malformed id gives a cast error and an unknown id gives NotFound; success, exactly when the id is stored, is 200 "Employee deleted successfully" with no data |
| EmployeeStore.RepeatedDeleteNotFound | backend/routes/employees.js:105-109 | deleting the same record twice answers NotFound the second time |
| EmployeeStore.InsertKeeps | backend/models/Employee.js:16-21 | inserting a well-formed record with the next id and an unused email keeps the collection invariant (ids keyed and below the counter, natural order listing each record once, emails unique) |
| EmployeeStore.ReplaceKeeps | backend/routes/employees.js:81-85 | replacing a stored record by a well-formed one whose email no other record has keeps the invariant |
| EmployeeStore.RemoveKeeps | backend/routes/employees.js:105 | removing a record keeps the invariant |
| EmployeeStore.Collection.Create | backend/routes/employees.js:14-26 | answers as `CreateOutcome`; on success stores the new record under the next id, appends it to natural order and advances the id counter; changes nothing on failure; keeps the invariant |
| EmployeeStore.Collection.Update | backend/routes/employees.js:77-97 | answers as `UpdateOutcome`; replaces the record in place on success; changes nothing on failure; keeps natural order, the id counter and the invariant |
| EmployeeStore.Collection.Delete | backend/routes/employees.js:102-116 | answers as `DeleteOutcome`; removes the record from the map and from natural order on success; changes nothing on failure |
| EmployeeStore.Collection.List | backend/routes/employees.js:31-71 | answers the list query over the stored records in natural order |
| AuthRoutes.EmailShapedIsRegex | backend/routes/auth.js:29-30 | the email check accepts a string iff it matches `^[^\s@]+@[^\s@]+\.[^\s@]+$` |
| AuthRoutes.Refused | backend/routes/auth.js:25 | a route refusal is a pass-through validation error with the given message and no details |
| AuthRoutes.RegisterOutcome | backend/routes/auth.js:15-55 | any empty field gives "All fields are required"; registration succeeds iff all fields are present, the email has the required shape, the password has at least six characters and the email is unused; success is 201 "User created successfully!" |
| AuthRoutes.RegisterGuardOrder | backend/routes/auth.js:23-42 | with all fields present, the bad email, then the short password, then the taken email refusal applies, each with its own message |
| AuthRoutes.NewUser | backend/routes/auth.js:44-47 | the new user keeps the username and email and stores the hash of the password, never the password |
| AuthRoutes.LoginOutcome | backend/routes/auth.js:58-91 | an empty field gives "Email and password are required"; an unknown email or a failed comparison gives "Invalid email or password"; success, exactly when the password matches the stored hash, is 200 with a one-hour token for the user's id and the public user fields |
| AuthRoutes.LoginFailuresAlike | backend/routes/auth.js:71-79 | an unknown email and a wrong password give the same outcome and the same envelope |
| AuthRoutes.RegistryInsert | backend/routes/auth.js:39-48 | adding a user with the next id under an unused email keeps the user collection keyed by email with ids below the counter |
| AuthRoutes.UserStore.Register | backend/routes/auth.js:15-55 | answers as `RegisterOutcome`; stores the new user and advances the id counter on success; changes nothing otherwise |
| AuthRoutes.UserStore.Login | backend/routes/auth.js:58-91 | answers as `LoginOutcome` without changing the users |
| AuthRoutes.RegisterThenLogin | backend/routes/auth.js:44-89 | after a successful registration, logging in with the same email and password succeeds and returns a token for the new id |
| AuthGate.BearerToken | backend/middleware/auth.js:12 | the token is the second space-separated word, present iff the header has at least two words, and never contains a space |
| AuthGate.VerifyToken | backend/middleware/auth.js:12 | a missing or empty token is a `JsonWebTokenError`; any other token is judged by the verifier |
| AuthGate.FailureMessage | backend/middleware/auth.js:15-22 | expiry gives "Authentication token has expired", a bad token "Invalid authentication token", anything else "Authentication failed" |
| AuthGate.Admit | backend/middleware/auth.js:4-24 | no header gives "No authentication token provided"; the request passes iff the header is present and its token verifies, and then carries the decoded claims and is otherwise unchanged; every refusal is an authentication error the handler passes through, with the message for the verifier's failure |
| AuthGate.HeaderWithoutSpace | backend/middleware/auth.js:12 | a header with no space has no token and is refused as an invalid token |
| AuthGate.RefusalsAre401 | backend/middleware/auth.js:7-22 | every refusal reaches the wire as 401 `AUTH_ERROR` with one of the four gate messages |
| ApiClient.BearerHeader | frontend/src/api.js:13 | the header is "Bearer " followed by the token |
| ApiClient.BearerRoundTrip | frontend/src/api.js:13 | the gate's token extraction recovers any space-free token from the header the interceptor writes |
| ApiClient.RequestConfig.Intercept | frontend/src/api.js:9-16 | a stored token sets the `Authorization` header and leaves every other header as it was; no stored token leaves the headers unchanged |
| Pipeline.Received | frontend/src/utils/errorHandler.js:5-17 | an envelope the server sends arrives at the client in the new envelope shape |
| Pipeline.EnvelopeRoundTrip | backend/middleware/errorHandler.js:100-108 | the client parses the server's envelope back to the same message, code and status, and to the same details, an absent details list being read as `[]` |
| Pipeline.RefusedBodyOnTheWire | backend/middleware/validateEmployee.js:21-30 | a body that fails validation is answered 400 `VALIDATION_ERROR` "Validation failed" with every violation as details |
| Pipeline.DuplicateEmailOnTheWire | backend/middleware/errorHandler.js:68-73 | creating with a stored email is answered 400 with "email already exists. Please use a different email." |
| Pipeline.BlankNameRefusedBySchema | backend/models/Employee.js:7-11 | a whitespace-only name passes the validator but fails the schema, reaching the wire as 400 "Validation failed" with the single detail "Name is required" |
| Pipeline.MissingRecordOnTheWire | backend/routes/employees.js:87-89 | updating an unknown id is answered 404 `NOT_FOUND` "Employee not found" without details |
| Pipeline.InterceptedHeaderAdmitted | backend/middleware/auth.js:11-14 | the header the interceptor writes for a valid token is admitted, with the token's claims attached |
| Pipeline.NoStoredTokenRefused | backend/middleware/auth.js:7-9 | a request with no `Authorization` header, which is what the interceptor sends when no token is stored, is answered 401 "No authentication token provided" |
| Pipeline.RegisteredUserAdmitted | backend/routes/auth.js:81-89 | the token a freshly registered user receives at login passes the gate as that user |
| Text.ToLower | backend/models/Employee.js:20 | lower-casing keeps the length and maps each character on its own |
| Text.ToLowerIdempotent | backend/models/Employee.js:20 | lower-casing twice is lower-casing once |
| Text.Trim | backend/models/Employee.js:10 | the trimmed text neither starts nor ends with whitespace |
| Text.TrimIsSlice | backend/models/Employee.js:10 | the trimmed text is the original with only whitespace removed from either end |
| Text.TrimIdempotent | backend/models/Employee.js:10 | trimming twice is trimming once |
| Text.Contains | backend/routes/employees.js:40-42 | the needle is contained iff it occurs at some position |
| Text.Split | backend/middleware/auth.js:12 | splitting gives at least one piece and no piece holds the separator |
| Text.SplitJoin | backend/middleware/auth.js:12 | splitting the join of separator-free pieces gives the pieces back |
| Text.JoinSplit | backend/middleware/auth.js:12 | joining the pieces of a split gives the text back |
| Text.IntToStringValue | frontend/src/utils/errorHandler.js:29 | the decimal text of a status reads back as that status |

## Left out

- Logging (`console.error`, `console.log`), `asyncHandler`'s promise plumbing, HTTP transport and `server.js` wiring are not modelled. Each route is a function from the stored state and the request to an outcome.
- The React components (`App.js`, `EmployeeForm.js`, `EmployeeList.js`, `LoginForm.js`, `RegisterForm.js`), `showSuccess` and `clearMessages` are not part of this model, because they are UI and timers.
- `models/User.js` is not part of this model. The user lookup is an exact match on the email string, with no lower-casing or trimming.
- Password hashing, salt generation and token signing and verifying are abstract functions passed in. Their randomness, the secret and the clock are not modelled; the verifier's verdict stands for expiry.
- `validator.js`'s `isEmail` is a parameter. The proofs only assume that it rejects the strings the lemmas name ("" and "invalid-email").
- The `stack` field is an opaque string. Only its presence, exactly in development, is stated.
- `AuthorizationError` and `DatabaseError` are defined and classified but never thrown by the modelled routes, as in the source.
- Numbers are integers. `Number`/`isNumeric` accept optionally signed decimal integers only, so fractions, exponents, hexadecimal, `Infinity` and numbers outside the double range are not modelled.
- A salary that passes the validator but fails Mongoose's cast (a `CastError` from `save`) is not modelled, since the accepted forms always cast.
- EmployeeModel.CastNumber: text that is not a number yields no value instead of Mongoose's "Cast to Number failed" `CastError`. No body that passes the validator carries such a salary, so no route outcome depends on it.
- Request bodies of the auth routes are strings. The empty string stands for every falsy value, and non-string JSON there is not modelled.
- EmployeeQuery.Matches: the search is treated as literal text matched as a substring ignoring ASCII case. Regular-expression metacharacters in `search` are not interpreted.
- EmployeeQuery.Le: the `en` collation at strength 2 is modelled as code-point order after ASCII lower-casing. ICU's full collation rules (accents, punctuation weights) are not modelled.
- EmployeeQuery.SortBy: ties are broken by natural (insertion) order. MongoDB does not promise a stable sort, so the model fixes one of the orders the database may return.
- EmployeeQuery.SortKeyOf: a `sort` value naming no schema path sorts by a path no record has. Every record ties, so that gives natural order.
- EmployeeQuery.List: `page` and `limit` are assumed to be positive integers. Non-numeric, zero or negative query values, which make the source's arithmetic produce `NaN` or negative skips, are excluded by the `Paged` precondition.
- AuthRoutes.RegisterOutcome: the password length counts code points, where JavaScript counts UTF-16 code units.
- Text.ToLower: only `A`-`Z` are folded. Unicode case mapping is not modelled.
- Concurrency between requests is not modelled (so is the race between the duplicate check and the insert). Each request runs to completion against one state.

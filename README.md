# Architecture-firm back office: derived state and lifecycle rules

This project models the rules of an Express/Mongoose back office for an architecture practice that decide
what gets stored. It covers:

- **Invoice ledger.** The pre-save hook recomputes every line amount, the sub-total, the total, the
  balance due and the payment status. The invoice handlers add the `INV-YYYYMMDD-NNNN` number, copy the
  client from the project, and update by either a verbatim merge or a merge followed by the hook.
- **Task review.** Drawing submission and the approval decision form a small state machine over
  status, progress and approval, with ownership and role guards. The general task update is a guarded
  merge that no validator checks.
- **Payroll.** The salary is `round(basic / 30 × days + allowance)`, with a truthiness-based allowance
  fallback. A status change to Paid stamps the payment date.
- **Attendance.** The first mark of a day checks the user in, the second checks them out, and the third
  is refused.
- **Projects.** Creation appends the new id to its client's list, which deletion leaves behind. Update
  and delete answer 404 for a missing project.
- **Users.** Registration refuses a taken e-mail. Update merges fields with `||` fallbacks and never
  returns the password.
- **Request guards.** `protect` extracts the bearer token, with JWT verification as a parameter.
  `authorize` is the role check.

Records are datatypes. Each collection is a class holding a `map` from id to record, except attendance,
which is a `seq` so that "the first matching record" is explicit. The handler methods replace the map
and follow the handler's statement order: load, 404, guard, field assignments, save-time validation.
Save-time schema validation is modelled where it changes an outcome:

- the task progress bounds when a task is saved;
- the payroll record's required basic salary;
- the users' required non-empty strings.

`findByIdAndUpdate` without validators does no validation. Money is in integer minor units. Times are
integer milliseconds. The clock, `Math.random`, the database-assigned ids and JWT verification are
inputs.

Where the code and the intended design diverge, the model follows the code:

- Only Admin and Architect may approve a task. Managers may not.
- No code advances a project's phase, so there is no phase tracker.
- A user without a basic salary makes the payroll record fail its schema (500). Nothing is computed
  with 0.
- Creating a project for an unknown client still stores the project.
- An invoice update that leaves the ledger fields alone stores client-supplied totals verbatim.

## Model

| member | source | states |
|---|---|---|
| InvoiceSchema.PreSave | models/Invoice.js:88-107 | each line amount becomes quantity × unit price, whatever was stored; subTotal is the sum over the lines; total = subTotal + tax − discount; balance = total − amountPaid; Paid when nothing is due on a positive total, else Partially Paid when something is paid and something is due, else the status is kept; no other field changes |
| InvoiceSchema.SumOfPricedLines | models/Invoice.js:91-94 | recomputing the line amounts does not change the sum, so the amounts already stored play no part |
| InvoiceSchema.RecalculatedIsConsistent | models/Invoice.js:88-107 | after the hook every ledger identity holds (line amounts, sub-total, total, balance), whatever totals the document carried before |
| InvoiceSchema.RecalculateIdempotent | models/Invoice.js:88-107 | running the hook twice gives the same document as running it once |
| InvoiceSchema.ConsistentIsStable | models/Invoice.js:96-106 | on an already consistent invoice the hook changes at most the status |
| InvoiceSchema.PaidExactly | models/Invoice.js:102-106 | after the hook the status is Paid exactly when nothing is due on a positive total, or when it was Paid before and the Partially Paid rule does not fire |
| InvoiceSchema.UnpaidDraftStaysDraft | models/Invoice.js:102-106 | a Draft with nothing paid and a positive total stays Draft, with a positive balance |
| InvoiceSchema.PaidIsSticky | models/Invoice.js:102-106 | a Paid invoice whose payment is reset to 0 keeps the status Paid although a positive balance is due |
| InvoiceSchema.SettledExample | models/Invoice.js:88-107 | 2 × 500 plus 1 × 1500 (stale amount 7), tax 200, discount 100 and 2600 paid give subTotal 2500, total 2600, balance 0 and status Paid |
| Invoices.Padded | controllers/invoiceController.js:28 | a number below 10^width is written as exactly width decimal digits |
| Invoices.PaddedValue | controllers/invoiceController.js:28 | the digits written by Padded read back as the number |
| Invoices.DateStamp | controllers/invoiceController.js:28 | the date with its dashes removed is 8 characters |
| Invoices.RandomSuffix | controllers/invoiceController.js:29 | floor(1000 + u × 9000) lies in 1000..9999 for every draw u in [0, 1) |
| Invoices.InvoiceNumber | controllers/invoiceController.js:28-30 | the number is 17 characters: "INV-", 8 digits, "-", 4 digits |
| Invoices.InvoiceNumberRoundTrip | controllers/invoiceController.js:28-30 | parsing an invoice number gives back the date and the random suffix it was built from |
| Invoices.InvoiceNumberInjective | controllers/invoiceController.js:28-30 | two numbers are equal if and only if they come from the same date and the same suffix |
| Invoices.CreatedStatusIsRequested | controllers/invoiceController.js:42 | a new invoice has nothing paid, so it keeps the requested status, or Draft when none is given, and its balance equals its total |
| Invoices.VerbatimTotalBreaksLedger | controllers/invoiceController.js:99-103 | a patch that names none of items, tax, discount or amountPaid stores a new total verbatim, and the invoice is no longer ledger-consistent |
| Invoices.LedgerPatchOverridesStatus | controllers/invoiceController.js:111-124 | a ledger patch that also sets Draft ends Paid when the merged invoice is settled: the hook overrides the caller's status |
| Invoices.PatchedNumberLeavesFormat | controllers/invoiceController.js:99-103 | the verbatim merge stores a caller's invoice number as given, so the stored number can fail to parse as `INV-YYYYMMDD-NNNN` |
| Invoices.InvoiceDb.CreateInvoice | controllers/invoiceController.js:8-50 | an unknown project gives 404 "Project not found"; a project whose client no longer exists gives 400; a missing due date fails validation (400); in each error case nothing is stored. Otherwise the stored invoice is numbered from today's date and the draw, its client is the project's client whatever the request says, it has nothing paid, it is ledger-consistent, and it is the hook applied to the request with the schema defaults |
| Invoices.InvoiceDb.UpdateInvoice | controllers/invoiceController.js:91-131 | a missing invoice gives 404 and changes nothing; a new invoice number that another invoice carries breaks the unique index (400) and changes nothing; otherwise the stored number is the patched one or the old one; a patch that names none of the four ledger fields is merged verbatim, number, issuer and date included; otherwise the merged invoice goes through the hook and is ledger-consistent |
| Projects.NewProject | models/Project.js:3-45 | a created project keeps its title and client and defaults to Concept Design and Active |
| Projects.ProjectDb.CreateProject | controllers/projectController.js:8-23 | without a title or a client, 400 and nothing changes; otherwise the project is stored, exactly its id is appended to the end of its client's list, and every other client is unchanged; an unknown client changes no client |
| Projects.ProjectDb.UpdateProject | controllers/projectController.js:60-71 | a missing project gives 404; otherwise the patch's fields overwrite the project's; clients never change |
| Projects.ProjectDb.DeleteProject | controllers/projectController.js:76-87 | a missing project gives 404; otherwise only that project is removed and clients never change |
| Projects.CreateThenDelete | controllers/projectController.js:78-81 | creating and then deleting a project leaves its id dangling at the end of its client's list |
| Users.RoleName | models/User.js:18-22 | every role's name is a non-empty string |
| Users.View | controllers/userController.js:75-76 | the view of a user carries its id, name, e-mail, role, activity flag and salary, and has no password field |
| Users.MergeUserFields | controllers/userController.js:62-70 | name and e-mail are replaced by a non-empty value and kept otherwise; role, contact and salary details are replaced whenever given; isActive is replaced by whatever value is given, false included, and kept when absent; the password is replaced by a non-empty value and kept otherwise; the joining date never changes |
| Users.MergeKeepsRequiredFields | controllers/userController.js:62-72 | the merge never empties a required field, so the save cannot fail on one |
| Users.UserDb.RegisterUser | controllers/userController.js:7-40 | a taken e-mail gives 400 "User already exists" and creates nothing; an empty required field fails the schema (500) and creates nothing; otherwise the user is stored with role Intern, joining date now and isActive true by default, and only id, name, e-mail and role are returned; e-mails stay unique |
| Users.UserDb.UpdateUser | controllers/userController.js:57-85 | a missing user gives 404; a merged user with an empty required field fails the save (500); an e-mail another account holds breaks the unique index (500); in both cases nothing changes; otherwise the merged user is stored and returned without its password; a stored user with its required fields and a free e-mail is always updated; e-mails stay unique |
| TaskSchema.NewTask | models/Task.js:4-41 | creation succeeds exactly when title, project, assignee and deadline are given and progress is within 0..100, otherwise 400; status and approval default to Pending and progress to 0 |
| Tasks.ApproversAreAdminOrArchitect | controllers/taskController.js:132-134 | approval is open to Admin and Architect only: a Manager assignee may update a task but not approve it |
| Tasks.MergeSkipsValidation | controllers/taskController.js:75 | the general update stores progress 150 on an approved task, breaking the bounds and the approval convention |
| Tasks.TaskDb.CreateTask | controllers/taskController.js:7-14 | the result is the validated task with its defaults, stored only when validation passes |
| Tasks.TaskDb.UpdateTask | controllers/taskController.js:61-81 | a missing task gives 404 before any role check; a caller who is neither Admin, Architect nor the assignee gets 403; otherwise the patch is merged with no recomputation |
| Tasks.TaskDb.SubmitDrawing | controllers/taskController.js:102-121 | 404, then 403 for anyone but the assignee or Admin; a task with progress out of bounds fails to save (500); otherwise the drawing is set, status becomes Review and approval Pending, and progress is unchanged |
| Tasks.TaskDb.ApproveTask | controllers/taskController.js:126-152 | 404, then 403 for anyone but Admin or Architect; the decision and notes are recorded; Approved gives Completed at 100; Rejected gives In Progress at 50 whatever the progress was; Pending leaves status and progress alone |
| Tasks.SubmitThenApprove | controllers/taskController.js:102-152 | an assignee's submission followed by an Architect's approval ends Completed at 100 with the drawing recorded |
| Payroll.RoundDiv | controllers/payrollController.js:26 | the result is within half a unit of num / den, with halves rounded up |
| Payroll.RoundDivUnique | controllers/payrollController.js:26 | any integer within that half-unit window is the rounded value |
| Payroll.CalculatedSalary | controllers/payrollController.js:17-26 | the salary is within half a unit of basic / 30 × days + allowance |
| Payroll.StoredAllowanceIsFormulaAllowance | controllers/payrollController.js:18-25 | the stored allowance is the one the formula used: a non-zero requested amount, else the configured one, else 0 |
| Payroll.FullMonthPaysBasic | controllers/payrollController.js:17-18 | 30 days with no allowance pay exactly the basic salary |
| Payroll.WholeDailyRateIsExact | controllers/payrollController.js:17-26 | when basic / 30 is whole, the salary is that rate × days + allowance with no rounding |
| Payroll.WorkedExample | controllers/payrollController.js:17-26 | basic 30000, 22 days and allowance 2000 give 24000 |
| Payroll.PayrollDb.CalculatePayroll | controllers/payrollController.js:8-34 | an unknown staff id gives 404; a user without a basic salary, or an empty month, fails the schema (500); in both cases nothing is stored; otherwise a new Pending record (so one without a payment date) stores month, days, basic salary, the allowance used and the rounded salary |
| Payroll.PayrollDb.UpdatePayrollStatus | controllers/payrollController.js:51-67 | a missing record gives 404; otherwise the status is set, the payment date is stamped with now only for Paid and is otherwise kept, never cleared, and nothing else changes; a Paid result always has a date, and a record that had one keeps it |
| Attendance.WindowIsDay | controllers/attendanceController.js:13-26 | a time lies in today's start-to-end window exactly when it falls on the same day |
| Attendance.FindToday | controllers/attendanceController.js:20-26 | the lookup finds the first record of the user within today's window, or none exists |
| Attendance.FindAppended | controllers/attendanceController.js:20-26 | a matching record appended after non-matching ones is the one found |
| Attendance.AttendanceLog.MarkAttendance | controllers/attendanceController.js:7-61 | no record today: one is appended with the given status or Present, checked in now and not checked out. An open record: it is checked out now and keeps its check-in time; notes and status change only when given. A closed record: 400 "You have already checked out for today" and nothing changes. Only that record is touched, and each user has at most one record per day |
| Attendance.ThreeMarksOneDay | controllers/attendanceController.js:28-56 | three marks on one day give check-in, then check-out with the check-in time kept, then the refusal, with one record added |
| Auth.Split | middlewares/authMiddleware.js:60 | splitting on single spaces gives at least one field, and no field contains a space |
| Auth.JoinSplit | middlewares/authMiddleware.js:60 | joining the fields with spaces gives the header back |
| Auth.SplitJoin | middlewares/authMiddleware.js:60 | fields without spaces are recovered by splitting their join |
| Auth.ExtractToken | middlewares/authMiddleware.js:56-61 | a token is taken only from a header starting with "Bearer", and it contains no space |
| Auth.TokenIsSecondField | middlewares/authMiddleware.js:56-61 | the token is the second space-separated field of the header |
| Auth.BearerHeaderYieldsToken | middlewares/authMiddleware.js:56-61 | "Bearer " followed by a token, then nothing or a space, yields exactly that token |
| Auth.BearerWithoutSpaceHasNoToken | middlewares/authMiddleware.js:56-65 | "Bearer" alone, or run into text with no space, yields no token |
| Auth.DoubleSpaceYieldsEmptyToken | middlewares/authMiddleware.js:60-65 | "Bearer" followed by two spaces yields the empty token, which counts as no token |
| Auth.OtherSchemeHasNoToken | middlewares/authMiddleware.js:56-58 | any header that does not start with "Bearer" yields no token |
| Auth.Protect | middlewares/authMiddleware.js:53-74 | 401 "Not authorized, no token" exactly when no non-empty token is extracted; 401 "Not authorized, token failed" exactly when verification fails; otherwise the user the token names, without password, is handed on, or nothing if no such user exists |
| Auth.Authorize | middlewares/authMiddleware.js:76-86 | the request passes if and only if the role is non-empty and in the list; an empty role gives 403 "User role not found" before the membership test; every refusal is a 403 |
| Auth.RoleNameInjective | models/User.js:18-22 | two roles have the same name if and only if they are the same role |
| Auth.AuthorizeIsRoleMembership | middlewares/authMiddleware.js:81-84 | for a stored user the string test is exactly membership of the role in the route's list |

## Left out

- Persistence, `populate` and the Mongo query language are left out. Collections are in-memory maps, ids are supplied by the caller, and writes are never concurrent. Two same-day check-ins racing past the non-unique attendance index and the non-atomic project/client double write are not modelled.
- JWT signing and verification and bcrypt hashing are left out. Verification is a function parameter, and the password is an opaque string. The user schema's pre-save re-hash is not modelled.
- The clock and randomness are inputs, not computations. `now` is the current time in milliseconds, the invoice date stamp is a UTC calendar date given as input, and `Math.random()` is a real in [0, 1). The calendar arithmetic of `toISOString` and time zones are not modelled.
- Attendance.AttendanceLog.MarkAttendance: the day window is computed on a fixed-offset clock (`now − now mod 86400000`); local-time zones and daylight-saving days are not modelled.
- Invoices.InvoiceDb.CreateInvoice: the date in the number (`today`) is an input that is not tied to the document's `now`, and a clash of two generated invoice numbers on the unique index is not modelled.
- The text of schema-validation and duplicate-key errors (Mongoose's "… validation failed: <path>: …" and the driver's duplicate-key message) is not modelled: those contracts state only the status (400 or 500), and the messages in the method bodies are placeholders.
- Payroll.PayrollDb: the manual createPayroll handler (`Payroll.create(req.body)`) is not modelled. It can store a record that is Paid without a payment date, so the store keeps no invariant. The handlers promise the per-record property only for the records they write.
- Tasks.TaskDb.ApproveTask: a request without an approval decision (the handler then writes `undefined` and unsets the field) cannot be expressed, because the decision is typed as the enumeration.
- Payroll.PayrollDb.UpdatePayrollStatus: a request without a status (the handler then writes `undefined` and unsets the field) cannot be expressed, because the status is typed as the enumeration.
- Floating point is left out. Money is in integer minor units, and the payroll `/ 30` is exact rational arithmetic with JavaScript's half-up rounding, so IEEE rounding error is not reproduced.
- Request values of the wrong type are left out. Strings outside an enum, JSON `null`, and non-numeric amounts or quantities are ruled out by the types. A missing required string is modelled as the empty string, which the schema also rejects.
- A request to registerUser with no e-mail at all is modelled as the empty e-mail; how the driver treats a lookup on an undefined e-mail is not modelled.
- Schema validation of invoice lines is left out: a line without a description is not refused.
- The update validators that `runValidators` runs on the invoice update path are not modelled beyond what the types already enforce.
- `authorize` on a request whose token names a deleted user dereferences a null user and fails inside the framework; the model's Authorize takes the role string of an existing user.
- The route-level role gates, the read-only handlers (listing and fetching invoices, tasks, payroll, dashboard counts, reports, settings) and client CRUD are not modelled.
- Deleting a task is not modelled. No handler advances a project's phase, so neither does the model.

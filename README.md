# Employee registration form and plan-table name filter

This project models two parts of the dashboard of an administration app for
companies and their employees.

- **The employee registration form**
  (`app/dashboard/funcionarios/_components/employee-form.tsx`) has two halves.
  - **The validation schema.** Each field has a rule:
    - `nome`: at least 2 characters;
    - `dataNascimento`: `DD/MM/YYYY`;
    - `endereco`: at least 5 characters;
    - `cpf`: `NNN.NNN.NNN-NN`, refused when a remote lookup says it already exists;
    - `email`: the validation library's email check;
    - `telefone`: `(NN)`, one white-space character, 4 or 5 digits, `-`, 4 digits;
    - `pessoasNaCasa`: optional, and numeric when non-empty;
    - `empresaId`: non-empty.
  - **The submission sequence.** It is driven by the `loadingOn` flag:
    - the submit button is disabled while the flag is set;
    - a submission sets the flag and creates a login for the form's email with the fixed password `123456789`;
    - only if that succeeds does it write the values plus `role: 'user'` to the `funcionarios` collection, paired with the new uid;
    - when the write succeeds, the form is reset, a success toast is shown, the app navigates to `/dashboard/funcionarios` and the flag is cleared;
    - when the write fails, an error toast is shown and the flag is cleared.
- **The name search of the plans table**
  (`app/dashboard/planos/_components/employee-tables/index.tsx`).
  - An empty query shows the data unchanged.
  - Any other query shows the items whose lower-cased `nome` contains the lower-cased query.
  - The item count handed to the table is the number of rows shown.

Files:

- `wrappers.dfy`: the `Option` and `Result` types.
- `pattern.dfy` (module `Pattern`): the regular-expression fragment the schema uses.
  - A pattern is a sequence of quantified atoms `\d`, `\s` or a literal character.
  - `Matches` is a backtracking matcher over such patterns.
  - `MatchesFromSpec` states what the matcher accepts.
- `field_rules.dfy` (module `FieldRules`): the schema.
  - Each rule is a predicate, and `Validate` returns the values or the set of failing fields.
  - Each pattern is proved to accept exactly a positional shape (`IsDateShape`, `IsCpfShape`, `IsPhoneShape`).
  - The email check, the numeric check and the remote lookup's answer enter as the `Checks` parameter.
- `employee_form.dfy` (module `EmployeeForm`): the class `FuncionarioForm`.
  - Its fields are the current values, `loadingOn`, and logs of login requests, writes, toasts and navigations.
  - The backends' answers are method parameters.
  - The class invariant `Valid` says that every write goes to `funcionarios` with role `user`, paired with the uid of a login that was created.
  - A ghost counter `answered` records how many issued writes have had their callback; a callback requires an unanswered write, and only successful callbacks navigate.
  - Four client methods run the form from a fresh instance through whole scenarios.
- `employee_table.dfy` (module `EmployeeTable`): the filter as pure functions, with lemmas about it.

Behaviour of the code worth noting:

- Records go to the collection `funcionarios`.
- `empresaId` is only required to be non-empty. It is not checked against the list of companies the form loads.
- The remote CPF lookup has no error handling. The model takes its `exists` answer as an input.
- `loadingOn` is cleared only in the write callbacks. After a login failure it stays set, and the button stays disabled.
- The phone separator may be any character of `\s`, not only a space.

## Model

| member | source | states |
|---|---|---|
| Pattern.MatchesFromSpec | app/dashboard/funcionarios/_components/employee-form.tsx:61-62 | An atom quantified `{lo,hi}` followed by the rest of a pattern matches exactly when some count n in range leaves a prefix of n characters of the atom's class and the rest matches the remaining pattern |
| FieldRules.Errors | app/dashboard/funcionarios/_components/employee-form.tsx:33-73 | A field is reported exactly when its rule fails |
| FieldRules.Validate | app/dashboard/funcionarios/_components/employee-form.tsx:33-73 | The result is Ok exactly when every field passes, and it then holds the values unchanged; otherwise it is the non-empty set of exactly the failing fields; a CPF reported as existing always fails |
| FieldRules.DateRegexShape | app/dashboard/funcionarios/_components/employee-form.tsx:39-44 | `^\d{2}\/\d{2}\/\d{4}$` accepts exactly two digits, '/', two digits, '/', four digits |
| FieldRules.CpfRegexShape | app/dashboard/funcionarios/_components/employee-form.tsx:48-50 | `^\d{3}\.\d{3}\.\d{3}-\d{2}$` accepts exactly the 14-character `NNN.NNN.NNN-NN` strings |
| FieldRules.PhoneRegexShape | app/dashboard/funcionarios/_components/employee-form.tsx:59-64 | `^\(\d{2}\)\s\d{4,5}-\d{4}$` accepts exactly '(' two digits ')', one white-space character, 4 or 5 digits, '-', four digits |
| FieldRules.SchemaRules | app/dashboard/funcionarios/_components/employee-form.tsx:33-73 | Each field passes exactly when its plain rule holds: the name has at least 2 characters, the address at least 5, the date, CPF and phone have their shapes, the CPF is not reported as existing, the email passes the email check, the household size is absent, empty or numeric, and the company id is non-empty, with no check against the company list |
| FieldRules.AcceptedLengths | app/dashboard/funcionarios/_components/employee-form.tsx:39-64 | Accepted dates have 10 characters, accepted CPFs 14, and accepted phone numbers 14 or 15 |
| FieldRules.AnyDigitsFormADate | app/dashboard/funcionarios/_components/employee-form.tsx:39-44 | Any eight digits laid out as `DD/MM/YYYY` pass, so there is no calendar check |
| FieldRules.DatesRejected | app/dashboard/funcionarios/_components/employee-form.tsx:39-44 | "1/1/1990", "01-01-1990" and "01/01/90" are refused |
| FieldRules.AnyCheckDigits | app/dashboard/funcionarios/_components/employee-form.tsx:48-55 | Replacing the two check digits of an accepted CPF by any digits keeps it accepted, so check digits are not verified |
| FieldRules.CpfsRejected | app/dashboard/funcionarios/_components/employee-form.tsx:48-55 | An unformatted, short or wrongly punctuated CPF is refused whatever the lookup answers |
| FieldRules.AnySpaceInPhone | app/dashboard/funcionarios/_components/employee-form.tsx:59-64 | In an accepted phone number the separator after ')' may be replaced by any white-space character |
| FieldRules.PhoneFormsRejected | app/dashboard/funcionarios/_components/employee-form.tsx:59-64 | A number without the separator, with a six-digit block or without parentheses is refused |
| FieldRules.LookupDecides | app/dashboard/funcionarios/_components/employee-form.tsx:48-55 | When the other fields are well formed, a CPF reported as existing is the only error whatever its shape, and a well-shaped CPF not reported as existing makes the values valid |
| EmployeeForm.FuncionarioForm.constructor | app/dashboard/funcionarios/_components/employee-form.tsx:76-92 | A new form holds the default values (`pessoasNaCasa` empty), `loadingOn` is false, and nothing has been requested, written, shown or navigated |
| EmployeeForm.FuncionarioForm.CreateEmployeeLogin | app/dashboard/funcionarios/_components/employee-form.tsx:96-111 | Logs one login request for the email with password `123456789`; on success returns the backend's uid and shows nothing; on failure shows the login error toast and returns no uid |
| EmployeeForm.FuncionarioForm.OnSubmit | app/dashboard/funcionarios/_components/employee-form.tsx:128-137 | Sets `loadingOn`; requests a login for the email in the form; if the login failed, writes nothing and leaves `loadingOn` set; if it succeeded, issues exactly one write of the submitted values with role `user` to `funcionarios`, paired with the new uid; keeps the class invariant |
| EmployeeForm.FuncionarioForm.OnWriteSuccess | app/dashboard/funcionarios/_components/employee-form.tsx:115-120 | Resets the values to the defaults, shows the success toast, navigates to `/dashboard/funcionarios` and clears `loadingOn`; it answers one issued write that had no answer yet |
| EmployeeForm.FuncionarioForm.OnWriteError | app/dashboard/funcionarios/_components/employee-form.tsx:121-125 | Shows the write error toast and clears `loadingOn`; the values stay and nothing navigates; it answers one issued write that had no answer yet |
| EmployeeForm.FuncionarioForm.PressSubmit | app/dashboard/funcionarios/_components/employee-form.tsx:307-309 | While `loadingOn` is set a press changes nothing; values the schema refuses change nothing and yield the failing fields; valid values go through the submission with the current values |
| EmployeeForm.RefusedValues | app/dashboard/funcionarios/_components/employee-form.tsx:76-77 | Values the schema refuses never request a login or write, and the button stays enabled |
| EmployeeForm.SuccessfulRun | app/dashboard/funcionarios/_components/employee-form.tsx:96-137 | A successful run makes one login request with the fixed password and one write of the values with role `user` paired with the new uid, then resets the form, navigates to the listing and enables the button |
| EmployeeForm.LoginFailureLocksForm | app/dashboard/funcionarios/_components/employee-form.tsx:106-109 | After a failed login nothing is written, the button stays disabled, and the next press is ignored |
| EmployeeForm.WriteFailureThenRetry | app/dashboard/funcionarios/_components/employee-form.tsx:121-125 | After a failed write the values are kept and nothing navigates; pressing again requests a second login for the same email, and writes again only if that login is created |
| EmployeeTable.KeepMatching | app/dashboard/planos/_components/employee-tables/index.tsx:22-24 | Every row kept is a row of the data whose lower-cased name contains the lower-cased query; no such row is dropped; no more rows than the data |
| EmployeeTable.FilterByName | app/dashboard/planos/_components/employee-tables/index.tsx:20-29 | An empty query shows the data unchanged; otherwise exactly the matching rows are shown |
| EmployeeTable.Table | app/dashboard/planos/_components/employee-tables/index.tsx:41-45 | The rows handed to the table are the filtered rows, and the item count is their number, never more than the data's and equal to it for an empty query |
| EmployeeTable.IncludesSpec | app/dashboard/planos/_components/employee-tables/index.tsx:23 | `includes` holds exactly when the query occurs at some position of the name |
| EmployeeTable.EmptyQueryKeepsAll | app/dashboard/planos/_components/employee-tables/index.tsx:26-27 | The filter with an empty query would keep every row, so the empty-query branch agrees with it |
| EmployeeTable.KeepMatchingSubsequence | app/dashboard/planos/_components/employee-tables/index.tsx:22 | The rows kept are a subsequence of the data, in their original order |
| EmployeeTable.SubsequenceOfData | app/dashboard/planos/_components/employee-tables/index.tsx:20-29 | The rows shown for any query are an order-preserving subsequence of the data |
| EmployeeTable.KeepMatchingCounts | app/dashboard/planos/_components/employee-tables/index.tsx:22 | A matching row is kept as many times as it occurs in the data; a non-matching row is not kept |
| EmployeeTable.CaseInsensitive | app/dashboard/planos/_components/employee-tables/index.tsx:23 | A query and its upper-cased form show the same rows |
| EmployeeTable.KeepMatchingSameLowered | app/dashboard/planos/_components/employee-tables/index.tsx:23 | Two queries with the same lower-cased form keep the same rows |
| EmployeeTable.FilterIdempotent | app/dashboard/planos/_components/employee-tables/index.tsx:20-29 | Filtering the shown rows again with the same query changes nothing |
| EmployeeTable.KeepMatchingIdempotent | app/dashboard/planos/_components/employee-tables/index.tsx:22-24 | Keeping the matching rows of the kept rows changes nothing |

## Left out

- The rendering (cards, inputs, the company select, the input masks of `react-input-mask`) is not modelled. The masks only shape keystrokes; the schema alone decides acceptance.
- The email rule of the validation library is not visible. It enters as the predicate `Checks.isEmail`.
- `!isNaN(Number(val))` is JavaScript number coercion, which accepts for example " ", "0x10" and "Infinity". It enters as the predicate `Checks.isNumeric`.
- The remote CPF lookup (`fetch('/api/check-cpf')` and the JSON reply) is not modelled. Its `exists` answer is the boolean `Checks.cpfExists`, and a failing request is not modelled.
- Whether the validation library still runs the CPF lookup after the pattern has failed is library behaviour and is not modelled. The CPF field fails in that case whatever the lookup answers.
- The error messages shown under each field are not modelled. Validation yields the set of failing fields.
- Lengths count characters. JavaScript counts UTF-16 code units, which differ only for characters outside the Basic Multilingual Plane.
- `createUserWithEmailAndPassword`, the document store behind `useFirestore`, the router and the toast library are not modelled. Their outcomes are method parameters, and their effects are appended to the form's logs.
- The email for the login is read from the form (`form.getValues('email')`), which is modelled as the form's current values. It can differ from the submitted values only through interleavings that are not modelled.
- The rejection that `createEmployeeLogin` rethrows, and that `onSubmit` propagates, is modelled as the `LoginRejected` outcome. What the form library does with the rejected promise is not modelled.
- `console.error`, the timestamps and the `loading` flag that `useFirestore` manages, and the `useFetchDocuments('empresas')` list are not modelled. The list plays no part in validation.
- Async scheduling is modelled only as far as the class invariant goes: each write callback answers one issued write, at most once. Which of several pending writes a callback answers, and re-entrancy beyond the `loadingOn` flag, are not modelled.
- `toLowerCase` and `toUpperCase` are modelled on ASCII letters only; full Unicode case mapping is not modelled. Accented capitals are left unchanged, so a row named "JOÃO" is dropped for the query "joão" in the model while the app shows it.
- EmployeeTable.CaseInsensitive: holds for the ASCII casing of the model only. With JavaScript's full case mapping it fails, for example for the query "ß", which upper-cases to "SS" and lower-cases back to "ss".
- `app/dashboard/planos/_components/employee-listing-page.tsx` (layout, the re-fetch effect on a global flag, loading and error rendering) is not part of this model.
- The rows of the plans table are assumed to carry a string `nome`. The source takes `data: any[]`, and for a non-empty query a row whose `nome` is missing or not a string makes `toLowerCase` throw; that throw is not modelled.
- `useEmployeeTableFilters`, `columns` and `DataTable` are not part of this model. The query and the data are parameters, and the `totalData` prop is unused by the filter.

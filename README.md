# School-suite admin client: session, API gating and form logic

This project models the core of a React admin client for school
management (teachers, students, parents) and proves properties of it in Dafny.
The client itself is a TypeScript single-page application. The model covers:

- **The session store** (`AuthContext`). A provider holds three state cells:
  the user, the access token and the refresh token. It mirrors them into the
  browser's `localStorage`, modelled as a `map<string, string>` field. At
  mount it hydrates from storage. The cells change only through `setAuthData`,
  `logout` and `login`. The stored user is the `JSON.stringify` text of the
  user, so the model includes the slice of JSON that text uses (string
  literals and integers) and proves that reading it back gives the same user.
- **Retry policy and cache timing** (`QueryClient`). These are the `retry`
  predicates for queries and mutations, which depend on the online flag and a
  failure count, plus the `staleTime` and `maxAge` constants.
- **Current-user normalisation** (`LoginApi`). This is the request
  `fetchCurrentUser` sends and the checks and field mapping it applies to the
  reply. The reply is an input value.
- **Teacher endpoints** (`TeacherApi`). These are the query keys and `enabled`
  flags of the two queries, and the requests the four calls build. The
  `Authorization` header of the one shared HTTP client is a field of a class
  that every hook function stamps before sending.
- **The three create/edit panels** (`CreateParent`, `CreateStudent`,
  `CreateTeacher`, with shared pieces in `Drafts`). Each panel is a class
  whose fields are the draft (`formData`) and the error map (`errors`). Its
  methods are the change handlers, the prefill effect, validation (where the
  panel has one) and submit. Each method is proved against a specification
  function. The properties of that function are proved as lemmas.

Supporting modules give JavaScript's meaning to what the core relies on:

- `Text`: the regular expressions `\d{n}` and the email pattern, `String(n)`,
  and the decimal part of `Number(s)` and `parseInt(s)`.
- `Js`: truthiness, `||`, missing properties and template text.
- `Json`: `JSON.stringify` and `JSON.parse` for strings and integers.
- `Http`: requests as values, and bearer headers.

Several places where the code does something other than the system's stated
design are modelled as the code does them. Lemmas make each one explicit:

- After `logout`, the teacher client keeps sending the previous bearer header.
  The hooks only stamp a header when a token is present (`StaleHeaderAfterLogout`).
- The teacher list query runs while `organizationId` is still `undefined`; it
  is not held back (`ListRunsWithoutOrganization`).
- Create and update mutations do not invalidate any cached list. The client
  model has no cache write at all.
- A stored user text that `JSON.parse` cannot read makes hydration throw
  (`Hydrate` returns `Err`). It does not decode to `null`.
- The student name message says "less than 200 characters", but a name of
  exactly 200 characters is accepted (`NameLengthBoundary`).

## Model

| member | source | states |
|---|---|---|
| Text.NatToString | src/app/features/parent/createParent/CreateParent.tsx:60-62 | `n.toString()` is a canonical digit string (no leading zero unless it is "0"); it is "0" exactly for 0 |
| Text.DigitsRoundTrip | src/app/features/parent/createParent/CreateParent.tsx:62 | for a digit string of length two or more, `Number` then `toString` gives back the text exactly when it does not start with '0' |
| Text.NumberOfIntToString | src/app/features/parent/createParent/CreateParent.tsx:123-125 | `Number(String(n)) == n` for every integer |
| Text.ParseIntOfIntToString | src/app/features/teacher/createTeacher/CreateTeacher.tsx:77 | `parseInt(String(n)) == n` for every integer |
| Text.NumberAndParseIntOnDigits | src/app/features/teacher/createTeacher/CreateTeacher.tsx:76-78 | on a non-empty digit string, `Number` and `parseInt` agree |
| Text.ParseIntStopsAtNonDigit | src/app/features/teacher/createTeacher/CreateTeacher.tsx:77 | on the examples "12ab" and "ab": `parseInt` reads the digit prefix ("12ab" is 12) where `Number` does not, and "ab" is NaN |
| Text.ParseIntWithoutDigits | src/app/features/teacher/createTeacher/CreateTeacher.tsx:77 | every text with no digit at all that does not open with white space is NaN to `parseInt` |
| Text.DigitPrefix | src/app/features/teacher/createTeacher/CreateTeacher.tsx:77 | the prefix `parseInt` reads is all digits, is a prefix, and is followed by a non-digit or the end |
| Text.EmailPatternShape | src/app/features/parent/createParent/CreateParent.tsx:100 | the email pattern holds iff the text has no white space, exactly one '@' (not first), and a '.' after it with text on both sides |
| Text.EmailAcceptsExample | src/app/features/parent/createParent/CreateParent.tsx:100 | "a@b.com" matches the email pattern |
| Text.EmailNeedsAt | src/app/features/parent/createParent/CreateParent.tsx:100 | a text without '@' never matches |
| Text.EmailRejectsExample | src/app/features/parent/createParent/CreateParent.tsx:100 | "not-an-email" does not match |
| Json.QuoteRoundTrip | src/app/context/AuthContext.tsx:23 | `JSON.parse` reads back exactly the string `JSON.stringify` wrote, and stops right after its closing quote |
| Json.IntegerRoundTrip | src/app/context/AuthContext.tsx:23 | `JSON.parse` reads back the integer `JSON.stringify` wrote when a delimiter follows |
| Js.Or | src/app/features/loginPage/loginApi/LoginApi.tsx:54 | `a \|\| b` is one of its operands, and it is truthy exactly when either operand is |
| Http.BearerRoundTrip | src/app/features/teacher/teacherApi/TeacherApi.tsx:54-56 | the token can be read back from the bearer header built from it |
| AuthContext.UserJsonRoundTrip | src/app/context/AuthContext.tsx:23 | the stored text of any user parses back to that same user |
| AuthContext.StoreSession | src/app/context/AuthContext.tsx:65-67 | writing a session adds the three session keys with the user JSON and the two tokens; every other key keeps its value |
| AuthContext.ClearSession | src/app/context/AuthContext.tsx:55-57 | clearing removes exactly the three session keys; every other key keeps its value |
| AuthContext.HydrateAfterStore | src/app/context/AuthContext.tsx:22-30 | hydrating right after `setAuthData` gives back the same user and tokens |
| AuthContext.HydrateAfterClear | src/app/context/AuthContext.tsx:22-30 | hydrating right after `logout` gives the signed-out session, whatever else is stored |
| AuthContext.HydrateWithoutSessionKeys | src/app/context/AuthContext.tsx:22-30 | storage without the session keys hydrates to all null |
| AuthContext.ClearIdempotent | src/app/context/AuthContext.tsx:50-58 | `logout` twice leaves the storage as `logout` once |
| AuthContext.EmptyUserTextIsSignedOut | src/app/context/AuthContext.tsx:23 | an empty stored user text reads as null (`"" \|\| "null"`) |
| AuthContext.PairingNotEnforcedByHydration | src/app/context/AuthContext.tsx:22-30 | hydration can produce a token without a user: a state `setAuthData` and `logout` never leave |
| AuthContext.LoginRequest | src/app/context/AuthContext.tsx:34-40 | `login` POSTs the email and password to "/api/login" |
| AuthContext.AuthProvider.constructor | src/app/context/AuthContext.tsx:22-30 | mounting takes the hydrated session as the state, and the state is what storage hydrates to |
| AuthContext.AuthProvider.SetAuthData | src/app/context/AuthContext.tsx:60-68 | sets the three cells, stores them as `StoreSession`, and leaves a persisted, paired session |
| AuthContext.AuthProvider.Logout | src/app/context/AuthContext.tsx:50-58 | nulls the three cells, removes the keys as `ClearSession`, and leaves a persisted, paired session |
| AuthContext.AuthProvider.Login | src/app/context/AuthContext.tsx:32-48 | a reply that is not ok throws "Login failed" and changes nothing; an ok reply installs its user and tokens |
| AuthContext.UseAuth | src/app/context/AuthContext.tsx:84-88 | throws the provider message exactly when there is no provider value, and returns that value otherwise |
| QueryClient.RetryIff | src/app/react-query-client.ts:19-25 | a query retries iff online and below 3 failures; a mutation iff online and below 2 |
| QueryClient.OfflineNeverRetries | src/app/react-query-client.ts:19-25 | offline, neither predicate ever retries |
| QueryClient.RetryMonotone | src/app/react-query-client.ts:19-25 | once refused at a failure count, a retry is refused at every larger one |
| QueryClient.MutationRetryImpliesQueryRetry | src/app/react-query-client.ts:19-25 | a mutation retry implies a query retry for the same inputs |
| QueryClient.FreshWithinPersistence | src/app/react-query-client.ts:22-37 | `staleTime` is 300000 ms, `maxAge` is 3600000 ms, and the first is shorter |
| QueryClient.RetriesFromCount | src/app/react-query-client.ts:19-25 | starting from any failure count, the retries granted in a row are the failures left below the limit, and none offline |
| QueryClient.RetryBudget | src/app/react-query-client.ts:19-25 | from the first failure, a query is retried three times and a mutation twice while online, never offline |
| LoginApi.CurrentUserRequest | src/app/features/loginPage/loginApi/LoginApi.tsx:36-41 | GET of the users endpoint whose Authorization header carries the access token as a bearer, with a JSON content type |
| LoginApi.FetchCurrentUser | src/app/features/loginPage/loginApi/LoginApi.tsx:35-59 | a resolved user always has a truthy, non-zero organization; errors are one of the two messages |
| LoginApi.FetchFailedIff | src/app/features/loginPage/loginApi/LoginApi.tsx:43-45 | the fetch error is thrown iff the reply is not ok |
| LoginApi.InvalidOrganizationIff | src/app/features/loginPage/loginApi/LoginApi.tsx:49-51 | the organization error is thrown iff the reply is ok and its organization is falsy |
| LoginApi.ZeroTestRedundant | src/app/features/loginPage/loginApi/LoginApi.tsx:49 | the extra `=== 0` test never changes the outcome |
| LoginApi.IdFallback | src/app/features/loginPage/loginApi/LoginApi.tsx:54 | `id` is the first truthy of `id` and `_id`, else "" |
| LoginApi.FieldsCopied | src/app/features/loginPage/loginApi/LoginApi.tsx:53-58 | email, organization and role are the reply's own values |
| LoginApi.OtherFieldsDropped | src/app/features/loginPage/loginApi/LoginApi.tsx:53-58 | replies that agree on the five keys read give the same outcome: every other field is dropped |
| TeacherApi.TeachersKey | src/app/features/teacher/teacherApi/TeacherApi.tsx:92 | the list key is ["teachers", organizationId], with `undefined` for a missing id |
| TeacherApi.TeacherKey | src/app/features/teacher/teacherApi/TeacherApi.tsx:105 | the single key is ["teacher", teacherId] |
| TeacherApi.KeysDisjoint | src/app/features/teacher/teacherApi/TeacherApi.tsx:92-105 | a list key never equals a single-teacher key |
| TeacherApi.KeysInjective | src/app/features/teacher/teacherApi/TeacherApi.tsx:92-105 | keys are equal exactly when their ids are |
| TeacherApi.EnabledRules | src/app/features/teacher/teacherApi/TeacherApi.tsx:97-110 | the list query runs iff the token is truthy; the single query iff it also has a non-zero id |
| TeacherApi.ListRunsWithoutOrganization | src/app/features/teacher/teacherApi/TeacherApi.tsx:92-97 | with a token and no organization id the list query is enabled, keyed on `undefined` |
| TeacherApi.Stamped | src/app/features/teacher/teacherApi/TeacherApi.tsx:94 | a truthy token overwrites the shared header with its bearer value; otherwise the header is left as it was |
| TeacherApi.HeadersOf | src/app/features/teacher/teacherApi/TeacherApi.tsx:54-56 | of the headers, only the shared Authorization header is modelled: a request carries it exactly when one is set |
| TeacherApi.StaleHeaderAfterLogout | src/app/features/teacher/teacherApi/TeacherApi.tsx:94-130 | after a stamp with a token, a call with no token still sends that token's bearer header |
| TeacherApi.ListRequest | src/app/features/teacher/teacherApi/TeacherApi.tsx:59-63 | POST to the list path with body exactly `{organization: organizationId}` |
| TeacherApi.RetrieveRequest | src/app/features/teacher/teacherApi/TeacherApi.tsx:67-70 | GET of the retrieve path with the teacher id in it |
| TeacherApi.CreateRequest | src/app/features/teacher/teacherApi/TeacherApi.tsx:73-76 | POST of the whole payload to the register path |
| TeacherApi.UpdateRequest | src/app/features/teacher/teacherApi/TeacherApi.tsx:79-84 | PUT whose path holds the id and whose body is every other field, without `id` |
| TeacherApi.UpdatePathCarriesId | src/app/features/teacher/teacherApi/TeacherApi.tsx:79-84 | the path segment of an update reads back as its numeric id, and the body is the payload without `id` |
| TeacherApi.RetrievePathCarriesId | src/app/features/teacher/teacherApi/TeacherApi.tsx:68 | the path segment of a retrieve reads back as the teacher id |
| TeacherApi.ApiClient.constructor | src/app/features/teacher/teacherApi/TeacherApi.tsx:50-52 | the shared client starts without an Authorization header |
| TeacherApi.ApiClient.SetAuthHeader | src/app/features/teacher/teacherApi/TeacherApi.tsx:54-56 | the shared header becomes the bearer value of the token |
| TeacherApi.ApiClient.Stamp | src/app/features/teacher/teacherApi/TeacherApi.tsx:94 | the header after the guarded stamp is `Stamped(old header, token)` |
| TeacherApi.ApiClient.TeachersQuery | src/app/features/teacher/teacherApi/TeacherApi.tsx:93-96 | stamps the header, then sends the list request under the new header |
| TeacherApi.ApiClient.TeacherQuery | src/app/features/teacher/teacherApi/TeacherApi.tsx:106-109 | stamps the header, then sends the retrieve request |
| TeacherApi.ApiClient.CreateTeacher | src/app/features/teacher/teacherApi/TeacherApi.tsx:118-121 | stamps the header, then sends the create request; no other state changes |
| TeacherApi.ApiClient.UpdateTeacher | src/app/features/teacher/teacherApi/TeacherApi.tsx:129-132 | stamps the header, then sends the update request; no other state changes |
| Drafts.NumberText | src/app/features/teacher/createTeacher/CreateTeacher.tsx:49-52 | `x?.toString() \|\| ""` is "" exactly when the number is missing |
| Drafts.NumberTextRoundTrip | src/app/features/teacher/createTeacher/CreateTeacher.tsx:49-52 | the prefilled text of a number reads back under `Number` as that number, and a missing one as 0 |
| Drafts.ClearShownError | src/app/features/parent/createParent/CreateParent.tsx:77 | the change handler blanks `name`'s message if one shows; keys and every other message stay |
| Drafts.ClearShownErrorStable | src/app/features/teacher/createTeacher/CreateTeacher.tsx:67-69 | clearing never creates a message: an empty map stays empty, and clearing twice is clearing once |
| CreateParent.ExpectedError | src/app/features/parent/createParent/CreateParent.tsx:80-111 | a field earns a message only if it is one of the nine required fields, and the message is one of the four the form shows |
| CreateParent.ParentErrorsAt | src/app/features/parent/createParent/CreateParent.tsx:80-111 | field by field, the error map holds exactly the message that field earns on its own rule (the format message overriding "required") |
| CreateParent.CollectErrors | src/app/features/parent/createParent/CreateParent.tsx:81-111 | the loop over the required fields and the four format checks build exactly `ParentErrors` |
| CreateParent.ErrorsWellFormed | src/app/features/parent/createParent/CreateParent.tsx:82-111 | every error key is a required field, every message one of the four, and address_2, role, organization never appear |
| CreateParent.EmptyFieldIsRequired | src/app/features/parent/createParent/CreateParent.tsx:94-98 | each empty required field gets "This field is required" |
| CreateParent.EmailRule | src/app/features/parent/createParent/CreateParent.tsx:100-102 | a filled-in email gets "Invalid email format" iff it lacks the email shape |
| CreateParent.DigitRules | src/app/features/parent/createParent/CreateParent.tsx:103-111 | filled-in phone numbers fail iff not exactly ten ASCII digits, a pincode iff not exactly six |
| CreateParent.ValidIffNoErrors | src/app/features/parent/createParent/CreateParent.tsx:113-114 | the error map is empty iff every required field is filled and every format check holds |
| CreateParent.ValidationExamples | src/app/features/parent/createParent/CreateParent.tsx:100-111 | "not-an-email" and pincode "12345" are reported; mobile "9876543210" is not |
| CreateParent.PincodeInRange | src/app/features/parent/createParent/CreateParent.tsx:109-125 | a six-digit pincode is a number in [0, 999999] |
| CreateParent.PincodeTextRoundTrip | src/app/features/parent/createParent/CreateParent.tsx:62-125 | a valid pincode's `Number` then `toString` gives back its text iff it does not start with '0' |
| CreateParent.EditPrefill | src/app/features/parent/createParent/CreateParent.tsx:56-63 | editing: the record's text wins over the draft, numbers become texts, and organization reads back as the record's number, else the user's, and is "" only when both are missing |
| CreateParent.CreatePrefill | src/app/features/parent/createParent/CreateParent.tsx:64-69 | creating for a user with an organization changes only organization (to the user's) and role (to "") |
| CreateParent.NoPrefill | src/app/features/parent/createParent/CreateParent.tsx:55-70 | with no record and no user organization, the draft is unchanged |
| CreateParent.PrefillPincodeRoundTrip | src/app/features/parent/createParent/CreateParent.tsx:62-125 | a stored pincode, prefilled and then submitted, is sent as the same number |
| CreateParent.Payload | src/app/features/parent/createParent/CreateParent.tsx:121-126 | the payload keeps every draft text except the three numeric fields |
| CreateParent.SubmitRule | src/app/features/parent/createParent/CreateParent.tsx:117-147 | no mutation unless the draft is valid; then update when editing (with the record's id) and create otherwise |
| CreateParent.SubmittedPincodeInRange | src/app/features/parent/createParent/CreateParent.tsx:119-125 | any sent payload has a pincode in [0, 999999] |
| CreateParent.ParentPanel.constructor | src/app/features/parent/createParent/CreateParent.tsx:37-52 | twelve empty fields and no errors |
| CreateParent.ParentPanel.Prefill | src/app/features/parent/createParent/CreateParent.tsx:55-72 | the draft becomes `PrefillDraft` of the old draft; errors are untouched |
| CreateParent.ParentPanel.HandleChange | src/app/features/parent/createParent/CreateParent.tsx:74-78 | sets only the named field and clears its error as `ClearShownError` |
| CreateParent.ParentPanel.Validate | src/app/features/parent/createParent/CreateParent.tsx:80-115 | replaces the errors with `ParentErrors` and answers whether they are empty, which is whether the draft is valid |
| CreateParent.ParentPanel.HandleSubmit | src/app/features/parent/createParent/CreateParent.tsx:117-148 | validates, then issues `SubmitAction` of the draft |
| CreateStudent.CollectErrors | src/app/features/student/createStudent/CreateStudent.tsx:62-69 | the four sequential checks build exactly the per-field error map |
| CreateStudent.ErrorKeys | src/app/features/student/createStudent/CreateStudent.tsx:61-70 | error keys are within {name, parent, class_room}, messages among the four |
| CreateStudent.FieldRules | src/app/features/student/createStudent/CreateStudent.tsx:63-69 | each empty field gets its own message; a name over 200 characters gets the length message instead |
| CreateStudent.NameLengthBoundary | src/app/features/student/createStudent/CreateStudent.tsx:67-69 | a 200-character name passes, a 201-character one gets the length message |
| CreateStudent.ValidIffNoErrors | src/app/features/student/createStudent/CreateStudent.tsx:71-72 | the error map is empty iff all three fields are filled and the name is at most 200 characters |
| CreateStudent.ClearedParentFails | src/app/features/student/createStudent/CreateStudent.tsx:125-133 | after clearing the parent picker, the parent-required rule reports it |
| CreateStudent.IdOrBlank | src/app/features/student/createStudent/CreateStudent.tsx:44-45 | a nested id prefills as filled iff it is present and non-zero |
| CreateStudent.PrefillBlanksMissing | src/app/features/student/createStudent/CreateStudent.tsx:40-47 | prefill keeps exactly the three fields and maps a missing name, parent id or class id to "" |
| CreateStudent.PrefillWithoutParentFails | src/app/features/student/createStudent/CreateStudent.tsx:44-64 | a prefilled student without a parent gets "Parent is required" |
| CreateStudent.StudentPanel.constructor | src/app/features/student/createStudent/CreateStudent.tsx:30-36 | three empty fields and no errors |
| CreateStudent.StudentPanel.Prefill | src/app/features/student/createStudent/CreateStudent.tsx:40-48 | an edited student replaces the draft wholesale; without one nothing changes |
| CreateStudent.StudentPanel.HandleChange | src/app/features/student/createStudent/CreateStudent.tsx:50-59 | sets only the named field and clears its error as `ClearShownError` |
| CreateStudent.StudentPanel.SelectParent | src/app/features/student/createStudent/CreateStudent.tsx:125-133 | the parent becomes the chosen id or null, and its error is cleared |
| CreateStudent.StudentPanel.Validate | src/app/features/student/createStudent/CreateStudent.tsx:61-73 | replaces the errors with `StudentErrors` and answers whether they are empty, which is whether the draft is valid |
| CreateStudent.StudentPanel.HandleSubmit | src/app/features/student/createStudent/CreateStudent.tsx:75-80 | the draft is handed on unchanged, and only when it is valid |
| CreateTeacher.EditPrefill | src/app/features/teacher/createTeacher/CreateTeacher.tsx:39-53 | editing gives exactly the twelve fields, each missing text as "", and the numbers as their decimal text |
| CreateTeacher.CreatePrefill | src/app/features/teacher/createTeacher/CreateTeacher.tsx:54-60 | creating changes only organization and role, which read back as the user's numbers |
| CreateTeacher.SubmitPayload | src/app/features/teacher/createTeacher/CreateTeacher.tsx:74-79 | the payload keeps every draft text except the three numeric fields |
| CreateTeacher.PayloadRules | src/app/features/teacher/createTeacher/CreateTeacher.tsx:76-78 | pincode is left out iff its field is empty and otherwise parsed with `parseInt`; an empty organization falls back to the user's or 0 |
| CreateTeacher.EditSubmitRoundTrip | src/app/features/teacher/createTeacher/CreateTeacher.tsx:38-79 | submitting an unedited stored teacher sends back its pincode, role, organization and texts |
| CreateTeacher.TeacherPanel.constructor | src/app/features/teacher/createTeacher/CreateTeacher.tsx:21-36 | twelve empty fields and no errors |
| CreateTeacher.TeacherPanel.Prefill | src/app/features/teacher/createTeacher/CreateTeacher.tsx:38-61 | the draft becomes `PrefillDraft` of the old draft and still holds every initial field; errors are untouched |
| CreateTeacher.TeacherPanel.HandleChange | src/app/features/teacher/createTeacher/CreateTeacher.tsx:63-70 | sets only the named field, keeps every initial field, and an empty error map stays empty |
| CreateTeacher.TeacherPanel.HandleSubmit | src/app/features/teacher/createTeacher/CreateTeacher.tsx:72-81 | no validation: every submit yields exactly one payload, `SubmitPayload` of the draft |

## Left out

- I/O: network calls, `localStorage` access and `response.json()` are not modelled. Requests are values, replies are inputs, and storage is a map field.
- The data-fetching cache library is not modelled: caching, request coalescing, persistence, the online listener and the delay between retries. `RetriesFrom` counts retries under the assumption that the library asks again after each failure with the next count.
- Rendering, routing and the page components are not modelled.
- `Text.NumberOf` reads only "" (as 0) and decimal integers with an optional leading '-'. Every other text gives `Unparsed`, never `NaN`: this covers texts JavaScript reads as NaN ("abc", "-", "12ab"), and texts it reads as numbers (" 12 ", "+5", "12.5", "1e3", "0x1F", "Infinity").
- `Text.ParseInt` follows `parseInt` for an optional sign and a digit run: "12.5" is 12, "1e3" is 1, and "Infinity", "abc" or "-" are NaN. Only a text opening with white space, or a "0x"/"0X" prefix after the sign, gives `Unparsed`, because `parseInt` would skip the white space or switch to base 16.
- ParseIntStopsAtNonDigit: proves the digit-prefix rule on examples only. The general no-digit case is `Text.ParseIntWithoutDigits`, which excludes a text opening with white space: there the model stays at `Unparsed`, while `parseInt` skips the space (so " " is NaN in JavaScript).
- HeadersOf: models only the shared Authorization header of the axios instance. Axios also sends its default `Accept` header on every request, and a JSON `Content-Type` on the POST and PUT requests (TeacherApi.tsx:50-84). Neither is part of this model.
- Numbers are unbounded integers. Floating point, precision loss above 2^53 and `-0` are not modelled.
- String lengths count Unicode scalar values, not UTF-16 code units. A name containing characters outside the Basic Multilingual Plane has a different `length` in JavaScript.
- AuthContext.UserFromJson: it reads only the exact text `JSON.stringify` writes for a user with properties email, role and organization, in that order. Any other JSON is treated like unreadable text. It does not distinguish other valid JSON from text that makes `JSON.parse` throw.
- AuthContext.AuthProvider.constructor: it requires hydration to succeed, because the source throws while mounting when the stored user is unreadable.
- AuthContext.AuthProvider.Login: the reply's `data` is taken to hold a user and two strings. A malformed reply is not modelled. The login page calls `setAuthData(data.user, data.access, data.refresh)` with names that differ from `login`'s. That page is not part of this model.
- The nested organization reads `user.organization.org_id` (student panel) and `user.organization.id` (teacher page) are not modelled. The model uses the numeric `organization` of the stored user type.
- CreateParent.ParentRecord: the record's spread copies only its text properties into the draft. Other non-text properties, including its `id`, are not copied. The three numeric fields are overwritten by the prefill anyway. An update's `parent_id` is the record id unless the draft itself holds a `parent_id` text.
- CreateStudent.StudentPanel.HandleChange: input values are texts. A `select` that emits a non-text value is not modelled.
- TeacherApi.ListRequest: the body keeps an `undefined` organization as a property. When the body is serialised, JSON drops it.
- The student, parent and registration API wrappers are not modelled. Note that the student API sends `Token <access token>` instead of a bearer header. The parent panel imports an update hook that the parent API file does not export.

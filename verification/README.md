# Patient-management client: session gate, patient screen, to-do hook

A Dafny model of the decision logic in a React Native client for a
patient-management REST API:

- **Login screen** (`app/Login.tsx`): field validation, the `loading`
  flag, the write of the issued token to the persisted `'jwt'` slot, the
  redirect to `/Patients`, and the rule that picks the error message.
- **Patient screen** (`app/Patients.tsx`): the activation guard
  (`loadTokenAndRole`) that reads the slot, decodes the token, rejects
  expired ones and records the first role; `fetchPatients`;
  `addPatient` with its field and token checks; `handleLogout`; and the
  render gates (loading text, list, admin-only form, sign-in prompt).
- **To-do hook** (`hooks/useTodo.ts`): `addTask` and `removeTask`.

Everything is a pure transition over immutable records. Each transition
takes the outside world's answers as parameters:

- whether the storage read or write succeeded;
- what `jwtDecode` returns for a token, as a function `string -> Option<Payload>`;
- the clock, in integer milliseconds;
- what the GET and POST requests returned.

Each transition returns the new screen state and the new device state
(the `'jwt'` slot and the last `router.replace` target). It also returns
the alerts shown and the requests sent, in order.

Modules: `Wrappers` (Option), `Platform` (device slot, routes, alerts,
JavaScript truthiness of optional strings), `Todo`, `Login`, `Patients`,
and `Lifecycle` (login, then guard, then logout).

Points where the code decides something a reader might not expect:

- `if (!storedToken)`, `if (!token)` and `if (!nom …)` treat the empty
  string like a missing value. The model does the same through
  `Platform.Truthy`.
- The expiry test `decoded.exp < Date.now() / 1000` is strict. A token
  whose expiry equals the current time is accepted. A token with no
  `exp` claim is never considered expired, because `undefined < now`
  is false.
- A token with no `roles` claim makes `decoded.roles[0]` throw inside
  the inner `try`. It therefore takes the same path as a decode
  failure: the slot is cleared and the screen redirects.
- An empty `roles` list gives the role `undefined`, which is not admin.
- The in-memory `token` is set before decoding. A rejected token
  therefore leaves `token` set behind the redirect.
- `addTask` stores the untrimmed input. Task ids are clock readings, so
  two tasks added in the same millisecond share an id. `removeTask`
  then removes both.

## Model

| member | source | states |
|---|---|---|
| `Todo.TrimStartDropsSpace` | hooks/useTodo.ts:13 | the leading part `trim` drops is all white space, and what remains is a suffix of the input that starts with a non-space character or is empty |
| `Todo.TrimEndDropsSpace` | hooks/useTodo.ts:13 | the trailing part `trim` drops is all white space, and what remains is a prefix of the input that ends with a non-space character or is empty |
| `Todo.BlankIffAllSpace` | hooks/useTodo.ts:13 | `taskInput.trim()` is empty exactly when every character is ECMAScript white space or a line terminator |
| `Todo.SetTaskInput` | hooks/useTodo.ts:10 | typing replaces the input text and leaves the tasks alone |
| `Todo.AddTask` | hooks/useTodo.ts:12-17 | blank input leaves tasks and input unchanged; otherwise exactly one task (id = clock, text = untrimmed input) is appended after the old tasks, which remain as a prefix, and the input is cleared |
| `Todo.AddTaskAppends` | hooks/useTodo.ts:14-16 | for a non-blank input, the new task list is the old one followed by exactly the new task |
| `Todo.RemoveTask` | hooks/useTodo.ts:19-21 | no survivor has the id; the length drops by exactly the number of tasks with that id |
| `Todo.RemoveTaskSubsequence` | hooks/useTodo.ts:20 | the survivors keep their original relative order, as a subsequence of the input |
| `Todo.RemoveTaskMembers` | hooks/useTodo.ts:20 | a task survives iff it was present with a different id |
| `Todo.RemoveTaskCounts` | hooks/useTodo.ts:20 | each task with a different id survives exactly as many times as it occurred; tasks with the id occur zero times |
| `Todo.RemoveTaskUnique` | hooks/useTodo.ts:20 | any order-preserving selection with those multiplicities equals `RemoveTask`, so the filter is characterised exactly |
| `Todo.RemoveAbsentId` | hooks/useTodo.ts:20 | removing an id no task carries leaves the list unchanged |
| `Todo.RemoveIdempotent` | hooks/useTodo.ts:20 | removing the same id twice equals removing it once |
| `Todo.RemoveAppend` | hooks/useTodo.ts:20 | removal distributes over concatenation |
| `Todo.AddThenRemove` | hooks/useTodo.ts:14-20 | removing the id just added undoes the addition when no older task shares the id |
| `Todo.RemoveAppendedSameId` | hooks/useTodo.ts:20 | removing an id drops every appended task that carries it, leaving the removal from the older tasks |
| `Todo.SameMillisecondRemovesBoth` | hooks/useTodo.ts:14-20 | two non-blank inputs added at one clock reading become two tasks with the same id, and one `removeTask` drops both |
| `Login.ButtonTitle` | app/Login.tsx:64-68 | the button shows the in-progress title exactly while `loading` is set |
| `Login.ErrorMessage` | app/Login.tsx:33-37 | non-axios errors give "Erreur de connexion"; axios errors give the server's message when it is non-empty, otherwise the error's own message |
| `Login.Start` | app/Login.tsx:13-25 | a request is sent iff both fields are non-empty; when it is not, screen (including `loading`), slot and route are untouched and the fields alert is shown; when it is, `loading` is raised |
| `Login.Finish` | app/Login.tsx:27-42 | a token with a successful write lands in the slot with route `/Patients`; a failed request or write leaves slot and route untouched and alerts the selected message; `loading` ends false |
| `Login.HandleLogin` | app/Login.tsx:13-43 | slot and route change only when validation, server and storage write all succeed, and then hold the token and `/Patients`; every validated attempt ends with `loading` false |
| `Patients.FetchPatients` | app/Patients.tsx:92-113 | exactly one GET with the given bearer token; success replaces the list wholesale, failure keeps it and alerts; nothing else changes |
| `Patients.ExpiredMatchesClock` | app/Patients.tsx:65-66 | the millisecond test `exp * 1000 < nowMs` agrees exactly with comparing `exp` to `nowMs / 1000` in seconds, a missing `exp` is never expired, and an expired token stays expired as the clock advances |
| `Patients.FirstRole` | app/Patients.tsx:73 | `roles[0]` is present iff the list is non-empty, and is then its first element |
| `Patients.Guard` | app/Patients.tsx:49-90 | read failure: alert only; no (or empty) token: redirect without decode or fetch, token and role untouched; otherwise the token is set first, and a fetch happens iff the token decodes, is unexpired and has roles; every rejection clears the slot and redirects, with no role and no fetch; acceptance sets the role to the first role and fetches with the stored token; `isLoading` ends false on every path |
| `Patients.GuardWithoutTokenSkipsDecode` | app/Patients.tsx:52-58 | with no (or an empty) stored token, the guard's outcome does not depend on the decoder or the clock, and it redirects to `/Login` |
| `Patients.GuardExpiryIsStrict` | app/Patients.tsx:64-71 | a decodable token with roles is rejected iff `exp * 1000 < nowMs`; a token expiring at the current millisecond is accepted |
| `Patients.ExpiredTokenExample` | app/Patients.tsx:66-70 | a token with expiry 100 s read at 200 s is removed from the slot, the screen redirects to `/Login`, and nothing is fetched |
| `Patients.GuardThenRender` | app/Patients.tsx:187-203 | after activation with a decodable token, the list is rendered; the admin form is shown iff the token was admitted and its first role is `ROLE_ADMIN` |
| `Patients.AddPatient` | app/Patients.tsx:115-153 | missing fields alert before the token is checked, and both gaps send nothing and change nothing; a POST is sent iff fields and token are present, and it carries the four fields and the token; success clears the four fields and refetches the list; a refusal or thrown error leaves the screen unchanged and alerts, using the server message when it is non-empty |
| `Patients.Logout` | app/Patients.tsx:155-169 | on a successful removal: the slot, token, role and list are cleared, the route becomes `/Login`, and nothing else changes; a failed removal only alerts |
| `Patients.Render` | app/Patients.tsx:171-259 | loading text iff `isLoading`; the list iff not loading and a token is held; the add form iff, in addition, the role is `ROLE_ADMIN` |
| `Patients.Step` | app/Patients.tsx:207-233 | as written, typing into CIN changes nothing; `cin` only ever keeps its value or becomes empty; with an empty `cin`, no event posts a patient |
| `Patients.FixedStep` | app/Patients.tsx:115-144 | with the CIN input wired like the others, typing into CIN sets `cin` to the text and touches nothing else; pressing add then sends `POST /patients` exactly when all four fields are filled and a token is held, the positive counterpart of `Step`'s never-posts clause |
| `Patients.NoRunSendsCreate` | app/Patients.tsx:221-226 | from a screen with empty CIN, as on mount, no sequence of events ever sends `POST /patients` |
| `Patients.ActivateAsAdmin` | app/Patients.tsx:60-75 | activation with an admitted token whose first role is `ROLE_ADMIN` sets the token and the admin role, ends loading, keeps the slot, and sends one GET |
| `Patients.RunTyping` | app/Patients.tsx:207-233 | as written, a typing event at the head of a run edits only its own field (CIN: nothing) and the run continues from there, with no alert and no request |
| `Patients.FixedRunTyping` | app/Patients.tsx:207-233 | with the CIN input wired, every typing event at the head of a run edits exactly its own field, CIN included |
| `Patients.AddCreated` | app/Patients.tsx:126-144 | with four non-empty fields and a token, a successful POST sends the POST of exactly those entries and then one refetch, and clears all four fields |
| `Patients.FillAndPressAsWritten` | app/Patients.tsx:115-119 | as written, typing into the four fields and pressing add on a screen with empty CIN changes the other three fields, alerts missing fields, and sends nothing |
| `Patients.FillAndPressFixed` | app/Patients.tsx:126-144 | with CIN wired, the same typing on a signed-in screen sends one POST of the four entries and then a refetch, and clears the form |
| `Patients.AdminCannotAddAsWritten` | app/Patients.tsx:115-119 | for every admitted admin token and every four entries, the admin sees the form, the last alert is the missing-fields one, `cin` is still empty, and nothing is posted |
| `Patients.AdminAddsWithCinHandler` | app/Patients.tsx:126-144 | with the CIN handler wired, the same session with four non-empty entries sends the GET, the POST of exactly those entries and the refetch, and clears the form |
| `Lifecycle.LoginThenActivate` | app/Patients.tsx:52-75 | after a successful login, the guard finds the issued token, fetches with it, takes the first role, and renders exactly the records the server returned |
| `Lifecycle.LoginWithExpiredToken` | app/Patients.tsx:64-71 | an expired token just stored by login is cleared by the guard with a redirect and no fetch |
| `Lifecycle.EmptyTokenBouncesBack` | app/Patients.tsx:54-58 | an empty issued token is stored and navigated on by login, then read as no token by the guard, which redirects back to `/Login` |
| `Lifecycle.LogoutThenActivate` | app/Patients.tsx:155-164 | after logout, the next activation redirects without fetching, and the screen shows no list |

## Findings

| source | as written | input that shows it | evidently intended | confidence | as-written member | corrected member |
|---|---|---|---|---|---|---|
| app/Patients.tsx:221-226 | the CIN `TextInput` has `value={cin}` but no `onChangeText`, so `cin` is only ever `''`, and `addPatient` always stops at the missing-fields check | an admin session that types non-empty text into all four fields and presses add (`Patients.AdminSession`) | typing into CIN calls `setCin`, like the other three fields | high (not executed) | `Patients.AdminCannotAddAsWritten` | `Patients.AdminAddsWithCinHandler` |

`Patients.Step` and `Patients.Run` model the screen as written.
`Patients.NoRunSendsCreate` proves that it can never create a patient.
`Patients.FixedStep` and `Patients.FixedRun` add the missing handler and
otherwise reuse `Step`.

## Left out

- Rendering details: layout, styles and `Alert` presentation are not modelled. Alerts are kept as title/message labels.
- `components/CustomButton.tsx`, `components/TaskItem.tsx` and `app/(tabs)/index.tsx` are pure presentation and are not modelled.
- HTTP: URLs, headers other than the bearer token, and JSON encoding are not modelled. Each request is a `Request` value and each reply is an outcome parameter.
- `jwtDecode` is a function parameter. Signatures are not verified, as in the source.
- Patients.ExpiredMatchesClock: claims are whole seconds, so a fractional `exp` is not modelled. The float `Date.now() / 1000` is replaced by exact division, under which it equals the integer test `exp * 1000 < nowMs` that `Patients.Expired` uses; floating-point rounding is not modelled.
- Patients.Guard: assumes `AsyncStorage.removeItem` succeeds on the guard's rejection paths. In the source the two paths differ. On the expiry path, a failing `removeItem` (app/Patients.tsx:68) is caught by the inner `catch` (76-80), which calls `removeItem` again and still redirects to `/Login` when that retry succeeds; only a second failure (line 78) reaches the outer alert (81-83). On the decode-failure path, a single failing `removeItem` at line 78 goes straight to the outer alert. Neither failure path is modelled. The logout path does model a failing removal.
- Todo.SameMillisecondRemovesBoth: like every lemma over several events, it applies each handler to the state left by the previous one, which holds only when React re-renders between events. `addTask` (hooks/useTodo.ts:14-15) reads the render-time `tasks` and `taskInput` and calls `setTasks([...tasks, newTask])` rather than a functional update, so two calls from the same render leave one task, not two. Updates made from a stale render are not modelled, here or for the Patients and Login handlers.
- Login.Finish: assumes `response.data.token` is a string. A 2xx reply without a token, and a throwing `router.replace`, are not modelled.
- Concurrency: overlapping requests, state updates after unmount, and the fact that the refetch after a successful add is not awaited are not modelled. The refetch is applied as the immediately following step.
- `Patients.Run` accepts events in any order, including repeated activations and events after a redirect, which a mounted screen would not receive. This is a superset of what can happen, so `NoRunSendsCreate` is stronger than needed.
- `console.error` logging is not modelled.
- The login fields' `onChangeText` setters are not separate members. `Login.Start` takes the fields' contents as they stand.

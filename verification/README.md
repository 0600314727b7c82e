# ConnecTime contacts client — Dafny model

ConnecTime is a contacts web app. Its front end is thin glue over a remote HTTP API. This project models the few parts of that front end whose behaviour can be stated exactly, and proves properties about them:

- **The phone field of the contact form** (`my-app/app/contatos/page.tsx`), modelled in `phone.dfy`:
  - `formatarTelefone` keeps only the ASCII digits. It punctuates them as `(DD) REST` or `(DD) NNNNN-NNNN`, depending on how many there are.
  - The submit check runs in two stages: first the digit count, then the shape `^\d{2}9\d{8}$`.
  - The inline "type 11 digits" warning.
- **The contacts page** (same file), modelled in `contacts.dfy`:
  - The page is the class `ContactsPage`. It has the component's state fields and a log of the API calls it has issued.
  - The mount guard redirects to `/login` without issuing any call when no token is stored.
  - `carregarContatos` loads the list.
  - `handleSubmit` validates the phone, then reads the token, then chooses between update and create.
  - The pure function `SubmitDecision` gives the outcome of a submit: `LengthError | ShapeError | MissingToken | Update(id) | Create`. `HandleSubmit` is proved to return exactly that outcome.
- **The session guard `useAuth`** (`my-app/hooks/useAuth.ts`), modelled in `auth.dfy`:
  - The class `Session` holds `token`, `isAuthenticated` and `isLoading`, and shares the browser's `localStorage`. `localStorage` is modelled in `browser.dfy` as a class around a `map<string, string>`.
  - Each method is proved equal to a function on a snapshot of the fields and the store. The lemmas about sequences of events (login, logout, checks, storage events from other tabs) are stated on those functions.
- **The contact-list query string and the bearer header** (`my-app/lib/api.ts`), modelled in `api.dfy`:
  - `ListParams` appends `search`, `skip`, `limit` and `grupo` one condition at a time, as the source does.
  - It is proved against a declarative description: which names appear, with which values, and in which order.

JavaScript truthiness is written out explicitly (`TruthyString`, `TruthyNumber`). An empty stored token therefore counts as no token. An edited contact with `id` 0 is created, not updated.

Points where the code behaves differently from what a reader might expect. The model follows the code:

- The comments at `page.tsx:66` ("limit to 11 digits") and `page.tsx:71` (the `(XX) 9XXXX-XXXX` layout) suggest the input is cut to 11 digits and then masked. But `page.tsx:67-69` return the first 11 digits bare. So masking is idempotent only up to 11 digits: `FormatPhoneIdempotent` proves that case, and `FormatPhoneNotIdempotentBeyond11` proves idempotence fails for every input with more than 11 digits. In that case no warning shows, and a number whose third digit is 9 is saved without punctuation (`MaskedPhoneValidates`).
- `isLoading` is a separate boolean (`useAuth.ts:6`, `:19`), which only `checkAuth` clears. A login before the first check therefore leaves the hook both loading and authenticated (`LoginWhileLoading`).
- The error messages are the literals at `page.tsx:92`, `:98` and `:51`, and the fallback at `:126`.

## Model

| member | source | states |
|---|---|---|
| `Browser.LocalStorage.GetItem` | my-app/hooks/useAuth.ts:11 | `getItem` gives the stored string, or null exactly when the key is absent |
| `Browser.LocalStorage.SetItem` | my-app/hooks/useAuth.ts:41 | `setItem` overwrites one key and leaves every other key as it was |
| `Browser.LocalStorage.RemoveItem` | my-app/hooks/useAuth.ts:34-35 | `removeItem` deletes one key (no effect if absent) and keeps the others |
| `Phone.Digits` | my-app/app/contatos/page.tsx:64 | the `\D` strip yields only ASCII digits and is never longer than its input |
| `Phone.DigitsIdempotent` | my-app/app/contatos/page.tsx:90 | stripping an already-stripped value changes nothing |
| `Phone.FormatPhone` | my-app/app/contatos/page.tsx:62-79 | the mask never exceeds the field's 15 characters (`maxLength` at :421) |
| `Phone.FormatPhoneDigits` | my-app/app/contatos/page.tsx:62-79 | the digits of the mask are the first min(11, n) digits of the input, in order |
| `Phone.FormatPhoneLayout` | my-app/app/contatos/page.tsx:72-77 | by digit count n: bare digits for n <= 2 or n > 11; `(` at 0, `)` at 3, space at 4 for 3..11; hyphen at 10 for 8..11; lengths n, n+3, n+4, 11; digits everywhere else |
| `Phone.FormatPhoneIdempotent` | my-app/app/contatos/page.tsx:62-79 | masking a mask changes nothing when the input has at most 11 digits |
| `Phone.FormatPhoneNotIdempotentBeyond11` | my-app/app/contatos/page.tsx:67-69 | with more than 11 digits, masking the result changes it (the 11 bare digits get punctuated) |
| `Phone.MobilePattern` | my-app/app/contatos/page.tsx:97 | the regex `^\d{2}9\d{8}$` holds iff the string is exactly 11 ASCII digits with a 9 third |
| `Phone.CheckPhone` | my-app/app/contatos/page.tsx:90-100 | length error iff the digit count is not 11; on 11 digits the regex `^\d{2}9\d{8}$` fails iff the third digit is not 9; acceptance returns the 11 digits |
| `Phone.ShowsDigitWarning` | my-app/app/contatos/page.tsx:425 | the warning is never shown for an empty field, nor for a value that passes the submit length check |
| `Phone.WarningMatchesLengthCheck` | my-app/app/contatos/page.tsx:425 | on a masked value, the inline warning shows iff the field is non-empty and the submit length check would fail |
| `Phone.CheckPhoneAccepts` | my-app/app/contatos/page.tsx:97 | "11987654321" passes both stages |
| `Phone.FormatPhoneOfDigitString` | my-app/app/contatos/page.tsx:76-77 | any 11 bare digits are shown as `(DD) NNNNN-NNNN` with the digits in their original order |
| `Phone.FormatPhoneExample` | my-app/app/contatos/page.tsx:76-77 | "11987654321" is shown as "(11) 98765-4321" |
| `Phone.CheckPhoneRejectsTenDigits` | my-app/app/contatos/page.tsx:91-94 | "1187654321" gives the length error |
| `Phone.CheckPhoneRejectsLandlineShape` | my-app/app/contatos/page.tsx:97-100 | "11887654321" gives the shape error |
| `Api.NatToString` | my-app/lib/api.ts:65-66 | `toString()` of a non-negative integer is a non-empty run of decimal digits with no leading zero: it starts with `0` only when it is exactly "0", for 0 |
| `Api.IntToString` | my-app/lib/api.ts:65-66 | `toString()` of an integer: a leading `-` iff it is negative, then decimal digits only, with no leading zero after the sign (a non-negative value starts with `0` only as exactly "0") |
| `Api.IntToStringRoundTrip` | my-app/lib/api.ts:65-66 | the string sent for `skip`/`limit` reads back as the number |
| `Api.ListParams` | my-app/lib/api.ts:62-67 | at most 4 pairs in the order search, skip, limit, grupo, each at most once; `search` iff non-empty; `skip`/`limit` iff non-zero, as decimal strings; `grupo` iff non-empty and not "Todos" |
| `Api.EmptyQueryString` | my-app/lib/api.ts:63-67 | the query string is empty iff no argument qualifies (e.g. the page's empty search with group "Todos") |
| `Api.Authorization` | my-app/lib/api.ts:75 | the header is "Bearer " followed by exactly the token |
| `Api.AuthorizationRoundTrip` | my-app/lib/api.ts:75 | reading a header of the client's own form ("Bearer", exactly one space, then any token) gives back exactly the token sent |
| `Api.AuthorizationInjective` | my-app/lib/api.ts:75 | distinct tokens give distinct headers |
| `Auth.Initial` | my-app/hooks/useAuth.ts:4-6 | initial state: no token, not authenticated, loading; consistent |
| `Auth.AfterCheckAuth` | my-app/hooks/useAuth.ts:10-20 | authenticated iff the stored token is present and non-empty, and then holds it; otherwise no token; loading ends false; store only read |
| `Auth.AfterLogin` | my-app/hooks/useAuth.ts:40-44 | stores and holds the token (even empty), authenticated; `user_email`, other keys and loading unchanged |
| `Auth.AfterLogout` | my-app/hooks/useAuth.ts:33-38 | `token` and `user_email` removed, other keys kept; no token, not authenticated; loading unchanged |
| `Auth.Step` | my-app/hooks/useAuth.ts:10-44 | every event leaves `isAuthenticated == (token != null)`; loading ends exactly on the events that run `checkAuth`; a storage event from another tab (:25-27) adopts that tab's store and is authenticated iff its token is non-empty |
| `Auth.RunKeepsConsistent` | my-app/hooks/useAuth.ts:12-18 | after any sequence of checks, logins, logouts and storage events, `isAuthenticated == (token != null)` |
| `Auth.LoadingUntilChecked` | my-app/hooks/useAuth.ts:19 | still loading after events iff loading before and no event ran `checkAuth` |
| `Auth.LoadingNeverReturns` | my-app/hooks/useAuth.ts:19-44 | once `checkAuth` has run, no sequence of events makes `isLoading` true again |
| `Auth.CheckAfterLogout` | my-app/hooks/useAuth.ts:33-38 | logout then a check gives the anonymous state with both store entries gone |
| `Auth.CheckAfterLogin` | my-app/hooks/useAuth.ts:40-44 | login(t) then a check (the storage listener in another tab) is authenticated with t iff t is non-empty; login("") reads back as anonymous |
| `Auth.CheckAuthIdempotent` | my-app/hooks/useAuth.ts:25-29 | re-running the check on an unchanged store changes nothing |
| `Auth.LoginWhileLoading` | my-app/hooks/useAuth.ts:4-44 | a login before the first check yields loading and authenticated at once |
| `Auth.LoginLogoutScenario` | my-app/hooks/useAuth.ts:33-44 | after login("tok123") authenticated with "tok123" stored; after logout not authenticated, no token stored |
| `Auth.Session.constructor` | my-app/hooks/useAuth.ts:4-6 | the hook starts in `Initial` of the current store |
| `Auth.Session.CheckAuth` | my-app/hooks/useAuth.ts:10-22 | the fields become `AfterCheckAuth` of the old fields and store |
| `Auth.Session.HandleStorageChange` | my-app/hooks/useAuth.ts:25-27 | the storage listener has exactly the effect of `checkAuth` |
| `Auth.Session.Logout` | my-app/hooks/useAuth.ts:33-38 | fields and shared store become `AfterLogout` of the old ones |
| `Auth.Session.Login` | my-app/hooks/useAuth.ts:40-44 | fields and shared store become `AfterLogin` of the old ones |
| `Contacts.HasEditingId` | my-app/app/contatos/page.tsx:106 | `editingContato?.id` is truthy iff a contact is edited and its id is present and non-zero |
| `Contacts.SubmitDecision` | my-app/app/contatos/page.tsx:86-110 | length error iff digit count != 11; shape error iff 11 digits with third digit not 9; then missing token iff the stored token is null or empty; then update with the id iff the edited contact has a non-zero id; else create |
| `Contacts.SaveErrorMessage` | my-app/app/contatos/page.tsx:126 | the message shown after a failed save is never empty, and is the error's own message whenever that is non-empty |
| `Contacts.SubmitLengthFirst` | my-app/app/contatos/page.tsx:91-94 | while the inline warning is shown, submit gives the length error whatever the token and the edited contact |
| `Contacts.SubmitExamples` | my-app/app/contatos/page.tsx:90-110 | "1187654321" → length error, "11887654321" → shape error, "(11) 98765-4321" with a token and no edited contact → create |
| `Contacts.MaskedPhoneValidates` | my-app/app/contatos/page.tsx:62-100 | for every typed value, the masked field passes the submit check iff the typed digits are at least 11 with a 9 third; so beyond 11 digits the first 11 are accepted bare |
| `Contacts.ContactsPage.constructor` | my-app/app/contatos/page.tsx:20-36 | the page's initial state: empty list, loading, no error, closed dialog, blank form, group "Todos", no redirect, no calls |
| `Contacts.ContactsPage.Query` | my-app/app/contatos/page.tsx:53 | the list request never pages (no `skip`, no `limit`); it sends `search` iff the search box is non-empty, and `grupo` iff the filter is neither empty nor "Todos" |
| `Contacts.ContactsPage.LoadContacts` | my-app/app/contatos/page.tsx:47-60 | without a token: the token error and no call; with one: exactly one list call with the Bearer header and the query string of the current search and group, then the contacts or the error message; loading ends false |
| `Contacts.ContactsPage.Mount` | my-app/app/contatos/page.tsx:38-45 | with no (or an empty) stored token: redirect to `/login` and no call at all; otherwise the list load |
| `Contacts.ContactsPage.ChangeTelefone` | my-app/app/contatos/page.tsx:81-84 | the phone field becomes the mask of the typed value; nothing else in the form changes |
| `Contacts.ContactsPage.HandleEdit` | my-app/app/contatos/page.tsx:130-135 | edit mode on the given contact, form set to it, error cleared, dialog open |
| `Contacts.ContactsPage.OpenNew` | my-app/app/contatos/page.tsx:219-231 | no contact edited, blank form, error cleared, dialog open |
| `Contacts.ContactsPage.CancelEdit` | my-app/app/contatos/page.tsx:519-522 | dialog closed and no contact edited; the form keeps its contents |
| `Contacts.ContactsPage.HandleSubmit` | my-app/app/contatos/page.tsx:86-128 | returns `SubmitDecision`; a rejection sets its message and makes no call; a validated submit makes one update/create call with the form; a failed save keeps the form with `err.message` or the fallback; a successful save closes the dialog, resets the form and reloads the list |

## Left out

- The browser's own constraint validation, which gates the submit event, is not modelled: `required` on the name (`page.tsx:413`) and on the phone (`:422`), and `type="email"` (`:433`). `HandleSubmit` is the handler for any form state. So where the page never fires it (an empty name or phone, a malformed e-mail), the model still runs the handler: it sets the length message for an empty phone, and it creates a contact with an empty name.
- Network I/O is left out: `fetch`, response parsing, status codes and the error-detail strings of `my-app/lib/api.ts`. Each call is recorded in `ContactsPage.requests`, and the way an awaited call ends (its data or its error message) is a parameter of the method that awaits it.
- The calls are assumed to complete in the order the code starts them. `handleSubmit` does not await `carregarContatos`, and replies that arrive after unmount or out of order are not modelled.
- `URLSearchParams` percent-encoding and `params.toString()` are not modelled, only the list of name/value pairs.
- `Api.NatToString` covers integers only. `Number.prototype.toString` on fractions, `NaN` and exponent forms (from 1e21 up) is not modelled. A `NaN` skip or limit would also be falsy.
- The registration and login calls, `criarContato`'s JSON body, `deletarContato`, `exportarContatos`, `handleDelete` (its confirm dialog) and `handleExportar` (the CSV blob download) are left out. They are network or browser I/O with no logic beyond "token present".
- The search box and group select set `search` and `grupoFiltro` from JSX handlers. Those fields exist with their initial values, but their setters are view bindings and are not modelled.
- Adding and removing the `window` `storage` listener is not modelled. Its effect is `Session.HandleStorageChange`, and another tab's write is the `StorageChanged` event.
- The login page flow is not part of this model: it awaits the API, calls `login` and writes `user_email`. All page rendering, the navbar and the home page are left out too.
- The backend (FastAPI routes, password hashing, JWT expiry) is not part of this model.
- JavaScript strings are UTF-16; here they are sequences of Unicode characters. This matters only for the browser's own `maxLength` cut of raw input, which is not modelled. The mask's output is proved to fit in 15 characters.

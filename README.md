# Eventify: phone sign-in, registration and the event list, modelled in Dafny

This project models three screens of the Eventify React Native client.

- **Login** (`Login.jsx`). The user types a phone number into a masked field. `sendOTP` checks the length of the masked text and strips the formatting characters to get a canonical key. It then asks the `users` collection whether a document with that key exists. Only for an existing account does it ask the identity service for a one-time code, and it keeps the confirmation handle the service returns. `confirmCode` confirms the typed code against that handle.
- **Registration** (`Register.jsx`). This is the same flow with the existence test inverted: a code is requested only when no document exists. Once the code is confirmed, `createUser` writes one record to the `users` collection.
- **Events** (`Events.jsx`). The screen filters the loaded events by the selected categories and by a case-insensitive search in the title. It also replaces the list on a refresh and appends to it on a load-more.

The remote services become inputs. Each handler is one `method` that takes the awaited results as `Outcome` values: `Ok(found)` or `Err` for the existence lookup, `Ok(challenge)` or `Err` for the code request, and `Ok(())` or `Err` for the confirmation and the write. Each screen keeps a ghost trace of the service calls it makes. That trace is how the model states that the lookup comes before the code request and that a call never happens.

Layout:

- `results.dfy`: `Option` and `Outcome`.
- `sequences.dfy`: an order-preserving `Filter` (used for both `Array.prototype.filter` and the character-deleting `replace`), the sublist relation, and their lemmas.
- `phone_key.dfy`: the length guard, the canonical key `Strip`, and the input mask.
- `otp.dfy`: the messages, the call trace entries, and pure specifications of one phone submission (`SendStep`) and one confirmation (`ConfirmStep`). These are shared by both screens and parameterised by `Mode`. The file also holds the collection update `Put`.
- `login.dfy` and `register.dfy`: the screens as classes whose fields are the React state. Each method is proved against `SendStep` and `ConfirmStep`.
- `events.dfy`: the filter switch and the list state as a class.

Notes on the code as written:

- The length guard tests the 23-character masked text. It does not test the digit count of the canonical key.
- Confirming with no stored challenge gives the ordinary invalid-code message. `confirmation.confirm` on `null` throws, the handler's `catch` catches it, and no service is called.
- The registration record is written under the masked text (`Register.jsx:57`), while both gates look up the stripped key (`Register.jsx:26-27`). The model writes under the masked text, as the code does. `Otp.RegisteredKeyIsNotLookedUp` proves the consequence for any masked text that holds a formatting character: the document just written is not the one the gates read. `Otp.FilledMaskRegistrationInvisible` states it for every completely filled mask: registering such a phone never makes its canonical key appear to either gate.
- The first branch of the filter switch also tests `selectedCategories.length === 0`. That test is never true there, and `Events.OnePredicate` shows it decides nothing.

## Model

| member | source | states |
|---|---|---|
| `PhoneKey.Strip` | src/screens/Auth/components/Login.jsx:25 | the canonical key is the input with characters deleted and the rest kept in order (a sublist), so it is never longer than the input |
| `PhoneKey.StripMembers` | src/screens/Auth/components/Login.jsx:25 | a character is in the key exactly when it is in the input and is not white space, `(`, `)` or `-` |
| `PhoneKey.StripIdempotent` | src/screens/Auth/components/Login.jsx:25 | stripping a canonical key again leaves it unchanged |
| `PhoneKey.StripConcat` | src/screens/Auth/components/Login.jsx:25 | stripping acts character by character: the key of a concatenation is the concatenation of the keys |
| `PhoneKey.StripChangesFormatted` | src/screens/Auth/components/Register.jsx:26 | an input holding a formatting character has a strictly shorter key, so it differs from its key |
| `PhoneKey.MaskedKey` | src/screens/Auth/components/Login.jsx:111 | a completely filled mask `+DD (DDD) DDD - DD - DD` passes the length-23 guard, and its key is `+` followed by the twelve digits, which differs from the masked text |
| `Otp.SendStep` | src/screens/Auth/components/Login.jsx:21-42 | one phone submission: a bad length sets the invalid-phone message and makes no call; the calls are a prefix of lookup-then-request on the same stripped key; a code is requested exactly when the gate approves (the account exists for login, does not for registration); a refusal sets the mode's message; a failed lookup or request sets the retry message; a challenge is stored exactly when the request answers, and then no message is set |
| `Otp.ConfirmStep` | src/screens/Auth/components/Login.jsx:44-52 | a code is accepted exactly when a challenge is stored and the service accepts it; with no challenge no call is made; otherwise exactly one confirm call on the stored challenge and the typed code |
| `Otp.Put` | src/screens/Auth/components/Register.jsx:57-62 | writing a record adds or replaces exactly the document under its key, and every other document is unchanged |
| `Otp.RegisteredKeyIsNotLookedUp` | src/screens/Auth/components/Register.jsx:26-57 | as written, when the masked phone text holds a formatting character, a stripped key absent before the registration write is still absent after it |
| `Otp.FilledMaskRegistrationInvisible` | src/screens/Auth/components/Register.jsx:26-57 | for every completely filled mask, a registration write under the masked text leaves the canonical key the gates look up absent, if it was absent before |
| `Login.LoginScreen.ShownForm` | src/screens/Auth/components/Login.jsx:68 | the screen renders the code-entry form exactly when a challenge is stored, and the phone-entry form exactly when none is |
| `Login.LoginScreen.constructor` | src/screens/Auth/components/Login.jsx:15-19 | the screen starts with an empty phone, code and message, and no challenge |
| `Login.LoginScreen.SendOtp` | src/screens/Auth/components/Login.jsx:21-42 | clears the message first, then follows `SendStep` in login mode: the message is the step's or empty; `confirmation` changes only to a returned challenge (which switches to the code-entry form, line 68); the step's calls are appended; phone and code are unchanged |
| `Login.LoginScreen.ConfirmCode` | src/screens/Auth/components/Login.jsx:44-52 | follows `ConfirmStep`: a rejected code or a missing challenge sets the invalid-code message; an accepted one changes no field and writes nothing |
| `Login.LoginScreen.HandlePhoneNumberChange` | src/screens/Auth/components/Login.jsx:54-57 | stores the masked text and clears the message; nothing else changes |
| `Login.LoginScreen.HandleCodeChange` | src/screens/Auth/components/Login.jsx:59-62 | stores the code and clears the message; nothing else changes |
| `Register.RegistrationScreen.ShownForm` | src/screens/Auth/components/Register.jsx:96 | the screen renders the code-entry form exactly when a challenge is stored, and the phone-entry form exactly when none is |
| `Register.RegistrationScreen.constructor` | src/screens/Auth/components/Register.jsx:15-21 | the screen starts with empty fields and message, and no challenge |
| `Register.RegistrationScreen.NewRecord` | src/screens/Auth/components/Register.jsx:57-62 | the record's `id` and `phoneNumber` are the masked phone text; `name` and `email` are copied verbatim |
| `Register.RegistrationScreen.SendOtp` | src/screens/Auth/components/Register.jsx:23-42 | follows `SendStep` in registration mode without clearing the message first: a step that sets no message keeps the old one; `confirmation` changes only to a returned challenge; the step's calls are appended |
| `Register.RegistrationScreen.ConfirmCode` | src/screens/Auth/components/Register.jsx:44-53 | follows `ConfirmStep`; only an accepted code is followed by the write call (after the confirm call), and only a successful write changes the collection, by `Put` under the masked text; a rejected code sets the invalid-code message and writes nothing |
| `Register.RegistrationScreen.CreateUser` | src/screens/Auth/components/Register.jsx:55-67 | makes exactly one write call, of `NewRecord()` under the masked text; a successful write updates the collection by `Put`; a failed one changes nothing and sets no message |
| `Register.RegistrationScreen.HandlePhoneNumberChange` | src/screens/Auth/components/Register.jsx:69-72 | stores the masked text and clears the message |
| `Register.RegistrationScreen.HandleNameChange` | src/screens/Auth/components/Register.jsx:74-76 | stores the name and leaves the message as it is |
| `Register.RegistrationScreen.HandleEmailChange` | src/screens/Auth/components/Register.jsx:78-80 | stores the e-mail and leaves the message as it is |
| `Register.RegistrationScreen.HandleCodeChange` | src/screens/Auth/components/Register.jsx:82-85 | stores the code and clears the message |
| `Events.FilteredEvents` | src/screens/Events/Events.jsx:80-97 | the shown list is always an order-preserving sublist of the loaded events, and with no category and an empty search it is all of them |
| `Events.OnePredicate` | src/screens/Events/Events.jsx:81-97 | the four switch branches together equal one filter: (no category selected, or the category is selected) and (empty search, or the lower-cased title contains the lower-cased search) |
| `Events.FilteredMembers` | src/screens/Events/Events.jsx:83-93 | an event is shown exactly when it is loaded and satisfies the active filters |
| `Events.EventsScreen.Shown` | src/screens/Events/Events.jsx:108 | the rendered list is an order-preserving sublist of the loaded events, holding exactly the loaded events that match the active filters, and all of them when no filter is active |
| `Events.EventsScreen.constructor` | src/screens/Events/Events.jsx:25-30 | the screen starts with no events, no filters, no cursor, `refreshing` up and `loadingMore` down |
| `Events.EventsScreen.FetchData` | src/screens/Events/Events.jsx:32-53 | requests from the current cursor on a load-more and from the start otherwise; a refresh replaces events and cursor; a load-more appends the page, keeps the old events as a prefix, and moves the cursor only past a non-empty page; a failure changes neither; afterwards both flags are down |
| `Events.EventsScreen.HandleLoadMore` | src/screens/Events/Events.jsx:62-68 | fetches exactly when no load is running and a cursor exists, with `loadingMore` raised while the request is out; otherwise nothing changes |
| `Events.EventsScreen.HandleCategoryChange` | src/screens/Events/Events.jsx:71-74 | selects the given categories; the rendered list becomes the filter of the unchanged events under the new selection |
| `Events.EventsScreen.HandleSearchChange` | src/screens/Events/Events.jsx:76-78 | sets the search text; the rendered list becomes the filter of the unchanged events under the new search |

## Left out

- Rendering, styled components, theme lookups, navigation calls, logging, the unused `moment` import and the unused `isFocused` state carry no logic.
- The Firebase services (`signInWithPhoneNumber`, `confirmation.confirm`, the `users` reads and writes) are inputs to the handlers: `Outcome` values and the `UserStore` map. Whether the services reject stale or expired challenges is up to those services and is not modelled.
- `fetchEvents` (`utils/getEvents`) is not part of this model. The page and the cursor it returns are an input.
- Asynchrony: each handler runs as one atomic step. Overlapping submissions and stale `useCallback` closures are not modelled. Neither is the window in which `loadingMore` is up; the fetch trace records that the flag was up when the load-more request was made.
- In `Register.jsx`, `confirmCode`'s dependency list (line 53) uses `createUser` before its declaration (line 55). That fails when the component renders in JavaScript. The model assumes the intended order: confirm, then `createUser`.
- Case folding: `toLowerCase` is the function parameter `lower`, left uninterpreted.
- The input masks (`TextField`) are left out beyond the length-23 guard and `PhoneKey.Masked`, the text of a completely filled mask.
- String lengths count Unicode scalar values, whereas JavaScript counts UTF-16 code units. The two agree on the masked phone text, which has no characters outside the Basic Multilingual Plane.
- Events carry only `id`, `title` and `category`. The image, date and location fields are displayed only.

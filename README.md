# MindfulCare front-end rules, modelled in Dafny

MindfulCare is a React front-end for a mental-health clinic: marketing pages and
an admin console over a REST backend. This project models its exact rules:

- the admin user table (search and filters, create with the next free id, update
  by id, delete by id);
- the registration, sign-in and forgot-password validators;
- the six-slot email verification code;
- the keyword chatbot;
- the two login sessions kept in `localStorage`;
- the appointment edit forms of the admin and doctor pages;
- the admin area's role gate.

Each page component is a Dafny `class`. Its fields are the component's state
variables. Each handler is a `method` that modifies exactly the state it sets. The
pure parts are datatypes, functions and lemmas: filtering, id allocation, the email
pattern, digit stripping, `parseInt`/`toString`, the responder's rule table and the
error records.

Model conventions:

- **Backend calls** are abstract. A call is the request value a handler returns.
  Its answer is a parameter of the step that handles it: `LoginResponse`,
  `VerifyResult`, or `Option<string>` for a thrown message.
- **Timers.** A `setTimeout` callback is a separate method, run later with the
  values the closure captured. These are `SignIn.SignInPage.CompleteSignIn`,
  `ForgotPassword.ForgotPasswordPage.CompleteRequest`,
  `ChatBot.ChatWidget.GenerateBotResponse`,
  `VerifyEmail.VerifyEmailPage.ResendComplete` and
  `VerifyEmail.VerifyEmailPage.CountdownTick`.
- **Timestamps and dates** are parameters.
- **Storage.** `localStorage` is `Browser.LocalStorage`, a map from keys to stored
  strings. A stored string is either `Json(v)`, the text `JSON.stringify(v)` wrote,
  or `Text(s)`, any other text. `JSON.parse` returns `v` for the first and throws
  for the second.
- **Two sessions, never merged.** The demo sign-in and the admin layout use the key
  `user`, holding an email, a role and a name. The authentication context uses
  `authToken` and `userData`.
- **Effects.** A `useEffect` body is a separate step too, which the handlers that
  change its dependencies do not run themselves. `AdminUsers.UsersPage.ApplyFilters`
  is the filter effect of `src/pages/admin/Users.tsx:130-152`, and
  `VerifyEmail.VerifyEmailPage.CountdownTick` is the timer the countdown effect schedules.
- **Navigation** is recorded as the path and the optional `email` state passed
  to `navigate`.

## Model

| member | source | states |
|---|---|---|
| Text.TrimStart | src/pages/auth/Register.tsx:82 | Leading `trim`: the result is a suffix, it starts with a non-blank, and everything removed is whitespace |
| Text.TrimEnd | src/pages/auth/Register.tsx:82 | Trailing `trim`: the result is a prefix, it ends with a non-blank, and everything removed is whitespace |
| Text.Trim | src/pages/auth/Register.tsx:82 | `trim` removes both ends. What it keeps and drops is stated by `Text.TrimStart`, `Text.TrimEnd` and `Text.TrimEmptyIffBlank` |
| Text.TrimEmptyIffBlank | src/pages/auth/Register.tsx:82-91 | `!s.trim()` holds exactly when `s` is empty or whitespace only |
| Text.Lower | src/components/AiChatBot.tsx:66 | `toLowerCase` keeps the length and lowers each character in place |
| Text.LowerIdempotent | src/pages/admin/Users.tsx:135-138 | Lower-casing twice gives the same string as lower-casing once |
| Text.ContainsInContext | src/components/AiChatBot.tsx:68-85 | `includes` is a substring test: an occurrence survives any text added around the string |
| Text.EmailPatternShape | src/pages/auth/Register.tsx:97 | Every string that matches `\S+@\S+\.\S+` has an '@' before a '.' and at least five characters |
| Text.EmailPatternInContext | src/pages/auth/Register.tsx:97 | The pattern is unanchored: surrounding text never stops a match |
| Text.EmailPatternAccepts | src/pages/auth/Register.tsx:97 | A plain address matches, and so does one embedded in other text |
| Text.EmailPatternRejects | src/pages/auth/Register.tsx:97 | Each of these fails to match: no '.' after the '@', nothing between '@' and '.', a blank before the '@' |
| Text.MatchesEmailPattern | src/pages/auth/Register.tsx:97 | The unanchored test of `\S+@\S+\.\S+`: some '@' and a later '.' with non-blank runs before, between and after. Its shape, acceptances and rejections are stated by the `Text.EmailPattern*` lemmas |
| Text.Digits | src/pages/auth/Register.tsx:103 | `replace(/\D/g, '')` keeps only digits, never lengthens, and leaves a digit string unchanged |
| Text.DigitsAppend | src/pages/auth/Register.tsx:103 | Stripping a concatenation is concatenating the stripped parts |
| Text.DigitsIgnoreSeparators | src/pages/auth/Register.tsx:103 | Inserting non-digits anywhere leaves the stripped digits unchanged |
| Text.NoDigits | src/pages/auth/Register.tsx:103 | A string without digits strips to the empty string |
| Text.TenDigitsAfterStripping | src/pages/auth/Register.tsx:103 | After stripping, `^\d{10}$` is exactly a count of ten digits |
| Text.NatToString | src/pages/admin/Appointments.tsx:118-119 | The decimal text of a number is a non-empty digit string without leading zeros; it is "0" exactly for zero |
| Text.IntToString | src/pages/admin/Appointments.tsx:118-119 | `toString` of an integer: a minus sign before the digits of a negative one. `Text.ParseIntToString` states that `parseInt` reads it back |
| Text.DigitPrefix | src/pages/admin/Appointments.tsx:139-140 | The run of digits `parseInt` reads is the longest digit prefix |
| Text.DecimalValueOfNatToString | src/pages/admin/Appointments.tsx:118-140 | Reading back the decimal text of a number gives the number |
| Text.DigitPrefixOfDigits | src/pages/admin/Appointments.tsx:139-140 | On a digit string, `parseInt` reads every character |
| Text.TrimStartNoBlank | src/pages/admin/Appointments.tsx:139-140 | `parseInt` skips nothing when the text starts with a non-blank |
| Text.ParseInt | src/pages/admin/Appointments.tsx:139-140 | `parseInt(s)`: leading blanks skipped, an optional sign, then the longest digit prefix; nothing (NaN) when no digit follows. `Text.ParseIntToString` states the round trip |
| Text.ReadSigned | src/pages/admin/Appointments.tsx:139-140 | The part of `parseInt` after the leading blanks: an optional sign and the longest digit prefix, NaN when there is no digit |
| Text.ParseIntOfDigits | src/pages/admin/Appointments.tsx:139-140 | `parseInt` of a non-empty digit string reads all of it |
| Text.ParseIntOfNegativeDigits | src/pages/admin/Appointments.tsx:139-140 | `parseInt` of a minus sign and a non-empty digit string reads the negated value |
| Text.ParseIntToString | src/pages/admin/Appointments.tsx:118-140 | `parseInt(n.toString())` is `n` for every integer of the model, negative ones included |
| Seqs.Filter | src/pages/admin/Users.tsx:135-148 | `filter` keeps, in order, exactly the elements that pass the condition, each with all its copies, and drops every copy of the others |
| Seqs.FilterTwice | src/pages/admin/Users.tsx:131-151 | Filtering by `p` and then by `q` is filtering once by `p && q` |
| Seqs.FilterAgreeing | src/pages/admin/Users.tsx:135-138 | Two conditions that agree on every element give the same result |
| Seqs.FilterKeepsAll | src/pages/admin/Users.tsx:131-151 | A condition every element passes removes nothing |
| Seqs.Find | src/pages/auth/SignIn.tsx:77 | `find` returns the first element that passes, or nothing exactly when none passes |
| Browser.Stored.Parse | src/components/admin/AdminLayout.tsx:38 | `JSON.parse` succeeds exactly on text that `JSON.stringify` wrote |
| Browser.LocalStorage.SetItem | src/contexts/AuthContext.tsx:70-71 | `setItem` overwrites one key; the other keys are unchanged |
| Browser.LocalStorage.RemoveItem | src/contexts/AuthContext.tsx:79-80 | `removeItem` removes one key; the other keys are unchanged |
| FormRules.EmailError | src/pages/auth/SignIn.tsx:39-45 | The email error is empty exactly when the pattern matches. Empty input gives "Email is required"; any other failure gives "Email is invalid" |
| FormRules.PasswordError | src/pages/auth/SignIn.tsx:48-54 | The password error is empty exactly when there are at least 8 characters. Empty input gives "required"; 1 to 7 characters give the length message |
| AdminUsers.FilterWhen | src/pages/admin/Users.tsx:134-149 | A filter applied only when switched on equals one filter by "switched off, or passes" |
| AdminUsers.MatchesSearch | src/pages/admin/Users.tsx:135-138 | The search hits when the lower-cased name or email contains the lower-cased term. `AdminUsers.SearchIgnoresCase` states its case blindness |
| AdminUsers.PassesFilters | src/pages/admin/Users.tsx:134-149 | The three filters at once: an empty term, "all" status or "all" role lets every user through that filter |
| AdminUsers.FilterUsers | src/pages/admin/Users.tsx:130-152 | The effect's three `filter` calls in order. `AdminUsers.FilterUsersSpec` and `AdminUsers.FilterUsersIsOneFilter` state what it keeps |
| AdminUsers.FilterUsersIsOneFilter | src/pages/admin/Users.tsx:130-152 | Search, then status, then role together equal one filter by all the active conditions |
| AdminUsers.FilterUsersSpec | src/pages/admin/Users.tsx:130-152 | The visible list keeps the table's order. A user is in it exactly when it passes every active filter. With the term empty and both filters "all" it is the whole table. Every copy of a passing user stays and every copy of the others goes |
| AdminUsers.SearchIgnoresCase | src/pages/admin/Users.tsx:135-138 | Search terms that are equal up to case give the same list |
| AdminUsers.MaxId | src/pages/admin/Users.tsx:212 | `Math.max(0, ...ids)` is at least every id and at least 0, and it is 0 or one of the ids |
| AdminUsers.NewUser | src/pages/admin/Users.tsx:211-219 | The new id is above every existing id and one more than the largest id (or 1). Name, email and phone come from the form. An empty role or status falls back to "user" or "pending". The creation date is today's |
| AdminUsers.Merge | src/pages/admin/Users.tsx:201 | `{ ...user, ...formData }`: the form's fields win; a form without id or creation date keeps the user's. `AdminUsers.UpdateUsers` states the update built on it |
| AdminUsers.WithField | src/pages/admin/Users.tsx:166-173 | `{ ...prev, [name]: value }`: the named field takes the value and every other field, id and creation date included, stays |
| AdminUsers.FieldChangesCompose | src/pages/admin/Users.tsx:166-173 | Two changes of the same field leave the later value; changes of different fields commute |
| AdminUsers.CreateAppends | src/pages/admin/Users.tsx:221 | A create appends one user at the end, leaves the earlier users as they were, and keeps ids unique |
| AdminUsers.UpdateUsers | src/pages/admin/Users.tsx:200-202 | An update keeps the length, order and ids. It merges the form into the users with the form's id and leaves every other user unchanged |
| AdminUsers.RemoveUserSpec | src/pages/admin/Users.tsx:246 | A delete removes exactly the users with that id and keeps the rest in order. An id nobody has changes nothing. Unique ids stay unique. Every copy of a user with another id stays |
| AdminUsers.RemoveUser | src/pages/admin/Users.tsx:246 | `users.filter(user => user.id !== id)`. `AdminUsers.RemoveUserSpec` states what it removes and keeps |
| AdminUsers.StatusColor | src/pages/admin/Users.tsx:259-270 | Only "active" (green) and "pending" (yellow) get their own colour; "inactive" and any other status are gray |
| AdminUsers.RoleBadge | src/pages/admin/Users.tsx:272-283 | Only "admin" (purple) and "therapist" (blue) get their own colour; "user" and any other role are gray |
| AdminUsers.UsersPage.constructor | src/pages/admin/Users.tsx:112-127 | The initial state: the five sample users, no filter, a blank form, nothing open |
| AdminUsers.UsersPage.ApplyFilters | src/pages/admin/Users.tsx:130-152 | The filter effect sets the visible list to the filtered table |
| AdminUsers.UsersPage.HandleSearch | src/pages/admin/Users.tsx:154-156 | Typing a search sets the term and nothing else |
| AdminUsers.UsersPage.HandleStatusFilterChange | src/pages/admin/Users.tsx:158-160 | Choosing a status sets the status filter and nothing else |
| AdminUsers.UsersPage.HandleRoleFilterChange | src/pages/admin/Users.tsx:162-164 | Choosing a role sets the role filter and nothing else |
| AdminUsers.UsersPage.HandleFormChange | src/pages/admin/Users.tsx:166-173 | An input or select sets its own field of the form and nothing else. The id is untouched, so whether a submit updates an existing user does not change |
| AdminUsers.UsersPage.ResetForm | src/pages/admin/Users.tsx:175-184 | After a reset the form is blank (role "user", status "pending") and the page is not editing |
| AdminUsers.UsersPage.HandleSubmit | src/pages/admin/Users.tsx:186-231 | An empty name or email changes nothing, so the form stays open. Otherwise an edit with a non-zero id updates and anything else creates. Then the form closes and resets. Ids stay unique |
| AdminUsers.UsersPage.HandleEdit | src/pages/admin/Users.tsx:233-237 | The whole user goes into the form, and the form opens in edit mode |
| AdminUsers.UsersPage.HandleDelete | src/pages/admin/Users.tsx:239-242 | The user is remembered and the confirmation dialog opens |
| AdminUsers.UsersPage.ConfirmDelete | src/pages/admin/Users.tsx:244-257 | With a user to delete, the users with its id are removed; with none the table stays. The dialog closes and the selection clears |
| Register.RegisterErrors.Cleared | src/pages/auth/Register.tsx:43-51 | Clearing one key empties that message and keeps every other message |
| Register.ExpectedErrors | src/pages/auth/Register.tsx:67-131 | One message per failed rule, in the source's order of checks, and an empty message where the rule holds. `Register.RegisterAcceptance` states when all are empty |
| Register.RegisterAcceptance | src/pages/auth/Register.tsx:67-131 | The form passes exactly when all of these hold: both names are non-blank, the email matches, the phone is empty or has ten digits, the password has at least 8 characters and equals the confirmation, and the terms are accepted. Role and general errors are always empty |
| Register.PhoneAcceptable | src/pages/auth/Register.tsx:103-106 | An empty phone is accepted; otherwise its digits, separators stripped, must be exactly ten. `Register.PhoneIgnoresSeparators` states that separators do not matter |
| Register.PhoneIgnoresSeparators | src/pages/auth/Register.tsx:103-106 | Separators inside a phone number do not change whether it is accepted |
| Register.FailureText | src/pages/auth/Register.tsx:162 | The general error is never empty. A non-empty thrown message is shown as it is; an empty one gives "Registration failed. Please try again." |
| Register.RegisterPage.constructor | src/pages/auth/Register.tsx:18-41 | The initial form has role "patient" and the terms unticked; every error is empty |
| Register.RegisterPage.HandleChange | src/pages/auth/Register.tsx:43-51 | Typing sets one input and clears only that input's error |
| Register.RegisterPage.HandleSelectChange | src/pages/auth/Register.tsx:53-58 | Choosing a role sets the role and clears only the role error |
| Register.RegisterPage.HandleCheckboxChange | src/pages/auth/Register.tsx:60-65 | Ticking the box sets the terms flag and clears only the terms error |
| Register.RegisterPage.ValidateForm | src/pages/auth/Register.tsx:67-131 | The error record is the one the rules give for the form, and the result is true exactly when every message is empty |
| Register.RegisterPage.HandleSubmit | src/pages/auth/Register.tsx:133-167 | Signup is called only when validation passes, with the role's endpoint. Success goes to the verification page with the email. A failure shows its message, or the default. Submitting ends either way |
| AuthContext.Signup | src/contexts/AuthContext.tsx:84-104 | admin reaches the admin endpoint, doctor the doctor endpoint and patient the patient endpoint, each with the data unchanged. Any other role throws "Invalid role" |
| AuthContext.SignupEndpointPerRole | src/contexts/AuthContext.tsx:87-96 | Two roles reach the same endpoint exactly when they are the same role |
| AuthContext.UseAuth | src/contexts/AuthContext.tsx:26-32 | Outside a provider the hook throws its message; inside, it returns the context |
| AuthContext.AuthProvider.constructor | src/contexts/AuthContext.tsx:39-40 | No user, and loading |
| AuthContext.AuthProvider.Restore | src/contexts/AuthContext.tsx:42-56 | The user is restored only when both keys are present and the user parses. Unparsable user data removes both keys. Loading ends in every case |
| AuthContext.AuthProvider.Login | src/contexts/AuthContext.tsx:58-76 | An unverified user is refused first, then an inactive one. A refusal or failure stores nothing and keeps the user. Success stores the token and the user and signs in |
| AuthContext.AuthProvider.Logout | src/contexts/AuthContext.tsx:78-82 | Both keys are removed and the user is signed out |
| AuthContext.LogoutTwice | src/contexts/AuthContext.tsx:78-82 | Logging out twice leaves the same state as logging out once |
| SignIn.SignInAcceptance | src/pages/auth/SignIn.tsx:34-58 | Sign-in validation passes exactly when the email matches and the password has at least 8 characters; the general error is cleared |
| SignIn.ExpectedErrors | src/pages/auth/SignIn.tsx:34-58 | The email and password errors of the shared rules and an empty general error. `SignIn.SignInAcceptance` states when they are all empty |
| SignIn.FindDemoUser | src/pages/auth/SignIn.tsx:71-77 | A demo account matches only when both its email AND its password match. No match means no account has both |
| SignIn.DemoLookup | src/pages/auth/SignIn.tsx:71-77 | Each demo account signs in with its own password; one account's email with another account's password finds nothing |
| SignIn.LandingPath | src/pages/auth/SignIn.tsx:101-106 | An admin lands on the admin dashboard, and every other role on the home page |
| SignIn.DemoLandings | src/pages/auth/SignIn.tsx:71-106 | Only the admin demo account reaches the admin dashboard; the patient demo account is unverified |
| SignIn.SignInPage.constructor | src/pages/auth/SignIn.tsx:13-22 | Empty credentials, no errors, not submitting |
| SignIn.SignInPage.HandleChange | src/pages/auth/SignIn.tsx:24-32 | Typing sets one input and clears only that input's error |
| SignIn.SignInPage.ValidateForm | src/pages/auth/SignIn.tsx:34-58 | The errors are the shared email and password rules with `general` emptied; the result is true exactly when all are empty |
| SignIn.SignInPage.HandleSubmit | src/pages/auth/SignIn.tsx:60-69 | A failed validation does no lookup and writes no storage. A passing one starts submitting and captures the credentials for the delayed step |
| SignIn.SignInPage.CompleteSignIn | src/pages/auth/SignIn.tsx:69-116 | An unverified match goes to the verification page with the email and stores nothing. A verified match stores email, role and name (never the password) under `user` and lands by role. No match sets the hint and stores nothing. Submitting ends |
| ForgotPassword.SubmitError | src/pages/auth/ForgotPassword.tsx:21-35 | Presence is checked before the pattern. The message is empty exactly when the address matches |
| ForgotPassword.ValidateEmail | src/pages/auth/ForgotPassword.tsx:17-19 | `validateEmail` is the same unanchored pattern test. `ForgotPassword.SameRuleAsSignIn` states that it agrees with sign-in |
| ForgotPassword.SameRuleAsSignIn | src/pages/auth/ForgotPassword.tsx:17-32 | This page accepts the same addresses as sign-in; only the text for a malformed address differs |
| ForgotPassword.ForgotPasswordPage.constructor | src/pages/auth/ForgotPassword.tsx:12-15 | Empty email, not submitting, not submitted, no error |
| ForgotPassword.ForgotPasswordPage.HandleSubmit | src/pages/auth/ForgotPassword.tsx:21-36 | The request starts exactly when the address is valid; then the error is cleared and submitting starts. Otherwise only the error is set |
| ForgotPassword.ForgotPasswordPage.CompleteRequest | src/pages/auth/ForgotPassword.tsx:39-47 | When the delay ends the "sent" panel shows and submitting ends |
| ForgotPassword.ForgotPasswordPage.HandleEmailChange | src/pages/auth/ForgotPassword.tsx:131-134 | Typing sets the email and clears the error |
| ForgotPassword.ForgotPasswordPage.TryAnotherEmail | src/pages/auth/ForgotPassword.tsx:97 | "Try Another Email" goes back to the form and keeps the email |
| VerifyEmail.Join | src/pages/auth/VerifyEmail.tsx:94 | The joined code is exactly as long as the slots together |
| VerifyEmail.JoinOfSlots | src/pages/auth/VerifyEmail.tsx:94-95 | With each slot empty or one digit, the joined code is all digits. It has six characters exactly when no slot is empty, and then its characters are the slots' digits in slot order |
| VerifyEmail.OverwritePrefix | src/pages/auth/VerifyEmail.tsx:79-83 | The pasted characters overwrite the first slots in order. Characters past the sixth are dropped, and later slots keep their content |
| VerifyEmail.SplitPrefix | src/pages/auth/VerifyEmail.tsx:78 | `slice(0, 6).split('')` gives at most six one-character strings, in order |
| VerifyEmail.Tick | src/pages/auth/VerifyEmail.tsx:28-34 | One run of the countdown effect: a positive countdown drops by one and zero stays zero. `VerifyEmail.TicksCountDown` states repeated runs |
| VerifyEmail.Ticks | src/pages/auth/VerifyEmail.tsx:28-34 | `n` runs of the effect in a row. `VerifyEmail.TicksCountDown` states their result |
| VerifyEmail.TicksCountDown | src/pages/auth/VerifyEmail.tsx:28-34 | `n` timer runs lower the countdown by `n` but not below zero |
| VerifyEmail.ResendBlockedForSixty | src/pages/auth/VerifyEmail.tsx:46 | After a resend the countdown is positive for exactly sixty timer runs |
| VerifyEmail.VerifyEmailPage.constructor | src/pages/auth/VerifyEmail.tsx:15-19 | Six empty slots, countdown 0, no flag set |
| VerifyEmail.VerifyEmailPage.TakeEmailFromNavigation | src/pages/auth/VerifyEmail.tsx:21-26 | A non-empty email passed by the previous page replaces the current one |
| VerifyEmail.VerifyEmailPage.HandleEmailChange | src/pages/auth/VerifyEmail.tsx:203 | Typing sets the email |
| VerifyEmail.VerifyEmailPage.VerifyDisabled | src/pages/auth/VerifyEmail.tsx:247 | The verify button is disabled while verifying or while the joined code is not six characters long; `StartVerify` states how it relates to a press |
| VerifyEmail.VerifyEmailPage.HandleCodeChange | src/pages/auth/VerifyEmail.tsx:50-63 | A non-empty, non-digit input leaves the code unchanged. Otherwise only slot `index` changes, and the code keeps six valid slots |
| VerifyEmail.VerifyEmailPage.HandlePaste | src/pages/auth/VerifyEmail.tsx:73-91 | An empty or non-digit paste changes nothing. Otherwise the first min(6, n) slots take the pasted digits in order and the rest stay |
| VerifyEmail.VerifyEmailPage.StartVerify | src/pages/auth/VerifyEmail.tsx:93-110 | A request is made exactly when the joined code has six characters. It carries the email, the six slot digits in slot order and the user type "SuperAdmin". The button was enabled exactly when the page was not verifying and the press makes a request |
| VerifyEmail.VerifyEmailPage.FinishVerify | src/pages/auth/VerifyEmail.tsx:111-137 | `active === false` goes to the inactive page with the email, unverified. Any other answer marks verified and goes to sign-in. A failure stays unverified. Verifying ends in every case. The two-second wait before going to sign-in is folded into this step |
| VerifyEmail.VerifyEmailPage.CountdownTick | src/pages/auth/VerifyEmail.tsx:30-31 | One timer run lowers a positive countdown by one |
| VerifyEmail.VerifyEmailPage.HandleResendCode | src/pages/auth/VerifyEmail.tsx:36-37 | Pressing resend starts resending |
| VerifyEmail.VerifyEmailPage.ResendComplete | src/pages/auth/VerifyEmail.tsx:45-46 | Resending ends and the countdown restarts at 60, which disables the button |
| ChatBot.FirstMatch | src/components/AiChatBot.tsx:68-88 | Some rule's response, from the first rule with a keyword in the text. Nothing exactly when no rule matches |
| ChatBot.BotResponse | src/components/AiChatBot.tsx:66-88 | The if/else chain over the lower-cased message, written as in the source. `ChatBot.BotResponseIsFirstMatch` states that it is the ordered rule table |
| ChatBot.BotResponseIsFirstMatch | src/components/AiChatBot.tsx:66-88 | The if/else chain is the ordered rule table (greeting, therapy, appointment, anxiety, depression, help) tried in order, with the default when none matches |
| ChatBot.FirstMatchStep | src/components/AiChatBot.tsx:68-85 | Rule `k` answers when it matches; otherwise the rules after it are tried |
| ChatBot.KeywordsOf | src/components/AiChatBot.tsx:68-83 | "Any keyword of the rule" is the `||` of the keywords' `includes` tests |
| ChatBot.ResponseIgnoresCase | src/components/AiChatBot.tsx:66 | Messages equal up to case get the same response |
| ChatBot.GreetingShadowsInsideWords | src/components/AiChatBot.tsx:68 | Keywords match inside words, and the greeting rule comes first: "Which therapist?" gets the greeting |
| ChatBot.DefaultWhenNothingMatches | src/components/AiChatBot.tsx:86-88 | A message with no keyword gets the default response |
| ChatBot.WithUserMessage | src/components/AiChatBot.tsx:45-52 | Sending appends one message at the end, with id = previous length + 1, not from the bot. Earlier messages are unchanged |
| ChatBot.WithBotMessage | src/components/AiChatBot.tsx:91-98 | The reply appends one bot message with the chosen response. Its id is the length at send time + 2. Earlier messages are unchanged |
| ChatBot.SendThenReplyKeepsIds | src/components/AiChatBot.tsx:46-92 | A send answered before the next send keeps the ids 1, 2, 3, ... |
| ChatBot.TwoSendsDuplicateId | src/components/AiChatBot.tsx:46-92 | Two sends before the first reply give the second message and the first reply the same id |
| ChatBot.ChatWidget.constructor | src/components/AiChatBot.tsx:17-27 | Closed and not typing; the only message is the greeting, with id 1 |
| ChatBot.ChatWidget.ToggleChat | src/components/AiChatBot.tsx:31-33 | Opening flips |
| ChatBot.ChatWidget.HandleInputChange | src/components/AiChatBot.tsx:35-37 | Typing sets the input |
| ChatBot.ChatWidget.HandleSendMessage | src/components/AiChatBot.tsx:39-60 | Blank input does nothing. Otherwise the trimmed text is appended, the input is cleared, typing starts, and the reply captures the text and the length |
| ChatBot.ChatWidget.GenerateBotResponse | src/components/AiChatBot.tsx:62-100 | The reply is appended, earlier messages are unchanged, and typing stops |
| AdminAppointments.OrElse | src/pages/admin/Appointments.tsx:120-124 | The value, or the fallback when the value is missing or empty; an empty text counts as missing |
| AdminAppointments.IdText | src/pages/admin/Appointments.tsx:118-119 | The id's text is empty exactly when the id is missing |
| AdminAppointments.FormOf | src/pages/admin/Appointments.tsx:115-127 | The form an edit loads: ids as text, empty text for missing fields, "scheduled" for a missing status. `AdminAppointments.EditThenSubmitRoundTrip` states that submitting it sends the appointment back |
| AdminAppointments.Payload | src/pages/admin/Appointments.tsx:138-146 | The submitted record: ids read with `parseInt`, the other fields as typed. `AdminAppointments.EditThenSubmitRoundTrip` states the round trip |
| AdminAppointments.ParseEmpty | src/pages/admin/Appointments.tsx:139-140 | `parseInt` of the empty text is NaN, so a missing id travels back as missing |
| AdminAppointments.WithField | src/pages/admin/Appointments.tsx:196-287 | `{ ...form, [field]: value }`: the named field takes the value and every other field stays |
| AdminAppointments.FieldChangesCompose | src/pages/admin/Appointments.tsx:196-287 | Two changes of the same field leave the later value; changes of different fields commute |
| AdminAppointments.EditThenSubmitRoundTrip | src/pages/admin/Appointments.tsx:115-146 | Submitting a just-loaded form sends the appointment's own ids back through `parseInt`. Missing text fields become empty and a missing status becomes "scheduled" |
| AdminAppointments.NameOrId | src/pages/admin/Appointments.tsx:155-163 | The name of the first person with the id, else "Patient ID: <id>" / "Doctor ID: <id>" |
| AdminAppointments.PatientName | src/pages/admin/Appointments.tsx:155-158 | `getPatientName` is the lookup with the fallback "Patient ID: <id>", as stated by `AdminAppointments.NameOrId` |
| AdminAppointments.DoctorName | src/pages/admin/Appointments.tsx:160-163 | `getDoctorName` is the lookup with the fallback "Doctor ID: <id>", as stated by `AdminAppointments.NameOrId` |
| AdminAppointments.StatusColor | src/pages/admin/Appointments.tsx:165-173 | scheduled, completed and cancelled each have their own class; "no-show" and any other status share gray |
| AdminAppointments.AppointmentsPage.constructor | src/pages/admin/Appointments.tsx:33-43 | A blank form with status "scheduled"; nothing selected; not editing |
| AdminAppointments.AppointmentsPage.ResetForm | src/pages/admin/Appointments.tsx:101-113 | The form is blank with status "scheduled", editing ends and the selection is cleared |
| AdminAppointments.AppointmentsPage.HandleEdit | src/pages/admin/Appointments.tsx:115-127 | The appointment is selected and loaded with defaults, and editing starts |
| AdminAppointments.AppointmentsPage.SetForm | src/pages/admin/Appointments.tsx:196-287 | An input or select sets its own field of the form; the other fields stay |
| AdminAppointments.AppointmentsPage.HandleDelete | src/pages/admin/Appointments.tsx:129-133 | A delete is issued exactly when the user confirms |
| AdminAppointments.AppointmentsPage.HandleSubmit | src/pages/admin/Appointments.tsx:135-153 | An update of the selected id exactly when editing with a selection, else a create. Never both and never a delete. The ids are parsed and the other fields passed as they are |
| AdminAppointments.AppointmentsPage.OnSuccess | src/pages/admin/Appointments.tsx:45-99 | A successful create or update resets the form; a successful delete does not |
| DoctorDashboard.IdOf | src/pages/doctor/Dashboard.tsx:44 | `selected.id` is present exactly when the record has an id |
| DoctorDashboard.Stamped | src/pages/doctor/Dashboard.tsx:46 | `{ ...form, doctorId }` keeps every form field and adds `doctorId`, which wins over a form field of the same name |
| DoctorDashboard.Dashboard.constructor | src/pages/doctor/Dashboard.tsx:14-16 | Nothing selected, an empty form, not editing |
| DoctorDashboard.Dashboard.HandleEdit | src/pages/doctor/Dashboard.tsx:31-35 | The appointment becomes both the selection and the form, and editing starts |
| DoctorDashboard.Dashboard.SetField | src/pages/doctor/Dashboard.tsx:66-80 | An input sets its field of the form |
| DoctorDashboard.Dashboard.HandleDelete | src/pages/doctor/Dashboard.tsx:37-39 | The id goes to the backend without confirmation |
| DoctorDashboard.Dashboard.HandleSubmit | src/pages/doctor/Dashboard.tsx:41-51 | While editing, an update of the selection's id with the form. Otherwise a create of the form stamped with the doctor's id. Either way the form empties, editing ends and the selection clears |
| DoctorDashboard.Dashboard.Cancel | src/pages/doctor/Dashboard.tsx:87 | Cancel empties the form, ends editing and clears the selection |
| AdminLayout.IsActive | src/components/admin/AdminLayout.tsx:88 | `isActive` compares the current path with the item's path. `AdminLayout.AtMostOneActive` states its consequence |
| AdminLayout.AtMostOneActive | src/components/admin/AdminLayout.tsx:70-88 | `isActive` is exact equality, so at most one navigation item is highlighted |
| AdminLayout.Layout.constructor | src/components/admin/AdminLayout.tsx:31-32 | No user, sidebar closed |
| AdminLayout.Layout.Gate | src/components/admin/AdminLayout.tsx:34-59 | No stored session redirects to /signin. A stored role exactly "admin" sets the user. Any other role redirects and keeps the user null. Unparsable text throws |
| AdminLayout.Layout.HandleLogout | src/components/admin/AdminLayout.tsx:61-68 | The `user` key is removed and the browser goes to /signin |
| AdminLayout.Layout.ToggleSidebar | src/components/admin/AdminLayout.tsx:96 | The sidebar flips |
| AdminLayout.AdminDemoSignInPassesGate | src/pages/auth/SignIn.tsx:71-106 | Signing in with the admin demo account and then opening an admin page over the same storage: the gate admits the session that the sign-in stored |
| AdminLayout.DoctorDemoSignInIsTurnedAway | src/components/admin/AdminLayout.tsx:34-59 | Signing in with the doctor demo account and then opening an admin page over the same storage: the gate redirects to /signin |

## Left out

- HTTP calls, react-query caching and invalidation, toasts, and JSX rendering. A backend call is its request value plus a parameter for its answer.
- Timer delays. Each `setTimeout` callback is a separate step, run later. Cancelling the countdown timer on unmount is not modelled.
- DOM focus moves in the code inputs, and the backspace handler `handleKeyDown` in `src/pages/auth/VerifyEmail.tsx`, which only moves focus.
- The browser `confirm` dialog, which is a boolean parameter.
- Unicode. `toLowerCase` folds only the ASCII letters. `trim` and `\S` use the fixed set of JavaScript whitespace characters.
- `parseInt` reads base ten only: a `0x` prefix is not read as hexadecimal.
- `Math.max` over a spread: the engine's argument-count limit for very large tables.
- `JSON.parse` and `JSON.stringify`. A stored value is either one written by `JSON.stringify` or other text, which throws when parsed. Records written by another program are outside the model.
- The catch branch of sign-in's submit. It cannot be reached, because `setTimeout` does not throw.
- The catch branch of forgot-password's submit is left out for the same reason.
- The `verifyEmail` member of the authentication context. It passes two arguments to an API helper that takes one, so it has no coherent behaviour to state.
- The verification request itself is abstract, and the page's call into the service layer is not part of this model.
- The doctor-dashboard branch at the end of `src/pages/admin/Users.tsx`, which renders another component from the `user` session.
- The marketing, contact, services and static pages, the route table, the admin statistics page and the doctors/patients display page. They hold no rules.
- Register.RegisterPage.HandleSelectChange accepts any string, which is wider than the page: the select offers only admin, doctor and patient, so `AuthContext.Signup`'s failure for another role is not reachable from the page.
- The "Use a different email" link of the verification page, which is navigation only.
- Dates and timestamps (`new Date()`, `toISOString`) are parameters.
- Text.ParseIntToString: numbers are unbounded integers. JavaScript numbers are doubles, and `toString` switches to exponent notation from 10^21, so in JavaScript the round trip holds only for magnitudes below 10^21.
- AdminUsers.NewUser: ids are unbounded integers. With doubles, `Math.max(...) + 1` stays above every id only below 2^53.
- VerifyEmail.VerifyEmailPage.FinishVerify: the two-second `setTimeout` before `navigate('/signin')` is not a separate step; the navigation is part of the answer step.

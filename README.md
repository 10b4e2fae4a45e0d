# Kanban board with OTP-gated sign-in: a Dafny model

This project models the client-side core of a small task board. Users sign in
with a password. A one-time code (OTP) is then demanded of every user who has not
verified their email yet, and of every user who turned the OTP requirement on.
The model covers five parts:

- **`Auth`** (`auth_modal.dfy`): the sign-in dialog, a state machine over
  `flow`, `step`, `isLoading`, `error`, `otpValue` and `checkVerification`. It
  covers the credential submit, the post-login gate that decides between issuing
  an OTP and letting the user in, code entry, the reset when the dialog closes,
  and the two links. Every call the dialog makes to a collaborator is appended to
  a `calls` log: `signIn`, `signOut`, `generateOtp`, `verifyOtp`, and
  close-and-navigate. The answers of the awaited collaborators are method
  parameters.
- **`Users`** (`users.dfy`): the user documents. It covers the read of the
  signed-in user and the partial `update` mutation, which patches only the
  caller's own record.
- **`Profile`** (`profile_modal.dfy`): the avatar initials, the default position
  of the OTP switch, and the update the switch sends.
- **`Kanban`** (`kanban_board.dfy`): which tasks the board shows for a selected
  day, and how they split into the four columns. It also covers the drop rules:
  the two-task limit on `in_progress`, the `completedAt` stamp on done, and the
  deferred move to blocked that waits for a reason.
- **`NewTask`** (`new_task_modal.dfy`): the new-task dialog. It covers the guards
  of its three handlers, the record it adds, the clean-up of the AI's improved
  text (one trim and three case-insensitive regular-expression replacements,
  each matched exactly), and the classification of AI errors.

`JsText` (`js_text.dfy`) holds the part of JavaScript's value semantics these
components rely on:

- truthiness of optional numbers and strings;
- `trim`, and the white-space class `\s` as ECMAScript defines it;
- `includes`;
- ASCII case mapping.

The clock, the auth provider's state, the AI's answer and the outcome of every
store write are parameters. Dates are integer milliseconds.

Two behaviours of the code differ from what a reader might expect. The model
follows the code:

- **Absent `otpEnabled`.** One might expect an absent `otpEnabled` to mean on,
  as the profile switch shows it. The gate in `AuthModal.tsx` treats an absent
  flag as off (`Auth.OtpRequired`). For a verified user,
  `Profile.SwitchAndGateDisagreeOnlyWhenUnset` proves that the switch and the
  gate disagree exactly when the flag is absent. An unverified user always needs
  a code, so for them a switch showing off (`otpEnabled` false) disagrees with
  the gate even though the flag is set.
- **Closing on the OTP step.** One might expect abandoning the OTP step to sign
  the user out in every case. The close effect signs out only a user whose
  `emailVerificationTime` is falsy (`Auth.AuthModal.ResetOnClose`,
  `Auth.CloseOnOtpStep`).

A status outside the four column ids is kept as `Other(raw)`. Its type excludes
the four ids, so every status has exactly one representation.

## Model

| member | source | states |
|---|---|---|
| JsText.Trim | src/components/kanban/NewTaskModal.tsx:68 | `trim` yields a string with no white space at either end, no longer than its input |
| JsText.TrimFrames | src/components/kanban/NewTaskModal.tsx:68 | the trimmed string is the slice of the input that sits between an all-white-space prefix and an all-white-space suffix |
| JsText.TrimEmptyIffAllSpace | src/components/kanban/NewTaskModal.tsx:34 | `!s.trim()` holds exactly when every character of `s` is white space |
| JsText.TrimOfTrimmed | src/components/kanban/NewTaskModal.tsx:68 | trimming a string that neither starts nor ends with white space returns it unchanged |
| JsText.LeadingSpace | src/components/kanban/NewTaskModal.tsx:69 | the count is the length of the longest all-white-space prefix: every character before it is white space, and the one at it is not |
| JsText.TrailingSpaceStart | src/components/kanban/NewTaskModal.tsx:70 | the index is where the longest all-white-space suffix begins: every character from it on is white space, and the one before it is not |
| JsText.Includes | src/components/AuthModal.tsx:110 | `includes` is true exactly when the phrase occurs at some index of the string |
| JsText.ToUpper | src/components/ProfileModal.tsx:44 | `toUpperCase` keeps the length and upper-cases each character |
| Users.GetCurrentUser | src/convex/users.ts:28-34 | the result is null exactly when there is no identity or no record for it; otherwise it is the caller's own record |
| Users.CurrentUser | src/convex/users.ts:10-21 | the query returns what the lookup returns, null included |
| Users.ApplyPatch | src/convex/users.ts:49 | the patch sets the fields it names and keeps every other field |
| Users.EmptyPatchIsIdentity | src/convex/users.ts:45-49 | a patch that names no field leaves the record unchanged |
| Users.PatchIdempotent | src/convex/users.ts:49 | applying the same patch twice equals applying it once |
| Users.UserStore.Update | src/convex/users.ts:36-51 | no identity gives Unauthorized and changes nothing; the patch copies exactly the arguments supplied; only the caller's record changes, and no record is added or removed |
| Auth.OtpRequired | src/components/AuthModal.tsx:44 | definition of the post-login gate's test, given by cases: an unverified user always needs a code; a verified user needs one exactly when `otpEnabled` is true, so an absent flag counts as off |
| Auth.SignOutOnClose | src/components/AuthModal.tsx:72 | sign-out on close happens only on the OTP step with a user present, and only for a user the gate would hold for a code |
| Auth.AuthFailedIsNotDuplicate | src/components/AuthModal.tsx:107-110 | the fallback text "Authentication failed" mentions neither duplicate-registration phrase |
| Auth.SignInErrorText | src/components/AuthModal.tsx:105-114 | a message mentioning "already in use" or "already exists" becomes the sign-in hint; any other `Error` message is shown as is; a non-`Error` value gives "Authentication failed" |
| Auth.AuthModal.constructor | src/components/AuthModal.tsx:27-32 | the dialog starts in the sign-in flow on the credentials step, not loading, with no error, an empty code and the check flag down |
| Auth.AuthModal.SubmitCredentials | src/components/AuthModal.tsx:83-117 | `signIn` is called with the current flow; success raises the check flag in both flows and keeps loading; failure sets the rewritten message and stops loading |
| Auth.AuthModal.CheckUserStatus | src/components/AuthModal.tsx:38-66 | the gate acts only when authenticated, with a user and the flag raised, and lowers the flag; it issues an OTP exactly when the user is unverified or has OTP on, and otherwise closes and navigates; a failed issue keeps the credentials step and shows the send error |
| Auth.AuthModal.ResetOnClose | src/components/AuthModal.tsx:69-81 | while open nothing changes; on close, `signOut` is called exactly for an unverified user on the OTP step, and every field but the check flag is reset |
| Auth.AuthModal.SetOtpValue | src/components/AuthModal.tsx:241 | the code input replaces the code and nothing else |
| Auth.AuthModal.SubmitOtp | src/components/AuthModal.tsx:119-137 | a code whose length is not 6 changes nothing and calls nothing; otherwise `verifyOtp` gets the code, success closes and navigates, failure shows the OTP error, and loading ends either way |
| Auth.AuthModal.ToggleFlow | src/components/AuthModal.tsx:226-229 | the link switches between sign-in and sign-up and clears the error |
| Auth.AuthModal.BackToSignIn | src/components/AuthModal.tsx:280-283 | the back link returns to the credentials step and always calls `signOut` |
| Auth.GateRunsOncePerSubmit | src/components/AuthModal.tsx:38-66 | one submit followed by two runs of the gate, each seeing its own authentication state and user record, issues at most one OTP; it issues exactly one when sign-in succeeded and the first run that saw an authenticated user with a record found one who needs an OTP |
| Auth.FlowDoesNotChangeGate | src/components/AuthModal.tsx:94-103 | after a successful submit, the sign-in and sign-up flows lead to the same gate calls, step, error and loading state |
| Auth.CloseOnOtpStep | src/components/AuthModal.tsx:70-74 | closing on the OTP step signs out exactly the users without a verification time, and resets the dialog to its initial fields |
| Auth.ShortCodeIsIgnored | src/components/AuthModal.tsx:121 | a code of any length other than 6 never reaches `verifyOtp`; a 6-character code reaches it once |
| Profile.Split | src/components/ProfileModal.tsx:41 | `split(" ")` yields at least one piece, none containing a space, and joining the pieces with spaces gives back the input |
| Profile.SplitOfJoin | src/components/ProfileModal.tsx:41 | splitting the space-join of space-free pieces gives back the pieces, so split and join are inverse |
| Profile.FirstChars | src/components/ProfileModal.tsx:42-43 | taking each piece's first character gives at most one character per piece, exactly one when no piece is empty, and starts with the first piece's first character |
| Profile.FirstCharsOfSplit | src/components/ProfileModal.tsx:41-43 | the first characters of the pieces are exactly the characters that begin a word (empty pieces contribute nothing) |
| Profile.GetInitials | src/components/ProfileModal.tsx:38-51 | a truthy name gives the upper-cased word initials, at most two; otherwise a truthy email gives its first two characters upper-cased; otherwise "U" |
| Profile.BlankNameGivesNoInitials | src/components/ProfileModal.tsx:39-45 | a name of spaces only is truthy, so the avatar shows an empty text rather than the email's initials or "U" |
| Profile.SwitchChecked | src/components/ProfileModal.tsx:95 | definition of the switch's position, given by cases: the flag's value when it is set, on when it is absent |
| Profile.SwitchAndGateDisagreeOnlyWhenUnset | src/components/ProfileModal.tsx:95 | for a verified user, the switch's position and the login gate agree exactly when `otpEnabled` is set; an absent flag shows as on but lets the user in without a code |
| Profile.HandleOtpToggle | src/components/ProfileModal.tsx:29-36 | the switch sends only `otpEnabled`; for a signed-in user with a record, that record's flag takes the new value and nothing else changes; otherwise the update fails and nothing changes |
| Kanban.FilterVisibleCounts | src/components/kanban/Board.tsx:22-30 | the day filter keeps every copy of each visible task and nothing else: a done task shows on the day of its truthy `completedAt`, any other task only when the selected day is today |
| Kanban.WithStatusCounts | src/components/kanban/Board.tsx:48 | the status filter keeps every copy of each task with that status and nothing else |
| Kanban.ColumnsPartitionVisible | src/components/kanban/Board.tsx:106-122 | each visible task with a column status lands in exactly one column, that of its status, with all its copies; a task with any other status lands in none |
| Kanban.ColumnSizes | src/components/kanban/Board.tsx:116-122 | the four columns together hold as many tasks as the list, minus those whose status is no column id |
| Kanban.CountAfterReplace | src/components/kanban/Board.tsx:48 | replacing one task changes a status count by the task that leaves and the task that enters |
| Kanban.Visible | src/components/kanban/Board.tsx:23-29 | definition of the filter's test: a done task is visible exactly when its `completedAt` is truthy and falls on the selected day; any other task is visible exactly when the selected day is today |
| Kanban.DoneTaskShowsOnOneDay | src/components/kanban/Board.tsx:25-26 | a done task is visible on one day only, whatever the clock reads |
| Kanban.FilterVisible | src/components/kanban/Board.tsx:22-30 | every task the day filter keeps is visible on the selected day, and the kept tasks are at most the list |
| Kanban.WithStatus | src/components/kanban/Board.tsx:48 | the status filter keeps only tasks of the list with that status, is empty exactly when no task has it, and is no longer than the list |
| Kanban.InProgressCount | src/components/kanban/Board.tsx:48 | the count of tasks in progress is at most the list's length, and zero exactly when no task is in progress |
| Kanban.BoardColumns | src/components/kanban/Board.tsx:116-122 | there are four columns, one per column id, and each holds only visible tasks with that column's status |
| Kanban.FindTask | src/components/kanban/Board.tsx:39 | `find` returns the first task with the id, or none when no task has it |
| Kanban.MoveTask | src/components/kanban/Board.tsx:66-71 | a move sets the status, stamps `completedAt` with the current time only for done, and changes no other field |
| Kanban.BlockTask | src/components/kanban/Board.tsx:90-93 | after a confirmed block the task's status is blocked and its reason is the one given; putting back the old status and reason gives the original task, so no other field changes |
| Kanban.MovedToDoneStaysVisible | src/components/kanban/Board.tsx:22-30 | a task moved to done while today is selected stays on the board (given a non-zero clock) |
| Kanban.LeavingDoneKeepsStamp | src/components/kanban/Board.tsx:67-70 | moving a done task elsewhere keeps its old `completedAt`; a later move back to done overwrites it |
| Kanban.KanbanBoard.constructor | src/components/kanban/Board.tsx:16-19 | the board starts with no drag, the reason dialog closed and no pending task |
| Kanban.KanbanBoard.DragStart | src/components/kanban/Board.tsx:32-34 | a drag start records the task id and changes nothing else |
| Kanban.KanbanBoard.Drop | src/components/kanban/Board.tsx:36-84 | the outcome is exactly one of the source's branches (no drag, unknown task, same column, limit reached, awaiting a reason, moved, failed write); only a successful move changes the list; the drag ends past the lookup; at most two tasks stay in progress if at most two were |
| Kanban.KanbanBoard.ConfirmBlock | src/components/kanban/Board.tsx:86-104 | with no pending task nothing changes; otherwise a successful write blocks that task with the reason, the dialog closes and the pending id clears either way, and the in-progress count never grows |
| Kanban.KanbanBoard.SetBlockModalOpen | src/components/kanban/Board.tsx:129-133 | dismissing the reason dialog closes it but keeps the pending task |
| Kanban.DropKeepsLimit | src/components/kanban/Board.tsx:47-56 | from any list with at most two tasks in progress, a drag, a drop and a block confirmation leave at most two |
| NewTask.StripLeading | src/components/kanban/NewTaskModal.tsx:69 | `replace(/^P\s*/i, "")` returns the text unchanged unless it starts with `P` ignoring case; if it does, what it drops is at least `P` followed by white space only, and what remains does not start with white space; trimmed text stays trimmed |
| NewTask.StripLeadingContent | src/components/kanban/NewTaskModal.tsx:69 | the result is a suffix of the text; when the prefix matches, the text is exactly the matched `P`, then a run of white space, then the result |
| NewTask.StripNote | src/components/kanban/NewTaskModal.tsx:70 | the note removal never lengthens its input; a result that differs from the input does not end in white space; trimmed text stays trimmed |
| NewTask.StripNotePrefix | src/components/kanban/NewTaskModal.tsx:70 | the note removal yields a prefix of its input: it only ever cuts a tail |
| NewTask.StripNoteCutsLeftmostMatch | src/components/kanban/NewTaskModal.tsx:70 | when the note pattern `\s*-\s*Corrected for grammar and clarity\.?$` matches, the result is the text up to the leftmost index where the pattern matches, and the pattern matches at no earlier index |
| NewTask.StripNoteWithoutMatch | src/components/kanban/NewTaskModal.tsx:70 | when the note pattern does not match, the text is unchanged |
| NewTask.CleanUp | src/components/kanban/NewTaskModal.tsx:68-70 | the cleaned AI text is trimmed and no longer than the AI's answer |
| NewTask.CleanUpIsSliceOfTrim | src/components/kanban/NewTaskModal.tsx:68-70 | the cleaned AI text is one contiguous piece of the trimmed answer: the clean-up only cuts a head and a tail |
| NewTask.CleanUpOfPlainText | src/components/kanban/NewTaskModal.tsx:68-70 | when neither prefix nor the note matches, the clean-up is plain `trim` |
| NewTask.OneTagRemoved | src/components/kanban/NewTaskModal.tsx:69 | only one leading "(Improved)" is removed: of a doubled tag, the second stays |
| NewTask.AiErrorNotice | src/components/kanban/NewTaskModal.tsx:44-51 | an AI error whose message mentions "Missing API Key" is reported as missing configuration; any other is reported with its message |
| NewTask.NewTaskModal.constructor | src/components/kanban/NewTaskModal.tsx:28-31 | the dialog starts with an empty title and description and no loading |
| NewTask.NewTaskModal.SetTitle | src/components/kanban/NewTaskModal.tsx:129 | the title input replaces the title and nothing else |
| NewTask.NewTaskModal.SetDescription | src/components/kanban/NewTaskModal.tsx:165 | the description input replaces the description and nothing else |
| NewTask.NewTaskModal.AutoWrite | src/components/kanban/NewTaskModal.tsx:33-55 | a blank title calls nothing and changes nothing; otherwise the AI's text replaces the description as is, or the error is classified and the description kept; AI loading ends either way |
| NewTask.NewTaskModal.Improve | src/components/kanban/NewTaskModal.tsx:57-85 | a blank description calls nothing and changes nothing; otherwise the cleaned AI text replaces it, or the error is classified and the description kept; AI loading ends either way |
| NewTask.NewTaskModal.Submit | src/components/kanban/NewTaskModal.tsx:87-111 | a blank title or no user sends nothing and changes nothing; otherwise the untrimmed title and description go out as a `todo` task of the user with both clock stamps; success clears the fields and asks to close, failure keeps them; loading ends either way |

## Left out

- The server side of OTP (issuing, storing, expiring and checking codes) is not
  part of this model. `generateOtp` and `verifyOtp` are oracles whose success is
  a parameter.
- The AI client (`src/lib/ai.ts`, `src/convex/ai.ts`) is not part of this model.
  Its answer or error message is a parameter.
- The auth provider configuration, the `Auth` page, the column component and the
  type declarations are not part of this model. The reason dialog of the board
  (`BlockTaskModal`) is not part of this model either; the reason it confirms is
  a parameter.
- Toasts, `console` logging, navigation and rendering are left out. Navigation
  is recorded only as the `CloseAndNavigate` entry of the call log. The toast a
  handler would show is returned as a `Notice`.
- Asynchronous interleaving is left out. Each handler and effect runs as one
  atomic step. React's batching of state updates and effects re-running on
  dependency changes are not modelled; the caller decides when the gate and the
  reset effect run.
- The dialog's `open` prop and the auth provider's `isAuthenticated` and `user`
  are parameters of the methods that read them.
- Days are counted in UTC (`DayOf` divides milliseconds by 86 400 000).
  `isSameDay` works in the local time zone, so time-zone offsets and daylight
  saving changes are not modelled.
- Strings are sequences of code points, not UTF-16 code units. `n[0]` on a
  surrogate pair and `substring(0, 2)` across one are not modelled.
- Case mapping is ASCII only. For the clean-up's case-insensitive patterns
  (ASCII, no `u` flag) this is exact. For `toUpperCase` on initials outside
  ASCII it is not modelled.
- `NaN` and non-integer timestamps are not modelled; timestamps are integers.
- A thrown AI error without a `message` is not modelled. In the source it would
  throw again inside the `catch` block.
- The task documents are the list the board receives. A successful `updateDoc`
  patches the task with that id in place. The list's ids are assumed distinct,
  as store document ids are.
- Kanban.KanbanBoard.Drop: requires the target to be one of the four column ids,
  as the drop handlers of the columns supply.
- Users.UserStore.Update: a `patch` of a missing record is taken to fail with
  DocumentNotFound, since the store's behaviour is not part of this model.
- Profile.HandleOtpToggle: the switch is rendered `disabled`, so in the running
  interface this handler cannot fire. It is modelled as written; the update's
  own outcome is returned rather than shown as a toast.

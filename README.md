# Chat prototype screens: a verified model

A model of the three screens of the mobile chat prototype that hold logic:

- **Conversation** (`app/chat.tsx`). The screen keeps an ordered message log seeded with six mock messages, a draft and a typing flag. Sending a non-blank draft appends one self-authored message (the trimmed draft, status `sent`), clears the draft, raises the typing flag and schedules a reply. When the reply fires it lowers the flag and appends the fixed peer answer "Thanks for your message! 👍" with status `read`. Each message's footer shows a delivery tick chosen from its status. The send button is enabled only when the draft is not blank.
- **Sign-up** (`app/signup.tsx`). Submitting runs four checks in order: all five fields filled, passwords equal, password at least 6 characters, terms accepted. The first failing check picks the error dialog. If every check passes, loading starts, and the simulated request always ends in success. The screen also has three toggles.
- **Login** (`app/login.tsx`). Submitting checks only that the e-mail and password are not empty, then the same loading/success cycle runs. The screen also has a password-visibility toggle and a fixed forgot-password dialog.

Layout of the Dafny project:

- `base.dfy`: `Option` and the `Alert` dialog value.
- `text.dfy`: `trim`, over a whitespace predicate.
- `chat.dfy`: the conversation engine. It has a specification as a value, `ChatState`, with one step function per event and traces of events (`Run`), plus the `ChatScreen` class. Each `ChatScreen` method is proved to move its state exactly as the matching step function does.
- `signup.dfy` and `login.dfy`: the validators as pure functions, plus each screen as a class with its loading state machine and its toggles.

Every timer firing is an explicit event. For a conversation that is `ChatScreen.DeliverReply`. For the two forms it is `CompleteSignUp` and `CompleteLogin`. `ChatScreen` keeps a ghost count of scheduled replies, `pendingReplies`. `SendMessage` increments it. `DeliverReply` requires it to be positive and decrements it. The screen itself keeps no such count. Message ids (`Date.now()`) and timestamps (`toLocaleTimeString`) come from the clock and the locale, so the caller passes them in as parameters.

The model follows the code in these respects:

- Each send schedules its own reply, and nothing limits how many are outstanding at once.
- The typing flag is a single boolean, not a count. The first reply to fire lowers it even while another reply is still scheduled; `Chat.TypingClearedWhileReplyPending` proves this.
- Message ids are not claimed unique.
- No message's status ever advances after it is sent.

## Model

| member | source | states |
|---|---|---|
| Base.ErrorAlert | app/signup.tsx:36 | an error dialog is titled "Error", carries the given text and has no navigation on OK |
| Base.SuccessAlert | app/signup.tsx:60-62 | a success dialog is titled "Success", carries the given text and its OK button opens the tabs route |
| Text.TrimStart | app/chat.tsx:94 | the result is no longer than the input and does not start with whitespace |
| Text.TrimStartSuffix | app/chat.tsx:94 | the result of TrimStart is a suffix of the input, and everything it drops is whitespace |
| Text.TrimEnd | app/chat.tsx:94 | the result is no longer than the input and does not end with whitespace |
| Text.TrimEndPrefix | app/chat.tsx:94 | the result of TrimEnd is a prefix of the input, and everything it drops is whitespace |
| Text.Trim | app/chat.tsx:94-98 | the result has no leading or trailing whitespace, and it is empty iff the input is all whitespace |
| Text.TrimIsCut | app/chat.tsx:98 | the trimmed text is a slice of the input, with only whitespace outside that slice |
| Text.TrimTrimmed | app/chat.tsx:98 | a string with no outer whitespace is its own trim |
| Text.TrimIdempotent | app/chat.tsx:94-98 | trimming twice is trimming once |
| Chat.AllWellFormedIff | app/chat.tsx:94-98 | the log invariant, stated one append at a time, holds iff every message in the log is well formed |
| Chat.MockMessages | app/chat.tsx:26-69 | six seeded messages alternating peer/self, all `read` except the last, which is `delivered` |
| Chat.Initial | app/chat.tsx:76-78 | the opening state is the seeded log, an empty draft, the typing flag down and no reply scheduled; it satisfies the invariant (every message's text non-empty, trimmed and at most 500 characters) |
| Chat.OwnMessage | app/chat.tsx:96-102 | the sent message is self-authored, `sent`, with the caller's id and timestamp and the trimmed draft as text; from a non-blank draft of at most 500 characters it is well formed |
| Chat.ReplyMessage | app/chat.tsx:117-123 | the answer is from the peer, already `read`, with the fixed answer text, and always well formed |
| Chat.SendEnabled | app/chat.tsx:266 | the send button is enabled iff the draft holds a non-whitespace character |
| Chat.ChatScreen.CanSend | app/chat.tsx:266 | the screen's send button is enabled iff its draft is not blank |
| Chat.EditStep | app/chat.tsx:253-256 | typing replaces the draft and changes nothing else |
| Chat.SendStep | app/chat.tsx:93-113 | a blank draft leaves the whole state unchanged; otherwise exactly one message is appended at the tail with the trimmed draft as text, self-authored, status `sent`, and earlier messages unchanged; the draft becomes empty, the typing flag goes up and one more reply is scheduled |
| Chat.ReplyStep | app/chat.tsx:114-124 | a reply appends exactly one peer message with status `read` and the fixed answer text; earlier messages unchanged; the typing flag goes down, the draft is untouched, one scheduled reply is consumed |
| Chat.StepsPreserveValid | app/chat.tsx:93-124 | edits, sends and replies keep every logged message non-empty, trimmed and within 500 characters, and the typing flag up only while a reply is scheduled |
| Chat.Apply | app/chat.tsx:254-256 | one event has no successor exactly when it types past the 500-character field limit or delivers a reply with none scheduled (the reply callback exists only after a send, lines 114-124); otherwise the old log is a prefix of the new one |
| Chat.RunConcat | app/chat.tsx:93-128 | running two event traces in sequence equals running their concatenation |
| Chat.RunAppendOnly | app/chat.tsx:104-124 | after any trace of events the earlier log is a prefix of the later log and the invariant still holds |
| Chat.TurnsAppend | app/chat.tsx:93-113 | k non-blank type-and-send turns append k messages, schedule k replies, and leave the draft empty and the typing flag up |
| Chat.RepliesAppend | app/chat.tsx:114-124 | k reply events, with k scheduled, append k messages, consume k scheduled replies and leave the typing flag down |
| Chat.SendsThenReplies | app/chat.tsx:93-128 | k non-blank sends followed by k replies grow the log by exactly 2k and end with the typing flag down, the draft empty and no extra reply scheduled |
| Chat.TypingClearedWhileReplyPending | app/chat.tsx:113-115 | after two sends and one reply, the typing flag is down although one reply is still scheduled |
| Chat.StatusTick | app/chat.tsx:156-164 | peer messages get no tick; self messages get a double tick iff `read` or `delivered` (single tick for `sent`), and the green colour #4CAF50 iff `read` |
| Chat.TickMonotone | app/chat.tsx:156-164 | advancing a self message's status along sent, delivered, read never removes the double tick or the green colour |
| Chat.ChatScreen.constructor | app/chat.tsx:76-78 | a new screen is in the opening state and satisfies the invariant |
| Chat.ChatScreen.ChangeText | app/chat.tsx:253-256 | the draft becomes the typed text (at most 500 characters), nothing else changes |
| Chat.ChatScreen.SendMessage | app/chat.tsx:93-113 | the screen's state moves exactly as the send step says; the invariant is kept; the old log is a prefix of the new one |
| Chat.ChatScreen.DeliverReply | app/chat.tsx:114-124 | with a reply scheduled, the screen's state moves exactly as the reply step says; the invariant is kept; the old log is a prefix of the new one |
| SignUp.ErrorMessage | app/signup.tsx:35-53 | every check's dialog text is non-empty, and the length check's text names the minimum length, 6 |
| SignUp.ErrorMessageIdentifiesCheck | app/signup.tsx:35-53 | no two checks share a dialog text, so the dialog tells which check failed |
| SignUp.ValidateSignUp | app/signup.tsx:35-53 | no error iff no rule is broken; otherwise the error is a broken rule, and no broken rule comes earlier in the chain (fields filled, passwords equal, length at least 6, terms accepted) |
| SignUp.MismatchBeforeLength | app/signup.tsx:40-48 | with all fields filled, unequal passwords report "Passwords do not match", whatever the password's length |
| SignUp.SignUpSucceeded | app/signup.tsx:58-63 | the completion dialog is "Success" / "Account created successfully!" and its OK button opens the tabs |
| SignUp.SignUpScreen.constructor | app/signup.tsx:24-32 | all five fields empty, every toggle off, not loading |
| SignUp.SignUpScreen.Edit | app/signup.tsx:105-186 | editing a field replaces that field only |
| SignUp.SignUpScreen.HandleSignUp | app/signup.tsx:34-56 | with the button enabled (not loading): a failing check yields its error dialog and leaves loading off; passing every check yields no dialog and starts loading |
| SignUp.SignUpScreen.CompleteSignUp | app/signup.tsx:58-63 | the timer event ends loading and reports success unconditionally |
| SignUp.SignUpScreen.ToggleShowPassword | app/signup.tsx:164 | flips the password visibility |
| SignUp.SignUpScreen.ToggleShowConfirmPassword | app/signup.tsx:188 | flips the confirmation visibility |
| SignUp.SignUpScreen.ToggleAcceptTerms | app/signup.tsx:201 | flips the terms acceptance |
| SignUp.TogglesTwiceRestore | app/signup.tsx:164-201 | pressing each toggle twice restores every toggle and the form, and touches nothing else of the screen |
| SignUp.SignUpRoundTrip | app/signup.tsx:34-63 | a valid form submits without a dialog, and the completion reports success and ends loading |
| Login.ErrorMessage | app/login.tsx:30 | the missing-credentials dialog text is "Please fill in all fields" |
| Login.ValidateLogin | app/login.tsx:29-32 | no error iff both e-mail and password are non-empty; there is no other rule |
| Login.LoginSucceeded | app/login.tsx:37-41 | the completion dialog is "Success" / "Login successful!" and its OK button opens the tabs |
| Login.ForgotPasswordNotice | app/login.tsx:45-47 | the forgot-password dialog is a fixed notice with no navigation |
| Login.LoginScreen.constructor | app/login.tsx:23-26 | both fields empty, password hidden, not loading |
| Login.LoginScreen.SetEmail | app/login.tsx:91-92 | the e-mail field becomes the typed text |
| Login.LoginScreen.SetPassword | app/login.tsx:109-110 | the password field becomes the typed text |
| Login.LoginScreen.HandleLogin | app/login.tsx:28-34 | with the button enabled (not loading): an error dialog iff the presence check fails, and then it carries that check's text and loading stays off; otherwise loading starts |
| Login.LoginScreen.CompleteLogin | app/login.tsx:37-42 | the timer event ends loading and reports "Login successful!" unconditionally |
| Login.LoginScreen.ToggleShowPassword | app/login.tsx:114 | flips the password visibility |
| Login.ToggleTwiceRestores | app/login.tsx:114 | pressing the toggle twice restores it |
| Login.LoginRoundTrip | app/login.tsx:28-42 | any two non-empty fields submit without a dialog, and the completion reports success and ends loading |

`HandleSignUp` and `HandleLogin` require that the screen is not loading. The button that calls them is disabled while loading (app/signup.tsx:224, app/login.tsx:138). `CompleteSignUp` and `CompleteLogin` require loading: their timer is scheduled only when loading starts, and the disabled button stops a second one from being scheduled.

## Left out

- All rendering and styling (JSX, `StyleSheet`), and the welcome and chat-list screens: layout only.
- The theme colour table and `useColorScheme`: constant data and a hook. The faded tick colour is the named value `FadedSurface`.
- Route parameters (contact name, avatar, online flag): read-only display data from the router.
- Scroll-to-end calls after mounting, sending and replying: view effects.
- Timer durations (100, 1500 and 2000 ms). Each firing is an explicit event, and any order of events the screen can produce is allowed.
- Timers firing after a screen is closed: the model's screens are never torn down.
- `Date.now()` ids and `toLocaleTimeString` timestamps: clock and locale calls. They are method parameters.
- `Alert.alert` and `router.push`/`router.back`: the dialog is returned as an `Alert` value, and the OK button's target route is a field of that value.
- The 500-character `maxLength` of the draft field, which the text widget enforces: it is a precondition of `ChangeText`, and the invariant carries it.
- SignUp.ValidateSignUp: compares the password length in Unicode code points, whereas JavaScript's `length` counts UTF-16 code units. The two differ only for characters outside the Basic Multilingual Plane.

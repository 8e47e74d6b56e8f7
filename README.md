# CTF terminal: a Dafny model of its session core

The CTF terminal is a single browser script, `script.js`, that turns a web page into a
command-line front end for a capture-the-flag backend. Underneath the DOM rendering and the
`fetch` calls sits a small sequential core, and this project models it:

- **The command-history buffer** (`History.CommandHistory`). It holds `commandHistory` and
  `historyIndex`. A typed line is recorded only when it is non-blank and differs from the last
  entry. The arrow keys move the recall cursor. The last twenty entries are persisted. When the page
  loads, they are restored only after the stored token re-authenticates (`script.js:83-102`).
- **Duration formatting** (`Duration`). `formatDuration` splits milliseconds into hours,
  minutes and seconds and pads each to two digits. The leaderboard's time cell pads a
  server-sent reading the same way, or shows "N/A".
- **Command classification** (`Commands.Classify`). The command name is the lower-cased first
  space-separated token of the trimmed line. It selects one of twelve handlers, the no-op for
  a blank line, or the "Command not found" reply.
- **The input router and session state machine** (`Terminal.Terminal`). The class holds the
  script's globals: `token`, `isLoggedIn`, `currentUser`, `userProgress`, the single
  pending-prompt slot (`awaitingInput`, `inputCallback`) and the history buffer. The two
  local-storage slots are a `Storage.LocalStorage` object. Each key press is one method:
  - one press of Enter is one atomic step;
  - a step that talks to the server returns the request it issues;
  - it receives the server's reply as an abstract outcome `Reply<T>`: `Ok(body)`, `Refused(message)` or `Thrown(error)`.

The JavaScript string operations the core relies on are written out in `Text`: `trim` with
ECMAScript's white-space set, `split` on one character, ASCII lower-casing, `String(n)` and
`padStart`. Output is modelled as a sequence of abstract `Line` values, one per `addOutput`
call; the leaderboard table, which the script appends to the output directly
(`script.js:464`), is one `Table` line. A line that shows an elapsed time carries its milliseconds, which `Duration.FormatDuration`
renders. The "task open" flag `currentQuestionStartTime != null` is a boolean.

A fresh `login` sets the token and the user but leaves `userProgress` null. In that state,
`task` and `hint` write through the null reference inside their `try`, and the `catch`
reports the resulting exception. The model keeps this behaviour as the fault `NullProgress`.
`submit` refuses in that state before prompting.

The recall cursor starts at -1 (`script.js:50`), so its range is [-1, length].

Each command and each prompt continuation is also given as a pure step on the four session
globals: `Terminal.Outcome` is the `switch` of `handleCommand` and `Terminal.Resume` the
continuation held in `inputCallback`. Each gives an `Effect`: the session it leaves, whether
the output is emptied, the lines it appends, the prompt it leaves pending, the request it
issues and its write to local storage. The methods of `Terminal.Terminal` are proved to apply
exactly that effect, and the lemmas about the steps state what the script promises of them.

## Model

| member | source | states |
|---|---|---|
| Text.LeadingSpaces | script.js:507 | the count of leading white-space characters: all of them are white space and the next character, if any, is not |
| Text.TrailingSpaces | script.js:507 | the count of trailing white-space characters: all of them are white space and the character before them, if any, is not |
| Text.Trim | script.js:507 | `trim` is the slice between the leading and the trailing white-space runs; neither end of the result is white space; it is empty exactly when the line is all white space |
| Text.CutSpaces | script.js:507 | between a maximal leading and a maximal trailing white-space run, the middle is non-empty and starts and ends with a non-space, unless the line is all white space |
| Text.TrimIdempotent | script.js:512 | trimming an already trimmed line changes nothing |
| Text.SplitOn | script.js:507 | `split` gives at least one part, no part contains the separator, and joining the parts with the separator gives the input back |
| Text.SplitOnPrefix | script.js:507 | a separator-free prefix ends up at the head of the first part |
| Text.SplitOnJoin | script.js:507 | splitting inverts joining when no part contains the separator |
| Text.SplitThree | script.js:497 | three separator-free fields joined by the separator split back into exactly those three fields |
| Text.ToLower | script.js:519 | `toLowerCase` keeps the length, leaves no upper-case ASCII letter, and maps each upper-case letter to its lower-case partner and every other character to itself |
| Text.FirstToken | script.js:507 | the first token is the longest space-free prefix; it ends at the end of the line or right before a space |
| Text.NatToDecimal | script.js:497 | `String(n)` is at least one digit, has no leading zero, and denotes `n` |
| Text.Repeat | script.js:497 | `k` copies of the fill character |
| Text.PadStart | script.js:497 | `padStart` keeps the text whole at the end, reaches the requested width, and fills the front with the fill character |
| Text.LeadingZeros | script.js:497 | leading zeros leave a numeral all digits and do not change its value |
| Duration.Split | script.js:494-496 | minutes and seconds are below 60, and the reading accounts for the input to within one second below it |
| Duration.SplitSound | script.js:494-496 | the three divisions give minutes and seconds below 60 and account for the milliseconds to within one second below |
| Duration.SplitMillis | script.js:494-496 | a well-formed reading is exactly what the divisions recover from its milliseconds |
| Duration.Pad2 | script.js:497 | a padded field is at least two digits, contains no ':', and denotes its number |
| Duration.FormatClock | script.js:497 | splitting a formatted clock on ':' gives exactly its three padded fields, in order |
| Duration.FormatDuration | script.js:493-498 | `formatDuration(ms)` parses back to a reading with minutes and seconds below 60 that accounts for `ms` to within a second below it |
| Duration.ClockNotNA | script.js:441-445 | no formatted clock is the text "N/A" |
| Duration.LeaderboardTime | script.js:441-445 | the cell is "N/A" exactly when the reading is absent, and a present reading parses back from its cell |
| Duration.ClockRoundTrip | script.js:497 | parsing a formatted clock gives the same reading back |
| Duration.FormatDurationPadded | script.js:497 | each of the three fields of `formatDuration(ms)` is at least two characters wide |
| Duration.PadDigit | script.js:497 | a single digit is padded with exactly one leading zero |
| Duration.FormatDurationExample | script.js:493-498 | 3723000 ms formats as "01:02:03" |
| Duration.LeaderboardMatchesDuration | script.js:441-445 | the time cell of a well-formed reading equals `formatDuration` of its milliseconds, and "N/A" is never a formatted duration |
| Commands.CommandName | script.js:507-519 | the command name is empty exactly when the line is blank; it holds no space and no upper-case ASCII letter |
| Commands.Classify | script.js:507-568 | Blank exactly when the line trims to nothing; a handler exactly when the lower-cased first token is a dispatched name, and that handler's name equals it; otherwise Unknown, carrying the non-empty first token as typed |
| Commands.HelpTableNames | script.js:8-20 | the help table lists exactly the dispatched names except "about" and the blank one |
| Commands.ClassifyIgnoresArguments | script.js:507 | a line's command name is its first word lower-cased, whatever follows the first space |
| Storage.Encode | script.js:517 | the stored text is a JSON array with one string per entry, in order |
| Storage.NonEmptyStrings | script.js:96 | the filter keeps exactly the non-empty strings of the parsed array and nothing longer than it |
| Storage.NonEmptyStringsOne | script.js:96 | a single item is kept exactly when it is a non-empty string |
| Storage.NonEmptyStringsAppend | script.js:96 | filtering two arrays joined is filtering each and joining the results, so the kept strings stay in order |
| Storage.Decode | script.js:92-98 | the restore succeeds exactly when the slot holds a JSON array, and every restored entry is non-empty |
| Storage.NonEmptyStringsKeep | script.js:96 | the filter keeps an array of non-empty strings unchanged |
| Storage.DecodeEncode | script.js:517 | decoding the stored text of a history of non-empty commands gives that history back |
| Storage.LocalStorage.constructor | script.js:57-58 | the two storage slots, "token" and "cmd-history", start with the given contents |
| History.ShouldRecord | script.js:512 | a line is recorded exactly when it is not all white space and the history is empty or its last entry differs |
| History.LastN | script.js:517 | `slice(-20)` holds the last min(20, length) entries, in order |
| History.LastNPush | script.js:512-517 | with a full window, recording one more entry drops the oldest persisted entry and appends the new one; below the limit nothing is dropped |
| History.RecordTwice | script.js:512-515 | the same line entered twice in a row is recorded once |
| History.CommandHistory.constructor | script.js:49-50 | the history starts empty with the cursor at -1 |
| History.CommandHistory.Record | script.js:512-516 | the line is appended exactly when it is non-blank and differs from the last entry as typed; the cursor is then the length; the cursor invariant holds |
| History.CommandHistory.Persisted | script.js:517 | the persisted window is the last twenty entries, all non-empty |
| History.CommandHistory.Up | script.js:573-578 | the cursor moves back and recalls an in-bounds entry only when history is non-empty and the cursor is above 0; otherwise nothing changes |
| History.CommandHistory.Down | script.js:579-587 | the cursor moves forward and recalls an in-bounds entry while one is left; otherwise it parks at the length and the line is cleared |
| History.CommandHistory.Restore | script.js:96-97 | the restored entries replace the history and the cursor parks at the end |
| Terminal.TaskScreen | script.js:234-269 | the task output has the null-progress failure exactly when a successful reply meets a null `userProgress`, and then that failure is the last line |
| Terminal.HintScreen | script.js:288-315 | the hint output has the null-progress fault exactly when the reply makes the script write the task flag through a null `userProgress`, and then that fault is the last line |
| Terminal.HintFlag | script.js:289-311 | the task is opened exactly on a successful reply without `completed`, whether or not it carries hint text or hints remain; it is closed exactly on a `completed` reply or the exact "not currently solving" refusal; an exception writes nothing |
| Terminal.HelpListsTable | script.js:152-159 | `help` shows a header, one entry per row of the commands table in order, and a closing rule |
| Terminal.QuestionParts | script.js:242-263 | a question shows its header first; the story, the question and the download link each exactly when non-empty; the congratulations exactly for the final story, ending with the total time |
| Terminal.QuestionDoesNotEcho | script.js:242-263 | nothing a question shows is an echo |
| Terminal.FlagVerdictShown | script.js:354-369 | "correct" exactly on success; the next-task pointer exactly when neither completed nor last; the final-story pointer exactly on the last flag |
| Terminal.LoginOutcomeShown | script.js:187-211 | a login attempt shows "validating" first and "authenticated" exactly on success |
| Terminal.ProgressShown | script.js:389-399 | on success `progress` shows exactly the current level, the time spent and the hints available, in that order; otherwise one error line |
| Terminal.LeaderboardShown | script.js:412-471 | the title comes first exactly on success; "no participants" exactly for an empty board; a table exactly for a non-empty board, holding its rows |
| Terminal.ProfileShown | script.js:487-490 | `whoami` shows the four profile fields and nothing else |
| Terminal.TaskAndHintDoNotEcho | script.js:226-314 | neither the `task` nor the `hint` output holds an echo |
| Terminal.StandingRows | script.js:440-457 | one row per standing, and each time cell is the padded clock or "N/A" |
| Terminal.OfflineLines | script.js:519-568 | the output of the commands that need no server: a blank line shows nothing and is the only one that shows nothing, an unknown name shows "Command not found" with that name and the help hint, and none of it is an echo |
| Terminal.Outcome | script.js:519-568 | every command leaves the session coherent (logged in exactly with a token, signed out with no user and no progress), and a prompt it leaves pending finds the session ready for it |
| Terminal.Resume | script.js:172-181 | every prompt continuation leaves the session coherent, and a prompt it leaves pending finds the session ready for it |
| Terminal.OnlyExitSignsOut | script.js:550-558 | among the `switch` cases, only a logged-in `exit` changes the token, the login flag or the user, and only it writes to local storage; only it and `clear` empty the output. The prompt continuations are covered by `Terminal.ResumeWrites`, and the history write before the `switch` by `Terminal.Terminal.Remember` |
| Terminal.ProgressWriters | script.js:519-568 | among the `switch` cases, only `task`, `hint`, `progress` and `exit` change `userProgress`; the flag continuation is covered by `Terminal.ResumeWrites` |
| Terminal.ResumeWrites | script.js:186-211 | among the prompt continuations, only a successful password step changes the token, the login flag or the user, or writes to local storage; only a correct non-blank flag changes `userProgress` (it closes the task, `script.js:356`) |
| Terminal.OnlyLoginAndSubmitPrompt | script.js:161-175 | `login` prompts for the email exactly when signed out, `submit` prompts for the flag exactly when a task is open, and no other command prompts |
| Terminal.RequestsIssued | script.js:519-568 | `leaderboard` always fetches; `task`, `hint` and `progress` fetch exactly when logged in, with the session token as bearer; nothing else issues a request |
| Terminal.OfflineKeepsSession | script.js:519-568 | the commands that need no server leave the session, the prompt slot and storage alone and issue no request; only `clear` empties the output |
| Terminal.OutcomeDoesNotEcho | script.js:519-568 | no command's own output holds an echo |
| Terminal.ResumeDoesNotEcho | script.js:172-181 | a line given to a pending prompt is never echoed |
| Terminal.LoginThenTask | script.js:186-241 | right after a fresh login `userProgress` is null, so a successful `task` reply ends in the null-progress failure |
| Terminal.SolveRound | script.js:218-370 | `progress`, then a question from `task`, opens the task; `submit` then prompts; a correct non-blank flag is posted trimmed with the session token and closes the task, so a second `submit` is refused |
| Terminal.ReloadRestoresWindow | script.js:91-98 | a reload restores the persisted window of the last twenty entries, whole and in order |
| Terminal.Terminal.constructor | script.js:41-50 | the globals start signed out, with no pending prompt, an empty history and the cursor at -1 |
| Terminal.Terminal.Logout | script.js:52-59 | the session is cleared and both storage slots are removed; the in-memory history and cursor are unchanged |
| Terminal.Terminal.WaitForInput | script.js:141-145 | the prompt slot is armed with the new continuation, replacing any earlier one |
| Terminal.Terminal.SetTaskOpen | script.js:239 | the task flag is written, or the write throws exactly when `userProgress` is null and nothing changes |
| Terminal.Terminal.Startup | script.js:68-122 | with a stored token: success authenticates and restores the stored history; a refusal logs out; an exception leaves the session and storage as they were; without a token the page logs out |
| Terminal.Terminal.Type | script.js:589 | the input field holds what the user typed |
| Terminal.Terminal.KeyUp | script.js:573-578 | ArrowUp recalls the previous entry into the input field only when there is one before the cursor |
| Terminal.Terminal.KeyDown | script.js:579-587 | ArrowDown recalls the next entry, or parks the cursor past the end and clears the field |
| Terminal.Terminal.KeyEnter | script.js:588-599 | Enter clears the field; a pending prompt gets the line with no echo and no history change, and the terminal ends exactly as `Resume` says; otherwise the line is recorded as `handleCommand` does and the terminal ends exactly as `Outcome` of its command says, after the echo |
| Terminal.Terminal.Deliver | script.js:172-181 | the session, prompt slot, request, storage and output end exactly as `Resume` of the pending prompt says |
| Terminal.Terminal.FinishLogin | script.js:186-215 | the credentials are posted; success stores and sets the token and user but leaves `userProgress` null; a failure changes nothing but the output |
| Terminal.Terminal.FinishSubmit | script.js:335-349 | a blank flag is refused with no request; otherwise the trimmed flag is posted |
| Terminal.Terminal.CheckFlag | script.js:340-370 | the flag is posted with the session token; a correct flag closes the task; the output follows the verdict |
| Terminal.Terminal.HandleCommand | script.js:506-569 | the line is echoed and recorded, the last twenty entries of the new history are persisted, and then the session, prompt slot, request, storage and output end exactly as `Outcome` of the classified command says |
| Terminal.Terminal.Remember | script.js:509-517 | the echo, the history record and the persisted window, in that order; the session and the stored token are untouched |
| Terminal.Terminal.Dispatch | script.js:519-568 | the session, prompt slot, request, storage and output end exactly as `Outcome` of the command says |
| Terminal.Terminal.ShowOffline | script.js:519-568 | `help`, `whoami`, `banner`, `about`, a blank line and an unknown name only append their output; `clear` empties the screen |
| Terminal.Terminal.RunOnline | script.js:523-558 | for the commands that reach the server, prompt or log out, the terminal ends exactly as `Outcome` of the command says |
| Terminal.Terminal.HandleLogin | script.js:161-175 | when logged in the login is refused; otherwise the email prompt is armed |
| Terminal.Terminal.StartChallenge | script.js:218-274 | signed out, nothing is fetched; otherwise the question is fetched, a question opens the task, a "completed" reply closes it, and a null `userProgress` is left null |
| Terminal.Terminal.GetHint | script.js:276-316 | signed out, nothing is fetched; otherwise the hint reply opens or closes the task as the script does, and the "not currently solving" refusal closes it |
| Terminal.Terminal.SubmitCommand | script.js:318-333 | refused without a prompt when signed out or `userProgress` is null, refused when no task is open, otherwise the flag prompt is armed |
| Terminal.Terminal.GetProgress | script.js:375-403 | signed out, nothing is fetched; otherwise a successful reply replaces `userProgress` and shows level, time and hints |
| Terminal.Terminal.ShowLeaderboard | script.js:405-476 | the leaderboard is fetched without login; an empty board says so instead of drawing a table |
| Terminal.Terminal.Whoami | script.js:478-491 | the cached profile is shown when logged in, otherwise a refusal |
| Terminal.Terminal.ExitCommand | script.js:550-558 | logged in: log out and leave only the "logged out" line; otherwise report "Not logged in." and change nothing else |

## Left out

- DOM rendering is not modelled. This covers `addOutput`'s HTML, `innerHTML`, scrolling, the leaderboard table markup, the click-to-focus handler, the prompt labels and the `input.type` password masking. Each `addOutput` call is one abstract `Line`.
- `fetch`, `response.json()`, `JSON.parse` and the browser's local storage are foreign APIs. Server replies are abstract `Reply` outcomes. The HTTP status (`response.ok`) is folded into `Refused`. A success body is assumed to be well-formed.
- JSON text is abstract. A storage slot holds a parsed document or unparsable text. The `length >= 2` guard of the restore is not modelled separately, because every JSON array text already passes it.
- `async`/`await` and `input.disabled` are not modelled. Each key press is one atomic step, so no line can arrive while a request is in flight. `getHint` never disables the input; the model does not capture that difference.
- `Date`, ISO timestamps and the unused `calculateTimeDiff` are left out. `currentQuestionStartTime` is a boolean "task open" flag.
- Duration.FormatDuration: the input is a `nat` number of milliseconds. JavaScript floats, negative durations and the sign of `%` on negative operands are not modelled.
- Terminal.StandingRows: the server's `timeTakenFormatted` fields are `nat`, and an absent object stands for every falsy value.
- Text.ToLower maps only the ASCII letters. JavaScript's full Unicode `toLowerCase` also maps a few other characters onto ASCII letters, such as the Kelvin sign onto 'k'.
- Exceptions other than a network failure and the write through a null `userProgress` are not modelled. An example is a server body missing a field.
- Interpolating server strings into HTML is not modelled.

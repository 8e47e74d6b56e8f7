/**
 * The terminal's session state machine and input router. The class holds the script's
 * globals (`token`, `isLoggedIn`, `currentUser`, `userProgress`, `awaitingInput`,
 * `inputCallback`, the history buffer), the input line and the rendered output. Each
 * press of Enter is one atomic step; a step that talks to the server issues at most one
 * request, returns it, and takes the server's reply as a parameter.
 */
module Terminal {
  import opened Wrappers
  import opened Text
  import opened Duration
  import opened Commands
  import opened Storage
  import opened History

  datatype User = User(id: string, name: string, emailID: string, branch: string, year: string)

  /** The `CTFProgress` record; `taskOpen` stands for `currentQuestionStartTime != null`. */
  datatype CtfProgress = CtfProgress(currLevel: int, totalTimeTaken: nat, availableHints: int,
                               hintsUsed: seq<int>, taskOpen: bool)

  /** The four session globals. */
  datatype SessionState = SessionState(token: Option<string>, isLoggedIn: bool,
                                       currentUser: Option<User>, userProgress: Option<CtfProgress>)

  /** What `logout` leaves behind. */
  const SignedOut := SessionState(None, false, None, None)

  /** The continuation waiting in `inputCallback`. */
  datatype Prompt = EmailPrompt | PasswordPrompt(email: string) | FlagPrompt

  /**
   * The outcome of one exchange with the server: a successful body, a reply the script
   * treats as a failure (shown with its `message`), or an exception from `fetch` or
   * `response.json()` (shown with the error's message).
   */
  datatype Reply<T> = Ok(body: T) | Refused(message: string) | Thrown(error: string)

  datatype Details = Details(user: User, progress: CtfProgress)
  datatype Credentials = Credentials(token: string, user: User)
  datatype Question =
    | Finished(message: string, totalLevels: int, totalTimeTaken: nat)
    | Level(level: int, story: string, question: string, link: string, isFinalStory: bool,
            totalTimeTaken: nat)
  /**
   * A successful `hint` reply: `completed` set (the task is over), or not set, with the
   * hint text (possibly empty) and the number of hints left.
   */
  datatype HintReply =
    | HintCompleted(message: string)
    | HintPending(message: string, hint: string, availableHints: int)
  datatype Verdict = Verdict(completed: bool, isLastFlag: bool)
  datatype Standing = Standing(rank: int, name: string, department: string, year: string,
                               levelsCompleted: int, time: Option<Clock>)

  /** The reply each endpoint would give to the request a step issues. */
  datatype Server = Server(details: Reply<Details>, login: Reply<Credentials>,
                           question: Reply<Question>, hint: Reply<HintReply>,
                           flag: Reply<Verdict>, leaderboard: Reply<seq<Standing>>)

  /** The requests the script sends; `bearer` is the token in the Authorization header. */
  datatype Request =
    | FetchDetails(bearer: string)
    | PostLogin(emailID: string, password: string)
    | FetchQuestion(bearer: string)
    | FetchHint(bearer: string)
    | PostFlag(bearer: string, flag: string)
    | FetchLeaderboard

  /** An exception caught by a handler: from the network, or from writing through a null `userProgress`. */
  datatype Fault = Remote(error: string) | NullProgress

  /** The hint endpoint's message that makes the script drop its open task. */
  const NotSolvingMessage := "You are not currently solving a task."

  datatype Row = Row(rank: int, name: string, department: string, year: string, solved: int, time: string)

  /**
   * One block appended to the output. A line that reports an elapsed time carries its
   * milliseconds; the script renders them with `formatDuration` (Duration.FormatDuration).
   */
  datatype Line =
    | BannerArt | Welcome
    | TypeLoginToBegin | Authenticating | LoggedInAs(emailID: string)
    | AuthFailed | TypeLoginToAuthenticate
    | ErrorLine(fault: Fault)
    | Echo(cmd: string)
    | HelpHeader | HelpRule | HelpEntry(name: string, description: string)
    | AlreadyLoggedIn | LoginIntro | ValidatingCredentials | Authenticated | TypeHelp
    | ServerMessage(message: string)
    | LoginFailed(error: string)
    | PleaseLogin | FetchingTask
    | AllSolved(message: string) | TotalLevels(levels: int) | TimeLine(ms: nat)
    | QuestionHeader(level: int) | Story(text: string) | QuestionText(text: string) | Download(link: string)
    | Congratulations | TimeTaken(ms: nat) | BlankLine
    | FetchFailed(fault: Fault)
    | Notice(message: string) | HintIntro | HintText(hint: string) | HintsLeft(count: int) | NoHintsLeft
    | ErrorMessage(message: string)
    | LoginFirst | NotSolving | EmptyFlag
    | CorrectFlag | NextTaskHint | FinalStoryHint | SubmitFailed(error: string)
    | CurrentLevel(level: int) | TimeSpent(ms: nat) | HintsAvailable(count: int)
    | LeaderboardTitle | NoParticipants | Table(rows: seq<Row>) | LeaderboardFailed(error: string)
    | ProfileName(name: string) | ProfileEmail(emailID: string) | ProfileBranch(branch: string)
    | ProfileYear(year: string) | NotLoggedInProfile
    | LoggedOut | NotLoggedIn
    | AboutTitle | Credits
    | CommandNotFound(token: string) | HelpHint

  // ---- What each handler shows ----

  /** `showHelp`. */
  function HelpLines(): seq<Line> {
    [HelpHeader, HelpRule]
    + seq(|HelpTable|, i requires 0 <= i < |HelpTable| => HelpEntry(HelpTable[i].0, HelpTable[i].1))
    + [HelpRule]
  }

  /** A question as `startChallenge` shows it. */
  function QuestionLines(level: int, story: string, question: string, link: string,
                         isFinalStory: bool, totalTimeTaken: nat): seq<Line> {
    [QuestionHeader(level)]
    + (if story != [] then [Story(story)] else [])
    + (if question != [] then [QuestionText(question)] else [])
    + (if link != [] then [Download(link)] else [])
    + (if isFinalStory then [Congratulations, TimeTaken(totalTimeTaken)] else [BlankLine])
  }

  /**
   * The output of `task` once logged in, after its "fetching" line; `hasProgress` tells
   * whether `userProgress` is non-null.
   */
  function TaskScreen(hasProgress: bool, reply: Reply<Question>): (lines: seq<Line>)
    ensures |lines| >= 1
    ensures FetchFailed(NullProgress) in lines <==> !hasProgress && reply.Ok?
    ensures !hasProgress && reply.Ok? ==> lines[|lines| - 1] == FetchFailed(NullProgress)
  {
    match reply
    case Ok(Finished(message, levels, time)) =>
      [AllSolved(message), TotalLevels(levels), TimeLine(time)]
      + (if hasProgress then [] else [FetchFailed(NullProgress)])
    case Ok(Level(level, story, question, link, isFinal, time)) =>
      if hasProgress then QuestionLines(level, story, question, link, isFinal, time)
      else [FetchFailed(NullProgress)]
    case Refused(message) => [ServerMessage(message)]
    case Thrown(error) => [FetchFailed(Remote(error))]
  }

  /**
   * What a hint reply does to the task-open flag: Some(open) when the script assigns
   * `currentQuestionStartTime`, None when it leaves it alone.
   */
  function HintFlag(reply: Reply<HintReply>): (r: Option<bool>)
    ensures r == Some(true) <==> reply.Ok? && reply.body.HintPending?
    ensures r == Some(false) <==> (reply.Ok? && reply.body.HintCompleted?) || reply == Refused(NotSolvingMessage)
    ensures reply.Thrown? ==> r.None?
  {
    match reply
    case Ok(HintCompleted(_)) => Some(false)
    case Ok(HintPending(_, _, _)) => Some(true)
    case Refused(message) => if message == NotSolvingMessage then Some(false) else None
    case Thrown(_) => None
  }

  /**
   * The output of `hint` once logged in. The null-progress fault shows exactly when the
   * reply makes the script write the task-open flag through a null `userProgress`, and it
   * ends the output.
   */
  function HintScreen(hasProgress: bool, reply: Reply<HintReply>): (lines: seq<Line>)
    ensures |lines| >= 1
    ensures ErrorLine(NullProgress) in lines <==> !hasProgress && HintFlag(reply).Some?
    ensures !hasProgress && HintFlag(reply).Some? ==> lines[|lines| - 1] == ErrorLine(NullProgress)
  {
    match reply
    case Ok(HintCompleted(message)) =>
      [Notice(message)] + (if hasProgress then [] else [ErrorLine(NullProgress)])
    case Ok(HintPending(message, hint, available)) =>
      [Notice(message)] +
      if !hasProgress then [ErrorLine(NullProgress)]
      else (if hint != [] then [HintIntro, HintText(hint), BlankLine] else [])
           + (if available > 0 then [HintsLeft(available)] else [NoHintsLeft])
    case Refused(message) =>
      [ErrorMessage(message)]
      + (if message == NotSolvingMessage && !hasProgress then [ErrorLine(NullProgress)] else [])
    case Thrown(error) => [ErrorLine(Remote(error))]
  }

  /** The verdict on a posted flag. */
  function FlagScreen(reply: Reply<Verdict>): seq<Line> {
    match reply
    case Ok(Verdict(completed, isLastFlag)) =>
      [CorrectFlag]
      + (if !completed && !isLastFlag then [NextTaskHint] else if isLastFlag then [FinalStoryHint] else [])
    case Refused(message) => [ServerMessage(message)]
    case Thrown(error) => [SubmitFailed(error)]
  }

  /** The output of a login attempt. */
  function LoginScreen(reply: Reply<Credentials>): seq<Line> {
    [ValidatingCredentials] +
    match reply
    case Ok(_) => [Authenticated, TypeHelp]
    case Refused(message) => [ServerMessage(message)]
    case Thrown(error) => [LoginFailed(error)]
  }

  /** The output of `progress` once logged in. */
  function ProgressScreen(reply: Reply<Details>): seq<Line> {
    match reply
    case Ok(Details(_, p)) =>
      [CurrentLevel(p.currLevel), TimeSpent(p.totalTimeTaken), HintsAvailable(p.availableHints)]
    case Refused(message) => [ErrorMessage(message)]
    case Thrown(error) => [ErrorLine(Remote(error))]
  }

  /** The leaderboard's rows; each time cell is the padded clock or "N/A". */
  function StandingRows(standings: seq<Standing>): (rows: seq<Row>)
    ensures |rows| == |standings|
    ensures forall i :: 0 <= i < |rows| ==> rows[i].time == LeaderboardTime(standings[i].time)
  {
    seq(|standings|, i requires 0 <= i < |standings| =>
      var s := standings[i];
      Row(s.rank, s.name, s.department, s.year, s.levelsCompleted, LeaderboardTime(s.time)))
  }

  /** The output of `leaderboard`. */
  function LeaderboardScreen(reply: Reply<seq<Standing>>): seq<Line> {
    match reply
    case Ok(standings) =>
      [LeaderboardTitle]
      + (if |standings| == 0 then [NoParticipants] else [Table(StandingRows(standings)), BlankLine])
    case Refused(message) => [ServerMessage(message)]
    case Thrown(error) => [LeaderboardFailed(error)]
  }

  /** The profile `whoami` shows. */
  function ProfileLines(u: User): seq<Line> {
    [ProfileName(u.name), ProfileEmail(u.emailID), ProfileBranch(u.branch), ProfileYear(u.year)]
  }

  // ---- What the output shows ----

  /** `showHelp`: a header and a rule, one entry per row of the commands table in order, a closing rule. */
  lemma HelpListsTable()
    ensures var lines := HelpLines();
      |lines| == |HelpTable| + 3 && lines[0] == HelpHeader && lines[|lines| - 1] == HelpRule
      && (forall i :: 0 <= i < |HelpTable| ==> lines[i + 2] == HelpEntry(HelpTable[i].0, HelpTable[i].1))
      && NoEcho(lines)
  {
    var entries := seq(|HelpTable|, i requires 0 <= i < |HelpTable| => HelpEntry(HelpTable[i].0, HelpTable[i].1));
    var lines := [HelpHeader, HelpRule] + entries + [HelpRule];
    assert HelpLines() == lines;
    assert forall i :: 0 <= i < |HelpTable| ==> lines[i + 2] == entries[i];
  }

  /**
   * A question shows its header first, then the story, the question text and the download
   * link each exactly when non-empty, and the congratulations exactly for the final story,
   * followed by the total time.
   */
  lemma QuestionParts(level: int, story: string, question: string, link: string, isFinalStory: bool, time: nat)
    ensures var lines := QuestionLines(level, story, question, link, isFinalStory, time);
      |lines| >= 2 && lines[0] == QuestionHeader(level)
      && (Story(story) in lines <==> story != [])
      && (QuestionText(question) in lines <==> question != [])
      && (Download(link) in lines <==> link != [])
      && (Congratulations in lines <==> isFinalStory)
      && (isFinalStory ==> lines[|lines| - 1] == TimeTaken(time))
  {
    var st := if story != [] then [Story(story)] else [];
    var qt := if question != [] then [QuestionText(question)] else [];
    var dl := if link != [] then [Download(link)] else [];
    var fin := if isFinalStory then [Congratulations, TimeTaken(time)] else [BlankLine];
    var lines := [QuestionHeader(level)] + st + qt + dl + fin;
    assert QuestionLines(level, story, question, link, isFinalStory, time) == lines;
    assert Story(story) in lines <==> Story(story) in st;
    assert QuestionText(question) in lines <==> QuestionText(question) in qt;
    assert Download(link) in lines <==> Download(link) in dl;
    assert Congratulations in lines <==> Congratulations in fin;
  }

  /** Nothing a question shows is an echo. */
  lemma QuestionDoesNotEcho(level: int, story: string, question: string, link: string, isFinalStory: bool, time: nat)
    ensures NoEcho(QuestionLines(level, story, question, link, isFinalStory, time))
  {
    var st := if story != [] then [Story(story)] else [];
    var qt := if question != [] then [QuestionText(question)] else [];
    var dl := if link != [] then [Download(link)] else [];
    var fin := if isFinalStory then [Congratulations, TimeTaken(time)] else [BlankLine];
    NoEchoJoin([QuestionHeader(level)], st);
    NoEchoJoin([QuestionHeader(level)] + st, qt);
    NoEchoJoin([QuestionHeader(level)] + st + qt, dl);
    NoEchoJoin([QuestionHeader(level)] + st + qt + dl, fin);
  }

  /** A flag verdict: "correct" exactly on success, and the pointer to the next step as the verdict says. */
  lemma FlagVerdictShown(reply: Reply<Verdict>)
    ensures var lines := FlagScreen(reply);
      |lines| >= 1 && NoEcho(lines)
      && (CorrectFlag in lines <==> reply.Ok?)
      && (NextTaskHint in lines <==> reply.Ok? && !reply.body.completed && !reply.body.isLastFlag)
      && (FinalStoryHint in lines <==> reply.Ok? && reply.body.isLastFlag)
  {
  }

  /** A login attempt shows the "validating" line first and "authenticated" exactly on success. */
  lemma LoginOutcomeShown(reply: Reply<Credentials>)
    ensures var lines := LoginScreen(reply);
      |lines| >= 2 && lines[0] == ValidatingCredentials && NoEcho(lines)
      && (Authenticated in lines <==> reply.Ok?)
  {
  }

  /** `progress` shows level, time spent and hints left on success, and one error line otherwise. */
  lemma ProgressShown(reply: Reply<Details>)
    ensures var lines := ProgressScreen(reply);
      |lines| == (if reply.Ok? then 3 else 1) && NoEcho(lines)
      && (reply.Ok? ==> var p := reply.body.progress;
           lines == [CurrentLevel(p.currLevel), TimeSpent(p.totalTimeTaken), HintsAvailable(p.availableHints)])
  {
  }

  /**
   * The leaderboard starts with its title exactly on success, says "no participants"
   * exactly for an empty board, and draws the table of its rows exactly for a non-empty one.
   */
  lemma LeaderboardShown(reply: Reply<seq<Standing>>)
    ensures var lines := LeaderboardScreen(reply);
      |lines| >= 1 && (lines[0] == LeaderboardTitle <==> reply.Ok?) && NoEcho(lines)
      && (NoParticipants in lines <==> reply == Ok([]))
      && (reply.Ok? && reply.body != [] ==> Table(StandingRows(reply.body)) in lines)
      && (forall i :: 0 <= i < |lines| && lines[i].Table? ==> reply.Ok? && reply.body != [])
  {
  }

  /** `whoami` shows the four profile fields and nothing else. */
  lemma ProfileShown(u: User)
    ensures var lines := ProfileLines(u);
      |lines| == 4 && NoEcho(lines)
      && ProfileName(u.name) in lines && ProfileEmail(u.emailID) in lines
      && ProfileBranch(u.branch) in lines && ProfileYear(u.year) in lines
  {
  }

  /** Neither `task` nor `hint` output holds an echo. */
  lemma TaskAndHintDoNotEcho(hasProgress: bool, question: Reply<Question>, hint: Reply<HintReply>)
    ensures NoEcho(TaskScreen(hasProgress, question)) && NoEcho(HintScreen(hasProgress, hint))
  {
    if question.Ok? && question.body.Level? {
      var q := question.body;
      QuestionDoesNotEcho(q.level, q.story, q.question, q.link, q.isFinalStory, q.totalTimeTaken);
    }
  }

  /** The commands that neither reach the server, nor prompt, nor touch the session. */
  predicate Offline(c: Command) {
    c in {Help, Whoami, Clear, Banner, Blank, About} || c.Unknown?
  }

  /** What an offline command other than `clear` appends to the output. */
  function OfflineLines(c: Command, user: Option<User>): (lines: seq<Line>)
    requires Offline(c) && c != Clear
    ensures c == Blank <==> lines == []
    ensures c.Unknown? ==> lines == [CommandNotFound(c.token), HelpHint]
    ensures NoEcho(lines)
  {
    match c
    case Help => HelpLines()
    case Whoami => if user.Some? then ProfileLines(user.value) else [NotLoggedInProfile]
    case Banner => [BannerArt, Welcome]
    case Blank => []
    case About => [AboutTitle, Credits]
    case Unknown(t) => [CommandNotFound(t), HelpHint]
  }

  /**
   * Among the `switch` cases, only a logged-in `exit` changes the login state, the token or the user, and only it
   * touches local storage; only it and `clear` empty the output.
   */
  lemma OnlyExitSignsOut(c: Command, s: SessionState, server: Server)
    requires Coherent(s)
    ensures var e := Outcome(c, s, server);
      (e.after.token != s.token || e.after.isLoggedIn != s.isLoggedIn || e.after.currentUser != s.currentUser
       || e.write != KeepStore) <==> c == Exit && s.isLoggedIn
    ensures Outcome(c, s, server).reset <==> c == Clear || (c == Exit && s.isLoggedIn)
  {
  }

  /** Among the `switch` cases, only `task`, `hint`, `progress` and `exit` can change `userProgress`. */
  lemma ProgressWriters(c: Command, s: SessionState, server: Server)
    requires Coherent(s)
    ensures Outcome(c, s, server).after.userProgress != s.userProgress ==> c in {Task, Hint, Progress, Exit}
  {
  }

  /** Only `login` (signed out) and `submit` (with a task open) leave a prompt pending. */
  lemma OnlyLoginAndSubmitPrompt(c: Command, s: SessionState, server: Server)
    requires Coherent(s)
    ensures var e := Outcome(c, s, server);
      (e.prompt == Some(EmailPrompt) <==> c == Login && !s.isLoggedIn)
      && (e.prompt == Some(FlagPrompt) <==> c == Submit && ReadyFor(FlagPrompt, s))
      && (e.prompt.Some? ==> c == Login || c == Submit)
  {
  }

  /**
   * `leaderboard` always fetches; `task`, `hint` and `progress` fetch exactly when logged in,
   * with the session token as bearer; nothing else issues a request.
   */
  lemma RequestsIssued(c: Command, s: SessionState, server: Server)
    requires Coherent(s)
    ensures var e := Outcome(c, s, server);
      (e.req.Some? <==> c == Leaderboard || ((c == Task || c == Hint || c == Progress) && s.isLoggedIn))
      && (e.req.Some? && c != Leaderboard ==> e.req.value.bearer == s.token.value)
  {
  }

  /** The commands that need no server change nothing but the output. */
  lemma OfflineKeepsSession(c: Command, s: SessionState, server: Server)
    requires Coherent(s) && Offline(c)
    ensures var e := Outcome(c, s, server);
      e.after == s && e.prompt == None && e.req == None && e.write == KeepStore && (e.reset <==> c == Clear)
  {
  }

  /**
   * Among the prompt continuations, only a successful password step changes the login
   * state, the token or the user, or writes to local storage; only a correct non-blank flag
   * changes `userProgress`.
   */
  lemma ResumeWrites(p: Prompt, line: string, s: SessionState, server: Server)
    requires Coherent(s) && ReadyFor(p, s)
    ensures var e := Resume(p, line, s, server);
      (e.after.token != s.token || e.after.isLoggedIn != s.isLoggedIn || e.after.currentUser != s.currentUser
       || e.write != KeepStore) <==> p.PasswordPrompt? && server.login.Ok?
    ensures Resume(p, line, s, server).after.userProgress != s.userProgress
      <==> p == FlagPrompt && Trim(line) != [] && server.flag.Ok?
  {
  }

  /** No command's output holds an echo: the only echo is the one `handleCommand` writes before its `switch`. */
  lemma OutcomeDoesNotEcho(c: Command, s: SessionState, server: Server)
    requires Coherent(s)
    ensures NoEcho(Outcome(c, s, server).lines)
  {
    match c {
    case Task =>
      if s.isLoggedIn {
        TaskAndHintDoNotEcho(s.userProgress.Some?, server.question, server.hint);
        NoEchoJoin([FetchingTask], TaskScreen(s.userProgress.Some?, server.question));
      }
    case Hint => TaskAndHintDoNotEcho(s.userProgress.Some?, server.question, server.hint);
    case Leaderboard => LeaderboardShown(server.leaderboard);
    case Progress => ProgressShown(server.details);
    case _ =>
    }
  }

  /** A line given to a pending prompt is never echoed, and nothing the continuation shows is an echo. */
  lemma ResumeDoesNotEcho(p: Prompt, line: string, s: SessionState, server: Server)
    requires Coherent(s) && ReadyFor(p, s)
    ensures NoEcho(Resume(p, line, s, server).lines)
  {
    match p {
    case PasswordPrompt(_) => LoginOutcomeShown(server.login);
    case FlagPrompt => FlagVerdictShown(server.flag);
    case EmailPrompt =>
    }
  }

  lemma NoEchoJoin(a: seq<Line>, b: seq<Line>)
    requires NoEcho(a) && NoEcho(b)
    ensures NoEcho(a + b)
  {
    assert forall i :: |a| <= i < |a + b| ==> (a + b)[i] == b[i - |a|];
  }

  /**
   * Right after a fresh login `userProgress` is null, so a successful `task` reply ends in
   * the null-progress failure and the task stays closed.
   */
  lemma {:induction false} LoginThenTask(email: string, password: string, s: SessionState, server: Server)
    requires Coherent(s) && !s.isLoggedIn && server.login.Ok? && server.question.Ok?
    ensures var e := Resume(PasswordPrompt(email), password, s, server);
      e.after.isLoggedIn && e.after.userProgress.None?
      && var t := Outcome(Task, e.after, server);
      t.after.userProgress.None? && t.lines[|t.lines| - 1] == FetchFailed(NullProgress)
  {
    var e := Resume(PasswordPrompt(email), password, s, server);
    var t := Outcome(Task, e.after, server);
    assert t.lines == [FetchingTask] + TaskScreen(false, server.question);
  }

  /**
   * A full round: `progress` loads the progress, a question from `task` opens the task,
   * `submit` then prompts for the flag, and a correct non-blank flag closes the task again,
   * so a second `submit` is refused.
   */
  lemma {:induction false} SolveRound(flag: string, s: SessionState, server: Server)
    requires Coherent(s) && s.isLoggedIn && Trim(flag) != []
    requires server.details.Ok? && server.question.Ok? && server.question.body.Level? && server.flag.Ok?
    ensures var p := Outcome(Progress, s, server);
      var t := Outcome(Task, p.after, server);
      var u := Outcome(Submit, t.after, server);
      t.after.userProgress.Some? && t.after.userProgress.value.taskOpen
      && u.prompt == Some(FlagPrompt)
      && var f := Resume(FlagPrompt, flag, u.after, server);
      f.req == Some(PostFlag(s.token.value, Trim(flag))) && !f.after.userProgress.value.taskOpen
      && Outcome(Submit, f.after, server).lines == [NotSolving]
  {
    var p := Outcome(Progress, s, server);
    assert p.after.userProgress == Some(server.details.body.progress);
    var t := Outcome(Task, p.after, server);
    assert t.after.userProgress.value.taskOpen;
    var u := Outcome(Submit, t.after, server);
    assert u.after == t.after;
  }

  /** `typeof storedToken === "string" && storedToken.length > 0`. */
  predicate HasStoredToken(t: Option<string>) {
    t.Some? && t.value != []
  }

  /** The history the startup restore would install, if any. */
  function RestoredHistory(slot: Option<Stored>): Option<seq<string>> {
    if slot.Some? then Decode(slot.value) else None
  }

  /**
   * A reload restores what the last command persisted: the stored window of the last twenty
   * non-empty entries comes back whole and in order.
   */
  lemma ReloadRestoresWindow(entries: seq<string>)
    requires forall i :: 0 <= i < |entries| ==> entries[i] != []
    ensures RestoredHistory(Some(Encode(LastN(entries, PersistLimit)))) == Some(LastN(entries, PersistLimit))
  {
    var w := LastN(entries, PersistLimit);
    forall i | 0 <= i < |w| ensures w[i] != [] {
      assert w[i] == entries[|entries| - |w| + i];
    }
    DecodeEncode(w);
  }

  predicate NoEcho(lines: seq<Line>) {
    forall i :: 0 <= i < |lines| ==> !lines[i].Echo?
  }

  /**
   * What `Valid` demands of the four session globals: logged in exactly when a token is
   * held, with a user; signed out with neither a user nor progress.
   */
  predicate Coherent(s: SessionState) {
    (s.isLoggedIn <==> s.token.Some?)
    && (s.isLoggedIn ==> s.currentUser.Some?)
    && (!s.isLoggedIn ==> s.currentUser.None? && s.userProgress.None?)
  }

  /** What must hold of the session for a prompt to be pending. */
  predicate ReadyFor(p: Prompt, s: SessionState) {
    match p
    case FlagPrompt => s.isLoggedIn && s.userProgress.Some? && s.userProgress.value.taskOpen
    case _ => !s.isLoggedIn
  }

  /** What a step writes to local storage. */
  datatype StoreWrite = KeepStore | RemoveBoth | SaveToken(token: string)

  /**
   * The whole effect of one step: the session it leaves, whether it empties the output
   * first, the lines it appends, the prompt it leaves pending, the request it issues and
   * what it writes to local storage.
   */
  datatype Effect = Effect(after: SessionState, reset: bool, lines: seq<Line>,
                           prompt: Option<Prompt>, req: Option<Request>, write: StoreWrite)

  /** A step that only appends output. */
  function Show(s: SessionState, lines: seq<Line>): Effect {
    Effect(s, false, lines, None, None, KeepStore)
  }

  /**
   * The `switch` of `handleCommand`, case by case, on the session `s` it starts from and the
   * replies the server would give.
   */
  function Outcome(c: Command, s: SessionState, server: Server): (e: Effect)
    requires Coherent(s)
    ensures Coherent(e.after) && (e.prompt.Some? ==> ReadyFor(e.prompt.value, e.after))
  {
    match c
    case Help => Show(s, OfflineLines(c, s.currentUser))
    case Whoami => Show(s, OfflineLines(c, s.currentUser))
    case Banner => Show(s, OfflineLines(c, s.currentUser))
    case Blank => Show(s, OfflineLines(c, s.currentUser))
    case About => Show(s, OfflineLines(c, s.currentUser))
    case Unknown(_) => Show(s, OfflineLines(c, s.currentUser))
    case Clear => Effect(s, true, [], None, None, KeepStore)
    case Login =>
      if s.isLoggedIn then Show(s, [AlreadyLoggedIn])
      else Effect(s, false, [LoginIntro], Some(EmailPrompt), None, KeepStore)
    case Task =>
      if !s.isLoggedIn then Show(s, [PleaseLogin])
      else
        var reply := server.question;
        var progress :=
          if reply.Ok? && s.userProgress.Some? then Some(s.userProgress.value.(taskOpen := reply.body.Level?))
          else s.userProgress;
        Effect(s.(userProgress := progress), false, [FetchingTask] + TaskScreen(s.userProgress.Some?, reply),
               None, Some(FetchQuestion(s.token.value)), KeepStore)
    case Hint =>
      if !s.isLoggedIn then Show(s, [PleaseLogin])
      else
        var reply := server.hint;
        var progress :=
          if s.userProgress.Some? && HintFlag(reply).Some? then Some(s.userProgress.value.(taskOpen := HintFlag(reply).value))
          else s.userProgress;
        Effect(s.(userProgress := progress), false, HintScreen(s.userProgress.Some?, reply),
               None, Some(FetchHint(s.token.value)), KeepStore)
    case Submit =>
      if !s.isLoggedIn || s.userProgress.None? then Show(s, [LoginFirst])
      else if !s.userProgress.value.taskOpen then Show(s, [NotSolving])
      else Effect(s, false, [], Some(FlagPrompt), None, KeepStore)
    case Leaderboard =>
      Effect(s, false, LeaderboardScreen(server.leaderboard), None, Some(FetchLeaderboard), KeepStore)
    case Progress =>
      if !s.isLoggedIn then Show(s, [PleaseLogin])
      else
        var reply := server.details;
        Effect(s.(userProgress := if reply.Ok? then Some(reply.body.progress) else s.userProgress), false,
               ProgressScreen(reply), None, Some(FetchDetails(s.token.value)), KeepStore)
    case Exit =>
      if s.isLoggedIn then Effect(SignedOut, true, [LoggedOut], None, None, RemoveBoth)
      else Show(s, [NotLoggedIn])
  }

  /** The continuation in `inputCallback` run on the line the user entered. */
  function Resume(p: Prompt, line: string, s: SessionState, server: Server): (e: Effect)
    requires Coherent(s) && ReadyFor(p, s)
    ensures Coherent(e.after) && (e.prompt.Some? ==> ReadyFor(e.prompt.value, e.after))
  {
    match p
    case EmailPrompt => Effect(s, false, [], Some(PasswordPrompt(line)), None, KeepStore)
    case PasswordPrompt(email) =>
      var reply := server.login;
      if reply.Ok? then
        Effect(SessionState(Some(reply.body.token), true, Some(reply.body.user), None), false,
               LoginScreen(reply), None, Some(PostLogin(email, line)), SaveToken(reply.body.token))
      else
        Effect(s, false, LoginScreen(reply), None, Some(PostLogin(email, line)), KeepStore)
    case FlagPrompt =>
      var flag := Trim(line);
      if flag == [] then Show(s, [EmptyFlag])
      else
        var reply := server.flag;
        Effect(s.(userProgress := if reply.Ok? then Some(s.userProgress.value.(taskOpen := false)) else s.userProgress),
               false, FlagScreen(reply), None, Some(PostFlag(s.token.value, flag)), KeepStore)
  }

  class Terminal {
    var token: Option<string>
    var isLoggedIn: bool
    var currentUser: Option<User>
    var userProgress: Option<CtfProgress>
    var awaitingInput: bool
    var inputCallback: Option<Prompt>
    var screen: seq<Line>     // the rendered output, one block per entry
    var inputValue: string    // the input field's text
    const history: CommandHistory
    const store: LocalStorage

    function State(): SessionState
      reads this
    {
      SessionState(token, isLoggedIn, currentUser, userProgress)
    }

    /**
     * The session is coherent and a logged-in one holds the persisted token; the two prompt
     * fields are set together and a pending prompt finds the session ready; the history
     * cursor is in range.
     */
    ghost predicate Valid()
      reads this, history, store
    {
      history.Valid()
      && Coherent(State())
      && (isLoggedIn ==> store.token == token)
      && (awaitingInput <==> inputCallback.Some?)
      && (inputCallback.Some? ==> ReadyFor(inputCallback.value, State()))
    }

    /** The globals as the script declares them (lines 41-50), over the page's local storage. */
    constructor (store: LocalStorage)
      ensures Valid() && fresh(history)
      ensures this.store == store && State() == SignedOut
      ensures !awaitingInput && inputCallback == None && screen == [] && inputValue == ""
      ensures history.entries == [] && history.index == -1
    {
      token := None;
      isLoggedIn := false;
      currentUser := None;
      userProgress := None;
      awaitingInput := false;
      inputCallback := None;
      screen := [];
      inputValue := "";
      history := new CommandHistory();
      this.store := store;
    }

    /** `logout`: clear the session and both storage slots; the in-memory history stays. */
    method Logout()
      requires Valid() && !awaitingInput
      modifies this`token, this`isLoggedIn, this`currentUser, this`userProgress, store
      ensures Valid()
      ensures State() == SignedOut && store.token == None && store.cmdHistory == None
      ensures history.entries == old(history.entries) && history.index == old(history.index)
    {
      token := None;
      isLoggedIn := false;
      currentUser := None;
      userProgress := None;
      store.token := None;
      store.cmdHistory := None;
    }

    /** `waitForInput`: arm the prompt slot, replacing whatever was pending. */
    method WaitForInput(p: Prompt)
      requires Valid() && ReadyFor(p, State())
      modifies this`awaitingInput, this`inputCallback
      ensures Valid() && awaitingInput && inputCallback == Some(p)
    {
      awaitingInput := true;
      inputCallback := Some(p);
    }

    /**
     * `userProgress.currentQuestionStartTime = ...`: sets the task-open flag, or throws
     * (reported as `threw`) when `userProgress` is null.
     */
    method SetTaskOpen(open: bool) returns (threw: bool)
      requires Valid() && !awaitingInput
      modifies this`userProgress
      ensures Valid()
      ensures threw <==> old(userProgress).None?
      ensures userProgress == if threw then old(userProgress) else Some(old(userProgress).value.(taskOpen := open))
    {
      if userProgress.None? {
        threw := true;
      } else {
        threw := false;
        userProgress := Some(userProgress.value.(taskOpen := open));
      }
    }

    /**
     * The DOMContentLoaded handler. With a non-empty stored token it asks for the user's
     * details: success authenticates and restores the stored history, a refusal logs out,
     * an exception leaves everything as it was. Without a stored token it logs out.
     */
    method Startup(reply: Reply<Details>) returns (req: Option<Request>)
      requires Valid() && !awaitingInput
      modifies this`token, this`isLoggedIn, this`currentUser, this`userProgress, this`screen, store, history
      ensures Valid()
      ensures HasStoredToken(old(store.token)) ==> req == Some(FetchDetails(old(store.token).value))
      ensures !HasStoredToken(old(store.token)) ==>
        req == None && State() == SignedOut && store.token == None && store.cmdHistory == None
        && screen == old(screen) + [BannerArt, Welcome, TypeLoginToBegin]
      ensures HasStoredToken(old(store.token)) && reply.Ok? ==>
        State() == SessionState(old(store.token), true, Some(reply.body.user), Some(reply.body.progress))
        && store.token == old(store.token) && store.cmdHistory == old(store.cmdHistory)
        && screen == old(screen) + [BannerArt, Welcome, Authenticating, LoggedInAs(reply.body.user.emailID)]
      ensures HasStoredToken(old(store.token)) && reply.Refused? ==>
        State() == SignedOut && store.token == None && store.cmdHistory == None
        && screen == old(screen) + [BannerArt, Welcome, Authenticating, AuthFailed, TypeLoginToAuthenticate]
      ensures HasStoredToken(old(store.token)) && reply.Thrown? ==>
        State() == old(State()) && store.token == old(store.token) && store.cmdHistory == old(store.cmdHistory)
        && screen == old(screen) +
          if reply.error != []
          then [BannerArt, Welcome, Authenticating, ErrorLine(Remote(reply.error)), AuthFailed, TypeLoginToAuthenticate]
          else [BannerArt, Welcome, Authenticating, AuthFailed, TypeLoginToAuthenticate]
      ensures var restored := RestoredHistory(old(store.cmdHistory));
        if HasStoredToken(old(store.token)) && reply.Ok? && restored.Some?
        then history.entries == restored.value && history.index == |restored.value|
        else history.entries == old(history.entries) && history.index == old(history.index)
    {
      if store.token.Some? && store.token.value != [] {
        var stored := store.token.value;
        req := Some(FetchDetails(stored));
        match reply
        case Ok(details) =>
          token := Some(stored);
          isLoggedIn := true;
          currentUser := Some(details.user);
          userProgress := Some(details.progress);
          screen := screen + [BannerArt, Welcome, Authenticating, LoggedInAs(details.user.emailID)];
          if store.cmdHistory.Some? {
            var restored := Decode(store.cmdHistory.value);
            if restored.Some? {
              history.Restore(restored.value);
            }
          }
        case Refused(_) =>
          Logout();
          screen := screen + [BannerArt, Welcome, Authenticating, AuthFailed, TypeLoginToAuthenticate];
        case Thrown(error) =>
          if error != [] {
            screen := screen + [BannerArt, Welcome, Authenticating, ErrorLine(Remote(error)),
                                AuthFailed, TypeLoginToAuthenticate];
          } else {
            screen := screen + [BannerArt, Welcome, Authenticating, AuthFailed, TypeLoginToAuthenticate];
          }
      } else {
        req := None;
        Logout();
        screen := screen + [BannerArt, Welcome, TypeLoginToBegin];
      }
    }

    /** The user edits the input field. */
    method Type(text: string)
      requires Valid()
      modifies this`inputValue
      ensures Valid() && inputValue == text
    {
      inputValue := text;
    }

    /** ArrowUp: recall the previous entry into the input field, when there is one before the cursor. */
    method KeyUp()
      requires Valid()
      modifies this`inputValue, history`index
      ensures Valid()
      ensures if |history.entries| > 0 && old(history.index) > 0
        then history.index == old(history.index) - 1 && inputValue == history.entries[history.index]
        else history.index == old(history.index) && inputValue == old(inputValue)
    {
      var recalled := history.Up();
      if recalled.Some? {
        inputValue := recalled.value;
      }
    }

    /** ArrowDown: recall the next entry, or park past the end with an empty input field. */
    method KeyDown()
      requires Valid()
      modifies this`inputValue, history`index
      ensures Valid()
      ensures if old(history.index) < |history.entries| - 1
        then history.index == old(history.index) + 1 && inputValue == history.entries[history.index]
        else history.index == |history.entries| && inputValue == ""
    {
      inputValue := history.Down();
    }

    /**
     * Enter: take the input line and clear the field; a pending prompt receives the line
     * (no echo, no history, slot cleared first), otherwise the line is handled as a command.
     */
    method KeyEnter(server: Server) returns (req: Option<Request>)
      requires Valid()
      modifies this, history, store
      ensures Valid() && inputValue == ""
      ensures old(awaitingInput) ==>
        history.entries == old(history.entries) && history.index == old(history.index)
        && Applied(Resume(old(inputCallback).value, old(inputValue), old(State()), server),
                   old(screen), old(store.token), old(store.cmdHistory), req)
      ensures !old(awaitingInput) ==>
        history.entries == (if ShouldRecord(old(history.entries), old(inputValue))
                            then old(history.entries) + [old(inputValue)] else old(history.entries))
        && history.index == |history.entries|
        && Applied(Outcome(Classify(old(inputValue)), old(State()), server), old(screen) + [Echo(old(inputValue))],
                   old(store.token), Some(Encode(LastN(history.entries, PersistLimit))), req)
    {
      var cmd := inputValue;
      inputValue := "";
      if awaitingInput && inputCallback.Some? {
        var prompt := inputCallback.value;
        awaitingInput := false;
        inputCallback := None;
        req := Deliver(prompt, cmd, server);
      } else {
        req := HandleCommand(cmd, server);
      }
    }

    /** Resume the handler that was waiting for a line. */
    method Deliver(prompt: Prompt, line: string, server: Server) returns (req: Option<Request>)
      requires Valid() && !awaitingInput && ReadyFor(prompt, State())
      modifies this`screen, this`awaitingInput, this`inputCallback, this`token, this`isLoggedIn,
        this`currentUser, this`userProgress, store`token
      ensures Valid()
      ensures Applied(Resume(prompt, line, old(State()), server), old(screen), old(store.token), old(store.cmdHistory), req)
    {
      match prompt
      case EmailPrompt =>
        WaitForInput(PasswordPrompt(line));
        req := None;
        assert screen == old(screen) + [];
      case PasswordPrompt(email) =>
        req := FinishLogin(email, line, server.login);
      case FlagPrompt =>
        req := FinishSubmit(line, server.flag);
    }

    /**
     * The part of `handleLogin` after both prompts: post the credentials; success stores
     * and sets the token and the user but leaves `userProgress` null.
     */
    method FinishLogin(email: string, password: string, reply: Reply<Credentials>) returns (req: Option<Request>)
      requires Valid() && !awaitingInput && !isLoggedIn
      modifies this`screen, this`token, this`isLoggedIn, this`currentUser, store`token
      ensures Valid()
      ensures req == Some(PostLogin(email, password))
      ensures reply.Ok? ==>
        State() == SessionState(Some(reply.body.token), true, Some(reply.body.user), None)
        && store.token == Some(reply.body.token)
      ensures !reply.Ok? ==> State() == old(State()) && store.token == old(store.token)
      ensures screen == old(screen) + LoginScreen(reply)
    {
      screen := screen + [ValidatingCredentials];
      req := Some(PostLogin(email, password));
      match reply
      case Ok(credentials) =>
        store.token := Some(credentials.token);
        token := Some(credentials.token);
        isLoggedIn := true;
        currentUser := Some(credentials.user);
        screen := screen + [Authenticated, TypeHelp];
      case Refused(message) =>
        screen := screen + [ServerMessage(message)];
      case Thrown(error) =>
        screen := screen + [LoginFailed(error)];
    }

    /**
     * The part of `submitCommand` after the flag prompt: a blank flag is refused without a
     * request; otherwise the trimmed flag is posted.
     */
    method FinishSubmit(flag: string, reply: Reply<Verdict>) returns (req: Option<Request>)
      requires Valid() && !awaitingInput && ReadyFor(FlagPrompt, State())
      modifies this`screen, this`userProgress
      ensures Valid()
      ensures Trim(flag) == [] ==>
        req == None && screen == old(screen) + [EmptyFlag] && userProgress == old(userProgress)
      ensures Trim(flag) != [] ==>
        req == Some(PostFlag(token.value, Trim(flag)))
        && screen == old(screen) + FlagScreen(reply)
        && userProgress == if reply.Ok? then Some(old(userProgress).value.(taskOpen := false)) else old(userProgress)
    {
      var trimmed := Trim(flag);
      if trimmed == [] {
        screen := screen + [EmptyFlag];
        req := None;
        return;
      }
      req := CheckFlag(trimmed, reply);
    }

    /** Post a non-blank flag and report the verdict; a correct flag closes the task. */
    method CheckFlag(flag: string, reply: Reply<Verdict>) returns (req: Option<Request>)
      requires Valid() && !awaitingInput && ReadyFor(FlagPrompt, State())
      modifies this`screen, this`userProgress
      ensures Valid()
      ensures req == Some(PostFlag(token.value, flag))
      ensures screen == old(screen) + FlagScreen(reply)
      ensures userProgress == if reply.Ok? then Some(old(userProgress).value.(taskOpen := false)) else old(userProgress)
    {
      req := Some(PostFlag(token.value, flag));
      match reply
      case Ok(verdict) =>
        ghost var before := screen;
        screen := screen + [CorrectFlag];
        var _ := SetTaskOpen(false);
        if !verdict.completed && !verdict.isLastFlag {
          screen := screen + [NextTaskHint];
        } else if verdict.isLastFlag {
          screen := screen + [FinalStoryHint];
        }
        assert screen == before + FlagScreen(reply);
      case Refused(message) =>
        screen := screen + [ServerMessage(message)];
      case Thrown(error) =>
        screen := screen + [SubmitFailed(error)];
    }

    /**
     * `handleCommand`: echo the line, record it in the history, persist the last twenty
     * entries, then dispatch on the command name.
     */
    method HandleCommand(cmd: string, server: Server) returns (req: Option<Request>)
      requires Valid() && !awaitingInput
      modifies this`screen, this`awaitingInput, this`inputCallback, this`token, this`isLoggedIn,
        this`currentUser, this`userProgress, history, store
      ensures Valid()
      ensures history.entries == (if ShouldRecord(old(history.entries), cmd)
                                  then old(history.entries) + [cmd] else old(history.entries))
      ensures history.index == |history.entries|
      ensures Applied(Outcome(Classify(cmd), old(State()), server), old(screen) + [Echo(cmd)],
                      old(store.token), Some(Encode(LastN(history.entries, PersistLimit))), req)
    {
      Remember(cmd);
      ghost var entries, shown := history.entries, screen;
      var c := Classify(cmd);
      req := Dispatch(c, server);
      assert history.entries == entries && shown == old(screen) + [Echo(cmd)];
    }

    /** The bookkeeping before the `switch`: echo, record, and persist the last twenty entries. */
    method Remember(cmd: string)
      requires Valid() && !awaitingInput
      modifies this`screen, history, store`cmdHistory
      ensures Valid()
      ensures screen == old(screen) + [Echo(cmd)]
      ensures history.entries == (if ShouldRecord(old(history.entries), cmd)
                                  then old(history.entries) + [cmd] else old(history.entries))
      ensures history.index == |history.entries|
      ensures store.cmdHistory == Some(Encode(LastN(history.entries, PersistLimit)))
      ensures State() == old(State()) && store.token == old(store.token)
    {
      screen := screen + [Echo(cmd)];
      history.Record(cmd);
      store.cmdHistory := Some(Encode(history.Persisted()));
    }

    /** The `switch` of `handleCommand`, run after the echo and the history bookkeeping. */
    method Dispatch(c: Command, server: Server) returns (req: Option<Request>)
      requires Valid() && !awaitingInput
      modifies this`screen, this`awaitingInput, this`inputCallback, this`token, this`isLoggedIn,
        this`currentUser, this`userProgress, store
      ensures Valid()
      ensures Applied(Outcome(c, old(State()), server), old(screen), old(store.token), old(store.cmdHistory), req)
    {
      if Offline(c) {
        ShowOffline(c);
        req := None;
      } else {
        req := RunOnline(c, server);
      }
    }

    /**
     * The terminal is as the step `e` leaves it, started from the output `shown`, the stored
     * token `stored` and the persisted history `persisted`, and `req` is its request.
     */
    ghost predicate Applied(e: Effect, shown: seq<Line>, stored: Option<string>,
                            persisted: Option<Stored>, req: Option<Request>)
      reads this, store
    {
      State() == e.after && awaitingInput == e.prompt.Some? && inputCallback == e.prompt && req == e.req
      && screen == (if e.reset then [] else shown) + e.lines
      && match e.write
         case KeepStore => store.token == stored && store.cmdHistory == persisted
         case RemoveBoth => store.token == None && store.cmdHistory == None
         case SaveToken(t) => store.token == Some(t) && store.cmdHistory == persisted
    }

    /** The cases of the `switch` that only write to the output. */
    method ShowOffline(c: Command)
      requires Valid() && Offline(c)
      modifies this`screen
      ensures Valid()
      ensures screen == if c == Clear then [] else old(screen) + OfflineLines(c, currentUser)
    {
      match c
      case Help =>
        screen := screen + HelpLines();
      case Whoami =>
        Whoami();
      case Clear =>
        screen := [];
      case Banner =>
        screen := screen + [BannerArt, Welcome];
      case Blank =>
      case About =>
        screen := screen + [AboutTitle, Credits];
      case Unknown(t) =>
        screen := screen + [CommandNotFound(t), HelpHint];
    }

    /** The cases of the `switch` that talk to the server, open a prompt, or log out. */
    method RunOnline(c: Command, server: Server) returns (req: Option<Request>)
      requires Valid() && !awaitingInput && !Offline(c)
      modifies this`screen, this`awaitingInput, this`inputCallback, this`token, this`isLoggedIn,
        this`currentUser, this`userProgress, store
      ensures Valid()
      ensures Applied(Outcome(c, old(State()), server), old(screen), old(store.token), old(store.cmdHistory), req)
    {
      match c
      case Login =>
        HandleLogin();
        req := None;
      case Task =>
        req := StartChallenge(server.question);
      case Hint =>
        req := GetHint(server.hint);
      case Submit =>
        SubmitCommand();
        req := None;
      case Leaderboard =>
        req := ShowLeaderboard(server.leaderboard);
      case Progress =>
        req := GetProgress(server.details);
      case Exit =>
        ExitCommand();
        req := None;
    }

    /** `handleLogin` up to its first prompt: refuse when logged in, otherwise ask for the email. */
    method HandleLogin()
      requires Valid() && !awaitingInput
      modifies this`screen, this`awaitingInput, this`inputCallback
      ensures Valid()
      ensures if old(isLoggedIn)
        then screen == old(screen) + [AlreadyLoggedIn] && !awaitingInput
        else screen == old(screen) + [LoginIntro] && awaitingInput && inputCallback == Some(EmailPrompt)
    {
      if isLoggedIn {
        screen := screen + [AlreadyLoggedIn];
        return;
      }
      screen := screen + [LoginIntro];
      WaitForInput(EmailPrompt);
    }

    /**
     * `startChallenge`: when logged in, fetch the question; a question opens the task and a
     * "completed" reply closes it. With a null `userProgress` (right after a fresh login)
     * the assignment throws inside the `try`, so the task stays closed and a failure line
     * is shown instead of the question.
     */
    method StartChallenge(reply: Reply<Question>) returns (req: Option<Request>)
      requires Valid() && !awaitingInput
      modifies this`screen, this`userProgress
      ensures Valid()
      ensures req == if old(isLoggedIn) then Some(FetchQuestion(token.value)) else None
      ensures userProgress ==
        if old(isLoggedIn) && reply.Ok? && old(userProgress).Some?
        then Some(old(userProgress).value.(taskOpen := reply.body.Level?))
        else old(userProgress)
      ensures screen ==
        old(screen) + if old(isLoggedIn) then [FetchingTask] + TaskScreen(old(userProgress).Some?, reply) else [PleaseLogin]
    {
      if !isLoggedIn {
        screen := screen + [PleaseLogin];
        req := None;
        return;
      }
      req := Some(FetchQuestion(token.value));
      var shown: seq<Line>;
      match reply {
      case Ok(Finished(message, levels, time)) =>
        shown := [AllSolved(message), TotalLevels(levels), TimeLine(time)];
        var threw := SetTaskOpen(false);
        if threw {
          shown := shown + [FetchFailed(NullProgress)];
        }
      case Ok(Level(level, story, question, link, isFinal, time)) =>
        var threw := SetTaskOpen(true);
        if threw {
          shown := [FetchFailed(NullProgress)];
        } else {
          shown := QuestionLines(level, story, question, link, isFinal, time);
        }
      case Refused(message) =>
        shown := [ServerMessage(message)];
      case Thrown(error) =>
        shown := [FetchFailed(Remote(error))];
      }
      screen := screen + ([FetchingTask] + shown);
    }

    /**
     * `getHint`: when logged in, fetch a hint; the reply may open or close the task (see
     * HintFlag), and the "not currently solving" refusal closes it.
     */
    method GetHint(reply: Reply<HintReply>) returns (req: Option<Request>)
      requires Valid() && !awaitingInput
      modifies this`screen, this`userProgress
      ensures Valid()
      ensures req == if old(isLoggedIn) then Some(FetchHint(token.value)) else None
      ensures userProgress ==
        if old(isLoggedIn) && old(userProgress).Some? && HintFlag(reply).Some?
        then Some(old(userProgress).value.(taskOpen := HintFlag(reply).value))
        else old(userProgress)
      ensures screen == old(screen) + if old(isLoggedIn) then HintScreen(old(userProgress).Some?, reply) else [PleaseLogin]
    {
      if !isLoggedIn {
        screen := screen + [PleaseLogin];
        req := None;
        return;
      }
      req := Some(FetchHint(token.value));
      var shown: seq<Line>;
      match reply {
      case Ok(HintCompleted(message)) =>
        shown := [Notice(message)];
        var threw := SetTaskOpen(false);
        if threw {
          shown := shown + [ErrorLine(NullProgress)];
        }
      case Ok(HintPending(message, hint, available)) =>
        var threw := SetTaskOpen(true);
        var rest: seq<Line>;
        if threw {
          rest := [ErrorLine(NullProgress)];
        } else {
          rest := if hint != [] then [HintIntro, HintText(hint), BlankLine] else [];
          if available > 0 {
            rest := rest + [HintsLeft(available)];
          } else {
            rest := rest + [NoHintsLeft];
          }
        }
        shown := [Notice(message)] + rest;
      case Refused(message) =>
        shown := [ErrorMessage(message)];
        if message == NotSolvingMessage {
          var threw := SetTaskOpen(false);
          if threw {
            shown := shown + [ErrorLine(NullProgress)];
          }
        }
      case Thrown(error) =>
        shown := [ErrorLine(Remote(error))];
      }
      screen := screen + shown;
    }

    /**
     * `submitCommand` up to its prompt: refused without prompting when not logged in or
     * `userProgress` is null, refused when no task is open, otherwise ask for the flag.
     */
    method SubmitCommand()
      requires Valid() && !awaitingInput
      modifies this`screen, this`awaitingInput, this`inputCallback
      ensures Valid()
      ensures if !old(isLoggedIn) || old(userProgress).None? then
          screen == old(screen) + [LoginFirst] && !awaitingInput
        else if !old(userProgress).value.taskOpen then
          screen == old(screen) + [NotSolving] && !awaitingInput
        else
          screen == old(screen) && awaitingInput && inputCallback == Some(FlagPrompt)
    {
      if !isLoggedIn || userProgress.None? {
        screen := screen + [LoginFirst];
        return;
      }
      if !userProgress.value.taskOpen {
        screen := screen + [NotSolving];
        return;
      }
      WaitForInput(FlagPrompt);
    }

    /** `getProgress`: when logged in, refresh `userProgress` from the details endpoint. */
    method GetProgress(reply: Reply<Details>) returns (req: Option<Request>)
      requires Valid() && !awaitingInput
      modifies this`screen, this`userProgress
      ensures Valid()
      ensures req == if old(isLoggedIn) then Some(FetchDetails(token.value)) else None
      ensures userProgress == if old(isLoggedIn) && reply.Ok? then Some(reply.body.progress) else old(userProgress)
      ensures screen == old(screen) + if old(isLoggedIn) then ProgressScreen(reply) else [PleaseLogin]
    {
      if !isLoggedIn {
        screen := screen + [PleaseLogin];
        req := None;
        return;
      }
      req := Some(FetchDetails(token.value));
      match reply
      case Ok(details) =>
        userProgress := Some(details.progress);
        var p := details.progress;
        screen := screen + [CurrentLevel(p.currLevel), TimeSpent(p.totalTimeTaken),
                            HintsAvailable(p.availableHints)];
      case Refused(message) =>
        screen := screen + [ErrorMessage(message)];
      case Thrown(error) =>
        screen := screen + [ErrorLine(Remote(error))];
    }

    /** `showLeaderboard`: no login needed; an empty board says so instead of drawing a table. */
    method ShowLeaderboard(reply: Reply<seq<Standing>>) returns (req: Option<Request>)
      requires Valid()
      modifies this`screen
      ensures Valid()
      ensures req == Some(FetchLeaderboard)
      ensures screen == old(screen) + LeaderboardScreen(reply)
      ensures reply.Ok? && reply.body == [] ==> screen == old(screen) + [LeaderboardTitle, NoParticipants]
    {
      req := Some(FetchLeaderboard);
      match reply
      case Ok(standings) =>
        screen := screen + [LeaderboardTitle];
        if |standings| == 0 {
          screen := screen + [NoParticipants];
          return;
        }
        screen := screen + [Table(StandingRows(standings)), BlankLine];
      case Refused(message) =>
        screen := screen + [ServerMessage(message)];
      case Thrown(error) =>
        screen := screen + [LeaderboardFailed(error)];
    }

    /** `whoami`: show the cached profile, or refuse when not logged in. */
    method Whoami()
      requires Valid()
      modifies this`screen
      ensures Valid()
      ensures screen == old(screen) + if isLoggedIn then ProfileLines(currentUser.value) else [NotLoggedInProfile]
    {
      if !isLoggedIn {
        screen := screen + [NotLoggedInProfile];
        return;
      }
      screen := screen + ProfileLines(currentUser.value);
    }

    /** The `exit` case: log out and clear the output when logged in, otherwise refuse. */
    method ExitCommand()
      requires Valid() && !awaitingInput
      modifies this`token, this`isLoggedIn, this`currentUser, this`userProgress, this`screen, store
      ensures Valid()
      ensures if old(isLoggedIn)
        then State() == SignedOut && store.token == None && store.cmdHistory == None && screen == [LoggedOut]
        else State() == old(State()) && store.token == old(store.token)
             && store.cmdHistory == old(store.cmdHistory) && screen == old(screen) + [NotLoggedIn]
      ensures history.entries == old(history.entries) && history.index == old(history.index)
    {
      if isLoggedIn {
        Logout();
        screen := [LoggedOut];
      } else {
        screen := screen + [NotLoggedIn];
      }
    }
  }
}

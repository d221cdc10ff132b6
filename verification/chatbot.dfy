/**
 The handbook chatbot script, stripped of its rendering: the module-level
 setup of the language-model client and the embedding model, three fail-fast
 startup gates, an index build that halts the run when it raises, and the
 per-prompt update of the chat history kept in the session state.

 One call of `RunScript` is one top-to-bottom run of the script, which the
 UI framework repeats for every interaction. The client constructors, the
 document loader, the vector index and the query engine are not visible
 here; they enter as outcomes (`SetupOutcome`, `BuildOutcome`,
 `QueryOutcome`) supplied with each interaction.
 */
module Chatbot {

  datatype Option<T> = None | Some(value: T)

  /** Where the script looks for the handbook documents. */
  const DataDir: string := "data/handbook"

  datatype Role = User | Assistant

  /** One entry of the chat history: `{"role": ..., "content": ...}`. */
  datatype Message = Message(role: Role, content: string)

  /** What `os.path.exists` and `os.listdir` report for the data path: it does
      not exist, it exists but cannot be listed (a plain file, no permission),
      or it lists the given entries. */
  datatype Directory = Missing | Unlistable | Listing(entries: seq<string>)

  /** The part of the process environment the script reads: the value of
      `GEMINI_API_KEY` (absent or a string) and the data directory. */
  datatype Environment = Environment(apiKey: Option<string>, dataDir: Directory)

  /** Whether the module-level construction of the Gemini client (which is
      handed the key as read, possibly absent) and of the embedding model
      returned or raised. */
  datatype SetupOutcome = Ready | SetupRaised(error: string)

  /** Whether loading the documents and building the index returned or raised. */
  datatype BuildOutcome = Built | BuildRaised(error: string)

  /** Whether `query_engine.query(prompt)` returned a response or raised. */
  datatype QueryOutcome = Answered(response: string) | QueryRaised(error: string)

  /** Why a run stopped before reaching the chat. */
  datatype HaltReason =
    | SetupFailed(error: string)
    | MissingApiKey
    | DataDirNotFound(path: string)
    | DataDirEmpty(path: string)
    | ListingRaised(path: string)
    | IndexBuildFailed(error: string)

  /** The observable actions of a run, in the order they are taken. */
  datatype Step = Setup | ConfigCheck | DataDirCheck | IndexBuild | Query(prompt: string)

  /** A run either halts (the session state is then left as it was) or serves
      the chat and leaves the given message list in the session state. */
  datatype Run =
    | Halted(reason: HaltReason, steps: seq<Step>)
    | Served(messages: seq<Message>, steps: seq<Step>)

  /** Everything one run of the script sees: the environment at that moment,
      what the setup, the index build and the query engine do this time, and
      the chat input (absent until the user submits). */
  datatype Turn = Turn(env: Environment, setup: SetupOutcome, build: BuildOutcome,
                       prompt: Option<string>, outcome: QueryOutcome)

  /** Python truthiness of an optional string: present and non-empty. */
  predicate Truthy(s: Option<string>) {
    s.Some? && s.value != ""
  }

  /** The startup steps in the order the script runs them. */
  const StartupOrder: seq<Step> := [Setup, ConfigCheck, DataDirCheck, IndexBuild]

  /** Everything startup needs for the chat to be served. */
  predicate StartsUp(env: Environment, setup: SetupOutcome, build: BuildOutcome) {
    && setup.Ready?
    && Truthy(env.apiKey)
    && env.dataDir.Listing? && |env.dataDir.entries| > 0
    && build.Built?
  }

  // ---- Startup ----

  /** `validate_config`: an absent or empty API key stops the run. */
  function ValidateConfig(apiKey: Option<string>): (r: Option<HaltReason>)
    ensures r == None <==> Truthy(apiKey)
    ensures r != None ==> r == Some(MissingApiKey)
  {
    if !Truthy(apiKey) then Some(MissingApiKey) else None
  }

  /** `validate_data_dir`: a missing directory and an empty one stop the run,
      with different reasons; one entry of any kind is enough to pass. A path
      that exists but cannot be listed makes `os.listdir` raise, which nothing
      catches, so the run ends there as well. */
  function ValidateDataDir(path: string, dir: Directory): (r: Option<HaltReason>)
    ensures r == None <==> dir.Listing? && |dir.entries| > 0
    ensures dir.Missing? ==> r == Some(DataDirNotFound(path))
    ensures dir.Unlistable? ==> r == Some(ListingRaised(path))
    ensures dir == Listing([]) ==> r == Some(DataDirEmpty(path))
  {
    match dir
    case Missing => Some(DataDirNotFound(path))
    case Unlistable => Some(ListingRaised(path))
    case Listing(entries) => if |entries| == 0 then Some(DataDirEmpty(path)) else None
  }

  /** `get_query_engine`: any exception while loading or indexing stops the run. */
  function GetQueryEngine(build: BuildOutcome): (r: Option<HaltReason>)
    ensures r == None <==> build.Built?
    ensures build.BuildRaised? ==> r == Some(IndexBuildFailed(build.error))
  {
    match build
    case Built => None
    case BuildRaised(e) => Some(IndexBuildFailed(e))
  }

  /** The module-level client setup, then the two gates and the index build,
      each run only if the previous one passed. Returns the halt reason, if
      any, and the steps taken. */
  function Startup(env: Environment, setup: SetupOutcome, build: BuildOutcome): (r: (Option<HaltReason>, seq<Step>))
    ensures r.0 == None <==> StartsUp(env, setup, build)
    ensures 1 <= |r.1| <= 4 && r.1 == StartupOrder[..|r.1|]
    ensures r.0 == None ==> r.1 == StartupOrder
    ensures setup.SetupRaised? ==> r == (Some(SetupFailed(setup.error)), [Setup])
    ensures setup.Ready? && !Truthy(env.apiKey) ==> r == (Some(MissingApiKey), [Setup, ConfigCheck])
  {
    match setup
    case SetupRaised(e) => (Some(SetupFailed(e)), [Setup])
    case Ready =>
      match ValidateConfig(env.apiKey)
      case Some(reason) => (Some(reason), [Setup, ConfigCheck])
      case None =>
        match ValidateDataDir(DataDir, env.dataDir)
        case Some(reason) => (Some(reason), [Setup, ConfigCheck, DataDirCheck])
        case None => (GetQueryEngine(build), StartupOrder)
  }

  // ---- Chat ----

  const SearchErrorPrefix: string := "\U{26A0}\U{FE0F} Sorry, something went wrong while searching: "

  /** The assistant's content: the engine's response, or the error text behind
      a fixed apology when the query raised. */
  function Reply(outcome: QueryOutcome): (r: string)
    ensures outcome.Answered? ==> r == outcome.response
    ensures outcome.QueryRaised? ==>
      |r| == |SearchErrorPrefix| + |outcome.error|
      && r[..|SearchErrorPrefix|] == SearchErrorPrefix
      && r[|SearchErrorPrefix|..] == outcome.error
  {
    match outcome
    case Answered(response) => response
    case QueryRaised(e) => SearchErrorPrefix + e
  }

  /** The history is created empty only when the session has none yet. */
  function InitHistory(session: Option<seq<Message>>): (h: seq<Message>)
    ensures session.Some? ==> h == session.value
    ensures session.None? ==> h == []
  {
    match session
    case Some(messages) => messages
    case None => []
  }

  /** The `if prompt:` block: a falsy prompt changes nothing; any other prompt,
      whitespace-only included, appends the user's message and then exactly
      one assistant message, whether the query answered or raised. */
  function HandlePrompt(history: seq<Message>, prompt: Option<string>, outcome: QueryOutcome): (h: seq<Message>)
    ensures !Truthy(prompt) ==> h == history
    ensures Truthy(prompt) ==>
      && |h| == |history| + 2
      && h[..|history|] == history
      && h[|history|] == Message(User, prompt.value)
      && h[|history| + 1] == Message(Assistant, Reply(outcome))
  {
    if Truthy(prompt) then
      history + [Message(User, prompt.value), Message(Assistant, Reply(outcome))]
    else
      history
  }

  /** One run of the script, given what it sees this time and the session
      state left by earlier runs. */
  function RunScript(t: Turn, session: Option<seq<Message>>): (r: Run)
    // The chat is served exactly when setup and every gate pass; a query error never halts.
    ensures r.Served? <==> StartsUp(t.env, t.setup, t.build)
    // Startup steps come first, in order; the query comes last, only for a
    // served run with a truthy prompt, and carries the prompt unchanged.
    ensures |r.steps| >= 1 && r.steps[0] == Setup
    ensures r.Halted? ==> |r.steps| <= 4 && r.steps == StartupOrder[..|r.steps|]
    ensures r.Served? ==> |r.steps| >= 4 && r.steps[..4] == StartupOrder
    ensures r.Served? && Truthy(t.prompt) ==> r.steps == StartupOrder + [Query(t.prompt.value)]
    ensures r.Served? && !Truthy(t.prompt) ==> r.steps == StartupOrder
    // The served history is the prompt handled against the session's history.
    ensures r.Served? ==> r.messages == HandlePrompt(InitHistory(session), t.prompt, t.outcome)
    // An existing history is never reset.
    ensures r.Served? && session.Some? ==>
      |r.messages| >= |session.value| && r.messages[..|session.value|] == session.value
  {
    var (halt, steps) := Startup(t.env, t.setup, t.build);
    if halt.Some? then
      Halted(halt.value, steps)
    else
      var history := InitHistory(session);
      var messages := HandlePrompt(history, t.prompt, t.outcome);
      if Truthy(t.prompt) then Served(messages, steps + [Query(t.prompt.value)])
      else Served(messages, steps)
  }

  /** A raising client or embedding-model constructor ends the run before
      anything else, whatever the environment holds. */
  lemma SetupFailureHalts(t: Turn, session: Option<seq<Message>>)
    requires t.setup.SetupRaised?
    ensures RunScript(t, session) == Halted(SetupFailed(t.setup.error), [Setup])
  {
  }

  /** A missing or empty API key halts the run before the directory check, the
      index build or any chat handling, whatever the directory and the build
      would do: right after the config check when the setup returned, and at
      the setup (with no message of the script's own) when it raised. */
  lemma ApiKeyGateFirst(t: Turn, session: Option<seq<Message>>)
    requires !Truthy(t.env.apiKey)
    ensures t.setup.Ready? ==> RunScript(t, session) == Halted(MissingApiKey, [Setup, ConfigCheck])
    ensures t.setup.SetupRaised? ==> RunScript(t, session) == Halted(SetupFailed(t.setup.error), [Setup])
    ensures DataDirCheck !in RunScript(t, session).steps
  {
    var r := RunScript(t, session);
    assert r.steps == [Setup, ConfigCheck] || r.steps == [Setup];
  }

  /** With setup done and a key present, the data directory decides next:
      missing, unlistable and empty halt after the directory check, one entry
      moves on to the index build. */
  lemma DataDirGate(t: Turn, session: Option<seq<Message>>)
    requires t.setup.Ready? && Truthy(t.env.apiKey)
    ensures t.env.dataDir.Missing? ==>
      RunScript(t, session) == Halted(DataDirNotFound(DataDir), [Setup, ConfigCheck, DataDirCheck])
    ensures t.env.dataDir.Unlistable? ==>
      RunScript(t, session) == Halted(ListingRaised(DataDir), [Setup, ConfigCheck, DataDirCheck])
    ensures t.env.dataDir == Listing([]) ==>
      RunScript(t, session) == Halted(DataDirEmpty(DataDir), [Setup, ConfigCheck, DataDirCheck])
    ensures t.env.dataDir.Listing? && |t.env.dataDir.entries| > 0 ==>
      IndexBuild in RunScript(t, session).steps
  {
    var r := RunScript(t, session);
    if t.env.dataDir.Listing? && |t.env.dataDir.entries| > 0 {
      assert r.steps[3] == IndexBuild;
    }
  }

  /** A failed load or index build halts after the build step; no query is made. */
  lemma BuildFailureHalts(t: Turn, session: Option<seq<Message>>)
    requires t.setup.Ready? && Truthy(t.env.apiKey)
    requires t.env.dataDir.Listing? && |t.env.dataDir.entries| > 0
    requires t.build.BuildRaised?
    ensures RunScript(t, session) == Halted(IndexBuildFailed(t.build.error), StartupOrder)
  {
  }

  /** A query that raises does not halt the run: the prompt and the apology
      carrying the error text are both recorded after the existing history. */
  lemma QueryErrorServed(t: Turn, session: Option<seq<Message>>)
    requires StartsUp(t.env, t.setup, t.build) && Truthy(t.prompt) && t.outcome.QueryRaised?
    ensures RunScript(t, session) ==
      Served(InitHistory(session) + [Message(User, t.prompt.value), Message(Assistant, SearchErrorPrefix + t.outcome.error)],
             StartupOrder + [Query(t.prompt.value)])
  {
  }

  /** A whitespace-only prompt is truthy, so it is recorded and queried. */
  lemma WhitespacePromptAccepted(history: seq<Message>, outcome: QueryOutcome)
    ensures |HandlePrompt(history, Some(" "), outcome)| == |history| + 2
  {
  }

  // ---- The key check as evidently intended ----

  /** Startup with the key checked before the clients that need it are built,
      as the config gate's own description (fail fast with a clear message)
      intends: config check, setup, directory check, index build. */
  function StartupKeyFirst(env: Environment, setup: SetupOutcome, build: BuildOutcome): (r: (Option<HaltReason>, seq<Step>))
    ensures r.0 == None <==> StartsUp(env, setup, build)
    ensures r.0 == None ==> r.1 == [ConfigCheck, Setup, DataDirCheck, IndexBuild]
  {
    match ValidateConfig(env.apiKey)
    case Some(reason) => (Some(reason), [ConfigCheck])
    case None =>
      match setup
      case SetupRaised(e) => (Some(SetupFailed(e)), [ConfigCheck, Setup])
      case Ready =>
        match ValidateDataDir(DataDir, env.dataDir)
        case Some(reason) => (Some(reason), [ConfigCheck, Setup, DataDirCheck])
        case None => (GetQueryEngine(build), [ConfigCheck, Setup, DataDirCheck, IndexBuild])
  }

  /** As written, a missing key whose client constructor raises ends the run
      at the setup, so the missing-key message is never shown. */
  lemma SetupMasksMissingKey(env: Environment, e: string, build: BuildOutcome)
    requires !Truthy(env.apiKey)
    ensures Startup(env, SetupRaised(e), build) == (Some(SetupFailed(e)), [Setup])
    ensures HaltMessage(SetupFailed(e)).None?
  {
  }

  /** With the key checked first, a missing key always halts with its own
      message before anything else runs, whatever the setup would do. */
  lemma KeyFirstReportsMissingKey(env: Environment, setup: SetupOutcome, build: BuildOutcome)
    requires !Truthy(env.apiKey)
    ensures StartupKeyFirst(env, setup, build) == (Some(MissingApiKey), [ConfigCheck])
    ensures HaltMessage(MissingApiKey).Some?
  {
  }

  /** The reordering changes nothing else: both orders start up on exactly the
      same inputs, and they halt for the same reason except when the key is
      missing and the setup raised. */
  lemma KeyFirstAgrees(env: Environment, setup: SetupOutcome, build: BuildOutcome)
    ensures (StartupKeyFirst(env, setup, build).0 == None) == (Startup(env, setup, build).0 == None)
    ensures Truthy(env.apiKey) || setup.Ready? ==>
      StartupKeyFirst(env, setup, build).0 == Startup(env, setup, build).0
  {
  }

  // ---- Halt messages ----

  /** The cross mark and space that open every halt message. */
  const ErrorMark: string := "\U{274C} "

  /** The text `st.error` shows for each halt reason. A raising constructor at
      module level and an unlistable directory end the run on an uncaught
      exception, with no message of the script's own. */
  function HaltMessage(reason: HaltReason): (m: Option<string>)
    ensures m.None? <==> reason.SetupFailed? || reason.ListingRaised?
  {
    match reason
    case SetupFailed(_) =>
      None
    case MissingApiKey =>
      Some(ErrorMark + "GEMINI_API_KEY is missing. " + "Add it to your .env file and restart.")
    case DataDirNotFound(path) =>
      Some(ErrorMark + "Data directory '" + path + "' not found. Create it and add your documents.")
    case DataDirEmpty(path) =>
      Some(ErrorMark + "Data directory '" + path + "' is empty. Add at least one document.")
    case ListingRaised(_) =>
      None
    case IndexBuildFailed(e) =>
      Some(ErrorMark + "Failed to load documents or build index: " + e)
  }

  /** Equal frames around two texts mean equal texts. */
  lemma FrameInjective(pre: string, x: string, y: string, post: string)
    requires pre + x + post == pre + y + post
    ensures x == y
  {
    assert |x| == |y|;
    assert x == (pre + x + post)[|pre|..|pre| + |x|];
    assert y == (pre + y + post)[|pre|..|pre| + |y|];
  }

  /** The characters that tell the halt messages apart: the third one
      separates the families, the last-but-one separates "documents."
      from "document.". */
  lemma HaltMessageMarks(r: HaltReason)
    requires HaltMessage(r).Some?
    ensures |HaltMessage(r).value| >= 3
    ensures HaltMessage(r).value[2] == (if r.MissingApiKey? then 'G' else if r.IndexBuildFailed? then 'F' else 'D')
    ensures r.DataDirNotFound? ==> HaltMessage(r).value[|HaltMessage(r).value| - 2] == 's'
    ensures r.DataDirEmpty? ==> HaltMessage(r).value[|HaltMessage(r).value| - 2] == 't'
  {
    var m := HaltMessage(r).value;
    match r
    case MissingApiKey =>
      var a, b := "GEMINI_API_KEY is missing. ", "Add it to your .env file and restart.";
      assert m == ErrorMark + a + b;
      assert m[2] == a[0];
    case DataDirNotFound(p) =>
      var pre, post := "Data directory '", "' not found. Create it and add your documents.";
      assert m == ErrorMark + pre + p + post;
      assert m[2] == pre[0];
      assert m[|m| - 2] == post[|post| - 2];
    case DataDirEmpty(p) =>
      var pre, post := "Data directory '", "' is empty. Add at least one document.";
      assert m == ErrorMark + pre + p + post;
      assert m[2] == pre[0];
      assert m[|m| - 2] == post[|post| - 2];
    case IndexBuildFailed(e) =>
      var pre := "Failed to load documents or build index: ";
      assert m == ErrorMark + pre + e;
      assert m[2] == pre[0];
  }

  /** Every halt message names its reason: different reasons never share a
      message, and the message shows the directory path or the error text. */
  lemma {:induction false} HaltMessageInjective(r1: HaltReason, r2: HaltReason)
    requires HaltMessage(r1).Some? && HaltMessage(r1) == HaltMessage(r2)
    ensures r1 == r2
  {
    HaltMessageMarks(r1);
    HaltMessageMarks(r2);
    match r1
    case MissingApiKey =>
    case DataDirNotFound(p1) =>
      if r2.DataDirNotFound? {
        FrameInjective(ErrorMark + "Data directory '", p1, r2.path, "' not found. Create it and add your documents.");
      }
    case DataDirEmpty(p1) =>
      if r2.DataDirEmpty? {
        FrameInjective(ErrorMark + "Data directory '", p1, r2.path, "' is empty. Add at least one document.");
      }
    case IndexBuildFailed(e1) =>
      if r2.IndexBuildFailed? {
        var pre := ErrorMark + "Failed to load documents or build index: ";
        assert e1 == (pre + e1)[|pre|..];
        assert r2.error == (pre + r2.error)[|pre|..];
      }
  }

  // ---- A session: the script run once per interaction ----

  /** The session state after one run: a served run stores its message list,
      a halted run leaves the state untouched. */
  function After(t: Turn, session: Option<seq<Message>>): Option<seq<Message>> {
    var run := RunScript(t, session);
    if run.Served? then Some(run.messages) else session
  }

  /** The session state after the script has run once for each turn, in order.
      The environment and the library outcomes may differ from turn to turn. */
  function Converse(session: Option<seq<Message>>, turns: seq<Turn>): (r: Option<seq<Message>>)
    ensures session.Some? ==> r.Some?
    ensures |InitHistory(r)| >= |InitHistory(session)|
    decreases |turns|
  {
    if turns == [] then session
    else Converse(After(turns[0], session), turns[1..])
  }

  /** Whether a turn records an exchange: it starts up and its prompt is truthy. */
  predicate Records(t: Turn) {
    StartsUp(t.env, t.setup, t.build) && Truthy(t.prompt)
  }

  /** Number of turns that record an exchange. */
  function Recorded(turns: seq<Turn>): nat {
    if turns == [] then 0
    else (if Records(turns[0]) then 1 else 0) + Recorded(turns[1..])
  }

  /** Running one more turn acts on the state the earlier turns left: a halted
      run changes nothing, a served run handles its prompt against the history. */
  lemma {:induction false} ConverseSnoc(session: Option<seq<Message>>, turns: seq<Turn>, t: Turn)
    ensures Converse(session, turns + [t]) == After(t, Converse(session, turns))
    ensures !StartsUp(t.env, t.setup, t.build) ==> Converse(session, turns + [t]) == Converse(session, turns)
    ensures StartsUp(t.env, t.setup, t.build) ==>
      Converse(session, turns + [t]) == Some(HandlePrompt(InitHistory(Converse(session, turns)), t.prompt, t.outcome))
    decreases |turns|
  {
    if turns != [] {
      assert (turns + [t])[1..] == turns[1..] + [t];
      ConverseSnoc(After(turns[0], session), turns[1..], t);
    }
  }

  /** While no turn starts up, no number of interactions changes the session state. */
  lemma {:induction false} ConverseHalted(session: Option<seq<Message>>, turns: seq<Turn>)
    requires forall i :: 0 <= i < |turns| ==> !StartsUp(turns[i].env, turns[i].setup, turns[i].build)
    ensures Converse(session, turns) == session
    decreases |turns|
  {
    if turns != [] {
      ConverseHalted(session, turns[1..]);
    }
  }

  /** Every turn that starts up with a truthy prompt adds exactly two messages,
      whatever the query engine did; every other turn adds none; earlier
      messages stay in place. */
  lemma {:induction false} ConverseGrowth(session: Option<seq<Message>>, turns: seq<Turn>)
    ensures |InitHistory(Converse(session, turns))| == |InitHistory(session)| + 2 * Recorded(turns)
    ensures InitHistory(Converse(session, turns))[..|InitHistory(session)|] == InitHistory(session)
    decreases |turns|
  {
    if turns != [] {
      var h := InitHistory(session);
      var next := After(turns[0], session);
      var hn := InitHistory(next);
      assert |hn| == |h| + (if Records(turns[0]) then 2 else 0);
      assert hn[..|h|] == h;
      ConverseGrowth(next, turns[1..]);
      var final := InitHistory(Converse(next, turns[1..]));
      assert final[..|h|] == final[..|hn|][..|h|];
    }
  }

  /** Messages alternate user, assistant, user, assistant, ... */
  predicate Alternating(h: seq<Message>) {
    && |h| % 2 == 0
    && forall i :: 0 <= i < |h| ==> h[i].role == (if i % 2 == 0 then User else Assistant)
  }

  /** Handling one prompt keeps an alternating history alternating. */
  lemma HandlePromptAlternates(h: seq<Message>, prompt: Option<string>, outcome: QueryOutcome)
    requires Alternating(h)
    ensures Alternating(HandlePrompt(h, prompt, outcome))
  {
    var next := HandlePrompt(h, prompt, outcome);
    forall i | 0 <= i < |next|
      ensures next[i].role == (if i % 2 == 0 then User else Assistant)
    {
      if i < |h| {
        assert next[i] == next[..|h|][i];
      }
    }
  }

  /** Each recorded exchange adds a user message followed by an assistant
      message, and a halted run adds nothing, so a history that starts out
      alternating stays alternating. */
  lemma {:induction false} ConverseAlternates(session: Option<seq<Message>>, turns: seq<Turn>)
    requires Alternating(InitHistory(session))
    ensures Alternating(InitHistory(Converse(session, turns)))
    decreases |turns|
  {
    if turns != [] {
      var t := turns[0];
      if StartsUp(t.env, t.setup, t.build) {
        HandlePromptAlternates(InitHistory(session), t.prompt, t.outcome);
      }
      ConverseAlternates(After(t, session), turns[1..]);
    }
  }
}

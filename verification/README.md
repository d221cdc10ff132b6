# Input validator and handbook chatbot, modelled in Dafny

This project models the two pieces of stateable logic in the repository and proves properties about them.

- **`InputValidator`** (`validator.py`) takes a user-submitted text and strips surrounding whitespace on construction. `validate_all` then judges the text:
  - first, whether it has at least 20 characters;
  - then, whether it is safe. Its upper-cased form must contain none of `SELECT`, `DELETE`, `INSERT`, `UPDATE`, `DROP`, `--`, `;` as a substring, and none of its characters may come from Python's `string.punctuation`.

  The result is a `(bool, message)` pair with one of three fixed messages. The module's three demo inputs are proved to give the verdicts their comments announce.
- **The chatbot script** (`11-inclass-activity.py`) is modelled without its rendering.
  - One run of the script is `Chatbot.RunScript`. It first runs the module-level setup, which builds the Gemini client with the key as read and loads the embedding model. It then checks the API key, checks the data directory (it must exist, be listable and be non-empty), and builds the index. Each step runs only if the one before it passed, and a failure halts the run.
  - Once startup has passed, a truthy chat prompt appends exactly one user message and one assistant message to the history kept in the session state. The assistant message holds the engine's answer, or a fixed apology followed by the error text. A query error never halts the run.
  - `Chatbot.Converse` repeats the run once per interaction, carrying the session state from one run to the next. Each interaction is a `Turn`, which brings its own environment and its own library outcomes, because the script reads the key and the directory again on every rerun. A directory created after a halt therefore lets a later turn start up.

Module layout:

| file | module | contents |
|---|---|---|
| `text.dfy` | `Text` | `str.strip()`, `str.upper()`, the `in` substring test and `string.punctuation`, on ASCII |
| `validator.dfy` | `Validator` | the `InputValidator` class |
| `validator_demo.dfy` | `ValidatorDemo` | the three `__main__` samples |
| `chatbot.dfy` | `Chatbot` | startup gates, halt messages, per-prompt history update, sessions |

The environment, the filesystem, the client setup, the index build and the query engine are the parts the script does not implement. They enter as inputs, all carried by each `Turn`:
- `Environment` holds the API key value and the state of the data directory.
- `SetupOutcome` says whether constructing the Gemini client and the embedding model at module level returned or raised.
- `BuildOutcome` says whether loading and indexing returned or raised.
- `QueryOutcome` says whether `query_engine.query(prompt)` answered or raised.

Which of the startup steps a run took is recorded as a list of `Step`s. This is how "halts before the directory check" and "no query is made" are stated.

Three behaviours of the chatbot script are worth knowing, and the model follows the code in each:
- A whitespace-only prompt is truthy, so it is recorded and sent to the engine. It is not rejected.
- A failed index build stops the run with `st.stop()`. `st.cache_resource` does not keep a result for a call that raised, so every later run attempts the build again; a failure is not remembered. In the model each run that gets past the gates takes a build step with that turn's `BuildOutcome`.
- A missing data directory and an empty one are two different halts with two different messages. A path that exists but cannot be listed makes `os.listdir` raise. Nothing catches that exception, so the run ends with no message of the script's own. The model calls this halt `ListingRaised`. A constructor that raises during the module-level setup ends the run the same way, before any gate; the model calls that halt `SetupFailed`.

## Model

| member | source | states |
|---|---|---|
| Text.Strip | validator.py:36 | the stored text is the raw text with a whitespace-only prefix and suffix removed, and neither of its ends is whitespace |
| Text.TrimsUnique | validator.py:36 | only one string satisfies that description, so the stripped text is fully determined by it |
| Text.StripIdempotent | validator.py:36 | stripping the stored text again leaves it unchanged |
| Text.StripTrimmed | validator.py:36 | a text with no whitespace at either end is kept as it is |
| Text.StripIgnoresPadding | validator.py:36 | adding whitespace around the raw text does not change the stored text |
| Text.PunctuationRanges | validator.py:67 | a character is in `string.punctuation` exactly when it lies in one of the four ASCII ranges `!`-`/`, `:`-`@`, `[`-`` ` ``, `{`-`~` |
| Text.PunctuationSize | validator.py:67 | the punctuation set has 32 characters |
| Text.UpperKeepsPunctuation | validator.py:61-67 | upper-casing neither creates nor removes punctuation |
| Text.Upper | validator.py:61 | the upper-cased text has the same length, no lower-case ASCII letter, each lower-case letter replaced by its capital and every other character kept |
| Text.Occurs | validator.py:63 | the substring test: the empty keyword occurs in every text, no keyword occurs in a shorter text, and in a text of equal length only the keyword itself |
| Text.OccursInside | validator.py:63 | a keyword embedded in a longer text, even inside a word, is found by the substring test |
| Validator.New | validator.py:29-36 | the constructor stores the stripped input, which stripping again leaves unchanged |
| Validator.IsLongEnough | validator.py:38-48 | true exactly when the stripped text has at least the threshold's number of characters; a threshold at or below zero is met even by an empty text |
| Validator.LongEnoughMonotone | validator.py:38-48 | a length threshold that is met stays met for every smaller threshold |
| Validator.Safe | validator.py:50-70 | what `is_safe` decides: no dangerous keyword in the upper-cased text and no punctuation; a safe text holds none of the five SQL words, and the empty text is safe |
| Validator.IsSafe | validator.py:50-70 | the verdict is true exactly when no dangerous keyword occurs in the upper-cased text and no character is punctuation |
| Validator.UnsafeIfPunctuation | validator.py:66-68 | one punctuation character anywhere makes the text unsafe |
| Validator.UnsafeIfSqlWord | validator.py:61-64 | any of the five SQL words, in any letter case and even inside a longer word, makes the text unsafe |
| Validator.SafeExactly | validator.py:50-70 | safe exactly when none of the five SQL words occurs upper-cased and no character is punctuation; `--` and `;` can never be the deciding entries |
| Validator.SafeIgnoresCase | validator.py:61-68 | the text and its upper-cased form are equally safe |
| Validator.ValidateAll | validator.py:72-89 | success exactly when the text has at least 20 characters and is safe, with the success message; a short text gets the too-short message even when unsafe; a long unsafe text gets the unsafe message |
| Validator.ValidateIgnoresPadding | validator.py:36-89 | whitespace around the raw input changes neither the verdict nor the message |
| ValidatorDemo.DemoDangerousKeyword | validator.py:93-95 | the DROP sample is refused with the unsafe message |
| ValidatorDemo.DemoTooShort | validator.py:97-99 | "Hi there" is refused with the too-short message |
| ValidatorDemo.DemoValid | validator.py:101-103 | the artificial-intelligence question is accepted with the success message |
| Chatbot.ValidateConfig | 11-inclass-activity.py:43-47 | the config gate passes exactly when the API key is present and non-empty |
| Chatbot.ValidateDataDir | 11-inclass-activity.py:51-59 | the directory gate passes exactly when the directory lists at least one entry; missing, unlistable and empty each halt with their own reason |
| Chatbot.GetQueryEngine | 11-inclass-activity.py:64-76 | the build passes exactly when loading and indexing returned; an exception halts and carries its text |
| Chatbot.Startup | 11-inclass-activity.py:34-87 | startup passes exactly when the setup returned and all three gates pass; the steps taken are always a non-empty prefix of setup, config check, directory check, index build; a raising setup halts first, and with the setup done a missing key halts right after the config check |
| Chatbot.Reply | 11-inclass-activity.py:108-115 | the assistant content is the response, or the fixed apology followed by the error text unchanged |
| Chatbot.InitHistory | 11-inclass-activity.py:90-91 | an existing history is kept; a missing one starts empty |
| Chatbot.HandlePrompt | 11-inclass-activity.py:101-117 | a falsy prompt leaves the history unchanged; a truthy one keeps the history as a prefix and appends the user's prompt, then exactly one assistant reply |
| Chatbot.RunScript | 11-inclass-activity.py:34-117 | a run is served exactly when the setup and every gate pass, whatever the query does; startup steps come first in order; the query comes last, carries the prompt and happens only for a truthy prompt; the served history is the prompt handled against the session's history, so an existing history is never reset |
| Chatbot.SetupFailureHalts | 11-inclass-activity.py:34-39 | a raising client or embedding constructor halts the run at the setup step, whatever the environment holds |
| Chatbot.ApiKeyGateFirst | 11-inclass-activity.py:34-87 | without an API key no directory check, build or chat happens: after a returned setup the run halts right after the config check, after a raising setup it halts at the setup |
| Chatbot.DataDirGate | 11-inclass-activity.py:53-59 | with the setup done and a key, a missing, unlistable or empty directory halts after the directory check; one entry moves on to the index build |
| Chatbot.BuildFailureHalts | 11-inclass-activity.py:68-76 | a build exception halts after the build step with that exception's text, and no query is made |
| Chatbot.QueryErrorServed | 11-inclass-activity.py:108-117 | a raising query still serves the run and records the prompt and the apology with the error text |
| Chatbot.WhitespacePromptAccepted | 11-inclass-activity.py:101 | a prompt of one space is accepted and adds two messages |
| Chatbot.StartupKeyFirst | 11-inclass-activity.py:43-47 | the startup order the config gate's description intends, key check before the setup; it starts up on the same inputs as the order as written |
| Chatbot.SetupMasksMissingKey | 11-inclass-activity.py:38-47 | as written, a missing key whose client constructor raises halts at the setup, and the missing-key message is never shown |
| Chatbot.KeyFirstReportsMissingKey | 11-inclass-activity.py:43-47 | with the key checked first, a missing key always halts with its own message before anything else runs |
| Chatbot.KeyFirstAgrees | 11-inclass-activity.py:38-87 | both orders start up on exactly the same inputs and halt for the same reason, except when the key is missing and the setup raised |
| Chatbot.HaltMessage | 11-inclass-activity.py:43-76 | only the setup and unlistable-directory halts show no message of the script's own |
| Chatbot.HaltMessageInjective | 11-inclass-activity.py:43-76 | different halt reasons never show the same message, so each message identifies its reason, path and error text |
| Chatbot.Converse | 11-inclass-activity.py:84-117 | the session state after one run per turn: a history once present is never dropped and never shrinks |
| Chatbot.ConverseSnoc | 11-inclass-activity.py:84-117 | each further turn acts on the state the earlier turns left: a halted run changes nothing, a run that starts up handles its prompt against the history |
| Chatbot.ConverseHalted | 11-inclass-activity.py:34-91 | while no turn starts up, no number of interactions changes the session state |
| Chatbot.ConverseGrowth | 11-inclass-activity.py:90-117 | over any turns, the history grows by exactly two messages per turn that starts up with a truthy prompt, by none otherwise, and earlier messages stay in place |
| Chatbot.HandlePromptAlternates | 11-inclass-activity.py:101-117 | handling one prompt keeps an alternating history alternating |
| Chatbot.ConverseAlternates | 11-inclass-activity.py:101-117 | over any turns, halted or served, a history that alternates user and assistant messages keeps alternating |

## Left out

- Non-ASCII text: `Text.Strip` and `Text.Upper` treat only ASCII whitespace and the letters `a`-`z` specially. Python also strips Unicode spaces such as U+00A0 and U+2028. Its `upper` also maps non-ASCII letters, some of them to longer strings (`ß` to `SS`) or to ASCII letters (dotless `ı` to `I`, long `ſ` to `S`). So a non-ASCII word can reach a keyword in Python and not in the model.
- `Validator.IsSafe` takes the text's characters as given. The Unicode effects just listed are not modelled for it.
- The `__main__` block's `print` calls are output only. The demo lemmas state the values printed.
- The chatbot's rendering is left out: `st.title`, `st.caption`, chat bubbles, spinners, `st.success` and `st.markdown`. It decides nothing.
- The chatbot's `st.stop()` mechanics are left out. A halted run is a terminal `Halted` value, and its session state is left as it was.
- `st.cache_resource` memoisation is left out. Each run that passes the gates takes an index-build step with its turn's `BuildOutcome`; a cached engine that is reused rather than rebuilt is a turn whose build outcome is `Built`.
- LlamaIndex document loading, indexing and retrieval are foreign library code. Their results are the `BuildOutcome` and `QueryOutcome` inputs.
- The Gemini client and HuggingFace embedding constructors are foreign library code as well. Whether they return or raise is the `SetupOutcome` input. The model does not decide when they raise, for instance whether the client raises on a missing key.
- The script does not catch a `BaseException` that is not an `Exception`. Such an exception, raised by the query after the user message has been appended, is not modelled.
- `stock.py` is not part of this model. It downloads market data and does floating-point series arithmetic and plotting.
- `10-inclass-activity.py` is not part of this model. It is the earlier version of the chatbot: the same two-message history update, an API-key check inside the cached builder, no data-directory gate and no exception handling.

## Findings

| source | as written | input that shows it | evidently intended | confidence | as-written member | corrected member |
|---|---|---|---|---|---|---|
| 11-inclass-activity.py:38-47 | the Gemini client is built with the key as read (line 38) before `validate_config` checks that key (line 84) | `GEMINI_API_KEY` unset, with the client constructor raising on the missing key | a missing key halts with the "GEMINI_API_KEY is missing" message before any client that needs it is built, as the description of `validate_config` at line 6 promises | low: hinges on the foreign constructor raising on a missing key; not executed | Chatbot.SetupMasksMissingKey | Chatbot.KeyFirstReportsMissingKey |

`Chatbot.StartupKeyFirst` is the corrected startup. `Chatbot.KeyFirstAgrees` proves that it starts up on exactly the same inputs as the order as written, and halts for the same reason except in the case above. Every served-run property in the model therefore holds for both orders. `Chatbot.RunScript` keeps the order as written so that its halt reasons match the code.

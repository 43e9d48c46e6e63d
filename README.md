# Dataset question-answering agent: the reasoning loop

This project models the core of a small agent. The agent answers questions
about a tabular dataset by running a language model in a "reason, act,
observe" loop. It covers three parts:

- **The conversation session (`Agent`).** A history that starts with one
  system message. Without the API key a call returns an error text and
  changes nothing. With it, a call appends the user message, makes one round
  trip to the chat-completion service, and then appends the reply if the
  request succeeds.
- **The classification of one model output.** In order, the loop checks:
  - is the output blank?
  - does it contain `Answer:`? If so, the text after the first occurrence,
    stripped, is the answer.
  - does the leftmost match of `Action:\s*(\w+)(?::\s*(.*))?` exist? If so,
    is `PAUSE` missing? A missing `PAUSE` is a protocol error. Otherwise the
    output is an action invocation: its name is lower-cased, and its argument
    is stripped, or absent when empty.
  - if none of these holds, the output is not recognised.
- **`query_loop`.** It calls the agent at most `max_iters` times (8 by
  default) and records a
  trace (`reasoning_steps`). It:
  - stops on the three terminal classes;
  - reports unknown action names back to the model as an observation;
  - invokes known actions from the registry, serialises their result, and
    sends it back;
  - keeps the plotting action's result as `images`;
  - otherwise gives up with a fixed message.
- **The action registry (`KNOWN_ACTIONS`).** It has twelve names. The model
  keeps the column guards of the four column actions, the filter of
  `missing_values`, and the shape fields of `dataset_overview`,
  `number_of_rows` and `number_of_columns`.

Modules:

- `wrappers.dfy` holds `Option`.
- `text.dfy` holds the Python string operations the loop uses: `isspace`,
  `\w`, `strip`, `lower`, `in` and `find`.
- `parser.dfy` holds the action pattern and `Classify`.
- `actions.dfy` holds the registry.
- `agent.dfy` holds the `Agent` class, the loop as the function `Run`, and
  the imperative `QueryLoop`.

`QueryLoop` is a method with the source's `for` loop and its branch chain. It
is proved to return
exactly what `Run` describes, and the loop's properties are proved about
`Run`. These loop lemmas are stated for any classifier, so they hold for any
output parser. `Run` and `QueryLoop` fix the classifier to `Classify`.

Four behaviours of the code that its prompt text does not suggest; the model
follows the code:

- **Unrecognised output.** An output with neither `Answer:` nor an action line
  does not end the loop with a protocol error. The code has no branch for it,
  so the same `next_input` is sent again (`UnrecognisedResubmits`).
- **Trace length.** The trace is not one entry per agent call. An iteration
  that reports or invokes an action adds two entries, so the trace holds
  between `calls` and `2 * calls` entries (`RunBounds`).
- **Failed requests.** The history does not always alternate. A failed request
  leaves the user message without a reply, and the next call that reaches the
  service sends two user messages in a row
  (`FailedRequestBreaksAlternation`).
- **No key.** A missing API key is not a distinct terminal outcome. The error
  text is treated as ordinary unrecognised output, so the loop runs out its
  budget (`NoKeyExhausts`).

## Model

| member | source | states |
|---|---|---|
| `AgentLogic.Agent.constructor` | agent/agent_logic.py:89-90 | A new agent's history is exactly one system message holding the prompt. |
| `AgentLogic.Agent.Call` | agent/agent_logic.py:92-108 | Without a key the history is unchanged and the missing-key error is returned. When the request succeeds, exactly the user message and the reply are appended and the reply is returned. When it fails, only the user message is appended and the error text is returned. |
| `AgentLogic.RespondAppends` | agent/agent_logic.py:92-108 | A call only appends to the history, and at most two messages. |
| `AgentLogic.RespondKeepsSettled` | agent/agent_logic.py:96-107 | A call without a key, or with a successful request, keeps the history in system/user/assistant alternation and ready for the next user message. |
| `AgentLogic.FailedRequestBreaksAlternation` | agent/agent_logic.py:96-105 | After a failed request only the user message is added, and the next call with a key, successful or not, leaves a history that no longer alternates. |
| `Text.ToLower` | agent/agent_logic.py:137 | Lower-casing one character yields no capital letter and keeps word characters word characters. |
| `Text.Lower` | agent/agent_logic.py:137 | Lower-casing keeps the length. |
| `Text.LowerIdentity` | agent/agent_logic.py:137 | Lower-casing a string with no capital letters changes nothing. |
| `Text.SkipWhile` | agent/agent_logic.py:111 | A greedy run of a character class ends at the first character outside it, or at the end. |
| `Text.SkipWhileUnique` | agent/agent_logic.py:111 | The greedy run is the only run that ends at a character outside the class. |
| `Text.TrimEnd` | agent/agent_logic.py:123 | The trailing whitespace run before `hi` is maximal and reaches no lower than `lo`. |
| `Text.StripBounds` | agent/agent_logic.py:123 | The kept slice is bounded by whitespace-only prefixes and suffixes and starts and ends on non-whitespace. It is empty only at the end of the string. |
| `Text.Strip` | agent/agent_logic.py:123 | `strip()` is empty exactly when the string is blank. Otherwise it starts and ends with non-whitespace, and it is never longer. |
| `Text.StripUnpadded` | agent/agent_logic.py:127 | Stripping a string with no whitespace at either end returns it unchanged. |
| `Text.StripExact` | agent/agent_logic.py:127 | `strip()` returns exactly the slice between the leading and trailing whitespace runs. |
| `Text.FindFrom` | agent/agent_logic.py:126-127 | The first occurrence at or after `from`, or None exactly when there is none. |
| `Text.Find` | agent/agent_logic.py:126-127 | None exactly when the substring test `in` is false. Otherwise the first occurrence, which `split(sep, 1)` splits at. |
| `Text.ContainsHasChar` | agent/agent_logic.py:126 | A string containing a pattern contains each of the pattern's characters. |
| `Text.FirstOccurrenceUnique` | agent/agent_logic.py:127 | There is only one first occurrence. |
| `OutputParser.MatchAt` | agent/agent_logic.py:111 | An anchored match succeeds exactly when `Action:` is followed by whitespace and a word character. Its spans are the greedy ones: the name group is a maximal `\w` run, and the argument group is present exactly when a `:` follows the name and runs to the end of the line. |
| `OutputParser.MatchAtSpans` | agent/agent_logic.py:111 | Spans satisfying the greedy description are exactly those the match reports. |
| `OutputParser.SearchFrom` | agent/agent_logic.py:130 | The search returns the match at the leftmost position where one exists, and None exactly when there is none. |
| `OutputParser.LeftmostUnique` | agent/agent_logic.py:130 | There is only one leftmost match. |
| `OutputParser.ActionLineHasTag` | agent/agent_logic.py:130 | Output without `Action:` has no action line. |
| `OutputParser.LeftmostExists` | agent/agent_logic.py:130-132 | Every output with an action line has a leftmost one, so the classification cases are exhaustive. |
| `OutputParser.Classify` | agent/agent_logic.py:123-124 | An output is classified blank exactly when it is whitespace only. |
| `OutputParser.ClassifyAnswer` | agent/agent_logic.py:126-128 | A non-blank output containing `Answer:` is a final answer: the stripped text after the first occurrence. This holds whatever action lines it also holds. |
| `OutputParser.ClassifyMissingPause` | agent/agent_logic.py:130-135 | A non-blank output with no answer and an action line but no `PAUSE` is a protocol error. |
| `OutputParser.ClassifyInvocation` | agent/agent_logic.py:130-138 | With `PAUSE` present, the leftmost match gives an invocation. Its name is the lower-cased word run and its argument is the stripped group 2, or None when the group is absent or empty. |
| `OutputParser.ClassifyUnrecognised` | agent/agent_logic.py:126-132 | A non-blank output with neither `Answer:` nor an action line falls through every branch. |
| `OutputParser.ScenarioArgOnNextLine` | agent/agent_logic.py:111 | `"Action: foo:\nPAUSE"` invokes `foo` with argument `"PAUSE"`, because `\s*` crosses the line feed. |
| `OutputParser.ScenarioAnswer` | agent/agent_logic.py:126-127 | `"Answer: The dataset has 120 rows."` answers `"The dataset has 120 rows."`. |
| `OutputParser.ScenarioUnsupported` | agent/agent_logic.py:137-138 | `"Action: frobnicate\nPAUSE"` invokes `frobnicate` with no argument, because the line ends without `:`. |
| `OutputParser.ScenarioMissingPause` | agent/agent_logic.py:134-135 | `"Action: column_mean: age"` without `PAUSE` is a protocol error. |
| `Actions.ColumnNames` | agent/actions.py:26 | A label is among `df.columns` exactly when some column carries it. |
| `Actions.IndexOf` | agent/actions.py:28 | A present label selects its first column. |
| `Actions.ColumnGuard` | agent/actions.py:26-27 | A column action given no column, or a label the frame lacks, returns `"Column not found."`. The same guard applies at lines 31-32, 36-37 and 41-42. |
| `Actions.ColumnFound` | agent/actions.py:25-43 | Given a present label, `column_mean`, `column_min`, `column_max` and `value_counts` return that column's statistic. |
| `Actions.MissingEntriesExact` | agent/actions.py:17-20 | The comprehension keeps exactly the columns with a positive missing count, each with its count, and nothing else. |
| `Actions.MissingValuesExact` | agent/actions.py:16-20 | `missing_values` reports a label with count `n` exactly when some column has that label and `n > 0` missing values. |
| `Actions.OverviewAgrees` | agent/actions.py:5-11 | The overview is a dict. Its `rows` equals `number_of_rows` and its `columns` equals `number_of_columns` (lines 48-52). |
| `Actions.ArgumentIgnored` | agent/actions.py:5-52 | Every action except the four column actions returns the same result whatever its argument. |
| `Actions.RegistrySize` | agent/actions.py:68-81 | The registry holds exactly twelve keys. |
| `Actions.RegistryHasNames` | agent/actions.py:68-81 | Every registry function is stored under its own name. |
| `Actions.RegistryKeysAreNames` | agent/actions.py:68-81 | Every key names the function stored under it. |
| `Actions.RegistryKeys` | agent/actions.py:68-81 | The registry is exactly the map from each function's name to that function. |
| `Actions.NameChars` | agent/actions.py:68-81 | Every name is a non-empty run of lower-case letters and underscores. |
| `Actions.NameIsLower` | agent/actions.py:68-81 | Lower-casing a function's name leaves it unchanged. |
| `Actions.NameIsWord` | agent/actions.py:68-81 | Every name is a non-empty run of word characters. |
| `Actions.KeysAreLowerWords` | agent/actions.py:68-81 | Every key is lower case and a non-empty `\w` run, so the lower-cased lookup at agent/agent_logic.py:140 can reach every entry. |
| `Actions.CaseInsensitiveLookup` | agent/agent_logic.py:137-140 | A name that differs from a registry name only in the case of some ASCII letters is lowered onto that name, and the lookup finds that name's action. |
| `AgentLogic.DispatchFacts` | agent/agent_logic.py:123-158 | Handling an output never touches the history. It stops exactly on blank, answer and missing-`PAUSE` output, leaving the state as recorded. It adds one trace entry for an action and none otherwise. Unrecognised output changes nothing, not even `next_input`. Only the plotting action changes `images`. |
| `AgentLogic.BlankStops` | agent/agent_logic.py:123-124 | A blank output stops the loop with the empty-response message. |
| `AgentLogic.AnswerStops` | agent/agent_logic.py:126-128 | An output containing `Answer:` stops the loop with the stripped text after it. No action is invoked. |
| `AgentLogic.MissingPauseStops` | agent/agent_logic.py:130-135 | An action line without `PAUSE` stops the loop with the protocol error. No action is invoked. |
| `AgentLogic.UnknownActionReported` | agent/agent_logic.py:137-144 | An unknown lower-cased name adds the "not supported" diagnostic to the trace, makes `Observation: ` plus that diagnostic the next input, and continues. |
| `AgentLogic.KnownActionInvoked` | agent/agent_logic.py:137-158 | A known name invokes its action with the argument. The trace gains `Observation (JSON): ` plus the serialised result, the next input becomes `Observation: ` plus it, and `images` changes only for `plot_numeric_columns`. |
| `AgentLogic.UnrecognisedResubmits` | agent/agent_logic.py:130-132 | Output with neither an answer nor an action line continues with the same `next_input`. |
| `AgentLogic.UnsupportedReported` | agent/agent_logic.py:140-144 | `"Action: frobnicate\nPAUSE"` is reported as unsupported, and the loop continues. |
| `AgentLogic.StepBounds` | agent/agent_logic.py:119-158 | One iteration makes one agent call, adds one or two trace entries and at most two messages, and only appends to the trace. |
| `AgentLogic.StepAnswers` | agent/agent_logic.py:120-128 | A successful reply containing `Answer:` ends the iteration with that answer. The exchange is added to the history and the reply to the trace. |
| `AgentLogic.RunFromBounds` | agent/agent_logic.py:119-165 | A run from any state makes at most `fuel` agent calls, and exactly that many when it gives up. Each call adds one or two trace entries and at most two messages. The trace only grows. |
| `AgentLogic.RunBounds` | agent/agent_logic.py:119-165 | `query_loop` calls the agent at most `max_iters` times, and exactly that often when it gives up. Its trace holds between one and two entries per call. |
| `AgentLogic.DispatchImages` | agent/agent_logic.py:146-157 | The only value that can reach `images` is the plotting action's list of paths, and the step that sets it also traces that observation. |
| `AgentLogic.RunFromImages` | agent/agent_logic.py:117-158 | Along a run, `images` stays `None` or holds the plotting action's paths. |
| `AgentLogic.ImagesKept` | agent/agent_logic.py:146-158 | Once `images` holds the plotting action's paths, every later iteration leaves it holding them, so with `KnownActionInvoked` the last plotting call decides `images`. |
| `AgentLogic.RunFromImagesTraced` | agent/agent_logic.py:117-158 | A run that changes `images` has the plotting action's JSON observation in the part of the trace it added. |
| `AgentLogic.RunImages` | agent/agent_logic.py:117-165 | `query_loop` returns as its images either `None` or the plotting action's paths. It returns the paths only when the plotting action's JSON observation is in the returned trace. |
| `AgentLogic.ClassifyNoKeyError` | agent/agent_logic.py:93-94 | The missing-key message contains neither `Answer:` nor an action line, so it falls through every branch. |
| `AgentLogic.RunFromNoKey` | agent/agent_logic.py:93-94 | Without a key, every iteration traces the missing-key message and resubmits the same input until the budget runs out. |
| `AgentLogic.NoKeyExhausts` | agent/agent_logic.py:93-94 | Without a key, `query_loop` gives up after `max_iters` turns. Its trace is the missing-key message `max_iters` times, and it sends nothing to the service. |
| `AgentLogic.QueryLoopWith` | agent/agent_logic.py:113-165 | The `for` loop over an `Agent` returns the answer, the trace and the images of `RunFrom` from the initial state with budget `max_iters`. Its body has the source's branch chain: return on blank, answer and missing `PAUSE`; otherwise report or invoke the action and continue. |
| `AgentLogic.QueryLoop` | agent/agent_logic.py:113-165 | `query_loop` returns the answer, the trace and the images that `Run` describes. `max_iters` defaults to 8. |

## Left out

- Client construction, `.env` loading and the environment read are not modelled. The chat-completion call is a `Backend` parameter returning `Ok(text)` or `Fail(error)`, and the key's presence is a boolean.
- The text of the system prompt is a parameter. It has no control flow.
- `json.dumps(..., default=str)` and its `str` fallback are one total `serialize` parameter, so serialisation never fails in the model.
- The pandas computations (`describe`, `mean`, `min`, `max`, `value_counts`, `corr`, `duplicated`) are floating-point library calls. They are opaque values carried by the `Dataset`.
- `plot_numeric_columns` writes files through matplotlib. Its result is the dataset's `plotPaths`, so the file writes and the loop that builds the list are not modelled.
- Unicode semantics are not modelled. `\w` and `lower()` cover ASCII only. `\s` and `strip()` use the full Python whitespace set.
- A reply whose content is `None` is not modelled. The backend always yields a string.
- The app's user interface and CSV loading are not part of this model.
- Duplicate column labels are not modelled. `ColumnFound` is stated for the first column with a label, which is what a label lookup reaches when labels are unique.
- Only `Run` and `QueryLoop` use `Classify`. The other loop lemmas take the classifier as a parameter. `StepAnswers` and the classification lemmas connect the two.
- KnownActionInvoked: actions are assumed to return normally. At agent/agent_logic.py:146 the registry call is outside any `try`, so an exception from pandas leaves `query_loop` and the trace is lost. An example is `mean` on a text column at agent/actions.py:28. The model has no raised result, so every known action yields a `Value` and the loop continues.

/**
 * The conversation session and the reasoning loop.  `Agent` keeps the
 * message history and, when the API key is set, makes one round trip to
 * the chat-completion service per call; `QueryLoop` drives it
 * for at most `maxIters` turns, classifying each output and dispatching
 * actions to the registry.  The chat-completion service, the presence of the
 * API key, the system prompt and the JSON serialiser are parameters.
 */
module AgentLogic {
  import opened Wrappers
  import opened Text
  import opened OutputParser
  import opened Actions

  datatype Role = System | User | Assistant
  datatype Message = Message(role: Role, content: string)

  /** What the chat-completion request yields: the reply text, or the text
      of the exception it raised. */
  datatype Reply = Ok(text: string) | Fail(error: string)

  type Backend = seq<Message> -> Reply

  const NoKeyError := "Error: GROQ_API_KEY not set in .env file."
  const ApiErrorPrefix := "Error calling LLM API: "

  /** The history after one call, and what the call returned. */
  datatype Turn = Turn(history: seq<Message>, output: string)

  /** One `Agent.__call__` on history `h`: without a key nothing is appended;
      otherwise the user message is appended before the request, and the
      reply only if the request succeeds. */
  function Respond(h: seq<Message>, hasKey: bool, backend: Backend, message: string): Turn {
    if !hasKey then Turn(h, NoKeyError)
    else
      var asked := h + [Message(User, message)];
      match backend(asked)
      case Ok(text) => Turn(asked + [Message(Assistant, text)], text)
      case Fail(e) => Turn(asked, ApiErrorPrefix + e)
  }

  class Agent {
    var messages: seq<Message>
    const hasKey: bool
    const backend: Backend

    /** A new agent holds the system prompt and nothing else. */
    constructor (systemPrompt: string, hasKey: bool, backend: Backend)
      ensures messages == [Message(System, systemPrompt)]
      ensures this.hasKey == hasKey && this.backend == backend
    {
      messages := [Message(System, systemPrompt)];
      this.hasKey := hasKey;
      this.backend := backend;
    }

    method Call(message: string) returns (output: string)
      modifies this
      ensures Turn(messages, output) == Respond(old(messages), hasKey, backend, message)
      ensures !hasKey ==> messages == old(messages) && output == NoKeyError
      ensures hasKey && backend(old(messages) + [Message(User, message)]).Ok? ==>
        messages == old(messages) + [Message(User, message), Message(Assistant, output)]
      ensures hasKey && backend(old(messages) + [Message(User, message)]).Fail? ==>
        messages == old(messages) + [Message(User, message)]
    {
      if !hasKey {
        return NoKeyError;
      }
      messages := messages + [Message(User, message)];
      var reply := backend(messages);
      match reply
      case Fail(e) =>
        output := ApiErrorPrefix + e;
      case Ok(text) =>
        messages := messages + [Message(Assistant, text)];
        output := text;
    }
  }

  /** The system message, then user and assistant messages in turn. */
  ghost predicate Alternating(h: seq<Message>) {
    && |h| >= 1
    && h[0].role == System
    && forall i :: 1 <= i < |h| ==> h[i].role == (if i % 2 == 1 then User else Assistant)
  }

  /** An alternating history that is waiting for the next user message. */
  ghost predicate Settled(h: seq<Message>) {
    Alternating(h) && |h| % 2 == 1
  }

  /** A call only appends, and at most two messages. */
  lemma RespondAppends(h: seq<Message>, hasKey: bool, backend: Backend, message: string)
    ensures var t := Respond(h, hasKey, backend, message);
      |h| <= |t.history| <= |h| + 2 && t.history[..|h|] == h
  {
  }

  /** A call without a key or with a successful request leaves a settled
      history settled. */
  lemma RespondKeepsSettled(h: seq<Message>, hasKey: bool, backend: Backend, message: string)
    requires Settled(h)
    requires hasKey ==> backend(h + [Message(User, message)]).Ok?
    ensures Settled(Respond(h, hasKey, backend, message).history)
  {
    var t := Respond(h, hasKey, backend, message);
    if hasKey {
      assert t.history == h + [Message(User, message), Message(Assistant, t.output)];
      forall i | 1 <= i < |t.history|
        ensures t.history[i].role == (if i % 2 == 1 then User else Assistant)
      {
        if i < |h| {
          assert t.history[i] == h[i];
        }
      }
    }
  }

  /** A failed request leaves the user message without a reply, so the next
      call that reaches the service sends two user messages in a row. */
  lemma FailedRequestBreaksAlternation(h: seq<Message>, backend: Backend, m1: string, m2: string)
    requires Settled(h)
    requires backend(h + [Message(User, m1)]).Fail?
    ensures var h1 := Respond(h, true, backend, m1).history;
      h1 == h + [Message(User, m1)] && !Alternating(Respond(h1, true, backend, m2).history)
  {
    var h1 := Respond(h, true, backend, m1).history;
    var h2 := Respond(h1, true, backend, m2).history;
    assert h2[|h|].role == User && h2[|h| + 1].role == User;
  }

  const EmptyResponse := "Model returned empty response."
  const ProtocolError := "Protocol error: Model must output PAUSE after Action."
  const TooManySteps :=
    "The agent stopped after too many reasoning steps. "
    + "This query may not be supported yet. Please try one of the available actions above."
  const ObservationPrefix := "Observation: "
  const JsonObservationPrefix := "Observation (JSON): "
  const PlotAction := PlotNumericColumns.Name()
  const DefaultMaxIters := 8

  /** The diagnostic for a name the registry lacks. */
  function Unsupported(name: string): string {
    "Unable to perform action '" + name + "' \U{2014} this action is not supported."
  }

  /** What the loop takes from its surroundings: the system prompt, whether
      the API key is set, the chat-completion service, and the serialiser
      (`json.dumps(..., default=str)` with its `str` fallback). */
  datatype Env = Env(systemPrompt: string, hasKey: bool, backend: Backend, serialize: Value -> string)

  /** How the loop ends. */
  datatype Outcome = Answered(answer: string) | EmptyOutput | PauseMissing | Exhausted
  {
    /** The string `query_loop` returns first. */
    function Returned(): string {
      match this
      case Answered(a) => a
      case EmptyOutput => EmptyResponse
      case PauseMissing => ProtocolError
      case Exhausted => TooManySteps
    }
  }

  /** The loop's variables between iterations; `calls` counts agent calls,
      one per iteration. */
  datatype LoopState = LoopState(history: seq<Message>, nextInput: string, steps: seq<string>,
                                 images: Option<Value>, calls: nat)

  datatype StepResult = Stop(outcome: Outcome, state: LoopState) | Go(state: LoopState)

  /** The state once a call has returned: the agent's new history, the raw
      output at the end of the trace, one more agent call. */
  function Record(st: LoopState, turn: Turn): LoopState {
    st.(history := turn.history, steps := st.steps + [turn.output], calls := st.calls + 1)
  }

  /** What the loop does with a classified output, once it is recorded. */
  function Dispatch(env: Env, df: Dataset, st: LoopState, c: Classification): StepResult {
    match c
    case Blank => Stop(EmptyOutput, st)
    case FinalAnswer(a) => Stop(Answered(a), st)
    case MissingPause => Stop(PauseMissing, st)
    case Unrecognised => Go(st)
    case Invocation(name, arg) =>
      if name !in KnownActions then
        var message := Unsupported(name);
        Go(st.(steps := st.steps + [message], nextInput := ObservationPrefix + message))
      else
        var observation := Invoke(KnownActions[name], df, arg);
        var serialized := env.serialize(observation);
        Go(st.(steps := st.steps + [JsonObservationPrefix + serialized],
               nextInput := ObservationPrefix + serialized,
               images := if name == PlotAction then Some(observation) else st.images))
  }

  /** One iteration of the loop, for a given way of classifying outputs. */
  function Step(env: Env, df: Dataset, classify: string -> Classification, st: LoopState): StepResult {
    var turn := Respond(st.history, env.hasKey, env.backend, st.nextInput);
    Dispatch(env, df, Record(st, turn), classify(turn.output))
  }

  datatype LoopResult = LoopResult(outcome: Outcome, state: LoopState)

  /** At most `fuel` more iterations from `st`. */
  function RunFrom(env: Env, df: Dataset, classify: string -> Classification, st: LoopState, fuel: nat): LoopResult
    decreases fuel
  {
    if fuel == 0 then LoopResult(Exhausted, st)
    else match Step(env, df, classify, st)
      case Stop(o, st') => LoopResult(o, st')
      case Go(st') => RunFrom(env, df, classify, st', fuel - 1)
  }

  /** `range(maxIters)` runs this many times. */
  function Budget(maxIters: int): nat {
    if maxIters > 0 then maxIters else 0
  }

  function Start(env: Env, question: string): LoopState {
    LoopState([Message(System, env.systemPrompt)], question, [], None, 0)
  }

  /** The whole of `query_loop`, as a function. */
  function Run(env: Env, question: string, df: Dataset, maxIters: int): LoopResult {
    RunFrom(env, df, Classify, Start(env, question), Budget(maxIters))
  }

  /** Dispatching never calls the agent or touches the history; it stops
      exactly on the three terminal classes, leaving the state as recorded;
      it adds one trace entry for an action and none otherwise; output that
      matches nothing leaves everything, `next_input` included, unchanged;
      and only a call of the plotting action replaces the images. */
  lemma DispatchFacts(env: Env, df: Dataset, st: LoopState, c: Classification)
    ensures var r := Dispatch(env, df, st, c);
      && r.state.calls == st.calls && r.state.history == st.history
      && (r.Stop? <==> c.Blank? || c.FinalAnswer? || c.MissingPause?)
      && (r.Stop? || c.Unrecognised? ==> r.state == st)
      && |r.state.steps| == |st.steps| + (if c.Invocation? then 1 else 0)
      && r.state.steps[..|st.steps|] == st.steps
      && (r.state.images != st.images ==> c.Invocation? && c.name == PlotAction)
  {
  }

  /** One iteration makes one agent call, adds one or two trace entries and
      at most two messages, and only appends. */
  lemma StepBounds(env: Env, df: Dataset, classify: string -> Classification, st: LoopState)
    ensures var s := Step(env, df, classify, st).state;
      && s.calls == st.calls + 1
      && |st.steps| + 1 <= |s.steps| <= |st.steps| + 2
      && |s.history| <= |st.history| + 2
      && s.steps[..|st.steps|] == st.steps
  {
    var turn := Respond(st.history, env.hasKey, env.backend, st.nextInput);
    RespondAppends(st.history, env.hasKey, env.backend, st.nextInput);
    DispatchFacts(env, df, Record(st, turn), classify(turn.output));
  }

  /** What a run from `st` can do: it makes at most `fuel` agent calls, all
      of them when it runs out of budget; each adds one or two trace entries
      and at most two messages; the trace only grows. */
  lemma {:induction false} RunFromBounds(env: Env, df: Dataset, classify: string -> Classification,
                                         st: LoopState, fuel: nat)
    ensures var r := RunFrom(env, df, classify, st, fuel);
      && st.calls <= r.state.calls <= st.calls + fuel
      && |st.steps| + (r.state.calls - st.calls) <= |r.state.steps| <= |st.steps| + 2 * (r.state.calls - st.calls)
      && |r.state.history| <= |st.history| + 2 * (r.state.calls - st.calls)
      && r.state.steps[..|st.steps|] == st.steps
      && (r.outcome.Exhausted? ==> r.state.calls == st.calls + fuel)
      && (!r.outcome.Exhausted? ==> r.state.calls > st.calls)
    decreases fuel
  {
    if fuel > 0 {
      StepBounds(env, df, classify, st);
      var step := Step(env, df, classify, st);
      if step.Go? {
        var st' := step.state;
        RunFromBounds(env, df, classify, st', fuel - 1);
        var r := RunFrom(env, df, classify, st', fuel - 1).state;
        assert r.steps[..|st.steps|] == r.steps[..|st'.steps|][..|st.steps|];
      }
    }
  }

  /** `query_loop` calls the agent at most `maxIters` times and exactly that
      often when it gives up; its trace holds at most two entries per call. */
  lemma RunBounds(env: Env, question: string, df: Dataset, maxIters: int)
    ensures var r := Run(env, question, df, maxIters);
      && r.state.calls <= Budget(maxIters)
      && r.state.calls <= |r.state.steps| <= 2 * r.state.calls
      && |r.state.history| <= 1 + 2 * r.state.calls
      && (r.outcome.Exhausted? ==> r.state.calls == Budget(maxIters))
      && (!r.outcome.Exhausted? ==> r.state.calls >= 1)
  {
    RunFromBounds(env, df, Classify, Start(env, question), Budget(maxIters));
  }

  /** A blank output ends the loop with the empty-response message, before
      any other check. */
  lemma BlankStops(env: Env, df: Dataset, st: LoopState, s: string)
    requires IsBlank(s)
    ensures Dispatch(env, df, st, Classify(s)) == Stop(EmptyOutput, st)
  {
  }

  /** An output containing `Answer:` ends the loop with the stripped text
      after the first occurrence, whatever action lines it also holds; no
      action is invoked and nothing else is recorded. */
  lemma AnswerStops(env: Env, df: Dataset, st: LoopState, s: string, p: nat)
    requires !IsBlank(s) && FirstOccurrence(s, AnswerTag, p)
    ensures Dispatch(env, df, st, Classify(s)) == Stop(Answered(Strip(s[p + |AnswerTag|..])), st)
  {
    ClassifyAnswer(s, p);
  }

  /** An action line in an output without `PAUSE` ends the loop with the
      protocol error, and no action is invoked. */
  lemma MissingPauseStops(env: Env, df: Dataset, st: LoopState, s: string)
    requires !IsBlank(s) && !Contains(s, AnswerTag)
    requires HasActionLine(s) && !Contains(s, PauseTag)
    ensures Dispatch(env, df, st, Classify(s)) == Stop(PauseMissing, st)
  {
    ClassifyMissingPause(s);
  }

  /** With `PAUSE` present, the leftmost action line decides: a lower-cased
      name the registry lacks adds the diagnostic to the trace and sends it
      back as the observation, and nothing is invoked. */
  lemma UnknownActionReported(env: Env, df: Dataset, st: LoopState, s: string, m: ActionMatch)
    requires !IsBlank(s) && !Contains(s, AnswerTag)
    requires Leftmost(s, m) && Contains(s, PauseTag)
    requires m.nameStart <= m.nameEnd <= |s| && Lower(s[m.nameStart..m.nameEnd]) !in KnownActions
    ensures var name := Lower(s[m.nameStart..m.nameEnd]);
      Dispatch(env, df, st, Classify(s))
      == Go(st.(steps := st.steps + [Unsupported(name)], nextInput := ObservationPrefix + Unsupported(name)))
  {
    ClassifyInvocation(s, m);
  }

  /** A known name is invoked once, with the argument; its serialised result
      is traced and sent back, and the images change only for the plotting
      action. */
  lemma KnownActionInvoked(env: Env, df: Dataset, st: LoopState, s: string, m: ActionMatch)
    requires !IsBlank(s) && !Contains(s, AnswerTag)
    requires Leftmost(s, m) && Contains(s, PauseTag)
    requires m.nameStart <= m.nameEnd <= |s| && Lower(s[m.nameStart..m.nameEnd]) in KnownActions
    ensures var name := Lower(s[m.nameStart..m.nameEnd]);
      var observation := Invoke(KnownActions[name], df, Argument(s, m));
      Dispatch(env, df, st, Classify(s))
      == Go(st.(steps := st.steps + [JsonObservationPrefix + env.serialize(observation)],
                nextInput := ObservationPrefix + env.serialize(observation),
                images := if name == PlotAction then Some(observation) else st.images))
  {
    ClassifyInvocation(s, m);
  }

  /** Output with neither `Answer:` nor an action line ends nothing and
      changes nothing: the same `next_input` is sent again. */
  lemma UnrecognisedResubmits(env: Env, df: Dataset, st: LoopState, s: string)
    requires !IsBlank(s) && !Contains(s, AnswerTag) && !HasActionLine(s)
    ensures Dispatch(env, df, st, Classify(s)) == Go(st)
  {
    ClassifyUnrecognised(s);
  }

  /** The one observation that reaches `images` is the plotting action's
      list of paths, and the step that puts it there also traces it. */
  lemma DispatchImages(env: Env, df: Dataset, st: LoopState, c: Classification)
    ensures var r := Dispatch(env, df, st, c).state;
      && (r.images == st.images || r.images == Some(PathList(df.plotPaths)))
      && (r.images != st.images ==>
            r.steps == st.steps + [JsonObservationPrefix + env.serialize(PathList(df.plotPaths))])
  {
    RegistryKeys();
    assert KnownActions[PlotNumericColumns.Name()] == PlotNumericColumns;
  }

  /** Along a run, `images` is only ever `None` or the plotting action's
      paths. */
  lemma {:induction false} RunFromImages(env: Env, df: Dataset, classify: string -> Classification,
                                         st: LoopState, fuel: nat)
    requires st.images == None || st.images == Some(PathList(df.plotPaths))
    ensures var images := RunFrom(env, df, classify, st, fuel).state.images;
      images == None || images == Some(PathList(df.plotPaths))
    decreases fuel
  {
    if fuel > 0 {
      var turn := Respond(st.history, env.hasKey, env.backend, st.nextInput);
      DispatchImages(env, df, Record(st, turn), classify(turn.output));
      var step := Step(env, df, classify, st);
      if step.Go? {
        RunFromImages(env, df, classify, step.state, fuel - 1);
      }
    }
  }

  /** Once `images` holds the plotting action's paths, it keeps them for the
      rest of the run: every later dispatch leaves them or sets them again. */
  lemma {:induction false} ImagesKept(env: Env, df: Dataset, classify: string -> Classification,
                                      st: LoopState, fuel: nat)
    requires st.images == Some(PathList(df.plotPaths))
    ensures RunFrom(env, df, classify, st, fuel).state.images == Some(PathList(df.plotPaths))
    decreases fuel
  {
    if fuel > 0 {
      var turn := Respond(st.history, env.hasKey, env.backend, st.nextInput);
      DispatchImages(env, df, Record(st, turn), classify(turn.output));
      var step := Step(env, df, classify, st);
      if step.Go? {
        ImagesKept(env, df, classify, step.state, fuel - 1);
      }
    }
  }

  /** A run that changes `images` has the plotting action's observation in
      the part of the trace it added. */
  lemma {:induction false} RunFromImagesTraced(env: Env, df: Dataset, classify: string -> Classification,
                                               st: LoopState, fuel: nat)
    ensures var r := RunFrom(env, df, classify, st, fuel).state;
      r.images != st.images ==>
        exists i :: |st.steps| <= i < |r.steps|
                    && r.steps[i] == JsonObservationPrefix + env.serialize(PathList(df.plotPaths))
    decreases fuel
  {
    if fuel > 0 {
      var turn := Respond(st.history, env.hasKey, env.backend, st.nextInput);
      var recorded := Record(st, turn);
      DispatchImages(env, df, recorded, classify(turn.output));
      var step := Step(env, df, classify, st);
      var entry := JsonObservationPrefix + env.serialize(PathList(df.plotPaths));
      if step.Go? {
        var st' := step.state;
        RunFromImagesTraced(env, df, classify, st', fuel - 1);
        RunFromBounds(env, df, classify, st', fuel - 1);
        var r := RunFrom(env, df, classify, st', fuel - 1).state;
        if st'.images != st.images {
          assert st'.steps[|st.steps| + 1] == entry;
          assert r.steps[|st.steps| + 1] == r.steps[..|st'.steps|][|st.steps| + 1];
        }
      } else if step.state.images != st.images {
        assert step.state.steps[|st.steps| + 1] == entry;
      }
    }
  }

  /** `query_loop` returns as its images either `None` or the plotting
      action's paths, and the paths only when that action's observation is in
      the trace. */
  lemma RunImages(env: Env, question: string, df: Dataset, maxIters: int)
    ensures var r := Run(env, question, df, maxIters).state;
      && (r.images == None || r.images == Some(PathList(df.plotPaths)))
      && (r.images != None ==>
            exists i :: 0 <= i < |r.steps|
                        && r.steps[i] == JsonObservationPrefix + env.serialize(PathList(df.plotPaths)))
  {
    RunFromImages(env, df, Classify, Start(env, question), Budget(maxIters));
    RunFromImagesTraced(env, df, Classify, Start(env, question), Budget(maxIters));
  }

  lemma NoKeyErrorNoAnswer(s: string)
    requires s == NoKeyError
    ensures !IsBlank(s) && !Contains(s, AnswerTag)
  {
    assert !IsSpace(s[0]);
    ContainsHasChar(s, AnswerTag, 3);
    assert 'w' !in s;
  }

  lemma NoKeyErrorNoAction(s: string)
    requires s == NoKeyError
    ensures !HasActionLine(s)
  {
    ContainsHasChar(s, ActionTag, 1);
    assert 'c' !in s;
    ActionLineHasTag(s);
  }

  /** The missing-key message holds neither `Answer:` nor an action line. */
  lemma ClassifyNoKeyError(s: string)
    requires s == NoKeyError
    ensures Classify(s) == Unrecognised
  {
    NoKeyErrorNoAnswer(s);
    NoKeyErrorNoAction(s);
    ClassifyUnrecognised(s);
  }

  /** Without a key, every iteration records the missing-key message and
      resubmits the same input, until the budget runs out. */
  lemma {:induction false} RunFromNoKey(env: Env, df: Dataset, classify: string -> Classification,
                                        st: LoopState, fuel: nat)
    requires !env.hasKey && classify(NoKeyError) == Unrecognised
    ensures RunFrom(env, df, classify, st, fuel)
            == LoopResult(Exhausted, st.(steps := st.steps + seq(fuel, _ => NoKeyError), calls := st.calls + fuel))
    decreases fuel
  {
    if fuel > 0 {
      var st' := st.(steps := st.steps + [NoKeyError], calls := st.calls + 1);
      assert Step(env, df, classify, st) == Go(st');
      RunFromNoKey(env, df, classify, st', fuel - 1);
      assert st.steps + [NoKeyError] + seq(fuel - 1, _ => NoKeyError) == st.steps + seq(fuel, _ => NoKeyError);
    }
  }

  /** Without a key, `query_loop` asks `maxIters` times, sends nothing to the
      service, traces the missing-key message once per turn, and gives up. */
  lemma NoKeyExhausts(env: Env, question: string, df: Dataset, maxIters: int)
    requires !env.hasKey
    ensures var n := Budget(maxIters);
      Run(env, question, df, maxIters)
      == LoopResult(Exhausted, LoopState([Message(System, env.systemPrompt)], question,
                                         seq(n, _ => NoKeyError), None, n))
  {
    ClassifyNoKeyError(NoKeyError);
    RunFromNoKey(env, df, Classify, Start(env, question), Budget(maxIters));
  }

  /** A reply that answers ends the iteration with that answer. */
  lemma StepAnswers(env: Env, df: Dataset, st: LoopState, s: string, p: nat)
    requires env.hasKey && env.backend(st.history + [Message(User, st.nextInput)]) == Ok(s)
    requires !IsBlank(s) && FirstOccurrence(s, AnswerTag, p)
    ensures Step(env, df, Classify, st)
            == Stop(Answered(Strip(s[p + |AnswerTag|..])),
                    st.(history := st.history + [Message(User, st.nextInput), Message(Assistant, s)],
                        steps := st.steps + [s], calls := st.calls + 1))
  {
    var turn := Respond(st.history, env.hasKey, env.backend, st.nextInput);
    assert turn == Turn(st.history + [Message(User, st.nextInput), Message(Assistant, s)], s);
    AnswerStops(env, df, Record(st, turn), s, p);
  }

  /** An unsupported action name in a well-formed action line is reported
      and the loop goes on. */
  lemma UnsupportedReported(env: Env, df: Dataset, st: LoopState, s: string)
    requires s == "Action: frobnicate\nPAUSE"
    ensures Dispatch(env, df, st, Classify(s))
            == Go(st.(steps := st.steps + [Unsupported("frobnicate")],
                      nextInput := ObservationPrefix + Unsupported("frobnicate")))
  {
    ScenarioUnsupported(s);
    RegistryKeys();
    assert "frobnicate" !in KnownActions;
  }

  /** An iteration that goes on leaves the rest of the run to the next one. */
  lemma RunFromGo(env: Env, df: Dataset, classify: string -> Classification, st: LoopState, fuel: nat,
                  turn: Turn, st': LoopState)
    requires fuel > 0 && turn == Respond(st.history, env.hasKey, env.backend, st.nextInput)
    requires Dispatch(env, df, Record(st, turn), classify(turn.output)) == Go(st')
    ensures RunFrom(env, df, classify, st, fuel) == RunFrom(env, df, classify, st', fuel - 1)
  {
  }

  /** An iteration that stops ends the run with its outcome and the recorded
      state. */
  lemma RunFromStop(env: Env, df: Dataset, classify: string -> Classification, st: LoopState, fuel: nat,
                    turn: Turn, o: Outcome)
    requires fuel > 0 && turn == Respond(st.history, env.hasKey, env.backend, st.nextInput)
    requires Dispatch(env, df, Record(st, turn), classify(turn.output)) == Stop(o, Record(st, turn))
    ensures RunFrom(env, df, classify, st, fuel) == LoopResult(o, Record(st, turn))
  {
  }

  /** The body of `query_loop`, for a given way of classifying outputs:
      at most `maxIters` iterations of asking the agent, recording its
      output and acting on the output's class, returning on the three
      terminal classes and otherwise going on to the next iteration.  It
      returns what `RunFrom` describes. */
  method QueryLoopWith(env: Env, classify: string -> Classification, question: string, df: Dataset,
                       maxIters: int)
    returns (answer: string, steps: seq<string>, images: Option<Value>)
    ensures var r := RunFrom(env, df, classify, Start(env, question), Budget(maxIters));
      answer == r.outcome.Returned() && steps == r.state.steps && images == r.state.images
  {
    var agent := new Agent(env.systemPrompt, env.hasKey, env.backend);
    steps := [];
    var nextInput := question;
    images := None;
    var n := Budget(maxIters);
    for i := 0 to n
      invariant agent.hasKey == env.hasKey && agent.backend == env.backend
      invariant RunFrom(env, df, classify, LoopState(agent.messages, nextInput, steps, images, i), n - i)
                == RunFrom(env, df, classify, Start(env, question), n)
    {
      ghost var st := LoopState(agent.messages, nextInput, steps, images, i);
      var output := agent.Call(nextInput);
      ghost var turn := Turn(agent.messages, output);
      steps := steps + [output];
      var c := classify(output);
      match c
      case Blank =>
        RunFromStop(env, df, classify, st, n - i, turn, EmptyOutput);
        return EmptyResponse, steps, images;
      case FinalAnswer(a) =>
        RunFromStop(env, df, classify, st, n - i, turn, Answered(a));
        return a, steps, images;
      case MissingPause =>
        RunFromStop(env, df, classify, st, n - i, turn, PauseMissing);
        return ProtocolError, steps, images;
      case Unrecognised =>
        RunFromGo(env, df, classify, st, n - i, turn, LoopState(agent.messages, nextInput, steps, images, i + 1));
      case Invocation(name, arg) =>
        if name !in KnownActions {
          var message := Unsupported(name);
          steps := steps + [message];
          nextInput := ObservationPrefix + message;
        } else {
          var observation := Invoke(KnownActions[name], df, arg);
          if name == PlotAction {
            images := Some(observation);
          }
          var serialized := env.serialize(observation);
          steps := steps + [JsonObservationPrefix + serialized];
          nextInput := ObservationPrefix + serialized;
        }
        RunFromGo(env, df, classify, st, n - i, turn, LoopState(agent.messages, nextInput, steps, images, i + 1));
    }
    return TooManySteps, steps, images;
  }

  /** `query_loop` itself: the loop above with outputs classified by
      `Classify`.  It returns the answer, the trace and the images of `Run`. */
  method QueryLoop(env: Env, question: string, df: Dataset, maxIters: int := DefaultMaxIters)
    returns (answer: string, steps: seq<string>, images: Option<Value>)
    ensures var r := Run(env, question, df, maxIters);
      answer == r.outcome.Returned() && steps == r.state.steps && images == r.state.images
  {
    answer, steps, images := QueryLoopWith(env, Classify, question, df, maxIters);
  }
}

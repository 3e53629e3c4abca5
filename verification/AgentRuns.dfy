/** Properties of every run of the agent loop (internal/agentruntime/agentcore.go), whatever
    the model, the sandbox, the journal and the event sink answer, and wherever they fail. */
module AgentRuns {
  import opened Conversation
  import opened History
  import opened AgentLoop

  /** A property of states and logs that every step of the protocol keeps. */
  ghost predicate Closed(req: Request, inv: (State, seq<Step>) -> bool) {
    forall s, log, answer :: Shaped(req, s) && !s.at.Stopped? && inv(s, log) ==>
      inv(Advance(req, s, answer), log + [Step(Wants(req, s), answer)])
  }

  lemma {:induction false} FinishKeeps(req: Request, s: State, h: Host, inv: (State, seq<Step>) -> bool)
    requires Shaped(req, s) && Closed(req, inv) && inv(s, h.log)
    ensures var (s', h') := Finish(req, s, h); s'.at.Stopped? && inv(s', h'.log)
    decreases |h.script|
  {
    if !s.at.Stopped? {
      if h.script == [] {
        assert inv(Advance(req, s, Failed), h.log + [Step(Wants(req, s), Failed)]);
      } else {
        assert inv(Advance(req, s, h.script[0]), h.log + [Step(Wants(req, s), h.script[0])]);
        FinishKeeps(req, Advance(req, s, h.script[0]), Host(h.script[1..], h.log + [Step(Wants(req, s), h.script[0])]),
            inv);
      }
    }
  }

  /** What a run ends with. */
  function Ended(req: Request, script: seq<Answer>): State {
    Finish(req, Begin(req), Host(script, [])).0
  }

  /** Everything a run asked of its environment, with the answers. */
  function Log(req: Request, script: seq<Answer>): seq<Step> {
    Finish(req, Begin(req), Host(script, [])).1.log
  }

  // ---------------------------------------------------------------- every request is legal

  /** A conversation the model can be asked to continue. */
  ghost predicate Callable(messages: seq<Message>) {
    Legal(messages) && messages != [] && messages[|messages| - 1].role == User
  }

  /** A conversation a parked call can be threaded back into: nothing is left unanswered. */
  ghost predicate Resumable(messages: seq<Message>) {
    && Legal(messages)
    && (messages != [] && messages[|messages| - 1].role == Assistant ==>
          Calls(messages[|messages| - 1].content) == multiset{})
  }

  lemma {:induction false} OneCall(id: string, name: string, input: string)
    ensures Calls([ToolUseBlock(id, name, input)]) == multiset{id}
    ensures !HasToolResult(Message(Assistant, [ToolUseBlock(id, name, input)], None))
  {
    IdsOfSnoc([], ToolUseBlock(id, name, input));
    assert [] + [ToolUseBlock(id, name, input)] == [ToolUseBlock(id, name, input)];
  }

  lemma {:induction false} OneAnswer(id: string, text: string, isError: bool)
    ensures Answers([ToolResultBlock(id, text, isError, [])]) == multiset{id}
  {
    IdsOfSnoc([], ToolResultBlock(id, text, isError, []));
    assert [] + [ToolResultBlock(id, text, isError, [])] == [ToolResultBlock(id, text, isError, [])];
  }

  /** Appending a call and its answers after a user message keeps a conversation legal. */
  lemma {:induction false} ExchangeLegal(messages: seq<Message>, called: seq<Block>, answered: seq<Block>)
    requires Legal(messages) && (messages != [] ==> messages[|messages| - 1].role == User)
    requires called != [] && answered != []
    requires forall b | b in called :: b.kind == "tool_use"
    ensures Legal(messages + [Message(Assistant, called, None), Message(User, answered, None)])
      <==> Calls(called) == Answers(answered)
  {
    var grown := messages + [Message(Assistant, called, None), Message(User, answered, None)];
    var n := |messages|;
    assert grown[n] == Message(Assistant, called, None) && grown[n + 1] == Message(User, answered, None);
    assert !HasToolResult(grown[n]);
    forall i | 0 <= i < n ensures grown[i] == messages[i] { }
    if Legal(grown) { assert Answers(grown[n + 1].content) == Calls(grown[n].content); }
  }

  /** Replacing the content of the last assistant message by an extension without results. */
  lemma {:induction false} FoldLegal(messages: seq<Message>, extra: seq<Block>)
    requires messages != [] && Legal(messages) && messages[|messages| - 1].role == Assistant
    requires forall b | b in extra :: b.kind != "tool_result"
    ensures var last := messages[|messages| - 1];
      Legal(messages[|messages| - 1 := Message(Assistant, last.content + extra, last.usage)])
  {
    var last := messages[|messages| - 1];
    var folded := messages[|messages| - 1 := Message(Assistant, last.content + extra, last.usage)];
    forall b | b in last.content + extra ensures b.kind != "tool_result" {
      assert !HasToolResult(last);
    }
    assert !HasToolResult(folded[|messages| - 1]);
    forall i | 0 <= i < |messages| - 1 ensures folded[i] == messages[i] { }
  }

  lemma {:induction false} SnocAnswerLegal(messages: seq<Message>, answered: seq<Block>)
    requires messages != [] && Legal(messages) && messages[|messages| - 1].role == Assistant && answered != []
    ensures Legal(messages + [Message(User, answered, None)]) <==>
        Answers(answered) == Calls(messages[|messages| - 1].content)
  {
    var grown := messages + [Message(User, answered, None)];
    var n := |messages|;
    assert grown[n] == Message(User, answered, None);
    forall i | 0 <= i < n ensures grown[i] == messages[i] { }
    if Legal(grown) { assert Answers(grown[n].content) == Calls(grown[n - 1].content); }
  }

  lemma {:induction false} MergedPair(messages: seq<Message>, a: Message, u: Message)
    requires a.role == Assistant && u.role == User
    ensures Merged(messages, [a, u]) == MergeOne(messages, a) + [u]
  {
    assert [a, u][..1] == [a] && [a][..0] == [];
    assert Merged(messages, [a]) == MergeOne(Merged(messages, []), a);
    var out := MergeOne(messages, a);
    assert out[|out| - 1].role == Assistant;
  }

  lemma {:induction false} ResumedOnAssistant(messages: seq<Message>, called: seq<Block>, answered: seq<Block>)
    requires Legal(messages) && messages != [] && messages[|messages| - 1].role == Assistant && answered != []
    requires forall b | b in called :: b.kind != "tool_result"
    requires Calls(called) == Answers(answered)
    ensures Legal(MergeOne(messages, Message(Assistant, called, None)) + [Message(User, answered, None)])
      <==> Calls(messages[|messages| - 1].content) == multiset{}
  {
    var last := messages[|messages| - 1];
    FoldLegal(messages, called);
    IdsOfConcat(last.content, called);
    SnocAnswerLegal(MergeOne(messages, Message(Assistant, called, None)), answered);
    SumCancels(Calls(called), Calls(last.content), multiset{});
  }

  /** Threading a resolved confirmation in is legal exactly when the last assistant message
      left no other call unanswered. */
  lemma {:induction false} ResumedLegal(messages: seq<Message>, id: string, name: string, input: string, text: string,
      isError: bool)
    requires Legal(messages)
    ensures Legal(Merged(messages, SeededPair(id, name, input, text, isError))) <==> Resumable(messages)
    ensures Resumable(messages) ==> Callable(Merged(messages, SeededPair(id, name, input, text, isError)))
  {
    var a := Message(Assistant, [ToolUseBlock(id, name, input)], None);
    var u := Message(User, [ToolResultBlock(id, text, isError, [])], None);
    OneCall(id, name, input);
    OneAnswer(id, text, isError);
    MergedPair(messages, a, u);
    if messages != [] && messages[|messages| - 1].role == Assistant {
      ResumedOnAssistant(messages, a.content, u.content);
    } else {
      ExchangeLegal(messages, a.content, u.content);
      assert messages + [a, u] == (messages + [a]) + [u];
    }
  }

  /** The blocks gathered so far pair up. */
  ghost predicate Paired(called: seq<Block>, answered: seq<Block>) {
    && |called| == |answered|
    && (forall b | b in called :: b.kind == "tool_use")
    && Calls(called) == Answers(answered)
  }

  /** What the machine keeps about the conversation it is growing. */
  ghost predicate Growing(req: Request, s: State) {
    || s.at.Stopped?
    || (s.resuming && Resumable(s.messages) && s.called == [] && s.answered == [])
    || (!s.resuming && Callable(s.messages) && Paired(s.called, s.answered))
  }

  lemma {:induction false} PairedSnoc(called: seq<Block>, answered: seq<Block>, call: Call, output: Output)
    requires Paired(called, answered)
    ensures Paired(called + [ToolUseBlock(call.id, call.name, call.input)], answered + [ResultFor(call, output)])
  {
    IdsOfSnoc(called, ToolUseBlock(call.id, call.name, call.input));
    IdsOfSnoc(answered, ResultFor(call, output));
  }

  lemma {:induction false} NextUseGrows(req: Request, s: State)
    requires !s.resuming && Callable(s.messages) && Paired(s.called, s.answered)
    ensures Growing(req, NextUse(req, s))
  {
    if s.uses == [] && s.parked == [] && s.called != [] {
      ExchangeLegal(s.messages, s.called, s.answered);
    }
  }

  lemma {:induction false} NothingPaired()
    ensures Paired([], [])
  {
  }

  lemma {:induction false} GrowingStep(req: Request, s: State, answer: Answer)
    requires Shaped(req, s) && !s.at.Stopped? && Growing(req, s)
    ensures Growing(req, Advance(req, s, answer))
  {
    NothingPaired();
    if answer.Failed? {
    } else if s.at.Resulting? {
      if s.resuming {
        var call, output := s.at.call, s.at.output;
        ResumedLegal(s.messages, call.id, call.name, call.input, FlattenText(output.items), output.isError);
      } else {
        PairedSnoc(s.called, s.answered, s.at.call, s.at.output);
        NextUseGrows(req, s.(uses := s.uses[1..],
          called := s.called + [ToolUseBlock(s.at.call.id, s.at.call.name, s.at.call.input)],
          answered := s.answered + [ResultFor(s.at.call, s.at.output)]));
      }
    } else if s.at.Asking? || s.at.AskingCustom? {
      if answer.Named? { NextUseGrows(req, s.(uses := s.uses[1..], parked := s.parked + [answer.id])); }
    } else if s.at.Calling? && answer.Replied? {
      UsesGrow(req, s, answer.content);
    } else if s.at.Thinking? || s.at.Speaking? {
      UsesGrow(req, s, s.at.content);
    }
  }

  lemma {:induction false} UsesGrow(req: Request, s: State, content: seq<Block>)
    requires Growing(req, s) && !s.resuming && !s.at.Stopped?
    ensures Growing(req, StartUses(req, s, content))
  {
    NothingPaired();
    NextUseGrows(req, s.(uses := ToolUses(content), called := [], answered := [], parked := []));
  }

  ghost predicate WellStarted(req: Request) {
    if req.trigger.kind.ToolConfirmationTrigger? then Resumable(req.messages) else Callable(req.messages)
  }

  lemma {:induction false} GrowingStart(req: Request)
    requires WellStarted(req)
    ensures Growing(req, Begin(req))
  {
    NothingPaired();
  }

  ghost predicate RequestsCallable(log: seq<Step>) {
    forall i :: 0 <= i < |log| && log[i].action.CallModel? ==> Callable(log[i].action.messages)
  }

  /** Every request sent to the model alternates roles, pairs every tool call with its answer
      and ends with a user message, if the conversation the run starts from did, or if a
      confirmation is threaded into one that leaves no other call unanswered. */
  lemma {:induction false} RequestsAreLegal(req: Request, script: seq<Answer>)
    requires WellStarted(req)
    ensures RequestsCallable(Log(req, script))
  {
    var inv := (s: State, log: seq<Step>) => Growing(req, s) && RequestsCallable(log);
    forall s, log, answer | Shaped(req, s) && !s.at.Stopped? && inv(s, log)
      ensures inv(Advance(req, s, answer), log + [Step(Wants(req, s), answer)])
    {
      GrowingStep(req, s, answer);
    }
    GrowingStart(req);
    FinishKeeps(req, Begin(req), Host(script, []), inv);
  }

  /** A run over a projected log: its requests are legal when every turn of the log settles,
      and it starts from the user's turn or resumes a call with no other call left open. */
  lemma {:induction false} ProjectedRequestsAreLegal(req: Request, script: seq<Answer>, events: seq<Event>)
    requires req.messages == Projection(events) && UsersReply(KeptEntries(events)) && TurnsSettle(KeptEntries(events))
    requires var es := KeptEntries(events);
      if req.trigger.kind.ToolConfirmationTrigger? then CalledIn(es) == AnsweredIn(es)
      else es != [] && es[|es| - 1].role == User
    ensures RequestsCallable(Log(req, script))
  {
    LegalProjection(events);
    var messages := req.messages;
    if messages != [] {
      FlattenNonEmpty(messages);
      if req.trigger.kind.ToolConfirmationTrigger? && messages[|messages| - 1].role == Assistant {
        NothingOpen(messages);
      }
    }
    RequestsAreLegal(req, script);
  }

  lemma {:induction false} NothingOpen(messages: seq<Message>)
    requires messages != [] && messages[|messages| - 1].role == Assistant && Alternating(messages)
        && NoEmptyMessage(messages)
    requires UsersReply(Flatten(messages)) && TurnsSettle(Flatten(messages))
        && CalledIn(Flatten(messages)) == AnsweredIn(Flatten(messages))
    ensures Calls(messages[|messages| - 1].content) == multiset{}
  {
    var init, m := messages[..|messages| - 1], messages[|messages| - 1];
    SnocShape(messages);
    SettleSnoc(Flatten(init), m);
    SettledSoFar(init);
    TaggedCalls(Flatten(init), m.content);
    SumCancels(CalledIn(Flatten(init)), Calls(m.content), multiset{});
  }

  // ---------------------------------------------------------------- every request alternates

  /** Roles alternate and the user has the last word; nothing is said about tools. */
  predicate Turned(messages: seq<Message>) {
    Alternating(messages) && messages != [] && messages[|messages| - 1].role == User
  }

  /** What the machine keeps about roles alone. */
  ghost predicate Turning(req: Request, s: State) {
    || s.at.Stopped?
    || (s.resuming && Alternating(s.messages))
    || (!s.resuming && Turned(s.messages))
  }

  lemma {:induction false} PairTurns(messages: seq<Message>, id: string, name: string, input: string, text: string,
      isError: bool)
    ensures var merged := Merged(messages, SeededPair(id, name, input, text, isError));
      (Alternating(merged) <==> Alternating(messages)) && (Alternating(messages) ==> Turned(merged))
  {
    var a := Message(Assistant, [ToolUseBlock(id, name, input)], None);
    var u := Message(User, [ToolResultBlock(id, text, isError, [])], None);
    MergedPair(messages, a, u);
    var merged := Merged(messages, SeededPair(id, name, input, text, isError));
    forall i | 0 <= i < |messages| ensures merged[i].role == messages[i].role { }
  }

  lemma {:induction false} NextUseTurns(req: Request, s: State)
    requires !s.resuming && Turned(s.messages)
    ensures Turning(req, NextUse(req, s))
  {
  }

  lemma {:induction false} UsesTurn(req: Request, s: State, content: seq<Block>)
    requires !s.resuming && Turned(s.messages)
    ensures Turning(req, StartUses(req, s, content))
  {
    NextUseTurns(req, s.(uses := ToolUses(content), called := [], answered := [], parked := []));
  }

  lemma {:induction false} TurningStep(req: Request, s: State, answer: Answer)
    requires Shaped(req, s) && !s.at.Stopped? && Turning(req, s)
    ensures Turning(req, Advance(req, s, answer))
  {
    if answer.Failed? {
    } else if s.at.Resulting? {
      if s.resuming {
        var call, output := s.at.call, s.at.output;
        PairTurns(s.messages, call.id, call.name, call.input, FlattenText(output.items), output.isError);
      } else {
        NextUseTurns(req, s.(uses := s.uses[1..],
          called := s.called + [ToolUseBlock(s.at.call.id, s.at.call.name, s.at.call.input)],
          answered := s.answered + [ResultFor(s.at.call, s.at.output)]));
      }
    } else if s.at.Asking? || s.at.AskingCustom? {
      if answer.Named? { NextUseTurns(req, s.(uses := s.uses[1..], parked := s.parked + [answer.id])); }
    } else if s.at.Calling? && answer.Replied? {
      UsesTurn(req, s, answer.content);
    } else if s.at.Thinking? || s.at.Speaking? {
      UsesTurn(req, s, s.at.content);
    }
  }

  ghost predicate RequestsTurned(log: seq<Step>) {
    forall i :: 0 <= i < |log| && log[i].action.CallModel? ==> Turned(log[i].action.messages)
  }

  ghost predicate TurnedStart(req: Request) {
    if req.trigger.kind.ToolConfirmationTrigger? then Alternating(req.messages) else Turned(req.messages)
  }

  lemma {:induction false} TurningStart(req: Request)
    requires TurnedStart(req)
    ensures Turning(req, Begin(req)) && RequestsTurned([])
  {
  }

  /** Every request alternates and ends with a user message, paired or not, if the run starts
      from such a conversation or resolves a confirmation over an alternating one. */
  lemma {:induction false} RequestsAlternate(req: Request, script: seq<Answer>)
    requires TurnedStart(req)
    ensures RequestsTurned(Log(req, script))
  {
    var inv := (s: State, log: seq<Step>) => Turning(req, s) && RequestsTurned(log);
    forall s, log, answer | Shaped(req, s) && !s.at.Stopped? && inv(s, log)
      ensures inv(Advance(req, s, answer), log + [Step(Wants(req, s), answer)])
    {
      TurningStep(req, s, answer);
    }
    TurningStart(req);
    FinishKeeps(req, Begin(req), Host(script, []), inv);
  }

  // ---------------------------------------------------------------- bounds

  function ModelCalls(log: seq<Step>): nat {
    if log == [] then 0
    else ModelCalls(log[..|log| - 1]) + if log[|log| - 1].action.CallModel? then 1 else 0
  }

  function Ordinals(log: seq<Step>): seq<nat> {
    if log == [] then []
    else
      var a := log[|log| - 1].action;
      Ordinals(log[..|log| - 1]) + if a.Prepare? then [a.ordinal] else []
  }

  lemma {:induction false} CountsSnoc(log: seq<Step>, step: Step)
    ensures ModelCalls(log + [step]) == ModelCalls(log) + if step.action.CallModel? then 1 else 0
    ensures Ordinals(log + [step]) == Ordinals(log) + if step.action.Prepare? then [step.action.ordinal] else []
  {
    assert (log + [step])[..|log|] == log;
  }

  predicate BeforeCall(at: Phase) {
    at.Confirming? || at.TurnStart? || at.Calling?
  }

  ghost predicate Bounded(s: State, log: seq<Step>) {
    && ModelCalls(log) <= MAX_TOOL_TURNS
    && (!s.at.Stopped? ==> s.turn < MAX_TOOL_TURNS)
    && (!s.at.Stopped? ==> ModelCalls(log) == s.turn + if BeforeCall(s.at) || s.resuming then 0 else 1)
  }

  ghost predicate Counted(s: State, log: seq<Step>) {
    && (forall k :: 0 <= k < |Ordinals(log)| ==> Ordinals(log)[k] == k)
    && (!s.at.Stopped? ==> |Ordinals(log)| == s.ordinal)
  }

  lemma {:induction false} NextUseTurn(req: Request, s: State)
    ensures var s' := NextUse(req, s);
      && s'.ordinal == s.ordinal && s'.resuming == s.resuming
      && (s'.at.Stopped? || (s'.at.TurnStart? && s'.turn == s.turn + 1 < MAX_TOOL_TURNS)
          || (s'.turn == s.turn && !BeforeCall(s'.at)))
  {
  }

  lemma {:induction false} StartUsesTurn(req: Request, s: State, content: seq<Block>)
    ensures var s' := StartUses(req, s, content);
      && s'.ordinal == s.ordinal && s'.resuming == s.resuming
      && (s'.at.Stopped? || (s'.at.TurnStart? && s'.turn == s.turn + 1 < MAX_TOOL_TURNS)
          || (s'.turn == s.turn && !BeforeCall(s'.at)))
  {
    if ToolUses(content) != [] {
      NextUseTurn(req, s.(uses := ToolUses(content), called := [], answered := [], parked := []));
    }
  }

  /** How one step moves through the turns. */
  lemma {:induction false} AdvanceTurn(req: Request, s: State, answer: Answer)
    requires Shaped(req, s) && !s.at.Stopped?
    ensures var s' := Advance(req, s, answer);
      || s'.at.Stopped?
      || (BeforeCall(s.at) && !s.at.Calling? && s'.turn == s.turn && (BeforeCall(s'.at) || s'.resuming))
      || (s.resuming && s'.turn == s.turn && (s'.resuming || BeforeCall(s'.at)))
      || (!s.resuming && !s.at.TurnStart? && s'.turn == s.turn && !BeforeCall(s'.at) && !s'.resuming)
      || (!s.resuming && !s.at.TurnStart? && s'.turn == s.turn + 1 < MAX_TOOL_TURNS && s'.at.TurnStart?)
    ensures Advance(req, s, answer).ordinal == s.ordinal + if s.at.Preparing? && answer.Named? then 1 else 0
  {
    if answer.Failed? {
    } else if s.at.Resulting? && !s.resuming {
      NextUseTurn(req, s.(uses := s.uses[1..],
        called := s.called + [ToolUseBlock(s.at.call.id, s.at.call.name, s.at.call.input)],
        answered := s.answered + [ResultFor(s.at.call, s.at.output)]));
    } else if (s.at.Asking? || s.at.AskingCustom?) && answer.Named? {
      NextUseTurn(req, s.(uses := s.uses[1..], parked := s.parked + [answer.id]));
    } else if s.at.Calling? && answer.Replied? {
      StartUsesTurn(req, s, answer.content);
    } else if s.at.Thinking? || s.at.Speaking? {
      StartUsesTurn(req, s, s.at.content);
    }
  }

  lemma {:induction false} WantsCall(req: Request, s: State)
    requires Shaped(req, s) && !s.at.Stopped?
    ensures Wants(req, s).CallModel? <==> s.at.Calling?
    ensures Wants(req, s).Prepare? <==> s.at.Preparing?
    ensures s.at.Preparing? ==> Wants(req, s).ordinal == s.ordinal
  {
  }

  lemma {:induction false} BoundedStep(req: Request, s: State, log: seq<Step>, answer: Answer)
    requires Shaped(req, s) && !s.at.Stopped? && Bounded(s, log)
    ensures Bounded(Advance(req, s, answer), log + [Step(Wants(req, s), answer)])
  {
    CountsSnoc(log, Step(Wants(req, s), answer));
    AdvanceTurn(req, s, answer);
    WantsCall(req, s);
  }

  lemma {:induction false} CountedStep(req: Request, s: State, log: seq<Step>, answer: Answer)
    requires Shaped(req, s) && !s.at.Stopped? && Counted(s, log)
    ensures Counted(Advance(req, s, answer), log + [Step(Wants(req, s), answer)])
  {
    CountsSnoc(log, Step(Wants(req, s), answer));
    AdvanceTurn(req, s, answer);
    WantsCall(req, s);
  }

  /** A run calls the model at most twenty times. */
  lemma {:induction false} AtMostTwentyCalls(req: Request, script: seq<Answer>)
    ensures ModelCalls(Log(req, script)) <= MAX_TOOL_TURNS
  {
    var inv := (s: State, log: seq<Step>) => Bounded(s, log);
    forall s, log, answer | Shaped(req, s) && !s.at.Stopped? && inv(s, log)
      ensures inv(Advance(req, s, answer), log + [Step(Wants(req, s), answer)])
    {
      BoundedStep(req, s, log, answer);
    }
    FinishKeeps(req, Begin(req), Host(script, []), inv);
  }

  /** The journal sees the steps of a run numbered 0, 1, 2, ... in order. */
  lemma {:induction false} OrdinalsCount(req: Request, script: seq<Answer>, k: nat)
    requires k < |Ordinals(Log(req, script))|
    ensures Ordinals(Log(req, script))[k] == k
  {
    var inv := (s: State, log: seq<Step>) => Counted(s, log);
    forall s, log, answer | Shaped(req, s) && !s.at.Stopped? && inv(s, log)
      ensures inv(Advance(req, s, answer), log + [Step(Wants(req, s), answer)])
    {
      CountedStep(req, s, log, answer);
    }
    FinishKeeps(req, Begin(req), Host(script, []), inv);
  }

  // ---------------------------------------------------------------- the order of one tool's steps

  /** Everything one tool call does: executed inline (or on a confirmation, when its use is
      already announced), or denied. */
  datatype Window =
    | Executed(ordinal: nat, call: Call, step: string, output: Output, announces: bool)
    | Denied(call: Call, output: Output)

  function Steps(w: Window): seq<Action> {
    match w
    case Denied(call, output) => [CheckContext, EmitResult(call.id, output)]
    case Executed(ordinal, call, step, output, announces) =>
      [CheckContext, Prepare(ordinal, call.id, call.name, call.input)]
      + (if announces then [EmitUse(call.id, call.name, call.input, "allow")] else [])
      + [CheckContext, StartStep(step), Execute(call.name, call.input), Complete(step, output),
          EmitResult(call.id, output)]
  }

  predicate ToolAction(a: Action) {
    a.Prepare? || (a.EmitUse? && a.permission == "allow") || a.StartStep? || a.Execute? || a.Complete? || a.EmitResult?
  }

  /** The log follows `steps` from `a` on, as far as it goes. */
  ghost predicate MatchesFrom(log: seq<Step>, a: nat, steps: seq<Action>) {
    forall k :: a <= k < a + |steps| && k < |log| ==> log[k].action == steps[k - a]
  }

  /** Where a window executes its tool. */
  function ExecuteAt(w: Window): nat {
    if w.Executed? && w.announces then 5 else 4
  }

  /** The step id and the output of a window are those its journal and its sandbox answered. */
  predicate Tied(prepared: Option<Answer>, executed: Option<Answer>, w: Window) {
    w.Executed? ==>
      && (prepared.Some? ==> prepared.value == Named(w.step))
      && (executed.Some? ==>
            && executed.value.Ran?
            && w.output == match executed.value.materializeError
                 case None => executed.value.output
                 case Some(text) => Output([Object("text", text, None, "")], true))
  }

  /** The answer to the `k`th step of a window, once it was followed by `more` further steps. */
  function AnswerAt(log: seq<Step>, a: nat, k: nat, more: nat): Option<Answer> {
    if a + k + more < |log| then Some(log[a + k].answer) else None
  }

  /** While the window runs, its answers are known at once; a step without a successor may have
      been refused. */
  ghost predicate Knows(log: seq<Step>, a: nat, w: Window) {
    Tied(AnswerAt(log, a, 1, 0), AnswerAt(log, a, ExecuteAt(w), 0), w)
  }

  ghost predicate Honours(log: seq<Step>, a: nat, w: Window) {
    Tied(AnswerAt(log, a, 1, 1), AnswerAt(log, a, ExecuteAt(w), 1), w)
  }

  ghost predicate Covers(log: seq<Step>, a: nat, w: Window, i: nat) {
    a <= i < a + |Steps(w)| && MatchesFrom(log, a, Steps(w)) && Honours(log, a, w)
  }

  /** A step is part of one tool call, which only the end of the run can cut short. */
  ghost predicate Within(log: seq<Step>, i: nat) {
    exists a: nat, w :: Covers(log, a, w, i)
  }

  ghost predicate WithinWhole(log: seq<Step>, i: nat) {
    exists a: nat, w :: Covers(log, a, w, i) && a + |Steps(w)| <= |log|
  }

  predicate InTool(at: Phase) {
    OnCall(at) || at.Announcing?
  }

  predicate Denying(req: Request, s: State) {
    s.at.Resulting? && s.resuming && req.trigger.result == "deny"
  }

  /** How many steps of the current tool call have been taken. */
  function Taken(req: Request, s: State): nat {
    var use := if s.resuming then 0 else 1;
    match s.at
    case Preparing(_) => 1
    case Announcing(_, _) => 2
    case Launching(_, _) => 2 + use
    case Starting(_, _) => 3 + use
    case Executing(_, _) => 4 + use
    case Completing(_, _, _) => 5 + use
    case Resulting(_, _) => if Denying(req, s) then 1 else 6 + use
    case _ => 0
  }

  /** `w` is a tool call the current phase can belong to. */
  predicate Fits(req: Request, s: State, w: Window) {
    match s.at
    case Resulting(call, output) =>
      if Denying(req, s) then w == Denied(call, output)
      else w.Executed? && w.call == call && w.announces == !s.resuming && w.output == output
    case Admitting(call) => w.Executed? && w.call == call && w.announces == !s.resuming && w.ordinal == s.ordinal
    case Preparing(call) => w.Executed? && w.call == call && w.announces == !s.resuming && w.ordinal == s.ordinal
    case Announcing(call, step) => w.Executed? && w.call == call && w.announces == !s.resuming && w.step == step
    case Launching(call, step) => w.Executed? && w.call == call && w.announces == !s.resuming && w.step == step
    case Starting(call, step) => w.Executed? && w.call == call && w.announces == !s.resuming && w.step == step
    case Executing(call, step) => w.Executed? && w.call == call && w.announces == !s.resuming && w.step == step
    case Completing(call, step, output) =>
      w.Executed? && w.call == call && w.announces == !s.resuming && w.step == step && w.output == output
    case _ => false
  }

  lemma {:induction false} NextOfWindow(req: Request, s: State, w: Window)
    requires Shaped(req, s) && !s.at.Stopped? && Fits(req, s, w)
    ensures InTool(s.at) && Taken(req, s) < |Steps(w)| && Wants(req, s) == Steps(w)[Taken(req, s)]
  {
  }

  /** The window as the answer extends it. */
  function Extended(s: State, w: Window, answer: Answer): Window {
    if !w.Executed? then w
    else if s.at.Preparing? && answer.Named? then w.(step := answer.id)
    else if s.at.Executing? && answer.Ran? then w.(output := Materialized(answer))
    else w
  }

  /** A denial goes straight to its result. */
  predicate Obeying(req: Request, s: State) {
    s.resuming && req.trigger.result == "deny" ==> s.at.Confirming? || s.at.Resulting? || s.at.Stopped?
  }

  lemma {:induction false} WindowExtends(req: Request, s: State, w: Window, answer: Answer)
    requires Shaped(req, s) && !s.at.Stopped? && Fits(req, s, w) && Obeying(req, s)
    ensures var s', w' := Advance(req, s, answer), Extended(s, w, answer);
      && |Steps(w')| == |Steps(w)|
      && (forall k :: 0 <= k <= Taken(req, s) ==> Steps(w')[k] == Steps(w)[k])
      && (s'.at.Stopped? || s.at.Resulting? || (Fits(req, s', w') && Taken(req, s') == Taken(req, s) + 1))
    ensures s.at.Resulting? ==> Taken(req, s) + 1 == |Steps(w)|
  {
  }

  /** The running and the final form of the ordering property. */
  ghost predicate Ordered(req: Request, s: State, log: seq<Step>) {
    if s.at.Stopped? then forall i :: 0 <= i < |log| && ToolAction(log[i].action) ==> Within(log, i)
    else
      && Obeying(req, s) && Taken(req, s) <= |log|
      && (forall i :: 0 <= i < |log| - Taken(req, s) && ToolAction(log[i].action) ==> WithinWhole(log, i))
      && (InTool(s.at) ==> exists w :: Fits(req, s, w) && Begins(log, |log| - Taken(req, s), w))
  }

  /** The log so far is the beginning of a window. */
  ghost predicate Begins(log: seq<Step>, a: nat, w: Window) {
    MatchesFrom(log, a, Steps(w)) && Knows(log, a, w)
  }

  lemma {:induction false} HonoursStays(log: seq<Step>, step: Step, a: nat, w: Window)
    requires Honours(log, a, w) && a + |Steps(w)| <= |log|
    ensures Honours(log + [step], a, w)
  {
    if w.Executed? { assert |Steps(w)| == ExecuteAt(w) + 3; }
  }

  /** A window's answers stay known as it grows. */
  lemma {:induction false} KnowsGrows(req: Request, s: State, log: seq<Step>, answer: Answer, w: Window)
    requires Shaped(req, s) && !s.at.Stopped? && Fits(req, s, w) && Taken(req, s) <= |log|
    requires Knows(log, |log| - Taken(req, s), w)
    ensures var (grown, a, w') := (log + [Step(Wants(req, s), answer)], |log| - Taken(req, s), Extended(s, w, answer));
      Honours(grown, a, w') && (!Advance(req, s, answer).at.Stopped? ==> Knows(grown, a, w'))
  {
    var n := Taken(req, s);
    var grown, a := log + [Step(Wants(req, s), answer)], |log| - n;
    if w.Executed? {
      assert s.at.Preparing? <==> n == 1;
      assert s.at.Executing? <==> n == ExecuteAt(w);
      assert forall i :: 0 <= i < |log| ==> grown[i] == log[i];
    }
  }

  lemma {:induction false} WholeStays(log: seq<Step>, step: Step, i: nat)
    requires i < |log| && WithinWhole(log, i)
    ensures WithinWhole(log + [step], i) && Within(log + [step], i)
  {
    var a: nat, w :| Covers(log, a, w, i) && a + |Steps(w)| <= |log|;
    HonoursStays(log, step, a, w);
    assert Covers(log + [step], a, w, i);
  }

  lemma {:induction false} MatchGrows(log: seq<Step>, step: Step, a: nat, w: Window, w': Window)
    requires a <= |log| && MatchesFrom(log, a, Steps(w))
    requires |Steps(w')| == |Steps(w)| && |log| - a < |Steps(w)| && step.action == Steps(w)[|log| - a]
    requires forall k :: 0 <= k <= |log| - a ==> Steps(w')[k] == Steps(w)[k]
    ensures MatchesFrom(log + [step], a, Steps(w'))
  {
    var grown := log + [step];
    forall k | a <= k < a + |Steps(w')| && k < |grown| ensures grown[k].action == Steps(w')[k - a] {
      if k < |log| { assert grown[k] == log[k]; } else { assert grown[k] == step; }
    }
  }

  lemma {:induction false} OutsideTools(req: Request, s: State)
    requires Shaped(req, s) && !s.at.Stopped? && !InTool(s.at)
    ensures !ToolAction(Wants(req, s)) && Taken(req, s) == 0
    ensures s.at.Confirming? && req.trigger.result == "deny" ==> Wants(req, s) == CheckContext
  {
  }

  /** Leaving a tool call, or outside of one, the next phase has taken none of its steps. */
  lemma {:induction false} FreshTool(req: Request, s: State, answer: Answer)
    requires Shaped(req, s) && !s.at.Stopped? && Obeying(req, s) && (!InTool(s.at) || s.at.Resulting?)
    ensures var s' := Advance(req, s, answer);
      || s'.at.Stopped?
      || !InTool(s'.at)
      || (s'.at.Admitting? && Taken(req, s') == 0)
      || (s.at.Confirming? && Denying(req, s') && Taken(req, s') == 1)
    ensures Obeying(req, Advance(req, s, answer))
  {
  }

  lemma {:induction false} FitsAdmitting(req: Request, s: State)
    requires s.at.Admitting?
    ensures Fits(req, s, Executed(s.ordinal, s.at.call, "", Output([], false), !s.resuming))
  {
  }

  lemma {:induction false} AllWhole(log: seq<Step>, step: Step)
    requires forall i :: 0 <= i < |log| && ToolAction(log[i].action) ==> WithinWhole(log, i)
    requires !ToolAction(step.action)
    ensures var grown := log + [step];
      forall i :: 0 <= i < |grown| && ToolAction(grown[i].action) ==> WithinWhole(grown, i) && Within(grown, i)
  {
    var grown := log + [step];
    forall i | 0 <= i < |grown| && ToolAction(grown[i].action) ensures WithinWhole(grown, i) && Within(grown, i) {
      assert i < |log|;
      WholeStays(log, step, i);
    }
  }

  /** The step just taken belongs, with those before it, to the window that now covers it. */
  lemma {:induction false} WindowCovers(log: seq<Step>, step: Step, a: nat, w: Window)
    requires a <= |log| < a + |Steps(w)|
    requires MatchesFrom(log + [step], a, Steps(w)) && Honours(log + [step], a, w)
    requires forall i :: 0 <= i < a && ToolAction(log[i].action) ==> WithinWhole(log, i)
    ensures var grown := log + [step];
      && (forall i :: 0 <= i < |grown| && ToolAction(grown[i].action) ==> Within(grown, i))
      && (forall i :: 0 <= i < a && ToolAction(grown[i].action) ==> WithinWhole(grown, i))
      && (|grown| == a + |Steps(w)| ==> forall i :: 0 <= i < |grown| && ToolAction(grown[i].action) ==>
          WithinWhole(grown, i) && Within(grown, i))
  {
    var grown := log + [step];
    forall i | 0 <= i < |grown| && ToolAction(grown[i].action)
      ensures Within(grown, i) && (i < a || |grown| == a + |Steps(w)| ==> WithinWhole(grown, i))
    {
      if i < a { WholeStays(log, step, i); } else { assert Covers(grown, a, w, i); }
    }
  }

  lemma {:induction false} OutsideStep(req: Request, s: State, log: seq<Step>, answer: Answer)
    requires Shaped(req, s) && !s.at.Stopped? && !InTool(s.at) && Ordered(req, s, log)
    requires s.at.Confirming? ==> log == []
    ensures Ordered(req, Advance(req, s, answer), log + [Step(Wants(req, s), answer)])
  {
    var s', step := Advance(req, s, answer), Step(Wants(req, s), answer);
    OutsideTools(req, s);
    FreshTool(req, s, answer);
    AllWhole(log, step);
    if !s'.at.Stopped? && Denying(req, s') {
      var w := Denied(s'.at.call, s'.at.output);
      assert log + [step] == [step] && Fits(req, s', w) && Begins([step], 0, w);
    } else {
      OrderedFresh(req, s', log + [step]);
    }
  }

  lemma {:induction false} InsideStep(req: Request, s: State, log: seq<Step>, answer: Answer)
    requires Shaped(req, s) && !s.at.Stopped? && InTool(s.at) && Ordered(req, s, log)
    ensures Ordered(req, Advance(req, s, answer), log + [Step(Wants(req, s), answer)])
  {
    var w :| Fits(req, s, w) && Begins(log, |log| - Taken(req, s), w);
    InsideWindow(req, s, log, answer, w);
  }

  lemma {:induction false} InsideWindow(req: Request, s: State, log: seq<Step>, answer: Answer, w: Window)
    requires Shaped(req, s) && !s.at.Stopped? && Obeying(req, s) && Taken(req, s) <= |log|
    requires Fits(req, s, w) && Begins(log, |log| - Taken(req, s), w)
    requires forall i :: 0 <= i < |log| - Taken(req, s) && ToolAction(log[i].action) ==> WithinWhole(log, i)
    ensures Ordered(req, Advance(req, s, answer), log + [Step(Wants(req, s), answer)])
  {
    InsideMoves(req, s, answer, w);
    KnowsGrows(req, s, log, answer, w);
    InsideOrdered(req, Advance(req, s, answer), log, Step(Wants(req, s), answer), |log| - Taken(req, s), w,
        Extended(s, w, answer));
  }

  /** A step inside a window takes its next action, and stays in it or has completed it. */
  lemma {:induction false} InsideMoves(req: Request, s: State, answer: Answer, w: Window)
    requires Shaped(req, s) && !s.at.Stopped? && Obeying(req, s) && Fits(req, s, w)
    ensures var s', w', n := Advance(req, s, answer), Extended(s, w, answer), Taken(req, s);
      && n < |Steps(w)| && Wants(req, s) == Steps(w)[n]
      && |Steps(w')| == |Steps(w)| && (forall k :: 0 <= k <= n ==> Steps(w')[k] == Steps(w)[k])
      && Obeying(req, s')
      && (s'.at.Stopped? || (Fits(req, s', w') && Taken(req, s') == n + 1)
          || (n + 1 == |Steps(w)| && (!InTool(s'.at) || s'.at.Admitting?)))
  {
    NextOfWindow(req, s, w);
    WindowExtends(req, s, w, answer);
    if s.at.Resulting? { FreshTool(req, s, answer); } else { StaysObeying(req, s, answer); }
  }

  lemma {:induction false} StaysObeying(req: Request, s: State, answer: Answer)
    requires Shaped(req, s) && !s.at.Stopped? && Obeying(req, s) && InTool(s.at)
    ensures Obeying(req, Advance(req, s, answer))
  {
    if s.at.Resulting? { FreshTool(req, s, answer); }
  }

  lemma {:induction false} InsideOrdered(req: Request, s': State, log: seq<Step>, step: Step, a: nat, w: Window,
      w': Window)
    requires a <= |log| < a + |Steps(w)| && MatchesFrom(log, a, Steps(w)) && step.action == Steps(w)[|log| - a]
    requires |Steps(w')| == |Steps(w)| && forall k :: 0 <= k <= |log| - a ==> Steps(w')[k] == Steps(w)[k]
    requires forall i :: 0 <= i < a && ToolAction(log[i].action) ==> WithinWhole(log, i)
    requires Obeying(req, s') && Honours(log + [step], a, w') && (!s'.at.Stopped? ==> Knows(log + [step], a, w'))
    requires || s'.at.Stopped?
             || (Fits(req, s', w') && Taken(req, s') == |log| + 1 - a)
             || (|log| + 1 == a + |Steps(w)| && (!InTool(s'.at) || s'.at.Admitting?))
    ensures Ordered(req, s', log + [step])
  {
    MatchGrows(log, step, a, w, w');
    WindowCovers(log, step, a, w');
    if s'.at.Stopped? {
    } else if Fits(req, s', w') && Taken(req, s') == |log| + 1 - a {
      OrderedInside(req, s', log + [step], w');
    } else {
      OrderedFresh(req, s', log + [step]);
    }
  }

  lemma {:induction false} OrderedInside(req: Request, s: State, log: seq<Step>, w: Window)
    requires !s.at.Stopped? && Obeying(req, s) && Taken(req, s) <= |log|
    requires Fits(req, s, w) && Begins(log, |log| - Taken(req, s), w)
    requires forall i :: 0 <= i < |log| - Taken(req, s) && ToolAction(log[i].action) ==> WithinWhole(log, i)
    ensures Ordered(req, s, log)
  {
  }

  lemma {:induction false} OrderedFresh(req: Request, s: State, log: seq<Step>)
    requires s.at.Stopped? || !InTool(s.at) || s.at.Admitting?
    requires Obeying(req, s)
    requires forall i :: 0 <= i < |log| && ToolAction(log[i].action) ==> WithinWhole(log, i) && Within(log, i)
    ensures Ordered(req, s, log)
  {
    if s.at.Admitting? {
      FitsAdmitting(req, s);
      assert Begins(log, |log|, Executed(s.ordinal, s.at.call, "", Output([], false), !s.resuming));
    }
  }

  /** In every run each tool call goes check, prepare, announce its use, check, start,
      execute, complete, publish its result, with nothing in between, under the step id the
      journal answered and with the output the sandbox answered; a call resumed by a
      confirmation is not announced again, a denied one only publishes its denial, and only
      the end of the run cuts a call short. */
  lemma {:induction false} ToolStepsInOrder(req: Request, script: seq<Answer>, i: nat)
    requires i < |Log(req, script)| && ToolAction(Log(req, script)[i].action)
    ensures Within(Log(req, script), i)
  {
    var inv := (s: State, log: seq<Step>) => Ordered(req, s, log) && (s.at.Confirming? ==> log == []);
    forall s, log, answer | Shaped(req, s) && !s.at.Stopped? && inv(s, log)
      ensures inv(Advance(req, s, answer), log + [Step(Wants(req, s), answer)])
    {
      if InTool(s.at) { InsideStep(req, s, log, answer); } else { OutsideStep(req, s, log, answer); }
      NeverConfirmsAgain(req, s, answer);
    }
    FinishKeeps(req, Begin(req), Host(script, []), inv);
  }

  lemma {:induction false} NeverConfirmsAgain(req: Request, s: State, answer: Answer)
    requires Shaped(req, s) && !s.at.Stopped?
    ensures !Advance(req, s, answer).at.Confirming?
  {
  }

  // ---------------------------------------------------------------- confirmations

  /** A run asks nothing of its environment exactly when its trigger drives no turn, its tools
      are not supported, or it carries a confirmation that does not resolve a parked ask. */
  lemma {:induction false} SilentRuns(req: Request, script: seq<Answer>)
    ensures Log(req, script) == [] <==>
      || !Drives(req.trigger.kind)
      || !Capable(req.tools, "web_search") || !Capable(req.tools, "web_fetch")
      || (req.trigger.kind.ToolConfirmationTrigger? && !Confirmable(req))
    ensures Log(req, script) == [] && Drives(req.trigger.kind) ==> Ended(req, script).at == Stopped(Error)
  {
    var s := Begin(req);
    if !s.at.Stopped? && script != [] {
      LogGrows(req, Advance(req, s, script[0]), Host(script[1..], [] + [Step(Wants(req, s), script[0])]));
    }
  }

  lemma {:induction false} LogGrows(req: Request, s: State, h: Host)
    requires Shaped(req, s)
    ensures h.log <= Finish(req, s, h).1.log
    decreases |h.script|
  {
    if !s.at.Stopped? && h.script != [] {
      LogGrows(req, Advance(req, s, h.script[0]), Host(h.script[1..], h.log + [Step(Wants(req, s), h.script[0])]));
    }
  }

  predicate Runs(a: Action) {
    a.Prepare? || a.StartStep? || a.Execute? || a.Complete?
  }

  /** The only tool work before the first model call is the confirmed call, allowed. */
  ghost predicate OnlyConfirmed(req: Request, a: Action) {
    && req.trigger.kind.ToolConfirmationTrigger? && Confirmable(req) && req.trigger.result == "allow"
    && var call := Original0(req);
    && (a.Prepare? ==> a == Prepare(0, call.id, call.name, call.input))
    && (a.Execute? ==> a == Execute(call.name, call.input))
  }

  ghost predicate OpeningConfirmed(req: Request, log: seq<Step>) {
    forall i :: 0 <= i < |log| && Runs(log[i].action) && ModelCalls(log[..i]) == 0 ==> OnlyConfirmed(req, log[i].action)
  }

  predicate CurrentCall(at: Phase, call: Call) {
    (at.Admitting? || at.Preparing? || at.Launching? || at.Starting? || at.Executing? || at.Completing?) ==>
        at.call == call
  }

  /** What resuming a confirmation keeps. */
  ghost predicate Resuming(req: Request, s: State) {
    s.resuming && !s.at.Stopped? ==>
      && req.trigger.kind.ToolConfirmationTrigger? && Confirmable(req) && Obeying(req, s)
      && (req.trigger.result == "allow" || req.trigger.result == "deny")
      && CurrentCall(s.at, Original0(req))
      && (s.at.Confirming? || s.at.Admitting? || s.at.Preparing? ==> s.ordinal == 0)
  }

  lemma {:induction false} ResumingStep(req: Request, s: State, answer: Answer)
    requires Shaped(req, s) && !s.at.Stopped? && Resuming(req, s)
    ensures Resuming(req, Advance(req, s, answer))
  {
    if !s.resuming && !answer.Failed? { AdvanceTurn(req, s, answer); }
  }

  lemma {:induction false} OpeningStep(req: Request, s: State, log: seq<Step>, answer: Answer)
    requires Shaped(req, s) && !s.at.Stopped? && Resuming(req, s) && Bounded(s, log) && OpeningConfirmed(req, log)
    ensures OpeningConfirmed(req, log + [Step(Wants(req, s), answer)])
  {
    var step := Step(Wants(req, s), answer);
    var grown := log + [step];
    forall i | 0 <= i < |grown| && Runs(grown[i].action) && ModelCalls(grown[..i]) == 0
      ensures OnlyConfirmed(req, grown[i].action)
    {
      if i < |log| {
        assert grown[..i] == log[..i];
      } else {
        assert grown[..i] == log && s.resuming;
      }
    }
  }

  /** A denied or invalid confirmation executes nothing, and an allowed one executes exactly
      the parked call before the model is asked to go on. */
  lemma {:induction false} ConfirmationRunsOnlyAllowed(req: Request, script: seq<Answer>)
    ensures OpeningConfirmed(req, Log(req, script))
  {
    var inv := (s: State, log: seq<Step>) => Resuming(req, s) && Bounded(s, log) && OpeningConfirmed(req, log);
    forall s, log, answer | Shaped(req, s) && !s.at.Stopped? && inv(s, log)
      ensures inv(Advance(req, s, answer), log + [Step(Wants(req, s), answer)])
    {
      ResumingStep(req, s, answer);
      BoundedStep(req, s, log, answer);
      OpeningStep(req, s, log, answer);
    }
    assert Resuming(req, Begin(req)) && Bounded(Begin(req), []);
    FinishKeeps(req, Begin(req), Host(script, []), inv);
  }

  // ---------------------------------------------------------------- what a turn did with a reply

  /** What the log says since the latest model call: the request and its reply, what was
      published of it, the uses handled, and the calls, results and parked uses they gave. */
  datatype Ledger = Ledger(
    calls: nat,
    request: seq<Message>,
    reply: seq<Block>,
    thoughts: nat,
    said: seq<seq<string>>,
    handled: seq<(string, string)>,
    called: seq<Block>,
    answered: seq<Block>,
    parked: seq<string>)

  function Booked(l: Ledger, step: Step): Ledger {
    match step.action
    case CallModel(messages) =>
      Ledger(l.calls + 1, messages, if step.answer.Replied? then step.answer.content else [], 0, [], [], [], [], [])
    case EmitThinking => l.(thoughts := l.thoughts + 1)
    case EmitMessage(_, texts) => l.(said := l.said + [texts])
    case EmitUse(id, name, input, permission) =>
      var l := l.(handled := l.handled + [(name, input)]);
      if permission == "allow" then l.(called := l.called + [ToolUseBlock(id, name, input)])
      else if step.answer.Named? then l.(parked := l.parked + [step.answer.id]) else l
    case EmitCustomUse(name, input) =>
      var l := l.(handled := l.handled + [(name, input)]);
      if step.answer.Named? then l.(parked := l.parked + [step.answer.id]) else l
    case EmitResult(id, output) =>
      l.(answered := l.answered + [ToolResultBlock(id, FlattenText(output.items), output.isError, [])])
    case _ => l
  }

  function Book(log: seq<Step>): Ledger {
    if log == [] then Ledger(0, [], [], 0, [], [], [], [], [])
    else Booked(Book(log[..|log| - 1]), log[|log| - 1])
  }

  lemma {:induction false} BookSnoc(log: seq<Step>, step: Step)
    ensures Book(log + [step]) == Booked(Book(log), step)
  {
    assert (log + [step])[..|log|] == log;
  }

  function NameUses(uses: seq<Block>): (names: seq<(string, string)>)
    ensures |names| == |uses|
    ensures forall i :: 0 <= i < |uses| ==> names[i] == (uses[i].toolName, uses[i].input)
  {
    seq(|uses|, i requires 0 <= i < |uses| => (uses[i].toolName, uses[i].input))
  }

  /** The reply was published: a marker for its thinking, one message for its text. */
  ghost predicate Published(l: Ledger) {
    && l.thoughts == (if HasThinking(l.reply) then 1 else 0)
    && l.said == (if Texts(l.reply) != [] then [Texts(l.reply)] else [])
  }

  /** The reply was published and each of its tool uses was handled once, in order. */
  ghost predicate Served(l: Ledger) {
    Published(l) && l.handled == NameUses(ToolUses(l.reply))
  }

  /** The request that follows: the same conversation, then the calls made and their results. */
  function Following(l: Ledger): seq<Message> {
    l.request + [Message(Assistant, l.called, None), Message(User, l.answered, None)]
  }

  /** The first request: the projected history, with a resolved confirmation threaded in. */
  function FirstRequest(req: Request, l: Ledger): seq<Message> {
    if req.trigger.kind.ToolConfirmationTrigger? && Confirmable(req) then
      var call := Original0(req);
      Merged(req.messages, [Message(Assistant, [ToolUseBlock(call.id, call.name, call.input)], None),
          Message(User, l.answered, None)])
    else req.messages
  }

  predicate AfterUse(at: Phase) {
    at.Launching? || at.Starting? || at.Executing? || at.Completing? || at.Resulting?
  }

  /** The uses not yet announced. */
  function Due(s: State): seq<Block> {
    if AfterUse(s.at) && s.uses != [] then s.uses[1..] else s.uses
  }

  /** How the state of a running turn agrees with what was logged of it. */
  ghost predicate UsesAgree(s: State, l: Ledger) {
    && s.messages == l.request && s.parked == l.parked && s.answered == l.answered
    && Published(l)
    && l.handled + NameUses(Due(s)) == NameUses(ToolUses(l.reply))
    && l.called == s.called + if AfterUse(s.at) then [ToolUseBlock(s.at.call.id, s.at.call.name, s.at.call.input)]
        else []
  }

  ghost predicate Untouched(l: Ledger) {
    l.handled == [] && l.called == [] && l.answered == [] && l.parked == []
  }

  ghost predicate Agrees(req: Request, s: State, l: Ledger) {
    match s.at
    case Stopped(outcome) => l.calls > 0 && outcome != Error ==>
        Served(l) && l.parked == if outcome.Parked? then outcome.actionEventIds else []
    case Thinking(_, content) =>
      l.calls > 0 && l.reply == content && HasThinking(content) && l.thoughts == 0 && l.said == [] && Untouched(l)
          && s.messages == l.request
    case Speaking(_, content) =>
      && l.calls > 0 && l.reply == content && Texts(content) != []
          && l.thoughts == (if HasThinking(content) then 1 else 0)
      && l.said == [] && Untouched(l) && s.messages == l.request
    case _ =>
      if s.resuming then
        && l.calls == 0 && s.messages == req.messages && l.answered == [] && req.trigger.kind.ToolConfirmationTrigger?
            && Confirmable(req)
        && (OnCall(s.at) ==> s.at.call == Original0(req))
      else if BeforeCall(s.at) then
        if l.calls == 0 then s.messages == FirstRequest(req, l)
        else s.messages == Following(l) && Served(l) && l.parked == []
      else l.calls > 0 && UsesAgree(s, l)
  }

  /** A model call continues the conversation exactly as logged, after the previous reply has
      been served without parking anything. */
  ghost predicate Continues(req: Request, l: Ledger, a: Action) {
    a.CallModel? ==>
      if l.calls == 0 then a.messages == FirstRequest(req, l)
      else a.messages == Following(l) && Served(l) && l.parked == []
  }

  /** Between two uses. */
  ghost predicate BetweenUses(s: State, l: Ledger) {
    && !s.resuming && l.calls > 0
    && s.messages == l.request && s.parked == l.parked && s.answered == l.answered && s.called == l.called
    && Published(l)
    && l.handled + NameUses(s.uses) == NameUses(ToolUses(l.reply))
  }

  lemma {:induction false} NextUseAgrees(req: Request, s: State, l: Ledger)
    requires BetweenUses(s, l)
    ensures Agrees(req, NextUse(req, s), l)
  {
    if s.uses == [] { EndTurnAgrees(req, s, l); }
  }

  lemma {:induction false} EndTurnAgrees(req: Request, s: State, l: Ledger)
    requires BetweenUses(s, l) && s.uses == []
    ensures Agrees(req, EndTurn(s), l)
  {
    assert l.handled + [] == l.handled;
  }

  lemma {:induction false} StartUsesAgrees(req: Request, s: State, content: seq<Block>, l: Ledger)
    requires !s.resuming && l.calls > 0 && l.reply == content && s.messages == l.request
    requires Published(l) && Untouched(l)
    ensures Agrees(req, StartUses(req, s, content), l)
  {
    if ToolUses(content) == [] {
      assert l.handled == NameUses([]);
    } else {
      var s' := s.(uses := ToolUses(content), called := [], answered := [], parked := []);
      assert [] + NameUses(s'.uses) == NameUses(s'.uses);
      NextUseAgrees(req, s', l);
    }
  }

  lemma {:induction false} SpeakAgrees(req: Request, s: State, id: string, content: seq<Block>, l: Ledger)
    requires !s.resuming && l.calls > 0 && l.reply == content && s.messages == l.request
    requires l.thoughts == (if HasThinking(content) then 1 else 0) && l.said == [] && Untouched(l)
    ensures Agrees(req, Speak(req, s, id, content), l)
  {
    if Texts(content) == [] { StartUsesAgrees(req, s, content, l); }
  }

  lemma {:induction false} ReplyAgrees(req: Request, s: State, answer: Answer, l: Ledger)
    requires Shaped(req, s) && Agrees(req, s, l) && !answer.Failed?
    requires s.at.Calling? || s.at.Thinking? || s.at.Speaking?
    ensures Agrees(req, Advance(req, s, answer), Booked(l, Step(Wants(req, s), answer)))
  {
    var l' := Booked(l, Step(Wants(req, s), answer));
    match s.at
    case Calling(id) =>
      if answer.Replied? && !HasThinking(answer.content) { SpeakAgrees(req, s, id, answer.content, l'); }
    case Thinking(id, content) => SpeakAgrees(req, s, id, content, l');
    case Speaking(id, content) => StartUsesAgrees(req, s, content, l');
  }

  lemma {:induction false} NamesCons(uses: seq<Block>, handled: seq<(string, string)>)
    requires uses != []
    ensures handled + NameUses(uses) == (handled + [(uses[0].toolName, uses[0].input)]) + NameUses(uses[1..])
  {
    var x, y := handled + NameUses(uses), (handled + [(uses[0].toolName, uses[0].input)]) + NameUses(uses[1..]);
    forall i | 0 <= i < |x| ensures x[i] == y[i] {
      if i > |handled| { assert y[i] == NameUses(uses[1..])[i - |handled| - 1]; }
    }
  }

  /** What parking a use books, whichever kind of use it is. */
  lemma {:induction false} ParkingBooked(req: Request, s: State, id: string, l: Ledger)
    requires Shaped(req, s) && (s.at.Asking? || s.at.AskingCustom?) && s.uses != []
    ensures Booked(l, Step(Wants(req, s), Named(id)))
      == l.(handled := l.handled + [(s.uses[0].toolName, s.uses[0].input)], parked := l.parked + [id])
    ensures Advance(req, s, Named(id)) == NextUse(req, s.(uses := s.uses[1..], parked := s.parked + [id]))
  {
  }

  lemma {:induction false} ParkingBetween(s: State, id: string, l: Ledger)
    requires !s.resuming && l.calls > 0 && UsesAgree(s, l) && (s.at.Asking? || s.at.AskingCustom?) && s.uses != []
    ensures BetweenUses(s.(uses := s.uses[1..], parked := s.parked + [id]),
                        l.(handled := l.handled + [(s.uses[0].toolName, s.uses[0].input)], parked := l.parked + [id]))
  {
    NamesCons(s.uses, l.handled);
  }

  lemma {:induction false} ParkingAgrees(req: Request, s: State, answer: Answer, l: Ledger)
    requires Shaped(req, s) && Agrees(req, s, l) && answer.Named?
    requires s.at.Asking? || s.at.AskingCustom?
    ensures Agrees(req, Advance(req, s, answer), Booked(l, Step(Wants(req, s), answer)))
  {
    ParkingBooked(req, s, answer.id, l);
    ParkingBetween(s, answer.id, l);
    NextUseAgrees(req, s.(uses := s.uses[1..], parked := s.parked + [answer.id]),
                  l.(handled := l.handled + [(s.uses[0].toolName, s.uses[0].input)], parked := l.parked + [answer.id]));
  }

  lemma {:induction false} ResultAgrees(req: Request, s: State, answer: Answer, l: Ledger)
    requires Shaped(req, s) && Agrees(req, s, l) && !answer.Failed? && s.at.Resulting?
    ensures Agrees(req, Advance(req, s, answer), Booked(l, Step(Wants(req, s), answer)))
  {
    var call, output := s.at.call, s.at.output;
    var l' := Booked(l, Step(Wants(req, s), answer));
    if s.resuming {
      assert l'.answered == [ResultFor(call, output)];
      assert l'.calls == 0;
    } else {
      NextUseAgrees(req, s.(uses := s.uses[1..],
        called := s.called + [ToolUseBlock(call.id, call.name, call.input)],
        answered := s.answered + [ResultFor(call, output)]), l');
    }
  }

  /** The call in hand is the next use. */
  predicate UseNamed(s: State) {
    !s.resuming && (s.at.Admitting? || s.at.Preparing? || s.at.Announcing?) ==>
      s.uses != [] && s.at.call.name == s.uses[0].toolName && s.at.call.input == s.uses[0].input
  }

  lemma {:induction false} UseNamedStep(req: Request, s: State, answer: Answer)
    requires Shaped(req, s) && !s.at.Stopped? && UseNamed(s)
    ensures UseNamed(Advance(req, s, answer))
  {
  }

  lemma {:induction false} AnnounceMoves(req: Request, s: State, answer: Answer, l: Ledger)
    requires Shaped(req, s) && !answer.Failed? && s.at.Announcing?
    ensures var call := s.at.call;
      && Advance(req, s, answer) == s.(at := Launching(call, s.at.step))
      && Booked(l, Step(Wants(req, s), answer))
         == l.(handled := l.handled + [(call.name, call.input)], called :=
             l.called + [ToolUseBlock(call.id, call.name, call.input)])
  {
  }

  lemma {:induction false} AnnouncedUses(s: State, s': State, l: Ledger, l': Ledger)
    requires s.at.Announcing? && s.uses != [] && s.at.call.name == s.uses[0].toolName
        && s.at.call.input == s.uses[0].input
    requires UsesAgree(s, l) && s' == s.(at := Launching(s.at.call, s.at.step))
    requires var call := s.at.call;
      l' == l.(handled := l.handled + [(call.name, call.input)], called :=
          l.called + [ToolUseBlock(call.id, call.name, call.input)])
    ensures UsesAgree(s', l')
  {
    NamesCons(s.uses, l.handled);
  }

  lemma {:induction false} AnnounceAgrees(req: Request, s: State, answer: Answer, l: Ledger)
    requires Shaped(req, s) && Agrees(req, s, l) && !answer.Failed? && s.at.Announcing? && UseNamed(s)
    ensures Agrees(req, Advance(req, s, answer), Booked(l, Step(Wants(req, s), answer)))
  {
    AnnounceMoves(req, s, answer, l);
    AnnouncedUses(s, Advance(req, s, answer), l, Booked(l, Step(Wants(req, s), answer)));
  }

  /** Within a call only the phase and the ordinal move. */
  lemma {:induction false} CallMoves(req: Request, s: State, answer: Answer)
    requires Shaped(req, s) && !answer.Failed? && OnCall(s.at) && !s.at.Resulting?
    ensures var s' := Advance(req, s, answer);
      || s'.at == Stopped(Error)
      || (s' == s.(at := s'.at, ordinal := s'.ordinal) && (OnCall(s'.at) || s'.at.Announcing?)
          && (s'.at.Announcing? ==> !s.resuming)
          && s'.at.call == s.at.call && AfterUse(s'.at) == (AfterUse(s.at) || (s.at.Preparing? && s.resuming)))
  {
  }

  lemma {:induction false} SameCallAgrees(req: Request, s: State, s': State, l: Ledger)
    requires Agrees(req, s, l) && OnCall(s.at) && (OnCall(s'.at) || (s'.at.Announcing? && !s.resuming))
    requires s' == s.(at := s'.at, ordinal := s'.ordinal) && s'.at.call == s.at.call
    requires !s.resuming ==> AfterUse(s'.at) == AfterUse(s.at)
    ensures Agrees(req, s', l)
  {
  }

  lemma {:induction false} CallAgrees(req: Request, s: State, answer: Answer, l: Ledger)
    requires Shaped(req, s) && Agrees(req, s, l) && !answer.Failed? && OnCall(s.at) && !s.at.Resulting?
    ensures Agrees(req, Advance(req, s, answer), l)
  {
    CallMoves(req, s, answer);
    var s' := Advance(req, s, answer);
    if s'.at != Stopped(Error) { SameCallAgrees(req, s, s', l); }
  }

  lemma {:induction false} CallUnbooked(req: Request, s: State, answer: Answer, l: Ledger)
    requires Shaped(req, s) && OnCall(s.at) && !s.at.Resulting?
    ensures Booked(l, Step(Wants(req, s), answer)) == l
  {
  }

  lemma {:induction false} BeginningAgrees(req: Request, s: State, answer: Answer, l: Ledger)
    requires Shaped(req, s) && Agrees(req, s, l) && !answer.Failed? && (s.at.Confirming? || s.at.TurnStart?)
    ensures Agrees(req, Advance(req, s, answer), Booked(l, Step(Wants(req, s), answer)))
  {
    assert Booked(l, Step(Wants(req, s), answer)) == l;
  }

  lemma {:induction false} StepAgrees(req: Request, s: State, answer: Answer, l: Ledger)
    requires Shaped(req, s) && !s.at.Stopped? && Agrees(req, s, l) && UseNamed(s)
    ensures Agrees(req, Advance(req, s, answer), Booked(l, Step(Wants(req, s), answer)))
  {
    if answer.Failed? {
    } else if s.at.Calling? || s.at.Thinking? || s.at.Speaking? {
      ReplyAgrees(req, s, answer, l);
    } else if s.at.Asking? || s.at.AskingCustom? {
      if answer.Named? { ParkingAgrees(req, s, answer, l); }
    } else if s.at.Resulting? {
      ResultAgrees(req, s, answer, l);
    } else if s.at.Announcing? {
      AnnounceAgrees(req, s, answer, l);
    } else if OnCall(s.at) {
      CallAgrees(req, s, answer, l);
      CallUnbooked(req, s, answer, l);
    } else {
      BeginningAgrees(req, s, answer, l);
    }
  }

  lemma {:induction false} AgreesContinues(req: Request, s: State, l: Ledger)
    requires Shaped(req, s) && !s.at.Stopped? && Agrees(req, s, l)
    ensures Continues(req, l, Wants(req, s))
  {
    WantsCall(req, s);
  }

  ghost predicate Continuous(req: Request, log: seq<Step>) {
    forall i :: 0 <= i < |log| ==> Continues(req, Book(log[..i]), log[i].action)
  }

  lemma {:induction false} ContinuousSnoc(req: Request, log: seq<Step>, step: Step)
    requires Continuous(req, log) && Continues(req, Book(log), step.action)
    ensures Continuous(req, log + [step])
  {
    var grown := log + [step];
    forall i | 0 <= i < |grown| ensures Continues(req, Book(grown[..i]), grown[i].action) {
      if i < |log| { assert grown[..i] == log[..i]; } else { assert grown[..i] == log; }
    }
  }

  lemma {:induction false} BeginAgrees(req: Request)
    ensures Agrees(req, Begin(req), Book([])) && UseNamed(Begin(req))
  {
  }

  lemma {:induction false} TalliedEnd(req: Request, script: seq<Answer>)
    ensures Tallied(req, Ended(req, script), Log(req, script)) && Ended(req, script).at.Stopped?
  {
    var inv := (s: State, log: seq<Step>) => Tallied(req, s, log);
    forall s, log, answer | Shaped(req, s) && !s.at.Stopped? && inv(s, log)
      ensures inv(Advance(req, s, answer), log + [Step(Wants(req, s), answer)])
    {
      TalliedStep(req, s, log, answer);
    }
    BeginAgrees(req);
    FinishKeeps(req, Begin(req), Host(script, []), inv);
  }

  /** In every run each model call continues the logged conversation by exactly the calls made
      and the results published for the previous reply, all of whose text, thinking and tool
      uses have been published, each use once and in order, with nothing parked; and a run
      that ends without an error has served its last reply and returns exactly the ids of the
      uses that reply parked. */
  lemma {:induction false} RunsContinue(req: Request, script: seq<Answer>)
    ensures Continuous(req, Log(req, script))
    ensures var l, end := Book(Log(req, script)), Ended(req, script).at;
      && end.Stopped?
      && (l.calls > 0 && end.outcome != Error ==>
            Served(l) && l.parked == if end.outcome.Parked? then end.outcome.actionEventIds else [])
  {
    TalliedEnd(req, script);
  }

  ghost predicate Tallied(req: Request, s: State, log: seq<Step>) {
    Agrees(req, s, Book(log)) && UseNamed(s) && Continuous(req, log)
  }

  lemma {:induction false} TalliedStep(req: Request, s: State, log: seq<Step>, answer: Answer)
    requires Shaped(req, s) && !s.at.Stopped? && Tallied(req, s, log)
    ensures Tallied(req, Advance(req, s, answer), log + [Step(Wants(req, s), answer)])
  {
    var step, s' := Step(Wants(req, s), answer), Advance(req, s, answer);
    assert Agrees(req, s', Book(log + [step])) by {
      BookSnoc(log, step);
      StepAgrees(req, s, answer, Book(log));
    }
    assert UseNamed(s') by { UseNamedStep(req, s, answer); }
    assert Continuous(req, log + [step]) by {
      AgreesContinues(req, s, Book(log));
      ContinuousSnoc(req, log, step);
    }
  }

  // ---------------------------------------------------------------- how runs end

  /** An answer that does not give what was asked for. */
  predicate Refused(step: Step) {
    || step.answer.Failed?
    || (step.action.CallModel? && !step.answer.Replied?)
    || (step.action.Prepare? && !step.answer.Named?)
    || (step.action.EmitUse? && step.action.permission == "ask" && !step.answer.Named?)
    || (step.action.EmitCustomUse? && !step.answer.Named?)
    || (step.action.Execute? && !step.answer.Ran?)
  }

  predicate Equipped(req: Request) {
    req.hasSandbox && req.hasJournal
  }

  /** Only the last step can have been refused, and a run that has not failed was refused nothing. */
  ghost predicate Accepted(req: Request, s: State, log: seq<Step>) {
    && (forall i :: 0 <= i < |log| - 1 ==> !Refused(log[i]))
    && (log != [] && s.at != Stopped(Error) ==> !Refused(log[|log| - 1]))
    && (log != [] && s.at == Stopped(Error) ==>
          var last := log[|log| - 1];
          Refused(last) || (last.action == CheckContext && !Equipped(req)))
  }

  lemma {:induction false} NextUseRuns(req: Request, s: State)
    ensures NextUse(req, s).at != Stopped(Error)
  {
  }

  lemma {:induction false} StartUsesRuns(req: Request, s: State, content: seq<Block>)
    ensures StartUses(req, s, content).at != Stopped(Error)
  {
    NextUseRuns(req, s.(uses := ToolUses(content), called := [], answered := [], parked := []));
  }

  lemma {:induction false} ReplyRefused(req: Request, s: State, answer: Answer)
    requires Shaped(req, s) && (s.at.Calling? || s.at.Thinking? || s.at.Speaking?)
    ensures Advance(req, s, answer).at == Stopped(Error) <==> Refused(Step(Wants(req, s), answer))
  {
    if !answer.Failed? {
      if !s.at.Calling? {
        StartUsesRuns(req, s, s.at.content);
      } else if answer.Replied? {
        StartUsesRuns(req, s, answer.content);
      }
    }
  }

  lemma {:induction false} UseRefused(req: Request, s: State, answer: Answer)
    requires Shaped(req, s) && (s.at.Asking? || s.at.AskingCustom? || s.at.Resulting?)
    ensures Advance(req, s, answer).at == Stopped(Error) <==> Refused(Step(Wants(req, s), answer))
  {
    if s.at.Resulting? && !s.resuming {
      NextUseRuns(req, s.(uses := s.uses[1..],
        called := s.called + [ToolUseBlock(s.at.call.id, s.at.call.name, s.at.call.input)],
        answered := s.answered + [ResultFor(s.at.call, s.at.output)]));
    } else if answer.Named? && !s.at.Resulting? {
      NextUseRuns(req, s.(uses := s.uses[1..], parked := s.parked + [answer.id]));
    }
  }

  /** A step halts the run exactly when it is refused or finds nothing to run tools with. */
  lemma {:induction false} HaltsExactly(req: Request, s: State, answer: Answer)
    requires Shaped(req, s) && !s.at.Stopped?
    ensures Advance(req, s, answer).at == Stopped(Error)
      <==> Refused(Step(Wants(req, s), answer)) || (s.at.Admitting? && !Equipped(req))
    ensures s.at.Admitting? ==> Wants(req, s) == CheckContext
  {
    if s.at.Calling? || s.at.Thinking? || s.at.Speaking? {
      ReplyRefused(req, s, answer);
    } else if s.at.Asking? || s.at.AskingCustom? || s.at.Resulting? {
      UseRefused(req, s, answer);
    }
  }

  lemma {:induction false} AcceptedStep(req: Request, s: State, log: seq<Step>, answer: Answer)
    requires Shaped(req, s) && !s.at.Stopped? && Accepted(req, s, log)
    ensures Accepted(req, Advance(req, s, answer), log + [Step(Wants(req, s), answer)])
  {
    HaltsExactly(req, s, answer);
  }

  /** A run goes on until something it asks for is refused, or a tool finds no sandbox or no
      journal; it fails exactly then. */
  lemma {:induction false} FailsExactly(req: Request, script: seq<Answer>)
    ensures Accepted(req, Ended(req, script), Log(req, script))
  {
    var inv := (s: State, log: seq<Step>) => Accepted(req, s, log);
    forall s, log, answer | Shaped(req, s) && !s.at.Stopped? && inv(s, log)
      ensures inv(Advance(req, s, answer), log + [Step(Wants(req, s), answer)])
    {
      AcceptedStep(req, s, log, answer);
    }
    FinishKeeps(req, Begin(req), Host(script, []), inv);
  }

  /** A run that finished although its last reply had tools run. */
  ghost predicate CutOff(s: State, log: seq<Step>) {
    s.at == Stopped(Finished) && Book(log).called != [] && ModelCalls(log) > 0
  }

  ghost predicate CutLate(s: State, log: seq<Step>) {
    CutOff(s, log) ==> ModelCalls(log) == 20
  }

  /** Only the results of a turn's last call, in the twentieth turn, finish a run that ran tools. */
  lemma {:induction false} FinishesOn(req: Request, s: State, answer: Answer)
    requires Shaped(req, s) && !s.at.Stopped? && Advance(req, s, answer).at == Stopped(Finished)
    ensures s.at.Calling? || s.at.Thinking? || s.at.Speaking? || (s.at.Resulting? && !s.resuming && s.turn + 1 >= 20)
  {
  }

  lemma {:induction false} RepliesUntouched(req: Request, s: State, log: seq<Step>, answer: Answer)
    requires Shaped(req, s) && (s.at.Calling? || s.at.Thinking? || s.at.Speaking?) && Agrees(req, s, Book(log))
    ensures Book(log + [Step(Wants(req, s), answer)]).called == []
  {
    BookSnoc(log, Step(Wants(req, s), answer));
  }

  lemma {:induction false} CutLateStep(req: Request, s: State, log: seq<Step>, answer: Answer)
    requires Shaped(req, s) && !s.at.Stopped? && Tallied(req, s, log) && Bounded(s, log)
    ensures CutLate(Advance(req, s, answer), log + [Step(Wants(req, s), answer)])
  {
    if Advance(req, s, answer).at == Stopped(Finished) {
      FinishesOn(req, s, answer);
      CountsSnoc(log, Step(Wants(req, s), answer));
      if !s.at.Resulting? { RepliesUntouched(req, s, log, answer); }
    }
  }

  /** The turn limit is twenty model calls: a run makes no more, and one that ends without an
      answer to its last tools, rather than parked or failed, has made exactly that many. */
  lemma {:induction false} CutAfterTwenty(req: Request, script: seq<Answer>)
    ensures ModelCalls(Log(req, script)) <= 20 && CutLate(Ended(req, script), Log(req, script))
  {
    var inv := (s: State, log: seq<Step>) => Tallied(req, s, log) && Bounded(s, log) && CutLate(s, log);
    forall s, log, answer | Shaped(req, s) && !s.at.Stopped? && inv(s, log)
      ensures inv(Advance(req, s, answer), log + [Step(Wants(req, s), answer)])
    {
      TalliedStep(req, s, log, answer);
      BoundedStep(req, s, log, answer);
      CutLateStep(req, s, log, answer);
    }
    BeginAgrees(req);
    FinishKeeps(req, Begin(req), Host(script, []), inv);
  }

  // ---------------------------------------------------------------- the ids a run draws

  /** The id an action draws: a message's when the run previews, and that of a call of a reply. */
  ghost function DrawnBy(req: Request, a: Action, opening: bool): seq<string> {
    match a
    case EmitMessage(id, _) => if req.canPreview then [id] else []
    case Prepare(_, id, _, _) => if opening then [] else [id]
    case _ => []
  }

  ghost function Drawn(req: Request, log: seq<Step>): seq<string> {
    if log == [] then []
    else
      var init := log[..|log| - 1];
      Drawn(req, init) + DrawnBy(req, log[|log| - 1].action, ModelCalls(init) == 0)
  }

  lemma {:induction false} DrawnSnoc(req: Request, log: seq<Step>, step: Step)
    ensures Drawn(req, log + [step]) == Drawn(req, log) + DrawnBy(req, step.action, ModelCalls(log) == 0)
  {
    assert (log + [step])[..|log|] == log;
  }

  /** The ids come from the supply, each further on than the one before. */
  ghost predicate Supplies(ids: nat -> string, at: seq<nat>, drawn: seq<string>, bound: nat) {
    && |at| == |drawn|
    && (forall k :: 0 <= k < |at| ==> at[k] < bound && drawn[k] == ids(at[k]))
    && (forall j, k :: 0 <= j < k < |at| ==> at[j] < at[k])
  }

  ghost predicate Supplied(ids: nat -> string, drawn: seq<string>, bound: nat) {
    exists at :: Supplies(ids, at, drawn, bound)
  }

  lemma {:induction false} SuppliedSnoc(ids: nat -> string, drawn: seq<string>, bound: nat)
    requires Supplied(ids, drawn, bound)
    ensures Supplied(ids, drawn + [ids(bound)], bound + 1)
  {
    var at :| Supplies(ids, at, drawn, bound);
    assert Supplies(ids, at + [bound], drawn + [ids(bound)], bound + 1);
  }

  lemma {:induction false} SuppliedLater(ids: nat -> string, drawn: seq<string>, bound: nat, later: nat)
    requires Supplied(ids, drawn, bound) && bound <= later
    ensures Supplied(ids, drawn, later)
  {
    var at :| Supplies(ids, at, drawn, bound);
    assert Supplies(ids, at, drawn, later);
  }

  /** The phases that hold an id drawn but not used. */
  predicate Replying(at: Phase) {
    at.Calling? || at.Thinking? || at.Speaking?
  }

  predicate Entering(at: Phase) {
    at.Admitting? || at.Preparing?
  }

  predicate HoldsId(req: Request, s: State) {
    (Replying(s.at) && req.canPreview) || (Entering(s.at) && !s.resuming)
  }

  /** The id in hand is the last one drawn. */
  predicate Holding(req: Request, s: State) {
    && (HoldsId(req, s) ==> s.minted > 0)
    && (Replying(s.at) ==> s.at.messageId == if req.canPreview && s.minted > 0 then req.ids(s.minted - 1) else "")
    && (Entering(s.at) && !s.resuming && s.minted > 0 ==> s.at.call.id == req.ids(s.minted - 1))
  }

  function Unused(req: Request, s: State): nat
    requires Holding(req, s)
  {
    if HoldsId(req, s) then s.minted - 1 else s.minted
  }

  lemma {:induction false} HoldingNext(req: Request, s: State)
    requires !s.resuming
    ensures var s' := NextUse(req, s); Holding(req, s') && Unused(req, s') >= s.minted && !s'.resuming
  {
  }

  lemma {:induction false} HoldingUses(req: Request, s: State, content: seq<Block>)
    requires !s.resuming
    ensures var s' := StartUses(req, s, content); Holding(req, s') && Unused(req, s') >= s.minted
  {
    if ToolUses(content) != [] {
      HoldingNext(req, s.(uses := ToolUses(content), called := [], answered := [], parked := []));
    }
  }

  /** A step that uses the id in hand moves past it, and none goes back. */
  ghost predicate Moves(req: Request, s: State, answer: Answer)
    requires Shaped(req, s) && !s.at.Stopped? && Holding(req, s)
  {
    var s' := Advance(req, s, answer);
    && Holding(req, s')
    && Unused(req, s') >= Unused(req, s) + if HoldsId(req, s) && (s.at.Speaking? || s.at.Preparing?) then 1 else 0
  }
  predicate InTurn(at: Phase) {
    OnCall(at) || at.Announcing? || at.Asking? || at.AskingCustom? || at.Thinking? || at.Speaking?
  }

  /** A reply is only in hand after a model call, and a confirmation only before the first. */
  ghost predicate OpeningIs(s: State, log: seq<Step>) {
    && (s.resuming ==> ModelCalls(log) == 0)
    && (!s.resuming && InTurn(s.at) ==> ModelCalls(log) > 0)
  }

  lemma {:induction false} ResumingEnds(req: Request, s: State, answer: Answer)
    requires Shaped(req, s) && !s.at.Stopped?
    ensures Advance(req, s, answer).resuming ==> s.resuming
  {
    if !s.resuming && !answer.Failed? { AdvanceTurn(req, s, answer); }
  }

  lemma {:induction false} TurnBegins(req: Request, s: State, answer: Answer)
    requires Shaped(req, s) && !s.at.Stopped?
    ensures var s' := Advance(req, s, answer);
      !s'.resuming && InTurn(s'.at) ==> s.at.Calling? || (!s.resuming && InTurn(s.at))
  {
  }

  lemma {:induction false} OpeningIsStep(req: Request, s: State, log: seq<Step>, answer: Answer)
    requires Shaped(req, s) && !s.at.Stopped? && OpeningIs(s, log)
    ensures OpeningIs(Advance(req, s, answer), log + [Step(Wants(req, s), answer)])
  {
    CountsSnoc(log, Step(Wants(req, s), answer));
    WantsCall(req, s);
    ResumingEnds(req, s, answer);
    TurnBegins(req, s, answer);
  }

  lemma {:induction false} MovesOn(req: Request, s: State, answer: Answer)
    requires Shaped(req, s) && !s.at.Stopped? && Holding(req, s)
    ensures Moves(req, s, answer)
  {
    if answer.Failed? {
    } else if Replying(s.at) {
      ReplyMoves(req, s, answer);
    } else if s.at.Asking? || s.at.AskingCustom? || (s.at.Resulting? && !s.resuming) {
      UseMoves(req, s, answer);
    } else if InTool(s.at) {
      ToolMoves(req, s, answer);
    }
  }

  lemma {:induction false} ToolMoves(req: Request, s: State, answer: Answer)
    requires Shaped(req, s) && !answer.Failed? && Holding(req, s)
    requires InTool(s.at) && (s.at.Resulting? ==> s.resuming)
    ensures Moves(req, s, answer)
  {
  }

  lemma {:induction false} UseMoves(req: Request, s: State, answer: Answer)
    requires Shaped(req, s) && !answer.Failed? && Holding(req, s)
    requires s.at.Asking? || s.at.AskingCustom? || (s.at.Resulting? && !s.resuming)
    ensures Moves(req, s, answer)
  {
    if s.at.Resulting? {
      HoldingNext(req, s.(uses := s.uses[1..],
        called := s.called + [ToolUseBlock(s.at.call.id, s.at.call.name, s.at.call.input)],
        answered := s.answered + [ResultFor(s.at.call, s.at.output)]));
    } else if answer.Named? {
      HoldingNext(req, s.(uses := s.uses[1..], parked := s.parked + [answer.id]));
    }
  }

  lemma {:induction false} ReplyMoves(req: Request, s: State, answer: Answer)
    requires Shaped(req, s) && Replying(s.at) && !answer.Failed? && Holding(req, s)
    ensures Moves(req, s, answer)
  {
    if s.at.Calling? && answer.Replied? {
      HoldingUses(req, s, answer.content);
    } else if !s.at.Calling? {
      HoldingUses(req, s, s.at.content);
    }
  }

  /** What a step draws is the id in hand. */
  lemma {:induction false} DrawsHeld(req: Request, s: State, log: seq<Step>)
    requires Shaped(req, s) && !s.at.Stopped? && Holding(req, s) && OpeningIs(s, log)
    ensures DrawnBy(req, Wants(req, s), ModelCalls(log) == 0)
      == if HoldsId(req, s) && (s.at.Speaking? || s.at.Preparing?) then [req.ids(Unused(req, s))] else []
  {
  }

  ghost predicate Numbered(req: Request, s: State, log: seq<Step>) {
    Holding(req, s) && OpeningIs(s, log) && Supplied(req.ids, Drawn(req, log), Unused(req, s))
  }

  lemma {:induction false} NumberedStep(req: Request, s: State, log: seq<Step>, answer: Answer)
    requires Shaped(req, s) && !s.at.Stopped? && Numbered(req, s, log)
    ensures Numbered(req, Advance(req, s, answer), log + [Step(Wants(req, s), answer)])
  {
    DrawnSnoc(req, log, Step(Wants(req, s), answer));
    DrawsHeld(req, s, log);
    MovesOn(req, s, answer);
    OpeningIsStep(req, s, log, answer);
    var n := Unused(req, s);
    var drawn, later := Drawn(req, log), Unused(req, Advance(req, s, answer));
    if HoldsId(req, s) && (s.at.Speaking? || s.at.Preparing?) {
      SuppliedSnoc(req.ids, drawn, n);
      SuppliedLater(req.ids, drawn + [req.ids(n)], n + 1, later);
    } else {
      assert drawn + [] == drawn;
      SuppliedLater(req.ids, drawn, n, later);
    }
  }

  lemma {:induction false} NumberedStart(req: Request)
    ensures Numbered(req, Begin(req), [])
  {
    assert Supplies(req.ids, [], Drawn(req, []), Unused(req, Begin(req)));
  }

  predicate NeverRepeats(drawn: seq<string>) {
    forall j, k :: 0 <= j < k < |drawn| ==> drawn[j] != drawn[k]
  }

  lemma {:induction false} SuppliedFresh(ids: nat -> string, drawn: seq<string>, bound: nat)
    requires Supplied(ids, drawn, bound) && forall m, n :: m != n ==> ids(m) != ids(n)
    ensures NeverRepeats(drawn)
  {
    var at :| Supplies(ids, at, drawn, bound);
  }

  /** The ids of a run's previewable messages and of the calls of its replies come, in the
      order of the log, from further and further on in the supply, so a supply that never
      repeats itself gives each of them an id of its own. */
  lemma {:induction false} IdsAreFresh(req: Request, script: seq<Answer>)
    ensures exists bound :: Supplied(req.ids, Drawn(req, Log(req, script)), bound)
    ensures (forall m, n :: m != n ==> req.ids(m) != req.ids(n)) ==> NeverRepeats(Drawn(req, Log(req, script)))
  {
    NumberedEnd(req, script);
    if forall m, n :: m != n ==> req.ids(m) != req.ids(n) {
      SuppliedFresh(req.ids, Drawn(req, Log(req, script)), Unused(req, Ended(req, script)));
    }
  }

  lemma {:induction false} NumberedEnd(req: Request, script: seq<Answer>)
    ensures Numbered(req, Ended(req, script), Log(req, script))
  {
    var inv := (s: State, log: seq<Step>) => Numbered(req, s, log);
    forall s, log, answer | Shaped(req, s) && !s.at.Stopped? && inv(s, log)
      ensures inv(Advance(req, s, answer), log + [Step(Wants(req, s), answer)])
    {
      NumberedStep(req, s, log, answer);
    }
    NumberedStart(req);
    FinishKeeps(req, Begin(req), Host(script, []), inv);
  }
}

/** The bounded model/tool loop of the agent runtime (internal/agentruntime/agentcore.go).

    `State`, `Wants` and `Advance` are the protocol as a state machine: what the runtime asks
    of its environment next, and what an answer leads to. `Run` and its helpers are the
    runtime's nested loops, proved to follow that machine for every script of answers. */
module AgentLoop {
  import opened Conversation
  import opened History

  const MAX_TOOL_TURNS: nat := 20

  // ---------------------------------------------------------------- requests

  datatype ToolConfig = ToolConfig(name: string, enabled: Option<bool>, policy: Option<string>)

  datatype Builtin = Builtin(defaultEnabled: bool, defaultPolicy: string, configs: seq<ToolConfig>)

  datatype ToolSet = ToolSet(builtin: Option<Builtin>)

  datatype TriggerKind = UserMessageTrigger | DefineOutcomeTrigger | CustomToolResultTrigger | ToolResultTrigger
    | ToolConfirmationTrigger | OtherTrigger

  datatype DenyMessage = Absent | NotText | DenyText(text: string)

  datatype Trigger = Trigger(kind: TriggerKind, toolUseId: string, result: string, denyMessage: DenyMessage)

  /** The parked action a confirmation refers to, as recovered from history. */
  datatype Original = Original(id: string, isToolUse: bool, selfHosted: bool, permission: string, name: string,
      input: Option<string>)

  datatype Request = Request(
    trigger: Trigger,
    tools: ToolSet,
    registry: set<string>,
    messages: seq<Message>,
    confirmed: Option<Original>,
    hasSandbox: bool,
    hasJournal: bool,
    canPreview: bool,
    ids: nat -> string)

  function Configured(configs: seq<ToolConfig>, name: string, enabled: bool, policy: string): (bool, string)
    decreases |configs|
  {
    if configs == [] then (enabled, policy)
    else
      var c := configs[0];
      if c.name != name then Configured(configs[1..], name, enabled, policy)
      else Configured(configs[1..], name,
        if c.enabled.Some? then c.enabled.value else enabled,
        if c.policy.Some? then c.policy.value else policy)
  }

  function BuiltinEnabled(tools: ToolSet, name: string): (bool, string) {
    match tools.builtin
    case None => (false, "")
    case Some(b) => Configured(b.configs, name, b.defaultEnabled, b.defaultPolicy)
  }

  datatype Disposition = RunsInline | AsksFirst | ParksCustom

  function Disposed(req: Request, name: string): Disposition {
    var (enabled, policy) := BuiltinEnabled(req.tools, name);
    if name in req.registry && enabled then
      if policy == "always_allow" then RunsInline else AsksFirst
    else ParksCustom
  }

  predicate Drives(kind: TriggerKind) {
    !kind.OtherTrigger?
  }

  predicate Capable(tools: ToolSet, name: string) {
    var (enabled, policy) := BuiltinEnabled(tools, name);
    !enabled || policy == "always_allow"
  }

  /** The confirmation resolves exactly the recovered ask of an enabled built-in that is
      still under an always_ask policy, with a well-formed decision. */
  predicate Confirmable(req: Request) {
    && req.confirmed.Some?
    && var o := req.confirmed.value;
    && o.id != "" && req.trigger.toolUseId == o.id
    && o.isToolUse && !o.selfHosted && o.permission == "ask"
    && o.name != "" && o.input.Some? && o.name in req.registry
    && BuiltinEnabled(req.tools, o.name) == (true, "always_ask")
    && (req.trigger.result == "allow" || req.trigger.result == "deny")
    && (req.trigger.denyMessage != Absent ==> req.trigger.result == "deny" && req.trigger.denyMessage != NotText)
  }

  // ---------------------------------------------------------------- the protocol

  datatype Output = Output(items: seq<Item>, isError: bool)

  function TextItem(text: string): Item {
    Object("text", text, None, "")
  }

  function Denial(message: DenyMessage): Output {
    var text := "Tool call denied by user.";
    var added := if message.DenyText? && message.text != "" then " " + message.text else "";
    Output([TextItem(text + added)], true)
  }

  datatype Action =
    | CheckContext
    | CallModel(messages: seq<Message>)
    | EmitThinking
    | EmitMessage(id: string, texts: seq<string>)
    | Prepare(ordinal: nat, id: string, name: string, input: string)
    | EmitUse(id: string, name: string, input: string, permission: string)
    | EmitCustomUse(name: string, input: string)
    | StartStep(step: string)
    | Execute(name: string, input: string)
    | Complete(step: string, output: Output)
    | EmitResult(id: string, output: Output)

  datatype Answer = Failed | Done | Replied(content: seq<Block>) | Named(id: string) |
      Ran(output: Output, materializeError: Option<string>)

  datatype Step = Step(action: Action, answer: Answer)

  /** The answers still to come and the steps taken so far. A run out of answers is cut by a failure. */
  datatype Host = Host(script: seq<Answer>, log: seq<Step>)

  datatype Outcome = Error | Finished | Parked(actionEventIds: seq<string>)

  datatype Call = Call(id: string, name: string, input: string)

  datatype Phase =
    | Confirming
    | TurnStart
    | Calling(messageId: string)
    | Thinking(messageId: string, content: seq<Block>)
    | Speaking(messageId: string, content: seq<Block>)
    | Admitting(call: Call)
    | Preparing(call: Call)
    | Announcing(call: Call, step: string)
    | Launching(call: Call, step: string)
    | Starting(call: Call, step: string)
    | Executing(call: Call, step: string)
    | Completing(call: Call, step: string, output: Output)
    | Resulting(call: Call, output: Output)
    | Asking
    | AskingCustom
    | Stopped(outcome: Outcome)

  datatype State = State(
    at: Phase,
    turn: nat,
    minted: nat,
    ordinal: nat,
    messages: seq<Message>,
    uses: seq<Block>,
    called: seq<Block>,
    answered: seq<Block>,
    parked: seq<string>,
    resuming: bool)

  function Original0(req: Request): Call
    requires Confirmable(req)
  {
    var o := req.confirmed.value;
    Call(o.id, o.name, o.input.value)
  }

  function Begin(req: Request): State {
    var s := State(TurnStart, 0, 0, 0, req.messages, [], [], [], [], false);
    if !Drives(req.trigger.kind) then s.(at := Stopped(Finished))
    else if !Capable(req.tools, "web_search") || !Capable(req.tools, "web_fetch") then s.(at := Stopped(Error))
    else if req.trigger.kind.ToolConfirmationTrigger? then
      if Confirmable(req) then s.(at := Confirming, resuming := true) else s.(at := Stopped(Error))
    else s
  }

  function Texts(content: seq<Block>): seq<string> {
    if content == [] then []
    else
      var b := content[|content| - 1];
      Texts(content[..|content| - 1]) + if b.kind == "text" && b.text != "" then [b.text] else []
  }

  predicate HasThinking(content: seq<Block>) {
    exists b | b in content :: b.kind == "thinking" || b.kind == "redacted_thinking"
  }

  function ToolUses(content: seq<Block>): (uses: seq<Block>)
    ensures forall b | b in uses :: b.kind == "tool_use"
  {
    if content == [] then []
    else
      var b := content[|content| - 1];
      ToolUses(content[..|content| - 1]) + if b.kind == "tool_use" then [b] else []
  }

  function ResultFor(call: Call, output: Output): Block {
    ToolResultBlock(call.id, FlattenText(output.items), output.isError, [])
  }

  function Materialized(answer: Answer): Output
    requires answer.Ran?
  {
    if answer.materializeError.Some? then Output([TextItem(answer.materializeError.value)], true) else answer.output
  }

  /** What the runtime asks next. */
  function Wants(req: Request, s: State): Action
    requires !s.at.Stopped?
    requires Shaped(req, s)
  {
    match s.at
    case Confirming => CheckContext
    case TurnStart => CheckContext
    case Calling(_) => CallModel(s.messages)
    case Thinking(_, _) => EmitThinking
    case Speaking(id, content) => EmitMessage(id, Texts(content))
    case Admitting(_) => CheckContext
    case Preparing(call) => Prepare(s.ordinal, call.id, call.name, call.input)
    case Announcing(call, _) => EmitUse(call.id, call.name, call.input, "allow")
    case Launching(_, _) => CheckContext
    case Starting(_, step) => StartStep(step)
    case Executing(call, _) => Execute(call.name, call.input)
    case Completing(_, step, output) => Complete(step, output)
    case Resulting(call, output) => EmitResult(call.id, output)
    case Asking => EmitUse("", s.uses[0].toolName, s.uses[0].input, "ask")
    case AskingCustom => EmitCustomUse(s.uses[0].toolName, s.uses[0].input)
  }

  /** A parked tool ends the run; otherwise the calls and their results join the conversation. */
  function EndTurn(s: State): State {
    if s.parked != [] then s.(at := Stopped(Parked(s.parked)))
    else if s.called == [] then s.(at := Stopped(Finished))
    else
      var grown := s.messages + [Message(Assistant, s.called, None), Message(User, s.answered, None)];
      s.(at := if s.turn + 1 < MAX_TOOL_TURNS then TurnStart else Stopped(Finished), turn := s.turn + 1, messages :=
          grown)
  }

  function NextUse(req: Request, s: State): State {
    if s.uses == [] then EndTurn(s)
    else
      match Disposed(req, s.uses[0].toolName)
      case RunsInline =>
        s.(at := Admitting(Call(req.ids(s.minted), s.uses[0].toolName, s.uses[0].input)), minted := s.minted + 1)
      case AsksFirst => s.(at := Asking)
      case ParksCustom => s.(at := AskingCustom)
  }

  function StartUses(req: Request, s: State, content: seq<Block>): State {
    if ToolUses(content) == [] then s.(at := Stopped(Finished))
    else NextUse(req, s.(uses := ToolUses(content), called := [], answered := [], parked := []))
  }

  function Speak(req: Request, s: State, id: string, content: seq<Block>): State {
    if Texts(content) != [] then s.(at := Speaking(id, content)) else StartUses(req, s, content)
  }

  function Resumed(s: State, call: Call, output: Output): State {
    s.(at := TurnStart, resuming := false,
       messages := Merged(s.messages, SeededPair(call.id, call.name, call.input, FlattenText(output.items),
           output.isError)))
  }

  function CallDone(req: Request, s: State, call: Call, output: Output): State
    requires s.uses != []
  {
    NextUse(req, s.(uses := s.uses[1..],
                    called := s.called + [ToolUseBlock(call.id, call.name, call.input)],
                    answered := s.answered + [ResultFor(call, output)]))
  }

  predicate OnCall(at: Phase) {
    || at.Admitting? || at.Preparing? || at.Launching? || at.Starting? || at.Executing? || at.Completing?
        || at.Resulting?
  }

  /** Which phases go together with resuming a parked call and with the uses still to handle. */
  predicate Shaped(req: Request, s: State) {
    && (s.at.Confirming? ==> Confirmable(req) && s.resuming)
    && (s.resuming ==> s.at.Confirming? || OnCall(s.at) || s.at.Stopped?)
    && (!s.resuming && (OnCall(s.at) || s.at.Announcing? || s.at.Asking? || s.at.AskingCustom?) ==> s.uses != [])
  }

  function Halted(s: State): State {
    s.(at := Stopped(Error))
  }

  function Advance(req: Request, s: State, answer: Answer): (s': State)
    requires !s.at.Stopped? && Shaped(req, s)
    ensures Shaped(req, s')
  {
    if answer.Failed? then Halted(s)
    else
      match s.at
      case Confirming =>
        var call := Original0(req);
        s.(at := if req.trigger.result == "deny" then Resulting(call, Denial(req.trigger.denyMessage))
            else Admitting(call))
      case TurnStart =>
        if req.canPreview then s.(at := Calling(req.ids(s.minted)), minted := s.minted + 1) else s.(at := Calling(""))
      case Calling(id) =>
        if !answer.Replied? then Halted(s)
        else if HasThinking(answer.content) then s.(at := Thinking(id, answer.content))
        else Speak(req, s, id, answer.content)
      case Thinking(id, content) => Speak(req, s, id, content)
      case Speaking(_, content) => StartUses(req, s, content)
      case Admitting(call) => if req.hasSandbox && req.hasJournal then s.(at := Preparing(call)) else Halted(s)
      case Preparing(call) =>
        if !answer.Named? then Halted(s)
        else s.(at := if s.resuming then Launching(call, answer.id) else Announcing(call, answer.id), ordinal :=
            s.ordinal + 1)
      case Announcing(call, step) => s.(at := Launching(call, step))
      case Launching(call, step) => s.(at := Starting(call, step))
      case Starting(call, step) => s.(at := Executing(call, step))
      case Executing(call, step) => if answer.Ran? then s.(at := Completing(call, step, Materialized(answer)))
          else Halted(s)
      case Completing(call, _, output) => s.(at := Resulting(call, output))
      case Resulting(call, output) => if s.resuming then Resumed(s, call, output) else CallDone(req, s, call, output)
      case Asking =>
        if answer.Named? then NextUse(req, s.(uses := s.uses[1..], parked := s.parked + [answer.id])) else Halted(s)
      case AskingCustom =>
        if answer.Named? then NextUse(req, s.(uses := s.uses[1..], parked := s.parked + [answer.id])) else Halted(s)
  }

  /** The rest of the run from a point. */
  function Finish(req: Request, s: State, h: Host): (State, Host)
    requires Shaped(req, s)
    decreases |h.script|
  {
    if s.at.Stopped? then (s, h)
    else if h.script == [] then (Halted(s), Host([], h.log + [Step(Wants(req, s), Failed)]))
    else Finish(req, Advance(req, s, h.script[0]), Host(h.script[1..], h.log + [Step(Wants(req, s), h.script[0])]))
  }

  // ---------------------------------------------------------------- the runtime

  /** `rest` completes a run as the machine does. The loops below carry it as a value, so
      that each of them only has to know it is left unchanged. */
  ghost predicate Completes(req: Request, rest: (State, Host) -> (State, Host)) {
    forall s, h {:trigger Finish(req, s, h)} :: Shaped(req, s) ==> rest(s, h) == Finish(req, s, h)
  }

  /** Where the run goes from a state the machine can be in. */
  ghost function Onward(req: Request, rest: (State, Host) -> (State, Host), s: State, h: Host): Option<(State, Host)> {
    if Shaped(req, s) then Some(rest(s, h)) else None
  }

  /** One interaction with the environment. */
  method Do(h: Host, action: Action, ghost req: Request, ghost s: State, ghost rest: (State, Host) -> (State, Host))
    returns (answer: Answer, h': Host, ghost s': State)
    requires Completes(req, rest) && Shaped(req, s) && !s.at.Stopped? && action == Wants(req, s)
    ensures Shaped(req, s') && s' == Advance(req, s, answer)
    ensures rest(s', h') == rest(s, h)
  {
    if h.script == [] {
      answer := Failed;
    } else {
      answer := h.script[0];
    }
    h' := Host(if h.script == [] then [] else h.script[1..], h.log + [Step(action, answer)]);
    s' := Advance(req, s, answer);
    assert Finish(req, s', h') == Finish(req, s, h);
  }

  method TextBlocksToContent(blocks: seq<Block>) returns (content: seq<string>)
    ensures content == Texts(blocks)
  {
    content := [];
    for i := 0 to |blocks|
      invariant content == Texts(blocks[..i])
    {
      assert blocks[..i + 1][..i] == blocks[..i];
      if blocks[i].kind == "text" && blocks[i].text != "" { content := content + [blocks[i].text]; }
    }
    assert blocks[..|blocks|] == blocks;
  }

  method HasThinkingBlocks(blocks: seq<Block>) returns (found: bool)
    ensures found <==> HasThinking(blocks)
  {
    for i := 0 to |blocks|
      invariant !HasThinking(blocks[..i])
    {
      assert blocks[..i + 1] == blocks[..i] + [blocks[i]];
      if blocks[i].kind == "thinking" || blocks[i].kind == "redacted_thinking" {
        assert blocks[i] in blocks;
        return true;
      }
    }
    assert blocks[..|blocks|] == blocks;
    return false;
  }

  method CollectToolUses(content: seq<Block>) returns (uses: seq<Block>)
    ensures uses == ToolUses(content)
  {
    uses := [];
    for i := 0 to |content|
      invariant uses == ToolUses(content[..i])
    {
      assert content[..i + 1][..i] == content[..i];
      if content[i].kind == "tool_use" { uses := uses + [content[i]]; }
    }
    assert content[..|content|] == content;
  }

  method FlattenResultText(content: seq<Item>) returns (s: string)
    ensures s == FlattenText(content)
  {
    s := "";
    for i := 0 to |content|
      invariant s == FlattenText(content[..i])
    {
      assert content[..i + 1][..i] == content[..i];
      if content[i].Object? && content[i].kind == "text" { s := s + content[i].text; }
    }
    assert content[..|content|] == content;
  }

  method PrepareBuiltin(req: Request, ordinal: nat, call: Call, h: Host, ghost s: State,
      ghost rest: (State, Host) -> (State, Host))
    returns (ok: bool, step: string, h': Host, ghost s': State)
    requires Completes(req, rest) && Shaped(req, s) && s.at == Admitting(call) && s.ordinal == ordinal
    ensures Onward(req, rest, s', h') == Some(rest(s, h))
    ensures ok ==> s' == s.(at := if s.resuming then Launching(call, step) else Announcing(call, step), ordinal :=
        ordinal + 1)
    ensures !ok ==> s'.at == Stopped(Error)
  {
    ok, step := false, "";
    var answer;
    answer, h', s' := Do(h, CheckContext, req, s, rest);
    if answer.Failed? || !req.hasSandbox || !req.hasJournal { return; }
    answer, h', s' := Do(h', Prepare(ordinal, call.id, call.name, call.input), req, s', rest);
    if answer.Named? { ok, step := true, answer.id; }
  }

  method ExecutePreparedBuiltin(req: Request, call: Call, step: string, h: Host, ghost s: State,
      ghost rest: (State, Host) -> (State, Host))
    returns (ok: bool, result: Output, h': Host, ghost s': State)
    requires Completes(req, rest) && Shaped(req, s) && s.at == Launching(call, step)
    ensures Onward(req, rest, s', h') == Some(rest(s, h))
    ensures ok ==> s' == s.(at := Resulting(call, result))
    ensures !ok ==> s'.at == Stopped(Error)
  {
    result := Output([], false);
    ok, h', s' := StartBuiltin(req, call, step, h, s, rest);
    if !ok { return; }
    ok := false;
    var answer;
    answer, h', s' := Do(h', Execute(call.name, call.input), req, s', rest);
    if !answer.Ran? { return; }
    result := answer.output;
    if answer.materializeError.Some? { result := Output([TextItem(answer.materializeError.value)], true); }
    answer, h', s' := Do(h', Complete(step, result), req, s', rest);
    ok := !answer.Failed?;
  }

  method StartBuiltin(req: Request, call: Call, step: string, h: Host, ghost s: State,
      ghost rest: (State, Host) -> (State, Host))
    returns (ok: bool, h': Host, ghost s': State)
    requires Completes(req, rest) && Shaped(req, s) && s.at == Launching(call, step)
    ensures Onward(req, rest, s', h') == Some(rest(s, h))
    ensures ok ==> s' == s.(at := Executing(call, step))
    ensures !ok ==> s'.at == Stopped(Error)
  {
    ok := false;
    var answer;
    answer, h', s' := Do(h, CheckContext, req, s, rest);
    if answer.Failed? { return; }
    answer, h', s' := Do(h', StartStep(step), req, s', rest);
    ok := !answer.Failed?;
  }

  /** Resolves a tool confirmation into the pair that unblocks the parked call. */
  method SeedConfirmation(req: Request, h: Host, ghost s: State, ghost rest: (State, Host) -> (State, Host))
    returns (ok: bool, seeded: seq<Message>, ordinal: nat, h': Host, ghost s': State)
    requires Completes(req, rest) && Shaped(req, s) && s == Begin(req) && s.at == Confirming
        && s.messages == req.messages
    ensures Onward(req, rest, s', h') == Some(rest(s, h))
    ensures ok ==> s' == s.(at := TurnStart, resuming := false, ordinal := ordinal, messages :=
        Merged(req.messages, seeded))
    ensures !ok ==> s'.at == Stopped(Error)
  {
    ok, seeded, ordinal := false, [], 0;
    var o := req.confirmed.value;
    var call := Call(o.id, o.name, o.input.value);
    var answer;
    var output: Output;
    answer, h', s' := Do(h, CheckContext, req, s, rest);
    if answer.Failed? { return; }
    if req.trigger.result == "deny" {
      var text := "Tool call denied by user.";
      if req.trigger.denyMessage.DenyText? && req.trigger.denyMessage.text != "" {
        text := text + (" " + req.trigger.denyMessage.text);
      } else {
        assert text + "" == text;
      }
      output := Output([TextItem(text)], true);
      assert output == Denial(req.trigger.denyMessage);
    } else {
      var prepared, step;
      prepared, step, h', s' := PrepareBuiltin(req, 0, call, h', s', rest);
      if !prepared { return; }
      ordinal := 1;
      var executed;
      executed, output, h', s' := ExecutePreparedBuiltin(req, call, step, h', s', rest);
      if !executed { return; }
    }
    answer, h', s' := Do(h', EmitResult(call.id, output), req, s', rest);
    if answer.Failed? { return; }
    var text := FlattenResultText(output.items);
    seeded := SeededPair(call.id, call.name, call.input, text, output.isError);
    ok := true;
  }

  /** The state in which some of a turn's uses have been handled. */
  function Handled(s: State, minted: nat, ordinal: nat, uses: seq<Block>, called: seq<Block>, answered: seq<Block>,
      parked: seq<string>): State {
    s.(minted := minted, ordinal := ordinal, uses := uses, called := called, answered := answered, parked := parked)
  }

  /** Runs one always_allow built-in: prepare, announce, execute, publish. */
  method RunInline(req: Request, call: Call, ordinal: nat, h: Host, ghost s: State,
      ghost rest: (State, Host) -> (State, Host))
    returns (ok: bool, result: Output, h': Host, ghost s': State)
    requires Completes(req, rest) && Shaped(req, s) && s.at == Admitting(call) && s.ordinal == ordinal && !s.resuming
    ensures Onward(req, rest, s', h') == Some(rest(s, h))
    ensures ok ==> s' == CallDone(req, s.(ordinal := ordinal + 1), call, result)
    ensures !ok ==> s'.at == Stopped(Error)
  {
    result := Output([], false);
    var step, answer;
    ok, step, h', s' := PrepareBuiltin(req, ordinal, call, h, s, rest);
    if !ok { return; }
    answer, h', s' := Do(h', EmitUse(call.id, call.name, call.input, "allow"), req, s', rest);
    if answer.Failed? { return false, result, h', s'; }
    ok, result, h', s' := ExecutePreparedBuiltin(req, call, step, h', s', rest);
    if !ok { return; }
    answer, h', s' := Do(h', EmitResult(call.id, result), req, s', rest);
    ok := !answer.Failed?;
  }

  /** Publishes a use the core cannot resolve itself. */
  method Park(req: Request, use: Action, h: Host, ghost s: State, ghost rest: (State, Host) -> (State, Host))
    returns (ok: bool, id: string, h': Host, ghost s': State)
    requires Completes(req, rest) && Shaped(req, s) && (s.at.Asking? || s.at.AskingCustom?) && use == Wants(req, s)
    ensures Onward(req, rest, s', h') == Some(rest(s, h))
    ensures ok ==> s' == NextUse(req, s.(uses := s.uses[1..], parked := s.parked + [id]))
    ensures !ok ==> s'.at == Stopped(Error)
  {
    id := "";
    var answer;
    answer, h', s' := Do(h, use, req, s, rest);
    ok := answer.Named?;
    if ok { id := answer.id; }
  }

  /** Handles the tool uses of one model response, in order. */
  method HandleUses(req: Request, toolUses: seq<Block>, minted0: nat, ordinal0: nat, h: Host, ghost s: State,
      ghost base: State,
                    ghost rest: (State, Host) -> (State, Host))
    returns (ok: bool, assistantBlocks: seq<Block>, resultBlocks: seq<Block>, actionEventIds: seq<string>,
             minted: nat, ordinal: nat, h': Host, ghost s': State)
    requires Completes(req, rest) && !base.resuming
    requires s == NextUse(req, Handled(base, minted0, ordinal0, toolUses, [], [], [])) && Shaped(req, s)
    ensures Onward(req, rest, s', h') == Some(rest(s, h))
    ensures ok ==> s' == EndTurn(Handled(base, minted, ordinal, [], assistantBlocks, resultBlocks, actionEventIds))
    ensures !ok ==> s'.at == Stopped(Error)
  {
    ok, assistantBlocks, resultBlocks, actionEventIds, minted, ordinal, h', s' :=
        true, [], [], [], minted0, ordinal0, h, s;
    assert toolUses[0..] == toolUses;
    for i := 0 to |toolUses|
      invariant Onward(req, rest, s', h') == Some(rest(s, h)) && ok
      invariant s' == NextUse(req, Handled(base, minted, ordinal, toolUses[i..], assistantBlocks, resultBlocks,
          actionEventIds))
    {
      var use := toolUses[i];
      assert toolUses[i..][0] == use && toolUses[i..][1..] == toolUses[i + 1..];
      match Disposed(req, use.toolName) {
        case RunsInline =>
          var call := Call(req.ids(minted), use.toolName, use.input);
          minted := minted + 1;
          var result;
          ghost var before := Handled(base, minted, ordinal, toolUses[i..], assistantBlocks, resultBlocks,
              actionEventIds);
          assert s' == before.(at := Admitting(call));
          ok, result, h', s' := RunInline(req, call, ordinal, h', s', rest);
          if !ok { return; }
          assert s' == CallDone(req, before.(ordinal := ordinal + 1), call, result);
          ordinal := ordinal + 1;
          assistantBlocks := assistantBlocks + [ToolUseBlock(call.id, use.toolName, use.input)];
          var text := FlattenResultText(result.items);
          resultBlocks := resultBlocks + [ToolResultBlock(call.id, text, result.isError, [])];
        case AsksFirst =>
          var id;
          ok, id, h', s' := Park(req, EmitUse("", use.toolName, use.input, "ask"), h', s', rest);
          if !ok { return; }
          actionEventIds := actionEventIds + [id];
        case ParksCustom =>
          var id;
          ok, id, h', s' := Park(req, EmitCustomUse(use.toolName, use.input), h', s', rest);
          if !ok { return; }
          actionEventIds := actionEventIds + [id];
      }
    }
    assert toolUses[|toolUses|..] == [];
  }

  /** Calls the model and publishes its thinking marker and text. */
  method CallAndPublish(req: Request, messages: seq<Message>, messageId: string, h: Host, ghost s: State,
                        ghost rest: (State, Host) -> (State, Host))
    returns (ok: bool, content: seq<Block>, h': Host, ghost s': State)
    requires Completes(req, rest) && Shaped(req, s) && s.at == Calling(messageId) && s.messages == messages
    ensures Onward(req, rest, s', h') == Some(rest(s, h))
    ensures ok ==> s' == StartUses(req, s.(at := s'.at), content)
    ensures !ok ==> s'.at == Stopped(Error)
  {
    ok, content := false, [];
    var answer;
    answer, h', s' := Do(h, CallModel(messages), req, s, rest);
    if !answer.Replied? { return; }
    content := answer.content;
    var thinking := HasThinkingBlocks(content);
    if thinking {
      answer, h', s' := Do(h', EmitThinking, req, s', rest);
      if answer.Failed? { return; }
    }
    ok, h', s' := PublishText(req, messageId, content, h', s', s, rest);
  }

  method PublishText(req: Request, messageId: string, content: seq<Block>, h: Host, ghost s: State, ghost base: State,
                     ghost rest: (State, Host) -> (State, Host))
    returns (ok: bool, h': Host, ghost s': State)
    requires Completes(req, rest) && Shaped(req, s) && !base.resuming
        && s == Speak(req, base.(at := s.at), messageId, content)
    ensures Onward(req, rest, s', h') == Some(rest(s, h))
    ensures ok ==> s' == StartUses(req, base.(at := s'.at), content)
    ensures !ok ==> s'.at == Stopped(Error)
  {
    ok, h', s' := true, h, s;
    var texts := TextBlocksToContent(content);
    if |texts| > 0 {
      var answer;
      answer, h', s' := Do(h', EmitMessage(messageId, texts), req, s', rest);
      ok := !answer.Failed?;
    }
  }

  /** The state of the machine between turns. */
  ghost predicate BetweenTurns(s: State, turn: nat, minted: nat, ordinal: nat, messages: seq<Message>) {
    s.at == TurnStart && s.turn == turn && s.minted == minted && s.ordinal == ordinal && s.messages == messages
        && !s.resuming
  }

  /** One turn: a model call, its publication, and its tools. */
  method RunTurn(req: Request, turn: nat, minted0: nat, ordinal0: nat, messages0: seq<Message>, h: Host, ghost s: State,
                 ghost rest: (State, Host) -> (State, Host))
    returns (outcome: Option<Outcome>, minted: nat, ordinal: nat, messages: seq<Message>, h': Host, ghost s': State)
    requires Completes(req, rest) && Shaped(req, s) && BetweenTurns(s, turn, minted0, ordinal0, messages0)
    ensures Onward(req, rest, s', h') == Some(rest(s, h))
    ensures outcome.Some? ==> s'.at == Stopped(outcome.value)
    ensures outcome.None? ==>
      if turn + 1 < MAX_TOOL_TURNS then BetweenTurns(s', turn + 1, minted, ordinal, messages)
          else s'.at == Stopped(Finished)
  {
    outcome, minted, ordinal, messages := Some(Error), minted0, ordinal0, messages0;
    var answer;
    answer, h', s' := Do(h, CheckContext, req, s, rest);
    if answer.Failed? { return; }
    var messageId := "";
    if req.canPreview {
      messageId := req.ids(minted);
      minted := minted + 1;
    }
    var ok, content;
    ok, content, h', s' := CallAndPublish(req, messages, messageId, h', s', rest);
    if !ok { return; }
    var toolUses := CollectToolUses(content);
    if |toolUses| == 0 {
      outcome := Some(Finished);
      return;
    }
    var assistantBlocks, resultBlocks, actionEventIds;
    ok, assistantBlocks, resultBlocks, actionEventIds, minted, ordinal, h', s' :=
      HandleUses(req, toolUses, minted, ordinal, h', s', s', rest);
    if !ok { return; }
    if |actionEventIds| > 0 {
      outcome := Some(Parked(actionEventIds));
    } else if |assistantBlocks| == 0 {
      outcome := Some(Finished);
    } else {
      outcome := None;
      messages := messages + [Message(Assistant, assistantBlocks, None), Message(User, resultBlocks, None)];
    }
  }

  /** The whole run. */
  method Run(req: Request, script: seq<Answer>) returns (outcome: Outcome, host: Host)
    ensures Finish(req, Begin(req), Host(script, [])).0.at == Stopped(outcome)
    ensures Finish(req, Begin(req), Host(script, [])).1 == host
  {
    ghost var rest := (s: State, h: Host) => if Shaped(req, s) then Finish(req, s, h) else (s, h);
    ghost var s := Begin(req);
    outcome, host := Finished, Host(script, []);
    if req.trigger.kind.OtherTrigger? { return; }
    var searches, fetches := Capable(req.tools, "web_search"), Capable(req.tools, "web_fetch");
    if !searches || !fetches { outcome := Error; return; }
    var messages, minted, ordinal := req.messages, 0, 0;
    if req.trigger.kind.ToolConfirmationTrigger? {
      outcome := Error;
      if !Confirmable(req) { return; }
      var ok, seeded;
      ok, seeded, ordinal, host, s := SeedConfirmation(req, host, s, rest);
      if !ok { return; }
      messages := AppendMerging(messages, seeded);
    }
    for turn := 0 to MAX_TOOL_TURNS
      invariant Onward(req, rest, s, host) == Some(rest(Begin(req), Host(script, [])))
      invariant if turn < MAX_TOOL_TURNS then BetweenTurns(s, turn, minted, ordinal, messages)
          else s.at == Stopped(Finished)
    {
      var stopped;
      stopped, minted, ordinal, messages, host, s := RunTurn(req, turn, minted, ordinal, messages, host, s, rest);
      if stopped.Some? {
        outcome := stopped.value;
        return;
      }
    }
    outcome := Finished;
  }
}

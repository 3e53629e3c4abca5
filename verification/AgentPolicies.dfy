/** Who may run what (internal/agentruntime/agentcore.go and the tool configuration it reads):
    permission policies, confirmations and publication, read off the logs of runs. */
module AgentPolicies {
  import opened Conversation
  import opened History
  import opened AgentLoop
  import opened AgentRuns

  // ---------------------------------------------------------------- the effective setting

  ghost predicate SetsEnabled(configs: seq<ToolConfig>, k: nat, name: string) {
    k < |configs| && configs[k].name == name && configs[k].enabled.Some?
  }

  ghost predicate SetsPolicy(configs: seq<ToolConfig>, k: nat, name: string) {
    k < |configs| && configs[k].name == name && configs[k].policy.Some?
  }

  /** The last configuration of the tool that says whether it is enabled says `v`; without any,
      the default does. */
  ghost predicate EnabledIs(configs: seq<ToolConfig>, name: string, otherwise: bool, v: bool) {
    || ((forall k: nat :: !SetsEnabled(configs, k, name)) && v == otherwise)
    || exists k: nat :: SetsEnabled(configs, k, name) && configs[k].enabled.value == v
         && forall j: nat | j > k :: !SetsEnabled(configs, j, name)
  }

  ghost predicate PolicyIs(configs: seq<ToolConfig>, name: string, otherwise: string, v: string) {
    || ((forall k: nat :: !SetsPolicy(configs, k, name)) && v == otherwise)
    || exists k: nat :: SetsPolicy(configs, k, name) && configs[k].policy.value == v
         && forall j: nat | j > k :: !SetsPolicy(configs, j, name)
  }

  lemma {:induction false} LaterEnabled(configs: seq<ToolConfig>, name: string, otherwise: bool, v: bool)
    requires configs != []
    requires EnabledIs(configs[1..], name,
      if SetsEnabled(configs, 0, name) then configs[0].enabled.value else otherwise, v)
    ensures EnabledIs(configs, name, otherwise, v)
  {
    var rest := configs[1..];
    forall k: nat ensures SetsEnabled(rest, k, name) <==> SetsEnabled(configs, k + 1, name) { }
    if forall k: nat :: !SetsEnabled(rest, k, name) {
      forall j: nat | j > 0 ensures !SetsEnabled(configs, j, name) { assert !SetsEnabled(rest, j - 1, name); }
    } else {
      var k: nat :| SetsEnabled(rest, k, name) && rest[k].enabled.value == v
        && forall j: nat | j > k :: !SetsEnabled(rest, j, name);
      forall j: nat | j > k + 1 ensures !SetsEnabled(configs, j, name) { assert !SetsEnabled(rest, j - 1, name); }
      assert SetsEnabled(configs, k + 1, name);
    }
  }

  lemma {:induction false} LaterPolicy(configs: seq<ToolConfig>, name: string, otherwise: string, v: string)
    requires configs != []
    requires PolicyIs(configs[1..], name,
      if SetsPolicy(configs, 0, name) then configs[0].policy.value else otherwise, v)
    ensures PolicyIs(configs, name, otherwise, v)
  {
    var rest := configs[1..];
    forall k: nat ensures SetsPolicy(rest, k, name) <==> SetsPolicy(configs, k + 1, name) { }
    if forall k: nat :: !SetsPolicy(rest, k, name) {
      forall j: nat | j > 0 ensures !SetsPolicy(configs, j, name) { assert !SetsPolicy(rest, j - 1, name); }
    } else {
      var k: nat :| SetsPolicy(rest, k, name) && rest[k].policy.value == v
        && forall j: nat | j > k :: !SetsPolicy(rest, j, name);
      forall j: nat | j > k + 1 ensures !SetsPolicy(configs, j, name) { assert !SetsPolicy(rest, j - 1, name); }
      assert SetsPolicy(configs, k + 1, name);
    }
  }

  lemma {:induction false} ConfiguredIs(configs: seq<ToolConfig>, name: string, enabled: bool, policy: string)
    ensures EnabledIs(configs, name, enabled, Configured(configs, name, enabled, policy).0)
    ensures PolicyIs(configs, name, policy, Configured(configs, name, enabled, policy).1)
    decreases |configs|
  {
    if configs != [] {
      var c := configs[0];
      var enabled' := if SetsEnabled(configs, 0, name) then c.enabled.value else enabled;
      var policy' := if SetsPolicy(configs, 0, name) then c.policy.value else policy;
      ConfiguredIs(configs[1..], name, enabled', policy');
      LaterEnabled(configs, name, enabled, Configured(configs[1..], name, enabled', policy').0);
      LaterPolicy(configs, name, policy, Configured(configs[1..], name, enabled', policy').1);
    }
  }

  lemma {:induction false} EnabledOnce(configs: seq<ToolConfig>, name: string, otherwise: bool, v: bool, v': bool)
    requires EnabledIs(configs, name, otherwise, v) && EnabledIs(configs, name, otherwise, v')
    ensures v == v'
  {
  }

  lemma {:induction false} PolicyOnce(configs: seq<ToolConfig>, name: string, otherwise: string, v: string, v': string)
    requires PolicyIs(configs, name, otherwise, v) && PolicyIs(configs, name, otherwise, v')
    ensures v == v'
  {
  }

  /** The tool set enables a tool, under a policy. Nothing is enabled without built-ins. */
  ghost predicate Enables(tools: ToolSet, name: string, policy: string) {
    && tools.builtin.Some?
    && EnabledIs(tools.builtin.value.configs, name, tools.builtin.value.defaultEnabled, true)
    && PolicyIs(tools.builtin.value.configs, name, tools.builtin.value.defaultPolicy, policy)
  }

  lemma {:induction false} EnabledExactly(tools: ToolSet, name: string, policy: string)
    ensures BuiltinEnabled(tools, name).0 && BuiltinEnabled(tools, name).1 == policy <==> Enables(tools, name, policy)
  {
    if tools.builtin.Some? {
      var b := tools.builtin.value;
      var (e, p) := Configured(b.configs, name, b.defaultEnabled, b.defaultPolicy);
      ConfiguredIs(b.configs, name, b.defaultEnabled, b.defaultPolicy);
      if Enables(tools, name, policy) {
        EnabledOnce(b.configs, name, b.defaultEnabled, e, true);
        PolicyOnce(b.configs, name, b.defaultPolicy, p, policy);
      }
    }
  }

  /** A registered built-in that may run without asking; one that must ask; anything else. */
  ghost predicate MayRun(req: Request, name: string) {
    name in req.registry && Enables(req.tools, name, "always_allow")
  }

  ghost predicate MustAsk(req: Request, name: string) {
    name in req.registry && exists policy :: policy != "always_allow" && Enables(req.tools, name, policy)
  }

  lemma {:induction false} DisposedExactly(req: Request, name: string)
    ensures Disposed(req, name) == RunsInline <==> MayRun(req, name)
    ensures Disposed(req, name) == AsksFirst <==> MustAsk(req, name)
    ensures !(MayRun(req, name) && MustAsk(req, name))
  {
    var (enabled, policy) := BuiltinEnabled(req.tools, name);
    EnabledExactly(req.tools, name, "always_allow");
    EnabledExactly(req.tools, name, policy);
    if MustAsk(req, name) {
      var other: string :| other != "always_allow" && Enables(req.tools, name, other);
      EnabledExactly(req.tools, name, other);
    }
  }

  // ---------------------------------------------------------------- every run obeys the policies

  /** The confirmed call: an ask of an enabled built-in still under always_ask, recovered from
      history under the id the user answered, and answered with allow. */
  ghost predicate ConfirmedAs(req: Request, name: string, result: string) {
    && req.trigger.kind.ToolConfirmationTrigger? && req.trigger.result == result
    && req.confirmed.Some?
    && var o := req.confirmed.value;
    && o.id != "" && o.id == req.trigger.toolUseId && o.name == name && name != "" && o.input.Some?
    && o.isToolUse && !o.selfHosted && o.permission == "ask"
    && name in req.registry && Enables(req.tools, name, "always_ask")
  }

  function DenialText(message: DenyMessage): string {
    match message
    case DenyText(text) => if text == "" then "Tool call denied by user." else "Tool call denied by user. " + text
    case _ => "Tool call denied by user."
  }

  /** The result published for a confirmed call answers that call, and a denial says so. */
  ghost predicate Answers(req: Request, id: string, output: Output) {
    && (exists name :: ConfirmedAs(req, name, req.trigger.result))
    && id == req.trigger.toolUseId
    && (req.trigger.result == "deny" ==>
          output.isError && output.items == [Object("text", DenialText(req.trigger.denyMessage), None, "")])
  }

  /** Whether an action keeps to the policies; `opening` is the part of a run that resolves a
      confirmation, before the first model call. */
  ghost predicate Keeps(req: Request, a: Action, opening: bool) {
    match a
    case Prepare(_, id, name, input) =>
      if opening then
        ConfirmedAs(req, name, "allow") && id == req.trigger.toolUseId && req.confirmed.value.input == Some(input)
      else MayRun(req, name)
    case Execute(name, input) =>
      if opening then ConfirmedAs(req, name, "allow") && req.confirmed.value.input == Some(input) else MayRun(req, name)
    case EmitUse(_, name, _, permission) =>
      !opening && (permission == "allow" || permission == "ask")
      && if permission == "allow" then MayRun(req, name) else MustAsk(req, name)
    case EmitCustomUse(name, _) => !opening && !MayRun(req, name) && !MustAsk(req, name)
    case EmitResult(id, output) => opening ==> Answers(req, id, output)
    case _ => true
  }

  ghost predicate AllKeep(req: Request, log: seq<Step>) {
    forall i :: 0 <= i < |log| ==> Keeps(req, log[i].action, ModelCalls(log[..i]) == 0)
  }

  /** The tool in hand was given its disposition. */
  ghost predicate Permitted(req: Request, s: State) {
    !s.resuming && !s.at.Stopped? ==>
      && (OnCall(s.at) || s.at.Announcing? ==> MayRun(req, s.at.call.name))
      && (s.at.Asking? ==> s.uses != [] && MustAsk(req, s.uses[0].toolName))
      && (s.at.AskingCustom? ==> s.uses != [] && !MayRun(req, s.uses[0].toolName) && !MustAsk(req, s.uses[0].toolName))
  }

  lemma {:induction false} NextUsePermitted(req: Request, s: State)
    ensures Permitted(req, NextUse(req, s))
  {
    if s.uses != [] { DisposedExactly(req, s.uses[0].toolName); }
  }

  lemma {:induction false} StartUsesPermitted(req: Request, s: State, content: seq<Block>)
    ensures Permitted(req, StartUses(req, s, content))
  {
    NextUsePermitted(req, s.(uses := ToolUses(content), called := [], answered := [], parked := []));
  }

  lemma {:induction false} ReplyPermitted(req: Request, s: State, answer: Answer)
    requires Shaped(req, s) && (s.at.Calling? || s.at.Thinking? || s.at.Speaking?) && !answer.Failed?
    ensures Permitted(req, Advance(req, s, answer))
  {
    if !s.at.Calling? {
      StartUsesPermitted(req, s, s.at.content);
    } else if answer.Replied? {
      StartUsesPermitted(req, s, answer.content);
    }
  }

  lemma {:induction false} PermittedStep(req: Request, s: State, answer: Answer)
    requires Shaped(req, s) && !s.at.Stopped? && Permitted(req, s)
    ensures Permitted(req, Advance(req, s, answer))
  {
    if answer.Failed? {
    } else if s.at.Calling? || s.at.Thinking? || s.at.Speaking? {
      ReplyPermitted(req, s, answer);
    } else if s.at.Resulting? && !s.resuming {
      NextUsePermitted(req, s.(uses := s.uses[1..],
        called := s.called + [ToolUseBlock(s.at.call.id, s.at.call.name, s.at.call.input)],
        answered := s.answered + [ResultFor(s.at.call, s.at.output)]));
    } else if (s.at.Asking? || s.at.AskingCustom?) && answer.Named? {
      NextUsePermitted(req, s.(uses := s.uses[1..], parked := s.parked + [answer.id]));
    }
  }

  lemma {:induction false} ConfirmableExactly(req: Request, result: string)
    requires req.trigger.kind.ToolConfirmationTrigger? && Confirmable(req) && req.trigger.result == result
    ensures ConfirmedAs(req, Original0(req).name, result)
  {
    EnabledExactly(req.tools, req.confirmed.value.name, "always_ask");
  }

  /** A result in hand while resuming is the confirmed call's, and a denied one is the denial. */
  ghost predicate Denies(req: Request, s: State) {
    s.resuming && s.at.Resulting? ==>
      && Confirmable(req) && s.at.call == Original0(req)
      && (req.trigger.result == "deny" ==> s.at.output == Denial(req.trigger.denyMessage))
  }

  lemma {:induction false} DeniesStep(req: Request, s: State, answer: Answer)
    requires Shaped(req, s) && !s.at.Stopped? && Resuming(req, s) && Denies(req, s)
    ensures Denies(req, Advance(req, s, answer))
  {
    if !s.resuming && !answer.Failed? { AdvanceTurn(req, s, answer); }
  }

  lemma {:induction false} DenialSays(message: DenyMessage)
    ensures Denial(message) == Output([Object("text", DenialText(message), None, "")], true)
  {
    var said := "Tool call denied by user.";
    assert said + "" == said;
    if message.DenyText? && message.text != "" {
      assert said + (" " + message.text) == "Tool call denied by user. " + message.text;
    }
  }

  lemma {:induction false} KeepsNext(req: Request, s: State)
    requires Shaped(req, s) && !s.at.Stopped? && Permitted(req, s) && Resuming(req, s) && Denies(req, s)
    ensures Keeps(req, Wants(req, s), s.resuming)
  {
    if s.resuming {
      ConfirmableExactly(req, req.trigger.result);
      DenialSays(req.trigger.denyMessage);
      if s.at.Resulting? { assert Answers(req, s.at.call.id, s.at.output); }
    }
  }

  lemma {:induction false} AllKeepSnoc(req: Request, log: seq<Step>, step: Step)
    requires AllKeep(req, log) && Keeps(req, step.action, ModelCalls(log) == 0)
    ensures AllKeep(req, log + [step])
  {
    var grown := log + [step];
    forall i | 0 <= i < |grown| ensures Keeps(req, grown[i].action, ModelCalls(grown[..i]) == 0) {
      if i < |log| { assert grown[..i] == log[..i]; } else { assert grown[..i] == log; }
    }
  }

  lemma {:induction false} KeepStep(req: Request, s: State, log: seq<Step>, answer: Answer)
    requires Shaped(req, s) && !s.at.Stopped? && Permitted(req, s) && Resuming(req, s) && Denies(req, s)
    requires OpeningIs(s, log) && AllKeep(req, log)
    ensures AllKeep(req, log + [Step(Wants(req, s), answer)])
  {
    KeepsNext(req, s);
    AllKeepSnoc(req, log, Step(Wants(req, s), answer));
  }

  lemma {:induction false} BeginsPermitted(req: Request)
    ensures Permitted(req, Begin(req)) && Resuming(req, Begin(req))
    ensures OpeningIs(Begin(req), []) && Denies(req, Begin(req))
    ensures AllKeep(req, [])
  {
  }

  /** In every run, a tool is prepared, announced as allowed and executed only if it is a
      registered built-in enabled under always_allow, or, before the first model call, the call
      the user has just allowed; a use asks only for an enabled built-in under another policy;
      and only any other tool is left to the caller. */
  lemma {:induction false} PoliciesObeyed(req: Request, script: seq<Answer>)
    ensures AllKeep(req, Log(req, script))
  {
    var inv := (s: State, log: seq<Step>) =>
      Permitted(req, s) && Resuming(req, s) && Denies(req, s) && OpeningIs(s, log) && AllKeep(req, log);
    forall s, log, answer | Shaped(req, s) && !s.at.Stopped? && inv(s, log)
      ensures inv(Advance(req, s, answer), log + [Step(Wants(req, s), answer)])
    {
      PermittedStep(req, s, answer);
      ResumingStep(req, s, answer);
      DeniesStep(req, s, answer);
      OpeningIsStep(req, s, log, answer);
      KeepStep(req, s, log, answer);
    }
    BeginsPermitted(req);
    FinishKeeps(req, Begin(req), Host(script, []), inv);
  }

  // ---------------------------------------------------------------- which runs stay silent

  /** A web tool may only be enabled under always_allow. */
  ghost predicate WebToolsCapable(req: Request) {
    forall name, policy | (name == "web_search" || name == "web_fetch") && Enables(req.tools, name, policy) ::
      policy == "always_allow"
  }

  ghost predicate Resolves(req: Request) {
    && req.confirmed.Some?
    && (ConfirmedAs(req, req.confirmed.value.name, "allow") || ConfirmedAs(req, req.confirmed.value.name, "deny"))
    && (req.trigger.denyMessage == Absent || (req.trigger.result == "deny" && req.trigger.denyMessage.DenyText?))
  }

  lemma {:induction false} CapableExactly(req: Request)
    ensures Capable(req.tools, "web_search") && Capable(req.tools, "web_fetch") <==> WebToolsCapable(req)
  {
    var (searches, p) := BuiltinEnabled(req.tools, "web_search");
    var (fetches, q) := BuiltinEnabled(req.tools, "web_fetch");
    EnabledExactly(req.tools, "web_search", p);
    EnabledExactly(req.tools, "web_fetch", q);
    forall name, policy | (name == "web_search" || name == "web_fetch") && Enables(req.tools, name, policy)
      ensures policy == if name == "web_search" then p else q
    {
      EnabledExactly(req.tools, name, policy);
    }
  }

  lemma {:induction false} ResolvesExactly(req: Request)
    requires req.trigger.kind.ToolConfirmationTrigger?
    ensures Confirmable(req) <==> Resolves(req)
  {
    if req.confirmed.Some? { EnabledExactly(req.tools, req.confirmed.value.name, "always_ask"); }
  }

  /** A run asks nothing of its environment exactly when its trigger drives no turn, a web tool
      is enabled under another policy than always_allow, or its confirmation does not answer,
      well-formed, the recovered ask of a built-in still under always_ask. */
  lemma {:induction false} SilentExactly(req: Request, script: seq<Answer>)
    ensures Log(req, script) == [] <==>
      || req.trigger.kind == OtherTrigger
      || !WebToolsCapable(req)
      || (req.trigger.kind == ToolConfirmationTrigger && !Resolves(req))
  {
    SilentRuns(req, script);
    CapableExactly(req);
    if req.trigger.kind.ToolConfirmationTrigger? { ResolvesExactly(req); }
  }

  // ---------------------------------------------------------------- what is read off a reply

  predicate IsUse(i: nat, b: Block) {
    b.kind == "tool_use"
  }

  predicate IsSaid(i: nat, b: Block) {
    b.kind == "text" && |b.text| > 0
  }

  /** The tool uses of a reply are its blocks of that kind, in order. */
  lemma {:induction false} UsesPicked(content: seq<Block>) returns (at: seq<nat>)
    ensures Picks(content, at, IsUse)
    ensures |ToolUses(content)| == |at| && forall k :: 0 <= k < |at| ==> ToolUses(content)[k] == content[at[k]]
  {
    if content == [] { return []; }
    var init, b := content[..|content| - 1], content[|content| - 1];
    var before := UsesPicked(init);
    assert content == init + [b];
    at := if IsUse(|init|, b) then before + [|init|] else before;
    assert Picks(content, at, IsUse) by { PicksSnoc(init, before, b, IsUse); }
  }

  ghost predicate Spelled(texts: seq<string>, content: seq<Block>, at: seq<nat>) {
    |texts| == |at| && forall k :: 0 <= k < |at| ==> at[k] < |content| && texts[k] == content[at[k]].text
  }

  lemma {:induction false} SpelledSnoc(texts: seq<string>, content: seq<Block>, at: seq<nat>, b: Block)
    requires Spelled(texts, content, at)
    ensures Spelled(texts, content + [b], at)
    ensures Spelled(texts + [b.text], content + [b], at + [|content|])
  {
  }

  /** The published texts are the non-empty texts of the reply, in order. */
  lemma {:induction false} TextsPicked(content: seq<Block>) returns (at: seq<nat>)
    ensures Picks(content, at, IsSaid) && Spelled(Texts(content), content, at)
  {
    if content == [] { return []; }
    var init, b := content[..|content| - 1], content[|content| - 1];
    var before := TextsPicked(init);
    assert content == init + [b];
    at := if IsSaid(|init|, b) then before + [|init|] else before;
    assert Picks(content, at, IsSaid) by { PicksSnoc(init, before, b, IsSaid); }
    SpelledSnoc(Texts(init), init, before, b);
  }
}

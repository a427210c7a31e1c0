// app/harness/tools.py, `ToolRegistry`, app/harness/policy.py, and the registry that
// app/infrastructure/adapters/learning_tools.py builds: what the protocol may assume of its tools.
module ToolRegistrySpec {
  import opened Wrappers
  import opened Keys
  import opened ToolSpec
  import opened RunnerSpec
  import opened Protocol

  datatype Risk = READ | PROPOSAL

  datatype SideEffect = NO_EFFECT | IDEMPOTENT_WRITE | NON_IDEMPOTENT_WRITE

  datatype Definition = Definition(
    name: string,
    risk: Risk,
    sideEffect: SideEffect,
    idempotencyRequired: bool,
    reconcilable: bool,
    terminalDecision: Option<string>,
    requiredPermissions: set<string>,
    featureFlag: Option<string>,
    maxAttempts: nat)

  datatype Refusal =
    | DuplicateTool | ProposalNameRequired | SideEffectRequired | IdempotencyRequired | NonIdempotentWrite | TerminalNeedsProposal

  // The checks of `register`, in its order.
  function Check(tools: map<string, Definition>, d: Definition): Option<Refusal> {
    if d.name in tools then Some(DuplicateTool)
    else if d.risk == PROPOSAL && !IsProposalName(d.name) then Some(ProposalNameRequired)
    else if d.risk == PROPOSAL && d.sideEffect == NO_EFFECT then Some(SideEffectRequired)
    else if d.risk == PROPOSAL && !d.idempotencyRequired then Some(IdempotencyRequired)
    else if d.sideEffect == NON_IDEMPOTENT_WRITE then Some(NonIdempotentWrite)
    else if d.terminalDecision.Some? && d.risk != PROPOSAL then Some(TerminalNeedsProposal)
    else None
  }

  // Registered definitions, under their names.
  predicate Sound(tools: map<string, Definition>) {
    forall name | name in tools :: tools[name].name == name && Check(map[], tools[name]).None?
  }

  const FORBIDDEN_PREFIXES := ["update_", "commit_", "delete_", "publish_"]

  // What `AgentPolicyEngine.validate` asks besides an idempotency key.
  predicate Permitted(d: Definition, permissions: set<string>) {
    && (forall i :: 0 <= i < |FORBIDDEN_PREFIXES| ==> !(FORBIDDEN_PREFIXES[i] <= d.name))
    && d.requiredPermissions <= permissions
  }

  predicate Enabled(d: Definition, flags: set<string>) { d.featureFlag.Some? ==> d.featureFlag.value in flags }

  function ToolOf(d: Definition, permissions: set<string>): ToolDef {
    ToolDef(d.sideEffect != NO_EFFECT, d.reconcilable, d.terminalDecision, Permitted(d, permissions), d.maxAttempts)
  }

  // The tools of a run: the enabled definitions, as the executor sees them.
  function ToolsOf(tools: map<string, Definition>, flags: set<string>, permissions: set<string>): map<string, ToolDef> {
    map name | name in tools && Enabled(tools[name], flags) :: ToolOf(tools[name], permissions)
  }

  // Every enabled write is a proposal tool.  `register` does not see to it: it accepts a read tool that
  // declares an idempotent write.
  predicate WritesAreProposals(tools: map<string, Definition>, flags: set<string>) {
    forall name | name in tools && Enabled(tools[name], flags) && tools[name].sideEffect != NO_EFFECT :: IsProposalName(name)
  }

  // Registration gives what the protocol's theorems ask for exactly when the writes are proposals.
  lemma {:induction false} RegisteredIffWritesAreProposals(cfg: Config, tools: map<string, Definition>,
      flags: set<string>, permissions: set<string>)
    requires Sound(tools) && cfg.tools == ToolsOf(tools, flags, permissions)
    ensures Registered(cfg) <==> WritesAreProposals(tools, flags)
  {
    if WritesAreProposals(tools, flags) {
      forall name | name in cfg.tools
        ensures (cfg.tools[name].sideEffect ==> IsProposalName(name)) && (cfg.tools[name].terminal.Some? ==> cfg.tools[name].sideEffect)
      {
        assert Check(map[], tools[name]).None?;
      }
    }
    if Registered(cfg) {
      forall name | name in tools && Enabled(tools[name], flags) && tools[name].sideEffect != NO_EFFECT ensures IsProposalName(name) {
        assert cfg.tools[name].sideEffect;
      }
    }
  }

  // It is not automatic: a read tool with an idempotent write is accepted under any name.
  lemma {:induction false} RegisterAcceptsReadWrites(tools: map<string, Definition>, d: Definition)
    requires d.name !in tools && d.risk == READ && d.sideEffect == IDEMPOTENT_WRITE && d.terminalDecision.None?
    requires !IsProposalName(d.name) && d.featureFlag.None?
    ensures Check(tools, d).None? && !WritesAreProposals(tools[d.name := d], {})
  {
    var after := tools[d.name := d];
    assert d.name in after && Enabled(after[d.name], {}) && after[d.name].sideEffect != NO_EFFECT;
  }

  class ToolRegistry {
    var tools: map<string, Definition>

    constructor ()
      ensures tools == map[] && Sound(tools)
    {
      tools := map[];
    }

    method Register(d: Definition) returns (refused: Option<Refusal>)
      requires Sound(tools)
      modifies this
      ensures refused == Check(old(tools), d) && Sound(tools)
      ensures tools == if refused.Some? then old(tools) else old(tools)[d.name := d]
    {
      if d.name in tools {
        return Some(DuplicateTool);
      }
      if d.risk == PROPOSAL && !IsProposalName(d.name) {
        return Some(ProposalNameRequired);
      }
      if d.risk == PROPOSAL {
        if d.sideEffect == NO_EFFECT {
          return Some(SideEffectRequired);
        }
        if !d.idempotencyRequired {
          return Some(IdempotencyRequired);
        }
      }
      if d.sideEffect == NON_IDEMPOTENT_WRITE {
        return Some(NonIdempotentWrite);
      }
      if d.terminalDecision.Some? && d.risk != PROPOSAL {
        return Some(TerminalNeedsProposal);
      }
      tools := tools[d.name := d];
      refused := None;
    }
  }

  // ---- The learning registry ---------------------------------------------------------------

  const READ_PERMISSION := "student:evidence:read"

  const PROPOSE_PERMISSION := "student:proposal:create"

  function ReadTool(name: string): Definition {
    Definition(name, READ, NO_EFFECT, false, false, None, {READ_PERMISSION}, None, 3)
  }

  function ProposalTool(name: string, decision: string, flag: Option<string>): Definition {
    Definition(name, PROPOSAL, IDEMPOTENT_WRITE, true, true, Some(decision), {PROPOSE_PERMISSION}, flag, 2)
  }

  const LEARNING_TOOLS := [
    ReadTool("search_recent_attempts"),
    ReadTool("get_student_knowledge_states"),
    ReadTool("get_school_knowledge_stats"),
    ProposalTool("propose_minor_adjustment", "MINOR_ADJUST", None),
    ProposalTool("propose_major_replan", "MAJOR_REPLAN", None),
    ProposalTool("propose_stage_transition", "STAGE_TRANSITION", Some("agent-stage-transition"))]

  function TableOfFirst(k: nat): map<string, Definition>
    requires k <= |LEARNING_TOOLS|
  {
    if k == 0 then map[] else TableOfFirst(k - 1)[LEARNING_TOOLS[k - 1].name := LEARNING_TOOLS[k - 1]]
  }

  lemma {:induction false} TableHolds(k: nat, name: string)
    requires k <= |LEARNING_TOOLS| && name in TableOfFirst(k)
    ensures exists i :: 0 <= i < k && LEARNING_TOOLS[i].name == name && TableOfFirst(k)[name] == LEARNING_TOOLS[i]
  {
    if LEARNING_TOOLS[k - 1].name != name { TableHolds(k - 1, name); }
  }

  lemma {:induction false} LearningNames()
    ensures forall i, j :: 0 <= i < j < |LEARNING_TOOLS| ==> LEARNING_TOOLS[i].name != LEARNING_TOOLS[j].name
    ensures forall i :: 3 <= i < |LEARNING_TOOLS| ==> IsProposalName(LEARNING_TOOLS[i].name)
  {
    var minor, stage := LEARNING_TOOLS[3].name, LEARNING_TOOLS[5].name;
    assert minor[8] == 'm' && stage[8] == 's';
    assert LEARNING_TOOLS[4].name[..8] == PROPOSE && minor[..8] == PROPOSE && stage[..8] == PROPOSE;
  }

  // `build_learning_tool_registry`: nothing is refused.
  method BuildLearningRegistry() returns (registry: ToolRegistry)
    ensures fresh(registry) && Sound(registry.tools) && registry.tools == TableOfFirst(|LEARNING_TOOLS|)
  {
    registry := new ToolRegistry();
    LearningNames();
    for k := 0 to |LEARNING_TOOLS|
      invariant fresh(registry) && Sound(registry.tools) && registry.tools == TableOfFirst(k)
    {
      if LEARNING_TOOLS[k].name in registry.tools {
        TableHolds(k, LEARNING_TOOLS[k].name);
        assert false;
      }
      var refused := registry.Register(LEARNING_TOOLS[k]);
      assert refused.None?;
    }
  }

  // With the learning registry, whatever its flags, the protocol's assumptions hold: writes are proposals,
  // every write ends the run, and every write can be reconciled.
  lemma {:induction false} LearningRegistryIsRegistered(cfg: Config, flags: set<string>, permissions: set<string>)
    requires cfg.tools == ToolsOf(TableOfFirst(|LEARNING_TOOLS|), flags, permissions)
    ensures Registered(cfg) && WritesAreTerminal(cfg)
    ensures forall name | name in cfg.tools && cfg.tools[name].sideEffect :: cfg.tools[name].reconcilable
  {
    LearningNames();
    forall name | name in cfg.tools
      ensures cfg.tools[name].sideEffect ==> IsProposalName(name) && cfg.tools[name].terminal.Some? && cfg.tools[name].reconcilable
      ensures cfg.tools[name].terminal.Some? ==> cfg.tools[name].sideEffect
    {
      TableHolds(|LEARNING_TOOLS|, name);
    }
  }
}

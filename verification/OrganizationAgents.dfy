/**
  The agents of one organization: which are enabled, and which is the default.

  Each handler is one step here. Rows come in the order of their ids; an organization that has rows
  is never seeded again, so the rows of a run are those it starts with, less the deleted ones.

  The handlers compare the id as it stands in the path, while the store looks rows up under the id
  without surrounding blanks.
 */
module OrganizationAgents {
  import opened Text
  import opened Wrappers

  type Id = string

  datatype Agent = Agent(id: Id, enabled: bool)

  /** `stored` is the settings row, which may be missing or name no agent; `configured` that of the application. */
  datatype State = State(agents: seq<Agent>, stored: Option<Id>, configured: Id)

  function EnabledIds(agents: seq<Agent>): (ids: seq<Id>)
    ensures forall id :: id in ids <==> Agent(id, true) in agents
    ensures |ids| <= |agents|
  {
    if agents == [] then []
    else
      assert forall a :: a in agents <==> a == agents[0] || a in agents[1..];
      (if agents[0].enabled then [agents[0].id] else []) + EnabledIds(agents[1..])
  }

  predicate DistinctIds(agents: seq<Agent>) {
    forall i, j :: 0 <= i < j < |agents| ==> agents[i].id != agents[j].id
  }

  predicate Exists(agents: seq<Agent>, id: Id) {
    Agent(id, true) in agents || Agent(id, false) in agents
  }

  function DefaultId(s: State): Id {
    var enabled := EnabledIds(s.agents);
    if s.stored.Some? && s.stored.value != "" then s.stored.value
    else if s.configured in enabled then s.configured
    else if enabled != [] then enabled[0]
    else ""
  }

  function FirstOther(ids: seq<Id>, id: Id): (r: Option<Id>)
    ensures r.Some? ==> r.value in ids && r.value != id
    ensures r.None? ==> forall other :: other in ids ==> other == id
  {
    if ids == [] then None
    else if ids[0] != id then Some(ids[0])
    else
      assert forall other :: other in ids <==> other == ids[0] || other in ids[1..];
      FirstOther(ids[1..], id)
  }

  function WithStatus(agents: seq<Agent>, id: Id, enabled: bool): (r: seq<Agent>)
    ensures |r| == |agents|
    ensures forall i :: 0 <= i < |r| ==> r[i] == if agents[i].id == id then Agent(id, enabled) else agents[i]
  {
    seq(|agents|, i requires 0 <= i < |agents| => if agents[i].id == id then Agent(id, enabled) else agents[i])
  }

  function WithoutAgent(agents: seq<Agent>, id: Id): (r: seq<Agent>)
    ensures forall a :: a in r <==> a in agents && a.id != id
    ensures DistinctIds(agents) ==> DistinctIds(r)
  {
    if agents == [] then []
    else
      var n := |agents| - 1;
      assert forall a :: a in agents <==> a in agents[..n] || a == agents[n];
      WithoutAgent(agents[..n], id) + if agents[n].id == id then [] else [agents[n]]
  }

  /** `[a-zA-Z][a-zA-Z0-9_.:-]{0,127}` */
  predicate IsResourceId(id: Id) {
    && 1 <= |id| <= 128 && IsLetter(id[0])
    && forall i :: 0 <= i < |id| ==> IsLetter(id[i]) || '0' <= id[i] <= '9' || id[i] in "_.:-"
  }

  /** Its characters one by one. */
  predicate IsIdChar(c: char) {
    'a' <= c <= 'z' || 'A' <= c <= 'Z' || '0' <= c <= '9' || c == '_' || c == '.' || c == ':' || c == '-'
  }

  lemma ResourceIdIff(id: Id)
    ensures IsResourceId(id) <==>
      && id != "" && |id| <= 128 && ('a' <= id[0] <= 'z' || 'A' <= id[0] <= 'Z')
      && forall c :: c in id ==> IsIdChar(c)
  {
    forall c | c in id ensures exists i :: 0 <= i < |id| && id[i] == c {
    }
    if forall c :: c in id ==> IsIdChar(c) {
      forall i | 0 <= i < |id| ensures IsLetter(id[i]) || '0' <= id[i] <= '9' || id[i] in "_.:-" {
        assert id[i] in id && IsIdChar(id[i]);
      }
    }
    assert forall c :: c in "_.:-" <==> c == '_' || c == '.' || c == ':' || c == '-';
  }

  datatype Refusal = LastEnabled | BadId | Unknown | Invalid | NotEnabled | IsDefault

  /** `valid` is what the store finds when it checks the stored payload and its template again. */
  function SettingStatus(s: State, id: Id, enabled: bool, valid: bool): (State, Option<Refusal>) {
    var ids, key := EnabledIds(s.agents), Strip(id);
    if !enabled && id in ids && |ids| <= 1 then (s, Some(LastEnabled))
    else if !IsResourceId(key) then (s, Some(BadId))
    else if !Exists(s.agents, key) then (s, Some(Unknown))
    else if !valid then (s, Some(Invalid))
    else
      var changed := s.(agents := WithStatus(s.agents, key, enabled));
      var replacement := FirstOther(ids, id);
      if !enabled && DefaultId(changed) == id && replacement.Some? && replacement.value != ""
      then (changed.(stored := replacement), None)
      else (changed, None)
  }

  function SettingDefault(s: State, id: Id): (State, Option<Refusal>) {
    if id !in EnabledIds(s.agents) then (s, Some(NotEnabled)) else (s.(stored := Some(id)), None)
  }

  /** The row is looked up without blanks, but compared and deleted under the id as given. */
  function Deleting(s: State, id: Id): (State, Option<Refusal>) {
    var key := Strip(id);
    if !IsResourceId(key) then (s, Some(BadId))
    else if !Exists(s.agents, key) then (s, Some(Unknown))
    else if Agent(key, true) in s.agents && |EnabledIds(s.agents)| <= 1 then (s, Some(LastEnabled))
    else if DefaultId(s) == id then (s, Some(IsDefault))
    else if !Exists(s.agents, id) then (s, Some(Unknown))
    else (s.(agents := WithoutAgent(s.agents, id)), None)
  }

  class Organization {
    const configured: Id
    var agents: seq<Agent>
    var stored: Option<Id>

    function Contents(): State
      reads this
    {
      State(agents, stored, configured)
    }

    constructor (agents: seq<Agent>, stored: Option<Id>, configured: Id)
      ensures Contents() == State(agents, stored, configured)
    {
      this.agents, this.stored, this.configured := agents, stored, configured;
    }

    method SetStatus(id: Id, enabled: bool, valid: bool) returns (refusal: Option<Refusal>)
      modifies this
      ensures (Contents(), refusal) == SettingStatus(old(Contents()), id, enabled, valid)
    {
      var replacement: Option<Id> := None;
      if !enabled {
        var ids := EnabledIds(agents);
        if id in ids && |ids| <= 1 { return Some(LastEnabled); }
        replacement := FirstOther(ids, id);
      }
      var key := Strip(id);
      if !IsResourceId(key) { return Some(BadId); }
      if !Exists(agents, key) { return Some(Unknown); }
      if !valid { return Some(Invalid); }
      agents := WithStatus(agents, key, enabled);
      if !enabled && DefaultId(Contents()) == id && replacement.Some? && replacement.value != "" {
        stored := replacement;
      }
      refusal := None;
    }

    method SetDefault(id: Id) returns (refusal: Option<Refusal>)
      modifies this`stored
      ensures (Contents(), refusal) == SettingDefault(old(Contents()), id)
    {
      if id !in EnabledIds(agents) { return Some(NotEnabled); }
      stored := Some(id);
      refusal := None;
    }

    method Delete(id: Id) returns (refusal: Option<Refusal>)
      modifies this`agents
      ensures (Contents(), refusal) == Deleting(old(Contents()), id)
    {
      var key := Strip(id);
      if !IsResourceId(key) { return Some(BadId); }
      if !Exists(agents, key) { return Some(Unknown); }
      if Agent(key, true) in agents && |EnabledIds(agents)| <= 1 { return Some(LastEnabled); }
      if DefaultId(Contents()) == id { return Some(IsDefault); }
      if !Exists(agents, id) { return Some(Unknown); }
      agents := WithoutAgent(agents, id);
      refusal := None;
    }
  }

  // ---------------------------------------------------------------- what every handler keeps

  /** Ids are well formed and distinct, some agent is enabled, and so is the default. */
  ghost predicate IsSound(s: State) {
    && DistinctIds(s.agents)
    && (forall a :: a in s.agents ==> IsResourceId(a.id))
    && Agent(DefaultId(s), true) in s.agents
  }

  lemma ResourceIdIsStripped(id: Id)
    requires IsResourceId(id)
    ensures Strip(id) == id
  {
    assert id[|id| - 1] in "_.:-" ==> !IsSpace(id[|id| - 1]);
    assert "" + id + "" == id;
    StripOf("", id, "");
  }

  datatype Step =
    | SetStatus(id: Id, enabled: bool, valid: bool)
    | SetDefault(id: Id)
    | Delete(id: Id)

  function Apply(s: State, step: Step): (State, Option<Refusal>) {
    match step
    case SetStatus(id, enabled, valid) => SettingStatus(s, id, enabled, valid)
    case SetDefault(id) => SettingDefault(s, id)
    case Delete(id) => Deleting(s, id)
  }

  function Execute(s: State, steps: seq<Step>): State {
    if steps == [] then s else Apply(Execute(s, steps[..|steps| - 1]), steps[|steps| - 1]).0
  }

  lemma StatusMembers(agents: seq<Agent>, id: Id, enabled: bool, a: Agent)
    requires a.id != id && a in agents
    ensures a in WithStatus(agents, id, enabled)
  {
  }

  lemma StatusOfAgent(agents: seq<Agent>, id: Id, enabled: bool)
    requires Exists(agents, id)
    ensures Agent(id, enabled) in WithStatus(agents, id, enabled)
  {
  }

  lemma {:induction false} EnabledIdsAreDistinct(agents: seq<Agent>)
    requires DistinctIds(agents)
    ensures forall i, j :: 0 <= i < j < |EnabledIds(agents)| ==> EnabledIds(agents)[i] != EnabledIds(agents)[j]
  {
    if agents == [] {
    } else {
      var rest := EnabledIds(agents[1..]);
      EnabledIdsAreDistinct(agents[1..]);
      forall other | other in rest ensures other != agents[0].id {
        var j :| 0 <= j < |agents[1..]| && agents[1..][j] == Agent(other, true);
        assert agents[j + 1].id == other;
      }
    }
  }

  /** Unless it is the only one enabled, there is another one to take its place. */
  lemma AnotherIsEnabled(agents: seq<Agent>, id: Id)
    requires DistinctIds(agents) && EnabledIds(agents) != []
    requires id in EnabledIds(agents) ==> |EnabledIds(agents)| >= 2
    ensures FirstOther(EnabledIds(agents), id).Some?
  {
    var ids := EnabledIds(agents);
    EnabledIdsAreDistinct(agents);
    assert ids[0] in ids && (|ids| >= 2 ==> ids[1] in ids);
  }

  lemma EnablingKeepsSound(s: State, id: Id)
    requires IsSound(s) && Exists(s.agents, id)
    ensures IsSound(s.(agents := WithStatus(s.agents, id, true)))
  {
  }

  lemma StatusKeepsIds(agents: seq<Agent>, id: Id, enabled: bool)
    requires DistinctIds(agents) && forall a :: a in agents ==> IsResourceId(a.id)
    ensures DistinctIds(WithStatus(agents, id, enabled))
    ensures forall a :: a in WithStatus(agents, id, enabled) ==> IsResourceId(a.id)
  {
  }

  /** A default other than the disabled agent is still enabled. */
  lemma OtherDefaultIsEnabled(s: State, id: Id)
    requires IsSound(s)
    requires
      var changed := s.(agents := WithStatus(s.agents, id, false));
      EnabledIds(changed.agents) != [] && DefaultId(changed) != id
    ensures
      var changed := s.(agents := WithStatus(s.agents, id, false));
      Agent(DefaultId(changed), true) in changed.agents
  {
  }

  lemma DisablingKeepsSound(s: State, id: Id)
    requires IsSound(s) && Strip(id) == id && SettingStatus(s, id, false, true).1.None?
    ensures IsSound(SettingStatus(s, id, false, true).0)
  {
    hide DistinctIds, DefaultId, Strip, IsResourceId;
    var changed := s.(agents := WithStatus(s.agents, id, false));
    assert DefaultId(s) in EnabledIds(s.agents);
    AnotherIsEnabled(s.agents, id);
    StatusKeepsIds(s.agents, id, false);
    var other := FirstOther(EnabledIds(s.agents), id).value;
    StatusMembers(s.agents, id, false, Agent(other, true));
    assert other in EnabledIds(changed.agents);
    AgentIdIsNotEmpty(s.agents, Agent(other, true));
    if DefaultId(changed) == id {
      StoredIsDefault(changed.(stored := Some(other)));
    } else {
      OtherDefaultIsEnabled(s, id);
    }
  }

  lemma AgentIdIsNotEmpty(agents: seq<Agent>, a: Agent)
    requires a in agents && forall b :: b in agents ==> IsResourceId(b.id)
    ensures a.id != ""
  {
  }

  lemma StoredIsDefault(s: State)
    requires s.stored.Some? && s.stored.value != ""
    ensures DefaultId(s) == s.stored.value
  {
  }

  /** An agent besides this one is enabled, and this one is not stored as the default. */
  ghost predicate CanLose(s: State, key: Id) {
    s.stored != Some(key) && !OnlyMember(EnabledIds(s.agents), key)
  }

  /**
    A status change keeps the state sound exactly when it is refused, enables an agent, names it
    without blanks, or hits an agent the organization can lose without the guard and the replacement.
   */
  lemma StatusKeepsSoundIff(s: State, id: Id, enabled: bool, valid: bool)
    requires IsSound(s)
    ensures IsSound(SettingStatus(s, id, enabled, valid).0) <==>
            || SettingStatus(s, id, enabled, valid).1.Some?
            || enabled || Strip(id) == id || CanLose(s, Strip(id))
  {
    if SettingStatus(s, id, enabled, valid).1.None? {
      if enabled {
        EnablingKeepsSound(s, Strip(id));
      } else if Strip(id) == id {
        DisablingKeepsSound(s, id);
      } else {
        BlankIdMissesGuard(s, id);
        UnguardedKeepsSoundIff(s, Strip(id));
      }
    }
  }

  /** With blanks around the id neither the guard nor the replacement applies. */
  lemma BlankIdMissesGuard(s: State, id: Id)
    requires IsSound(s) && Strip(id) != id && SettingStatus(s, id, false, true).1.None?
    ensures SettingStatus(s, id, false, true).0 == s.(agents := WithStatus(s.agents, Strip(id), false))
  {
    var changed := s.(agents := WithStatus(s.agents, Strip(id), false));
    StatusKeepsIds(s.agents, Strip(id), false);
    if DefaultId(changed) == id && id != "" { DefaultIsResourceId(s, changed); }
    if IsResourceId(id) { ResourceIdIsStripped(id); }
  }

  lemma DefaultIsResourceId(s: State, changed: State)
    requires IsSound(s) && changed.stored == s.stored && changed.configured == s.configured
    requires forall a :: a in changed.agents ==> IsResourceId(a.id)
    ensures DefaultId(changed) == "" || IsResourceId(DefaultId(changed))
  {
    var ids := EnabledIds(changed.agents);
    if ids != [] { assert ids[0] in ids; }
  }

  lemma UnguardedKeepsSoundIff(s: State, key: Id)
    requires IsSound(s) && key != ""
    ensures IsSound(s.(agents := WithStatus(s.agents, key, false))) <==> CanLose(s, key)
  {
    hide IsResourceId, DistinctIds, WithStatus, OnlyMember, EnabledIds, Exists;
    var changed := s.(agents := WithStatus(s.agents, key, false));
    var ids, left := EnabledIds(s.agents), EnabledIds(changed.agents);
    StatusKeepsIds(s.agents, key, false);
    LeftIffOther(s.agents, key);
    if CanLose(s, key) {
      assert DefaultId(changed) != key;
      OtherDefaultIsEnabled(s, key);
    } else if s.stored != Some(key) {
      assert left == [];
    }
  }

  /** Disabling leaves exactly the other enabled agents. */
  lemma LeftIffOther(agents: seq<Agent>, key: Id)
    ensures
      var left := EnabledIds(WithStatus(agents, key, false));
      && (forall id :: id in left <==> id in EnabledIds(agents) && id != key)
      && (key in EnabledIds(agents) ==> (left == [] <==> OnlyMember(EnabledIds(agents), key)))
      && (key !in EnabledIds(agents) ==> !OnlyMember(EnabledIds(agents), key))
  {
    var left := EnabledIds(WithStatus(agents, key, false));
    forall id ensures id in left <==> id in EnabledIds(agents) && id != key {
      if id != key && Agent(id, true) in agents { StatusMembers(agents, key, false, Agent(id, true)); }
    }
    if left != [] { assert left[0] in left; }
  }

  lemma DeleteKeepsSound(s: State, id: Id)
    requires IsSound(s)
    ensures IsSound(Deleting(s, id).0)
  {
  }

  /** Every request to disable an agent names it without blanks. */
  predicate NoBlanks(steps: seq<Step>) {
    forall i :: 0 <= i < |steps| && steps[i].SetStatus? && !steps[i].enabled ==> Strip(steps[i].id) == steps[i].id
  }

  /**
    Over every run of the handlers in which ids to disable have no blanks around them, some agent
    stays enabled, and the default is one of them.
   */
  lemma {:induction false} AgentsStaySound(s: State, steps: seq<Step>)
    requires IsSound(s) && NoBlanks(steps)
    ensures IsSound(Execute(s, steps))
    ensures EnabledIds(Execute(s, steps).agents) != []
  {
    if steps == [] {
    } else {
      AgentsStaySound(s, steps[..|steps| - 1]);
      var before, step := Execute(s, steps[..|steps| - 1]), steps[|steps| - 1];
      match step {
        case SetStatus(id, enabled, valid) => StatusKeepsSoundIff(before, id, enabled, valid);
        case SetDefault(id) =>
        case Delete(id) => DeleteKeepsSound(before, id);
      }
    }
    assert DefaultId(Execute(s, steps)) in EnabledIds(Execute(s, steps).agents);
  }

  // ---------------------------------------------------------------- what a run leaves

  /** The last status a run gave an agent, unless it deleted it since; refused requests do not count. */
  ghost function LastStatus(s: State, steps: seq<Step>, key: Id): Option<bool> {
    if steps == [] then
      if Agent(key, true) in s.agents then Some(true)
      else if Agent(key, false) in s.agents then Some(false) else None
    else
      var earlier, step := LastStatus(s, steps[..|steps| - 1], key), steps[|steps| - 1];
      if Apply(Execute(s, steps[..|steps| - 1]), step).1.Some? then earlier
      else if step.SetStatus? && Strip(step.id) == key then Some(step.enabled)
      else if step.Delete? && step.id == key then None
      else earlier
  }

  /** After every run an agent has the status it was given last, and is there unless it was deleted. */
  lemma {:induction false} StatusIsLastGiven(s: State, steps: seq<Step>, key: Id, enabled: bool)
    requires DistinctIds(s.agents)
    ensures DistinctIds(Execute(s, steps).agents)
    ensures Agent(key, enabled) in Execute(s, steps).agents <==> LastStatus(s, steps, key) == Some(enabled)
  {
    if steps == [] {
      assert Agent(key, true) in s.agents && Agent(key, false) in s.agents ==> Agent(key, true) == Agent(key, false);
    } else {
      StatusIsLastGiven(s, steps[..|steps| - 1], key, true);
      StatusIsLastGiven(s, steps[..|steps| - 1], key, false);
      StepGivesStatus(Execute(s, steps[..|steps| - 1]), steps[|steps| - 1], key, enabled);
    }
  }

  lemma StepGivesStatus(s: State, step: Step, key: Id, enabled: bool)
    requires DistinctIds(s.agents)
    ensures DistinctIds(Apply(s, step).0.agents)
    ensures
      var (s', refusal) := Apply(s, step);
      if refusal.Some? then s' == s
      else if step.SetStatus? && Strip(step.id) == key then
        Agent(key, enabled) in s'.agents <==> enabled == step.enabled
      else if step.Delete? && step.id == key then Agent(key, enabled) !in s'.agents
      else Agent(key, enabled) in s'.agents <==> Agent(key, enabled) in s.agents
  {
    hide IsResourceId, Strip, DefaultId, EnabledIds, FirstOther;
    match step {
      case SetStatus(id, status, valid) =>
        if SettingStatus(s, id, status, valid).1.None? {
          StatusOfAgent(s.agents, Strip(id), status);
          if Agent(key, enabled) in s.agents && key != Strip(id) {
            StatusMembers(s.agents, Strip(id), status, Agent(key, enabled));
          }
        }
      case SetDefault(id) =>
      case Delete(id) =>
    }
  }

  /** With a blank after its id the only enabled agent is disabled, and no agent is left. */
  lemma BlankDisablesLastAgent(x: Id, stored: Option<Id>, configured: Id)
    requires IsResourceId(x)
    ensures
      var (s, refusal) := SettingStatus(State([Agent(x, true)], stored, configured), x + " ", false, true);
      refusal.None? && s.agents == [Agent(x, false)] && EnabledIds(s.agents) == []
  {
    var s := State([Agent(x, true)], stored, configured);
    BlankAfter(x);
    assert EnabledIds(s.agents) == [x];
    assert WithStatus(s.agents, x, false) == [Agent(x, false)];
  }

  lemma BlankAfter(x: Id)
    requires IsResourceId(x)
    ensures Strip(x + " ") == x && x + " " != x
  {
    assert x[|x| - 1] in "_.:-" ==> !IsSpace(x[|x| - 1]);
    assert "" + x + " " == x + " ";
    StripOf("", x, " ");
    assert |x + " "| == |x| + 1;
  }

  ghost predicate OnlyMember(ids: seq<Id>, id: Id) {
    forall other :: other in ids <==> other == id
  }

  /**
    A status change is refused exactly for disabling the only enabled agent, for unknown agents, and
    for agents whose stored payload is no longer valid, in this order.
   */
  lemma StatusIsRefusedIff(s: State, id: Id, enabled: bool, valid: bool)
    requires IsSound(s)
    ensures
      var refusal := SettingStatus(s, id, enabled, valid).1;
      && (refusal == Some(LastEnabled) <==> !enabled && OnlyMember(EnabledIds(s.agents), id))
      && (refusal == Some(BadId) <==> refusal != Some(LastEnabled) && !IsResourceId(Strip(id)))
      && (refusal == Some(Unknown) <==>
            refusal != Some(LastEnabled) && IsResourceId(Strip(id)) && !Exists(s.agents, Strip(id)))
      && (refusal == Some(Invalid) <==>
            refusal != Some(LastEnabled) && Exists(s.agents, Strip(id)) && !valid)
      && (refusal.None? <==>
            !(!enabled && OnlyMember(EnabledIds(s.agents), id)) && Exists(s.agents, Strip(id)) && valid)
  {
    EnabledIdsAreDistinct(s.agents);
    OnlyOneIff(EnabledIds(s.agents), id);
    ExistingIsResourceId(s, Strip(id));
    hide IsSound, WithStatus, EnabledIds, DefaultId, IsResourceId, Strip, Exists, OnlyMember;
  }

  lemma ExistingIsResourceId(s: State, id: Id)
    requires IsSound(s)
    ensures Exists(s.agents, id) ==> IsResourceId(id)
  {
    assert Agent(id, true).id == id && Agent(id, false).id == id;
  }

  lemma OnlyOneIff(ids: seq<Id>, id: Id)
    requires forall i, j :: 0 <= i < j < |ids| ==> ids[i] != ids[j]
    ensures id in ids && |ids| <= 1 <==> OnlyMember(ids, id)
  {
    if id in ids && |ids| >= 2 {
      assert ids[0] in ids && ids[1] in ids;
    }
  }

  /**
    Otherwise the agent named without blanks has that status and no other agent changes. The default
    moves only off an agent that was disabled under its exact id.
   */
  lemma StatusTakesEffect(s: State, id: Id, enabled: bool, valid: bool, other: Agent)
    requires IsSound(s) && SettingStatus(s, id, enabled, valid).1.None? && other.id != Strip(id)
    ensures
      var s', key := SettingStatus(s, id, enabled, valid).0, Strip(id);
      && (Agent(key, enabled) in s'.agents && Agent(key, !enabled) !in s'.agents)
      && (other in s'.agents <==> other in s.agents)
      && |s'.agents| == |s.agents|
      && (s.stored.Some? && s.stored.value != "" && (enabled || s.stored.value != id) ==> s'.stored == s.stored)
  {
    hide IsResourceId, Strip, IsSound, EnabledIds, FirstOther;
    StatusOfAgent(s.agents, Strip(id), enabled);
    if other in s.agents { StatusMembers(s.agents, Strip(id), enabled, other); }
  }

  /** The first enabled agent, in the order of the rows, other than this one. */
  predicate IsFirstOther(agents: seq<Agent>, id: Id, i: nat) {
    && i < |agents| && agents[i].enabled && agents[i].id != id
    && forall j :: 0 <= j < i && agents[j].enabled ==> agents[j].id == id
  }

  lemma {:induction false} FirstOtherIs(agents: seq<Agent>, id: Id, i: nat)
    requires IsFirstOther(agents, id, i)
    ensures FirstOther(EnabledIds(agents), id) == Some(agents[i].id)
  {
    if i > 0 {
      assert agents[0].enabled ==> agents[0].id == id;
      assert forall j :: 0 <= j < |agents| - 1 ==> agents[1..][j] == agents[j + 1];
      FirstOtherIs(agents[1..], id, i - 1);
      if agents[0].enabled {
        assert EnabledIds(agents)[1..] == EnabledIds(agents[1..]);
      } else {
        assert EnabledIds(agents) == EnabledIds(agents[1..]);
      }
    }
  }

  /** An agent disabled under its exact id while it is the default is replaced by the first other one enabled. */
  lemma ReplacementIsFirstOther(s: State, id: Id, i: nat)
    requires IsSound(s) && SettingStatus(s, id, false, true).1.None? && Strip(id) == id
    requires IsFirstOther(s.agents, id, i) && s.stored == Some(id)
    ensures SettingStatus(s, id, false, true).0.stored == Some(s.agents[i].id)
  {
    FirstOtherIs(s.agents, id, i);
    assert s.agents[i] in s.agents;
    hide Strip, EnabledIds, FirstOther;
  }

  /** Exactly an enabled agent can be made the default, and then it is. */
  lemma SettingDefaultTakesEffect(s: State, id: Id)
    requires IsSound(s)
    ensures SettingDefault(s, id).1.None? <==> Agent(id, true) in s.agents
    ensures SettingDefault(s, id).1.None? ==>
              DefaultId(SettingDefault(s, id).0) == id && SettingDefault(s, id).0.agents == s.agents
    ensures SettingDefault(s, id).1.Some? ==> SettingDefault(s, id).0 == s
  {
    if Agent(id, true) in s.agents { AgentIdIsNotEmpty(s.agents, Agent(id, true)); }
  }

  /**
    The default is the stored one; without one, the configured agent if it is enabled, else the first
    enabled one, else none.
   */
  lemma DefaultIs(s: State)
    ensures s.stored.Some? && s.stored.value != "" ==> DefaultId(s) == s.stored.value
    ensures s.stored.None? || s.stored.value == "" ==>
      && (Agent(s.configured, true) in s.agents ==> DefaultId(s) == s.configured)
      && (Agent(s.configured, true) !in s.agents ==>
            && (forall i: nat :: IsFirstOther(s.agents, s.configured, i) ==> DefaultId(s) == s.agents[i].id)
            && ((forall a :: a in s.agents ==> !a.enabled) ==> DefaultId(s) == ""))
  {
    var enabled := EnabledIds(s.agents);
    if Agent(s.configured, true) !in s.agents {
      forall i: nat | IsFirstOther(s.agents, s.configured, i)
        ensures enabled != [] && enabled[0] == s.agents[i].id
      {
        FirstOtherIs(s.agents, s.configured, i);
        assert s.agents[i] in s.agents;
        assert enabled != [] ==> enabled[0] in enabled;
      }
      if enabled != [] { assert Agent(enabled[0], true) in s.agents; }
    }
  }

  lemma DeletionTakesEffect(s: State, id: Id, other: Agent)
    requires IsSound(s) && Deleting(s, id).1.None?
    ensures
      var s' := Deleting(s, id).0;
      && !Exists(s'.agents, id) && s'.stored == s.stored
      && (other.id != id ==> (other in s'.agents <==> other in s.agents))
  {
  }

  /**
    With which refusal: an ill-formed id, an unknown agent, the only one enabled, the default, or
    blanks around the id.
   */
  lemma DeletionIsAnswered(s: State, id: Id)
    requires IsSound(s)
    ensures
      var refusal, key := Deleting(s, id).1, Strip(id);
      var last := OnlyMember(EnabledIds(s.agents), key);
      && (refusal == Some(BadId) <==> !IsResourceId(key))
      && (refusal == Some(LastEnabled) <==> Exists(s.agents, key) && last)
      && (refusal == Some(IsDefault) <==> Exists(s.agents, key) && !last && id == DefaultId(s))
      && (refusal == Some(Unknown) <==>
            && IsResourceId(key) && !last && id != DefaultId(s)
            && (!Exists(s.agents, key) || !Exists(s.agents, id)))
      && (refusal.Some? ==> Deleting(s, id).0 == s)
  {
    hide DistinctIds, DefaultId, WithoutAgent, EnabledIds, Strip, IsResourceId;
    var key := Strip(id);
    EnabledIdsAreDistinct(s.agents);
    OnlyOneIff(EnabledIds(s.agents), key);
    ExistingIsResourceId(s, key);
    ExistingIsResourceId(s, id);
    assert Agent(DefaultId(s), true) in s.agents;
    assert OnlyMember(EnabledIds(s.agents), key) ==> key in EnabledIds(s.agents);
    if IsResourceId(id) { ResourceIdIsStripped(id); }
  }

  /** In such a state a deletion is refused for unknown ids and for the default, and for nothing else. */
  lemma DeletionIsRefusedIff(s: State, id: Id)
    requires IsSound(s)
    ensures Deleting(s, id).1.Some? <==> !Exists(s.agents, id) || id == DefaultId(s)
  {
  }

  /**
    Were two requests to check first and write afterwards, each disabling the other's only remaining
    agent, none would be left: the handlers must not interleave.
   */
  lemma InterleavedDisablingLeavesNone(a: Id, b: Id, stored: Option<Id>, configured: Id)
    requires a != b
    ensures
      var agents := [Agent(a, true), Agent(b, true)];
      var s := State(agents, stored, configured);
      && SettingStatus(s, a, false, true).1 != Some(LastEnabled)
      && SettingStatus(s, b, false, true).1 != Some(LastEnabled)
      && EnabledIds(WithStatus(WithStatus(agents, a, false), b, false)) == []
  {
  }
}

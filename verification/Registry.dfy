/** The tool registry (tools/registry.go): permissions with wildcards, and concurrent dispatch. */
module Registry {
  import opened Core

  datatype Output = Done(text: string) | Broke(err: string)

  /** A tool is a function of its arguments. */
  datatype Tool = Tool(name: string, execute: map<string, Value> -> Output)

  // ---- authorization ----

  predicate HasSuffix(s: string, suffix: string) {
    |suffix| <= |s| && s[|s| - |suffix|..] == suffix
  }

  /** A granted pattern covers a tool exactly, as "*", or as a prefix ending in ":*". */
  predicate Covers(pattern: string, tool: string) {
    pattern == tool || pattern == "*" || (HasSuffix(pattern, ":*") && pattern[..|pattern| - 1] <= tool)
  }

  /** What the wildcards mean: everything, or every name that begins with what stands before the star, colon
      included. */
  lemma CoversIff(pattern: string, tool: string)
    ensures Covers(pattern, tool)
       <==> pattern == tool || pattern == "*" || exists p, rest :: pattern == p + ":*" && tool == p + ":" + rest
  {
    if HasSuffix(pattern, ":*") && pattern[..|pattern| - 1] <= tool {
      var p, rest := pattern[..|pattern| - 2], tool[|pattern| - 1..];
      assert pattern == p + pattern[|p|..];
      assert pattern[..|pattern| - 1] == p + ":";
      assert tool == p + ":" + rest;
    }
    if exists p, rest :: pattern == p + ":*" && tool == p + ":" + rest {
      var p, rest :| pattern == p + ":*" && tool == p + ":" + rest;
      assert pattern[|pattern| - 2..] == ":*";
      assert pattern[..|pattern| - 1] == p + ":" && tool[..|p| + 1] == p + ":";
    }
  }

  type Permissions = map<string, set<string>>

  ghost predicate Authorized(p: Permissions, tenant: string, tool: string) {
    tenant == "" || (tenant in p && exists pattern :: pattern in p[tenant] && Covers(pattern, tool))
  }

  function Granted(p: Permissions, tenant: string, tool: string): Permissions {
    p[tenant := (if tenant in p then p[tenant] else {}) + {tool}]
  }

  function Revoked(p: Permissions, tenant: string, tool: string): Permissions {
    if tenant in p then p[tenant := p[tenant] - {tool}] else p
  }

  datatype Change = Grant(tenant: string, tool: string) | Revoke(tenant: string, tool: string)

  function Table(changes: seq<Change>): Permissions {
    if changes == [] then map[]
    else
      var p := Table(changes[..|changes| - 1]);
      match changes[|changes| - 1]
      case Grant(tenant, tool) => Granted(p, tenant, tool)
      case Revoke(tenant, tool) => Revoked(p, tenant, tool)
  }

  /** The last change to this tenant's pattern was a grant. */
  ghost predicate Standing(changes: seq<Change>, tenant: string, pattern: string) {
    exists i :: 0 <= i < |changes| && changes[i] == Grant(tenant, pattern)
                && forall j :: i < j < |changes| ==> changes[j] != Revoke(tenant, pattern)
  }

  lemma {:induction false} TableHoldsStanding(changes: seq<Change>, tenant: string, pattern: string)
    ensures tenant in Table(changes) && pattern in Table(changes)[tenant] <==> Standing(changes, tenant, pattern)
  {
    if changes != [] {
      var n := |changes| - 1;
      var before := changes[..n];
      TableHoldsStanding(before, tenant, pattern);
      if changes[n] == Grant(tenant, pattern) {
        assert Standing(changes, tenant, pattern);
      } else if changes[n] == Revoke(tenant, pattern) {
        assert !Standing(changes, tenant, pattern);
      } else {
        if Standing(before, tenant, pattern) {
          var i :| 0 <= i < n && before[i] == Grant(tenant, pattern)
                   && forall j :: i < j < n ==> before[j] != Revoke(tenant, pattern);
          assert changes[i] == Grant(tenant, pattern) && forall j :: i < j < n ==> changes[j] == before[j];
        }
        if Standing(changes, tenant, pattern) {
          var i :| 0 <= i < |changes| && changes[i] == Grant(tenant, pattern)
                   && forall j :: i < j < |changes| ==> changes[j] != Revoke(tenant, pattern);
          assert before[i] == Grant(tenant, pattern) && forall j :: i < j < n ==> changes[j] == before[j];
        }
      }
    }
  }

  /** Authorization as a function of the grant and revoke history: no tenant, or some pattern whose last
      change was a grant covers the tool. Revoking a tool does not undo a wildcard that covers it. */
  lemma AuthorizedByHistory(changes: seq<Change>, tenant: string, tool: string)
    ensures Authorized(Table(changes), tenant, tool)
       <==> tenant == "" || exists pattern :: Standing(changes, tenant, pattern) && Covers(pattern, tool)
  {
    var p := Table(changes);
    if tenant in p && exists pattern :: pattern in p[tenant] && Covers(pattern, tool) {
      var pattern :| pattern in p[tenant] && Covers(pattern, tool);
      TableHoldsStanding(changes, tenant, pattern);
    }
    if exists pattern :: Standing(changes, tenant, pattern) && Covers(pattern, tool) {
      var pattern :| Standing(changes, tenant, pattern) && Covers(pattern, tool);
      TableHoldsStanding(changes, tenant, pattern);
    }
  }

  // ---- one call ----

  function Denied(p: Permissions, tenant: string, c: ToolCall): ToolResult {
    var why := if tenant !in p
               then "tenant " + tenant + " has no permission table; access to " + c.toolName + " denied"
               else "tenant " + tenant + " is not authorized to call tool " + c.toolName;
    ToolResult(c.callID, "PermissionDenied: " + why, true)
  }

  function Missing(c: ToolCall): ToolResult {
    ToolResult(c.callID, "tool not found: " + c.toolName, true)
  }

  function Executed(t: Tool, c: ToolCall): ToolResult {
    match t.execute(c.arguments)
    case Done(text) => ToolResult(c.callID, text, false)
    case Broke(err) => ToolResult(c.callID, err, true)
  }

  /** The result of a call that found this permission table and then this tool table. */
  ghost function Outcome(p: Permissions, tools: map<string, Tool>, tenant: string, c: ToolCall): ToolResult {
    if !Authorized(p, tenant, c.toolName) then Denied(p, tenant, c)
    else if c.toolName !in tools then Missing(c)
    else Executed(tools[c.toolName], c)
  }

  /** What a caller reads off a result: its own call ID, and a denial, an unknown tool, the tool's error or its
      output, only the last of which is no error. */
  ghost predicate Answers(p: Permissions, tools: map<string, Tool>, tenant: string, c: ToolCall, r: ToolResult) {
    && r.callID == c.callID
    && (!Authorized(p, tenant, c.toolName) ==> r.isError && "PermissionDenied: tenant " + tenant <= r.result)
    && (Authorized(p, tenant, c.toolName) && c.toolName !in tools ==>
          r.isError && r.result == "tool not found: " + c.toolName)
    && (Authorized(p, tenant, c.toolName) && c.toolName in tools ==>
          match tools[c.toolName].execute(c.arguments)
          case Done(text) => r.result == text && !r.isError
          case Broke(err) => r.result == err && r.isError)
  }

  lemma OutcomeAnswers(p: Permissions, tools: map<string, Tool>, tenant: string, c: ToolCall)
    ensures Answers(p, tools, tenant, c, Outcome(p, tools, tenant, c))
  {
    if !Authorized(p, tenant, c.toolName) {
      var r := Denied(p, tenant, c);
      var head := "PermissionDenied: tenant " + tenant;
      assert r.result[..|head|] == head;
    }
  }

  class ConcreteToolRegistry {
    var tools: map<string, Tool>
    var permissions: Permissions

    constructor ()
      ensures tools == map[] && permissions == Table([])
    {
      tools, permissions := map[], map[];
    }

    method Register(tool: Tool) returns (duplicate: bool)
      modifies this`tools
      ensures duplicate <==> tool.name in old(tools)
      ensures tools == if duplicate then old(tools) else old(tools)[tool.name := tool]
    {
      if tool.name in tools {
        return true;
      }
      tools := tools[tool.name := tool];
      return false;
    }

    method GrantPermission(tenant: string, tool: string)
      modifies this`permissions
      ensures permissions == Granted(old(permissions), tenant, tool)
    {
      if tenant !in permissions {
        permissions := permissions[tenant := {}];
      }
      permissions := permissions[tenant := permissions[tenant] + {tool}];
    }

    method RevokePermission(tenant: string, tool: string)
      modifies this`permissions
      ensures permissions == Revoked(old(permissions), tenant, tool)
    {
      if tenant in permissions {
        permissions := permissions[tenant := permissions[tenant] - {tool}];
      }
    }

    method AuthorizeCall(tenant: string, tool: string) returns (ok: bool)
      ensures ok <==> Authorized(permissions, tenant, tool)
    {
      if tenant == "" {
        return true;
      }
      if tenant !in permissions {
        return false;
      }
      var allowed := permissions[tenant];
      if tool in allowed {
        assert Covers(tool, tool);
        return true;
      }
      if "*" in allowed {
        assert Covers("*", tool);
        return true;
      }
      var left := allowed;
      while left != {}
        invariant left <= allowed
        invariant forall pattern :: pattern in allowed && pattern !in left ==> !Covers(pattern, tool)
        decreases left
      {
        var pattern :| pattern in left;
        if HasSuffix(pattern, ":*") && pattern[..|pattern| - 1] <= tool {
          assert Covers(pattern, tool);
          return true;
        }
        left := left - {pattern};
      }
      return false;
    }

    /** One goroutine per call, run here whole and in an arbitrary order; module Dispatch takes them apart. */
    method ExecuteConcurrent(tenant: string, calls: seq<ToolCall>) returns (results: array<ToolResult>)
      ensures fresh(results) && results.Length == |calls|
      ensures forall i :: 0 <= i < |calls| ==> results[i] == Outcome(permissions, tools, tenant, calls[i])
      ensures forall i :: 0 <= i < |calls| ==> Answers(permissions, tools, tenant, calls[i], results[i])
    {
      results := new ToolResult[|calls|](_ => ToolResult("", "", false));
      var running: set<nat> := {};
      for i := 0 to |calls|
        invariant forall k :: k in running <==> 0 <= k < i
      {
        running := running + {i};
      }
      while running != {}
        invariant forall k :: k in running ==> k < |calls|
        invariant forall i :: 0 <= i < |calls| && i !in running ==> results[i] == Outcome(permissions, tools, tenant, calls[i])
        decreases running
      {
        var i :| i in running;
        var ok := AuthorizeCall(tenant, calls[i].toolName);
        if !ok {
          results[i] := Denied(permissions, tenant, calls[i]);
        } else if calls[i].toolName !in tools {
          results[i] := Missing(calls[i]);
        } else {
          results[i] := Executed(tools[calls[i].toolName], calls[i]);
        }
        running := running - {i};
      }
      forall k | 0 <= k < |calls| ensures Answers(permissions, tools, tenant, calls[k], results[k]) {
        OutcomeAnswers(permissions, tools, tenant, calls[k]);
      }
    }
  }
}

/** Concurrent dispatch step by step: every goroutine authorizes, looks its tool up, executes and writes its
    slot in separate steps, interleaved with the others and with changes to the registry. */
module Dispatch {
  import opened Core
  import opened Registry

  datatype Stage =
    | Spawned
    | Allowed(seenPermissions: Permissions)
    | Found(seenPermissions: Permissions, seenTools: map<string, Tool>)
    | Finished(seenPermissions: Permissions, seenTools: map<string, Tool>)

  datatype Sys = Sys(permissions: Permissions, tools: map<string, Tool>, slots: seq<Slot>)

  datatype Action =
    | Advance(i: nat)
    | Permit(tenant: string, pattern: string)
    | Forbid(tenant: string, pattern: string)
    | Add(tool: Tool)

  function Begin(p: Permissions, tools: map<string, Tool>, n: nat): Sys {
    Sys(p, tools, seq(n, i => Slot(Spawned, None)))
  }

  /** A goroutine's state: its stage and what it has written to its slot. */
  datatype Slot = Slot(stage: Stage, result: Option<ToolResult>)

  /** One step of the goroutine for call `c`. */
  ghost function Advanced(p: Permissions, tools: map<string, Tool>, tenant: string, c: ToolCall, slot: Slot): Slot {
    match slot.stage
    case Spawned =>
      if Authorized(p, tenant, c.toolName) then Slot(Allowed(p), slot.result)
      else Slot(Finished(p, tools), Some(Denied(p, tenant, c)))
    case Allowed(q) =>
      if c.toolName in tools then Slot(Found(q, tools), slot.result)
      else Slot(Finished(q, tools), Some(Missing(c)))
    case Found(q, t) =>
      if c.toolName in t then Slot(Finished(q, t), Some(Executed(t[c.toolName], c))) else slot
    case Finished(_, _) => slot
  }

  ghost function Do(tenant: string, calls: seq<ToolCall>, s: Sys, a: Action): Sys
    requires |calls| == |s.slots|
  {
    match a
    case Permit(t, pattern) => s.(permissions := Granted(s.permissions, t, pattern))
    case Forbid(t, pattern) => s.(permissions := Revoked(s.permissions, t, pattern))
    case Add(tool) => if tool.name in s.tools then s else s.(tools := s.tools[tool.name := tool])
    case Advance(i) =>
      if i < |calls| then s.(slots := s.slots[i := Advanced(s.permissions, s.tools, tenant, calls[i], s.slots[i])])
      else s
  }

  ghost function Run(tenant: string, calls: seq<ToolCall>, s: Sys, actions: seq<Action>): (r: Sys)
    requires |calls| == |s.slots|
    ensures |calls| == |r.slots|
  {
    if actions == [] then s
    else Do(tenant, calls, Run(tenant, calls, s, actions[..|actions| - 1]), actions[|actions| - 1])
  }

  /** Each slot is empty until its goroutine finishes, and then holds the outcome of its own call under the
      permissions and the tools that goroutine saw. */
  ghost predicate SlotOk(tenant: string, c: ToolCall, slot: Slot) {
    match slot.stage
    case Spawned => slot.result == None
    case Allowed(p) => slot.result == None && Authorized(p, tenant, c.toolName)
    case Found(p, t) => slot.result == None && Authorized(p, tenant, c.toolName) && c.toolName in t
    case Finished(p, t) => slot.result == Some(Outcome(p, t, tenant, c))
  }

  lemma AdvancedKeepsSlotOk(p: Permissions, tools: map<string, Tool>, tenant: string, c: ToolCall, slot: Slot)
    requires SlotOk(tenant, c, slot)
    ensures SlotOk(tenant, c, Advanced(p, tools, tenant, c, slot))
  {
  }

  lemma {:induction false} SlotsHoldOwnOutcomes(s0: Sys, tenant: string, calls: seq<ToolCall>, actions: seq<Action>, i: nat)
    requires |calls| == |s0.slots| && i < |calls| && s0.slots[i] == Slot(Spawned, None)
    ensures SlotOk(tenant, calls[i], Run(tenant, calls, s0, actions).slots[i])
  {
    if actions != [] {
      var was := Run(tenant, calls, s0, actions[..|actions| - 1]);
      SlotsHoldOwnOutcomes(s0, tenant, calls, actions[..|actions| - 1], i);
      AdvancedKeepsSlotOk(was.permissions, was.tools, tenant, calls[i], was.slots[i]);
    }
  }

  /** The registry held permission table `p` after some number of the steps, and tool table `t` no earlier. */
  ghost predicate Held(s0: Sys, tenant: string, calls: seq<ToolCall>, actions: seq<Action>, p: Permissions,
      t: map<string, Tool>)
    requires |calls| == |s0.slots|
  {
    exists k, l :: 0 <= k <= l <= |actions|
                   && Run(tenant, calls, s0, actions[..k]).permissions == p
                   && Run(tenant, calls, s0, actions[..l]).tools == t
  }

  lemma HeldStays(s0: Sys, tenant: string, calls: seq<ToolCall>, actions: seq<Action>, n: nat, p: Permissions,
      t: map<string, Tool>)
    requires |calls| == |s0.slots| && n <= |actions|
    requires Held(s0, tenant, calls, actions[..n], p, t)
    ensures Held(s0, tenant, calls, actions, p, t)
    ensures Held(s0, tenant, calls, actions, p, Run(tenant, calls, s0, actions).tools)
  {
    var k, l :| 0 <= k <= l <= n
                && Run(tenant, calls, s0, actions[..n][..k]).permissions == p
                && Run(tenant, calls, s0, actions[..n][..l]).tools == t;
    assert actions[..n][..k] == actions[..k] && actions[..n][..l] == actions[..l] && actions[..|actions|] == actions;
  }

  lemma HeldNow(s0: Sys, tenant: string, calls: seq<ToolCall>, actions: seq<Action>)
    requires |calls| == |s0.slots|
    ensures Held(s0, tenant, calls, actions, Run(tenant, calls, s0, actions).permissions, Run(tenant, calls, s0, actions).tools)
  {
    assert actions[..|actions|] == actions;
  }

  /** A step leaves goroutine i's stage alone or moves it on with the tables of the moment. */
  lemma StageStep(was: Sys, tenant: string, calls: seq<ToolCall>, a: Action, i: nat)
    requires |calls| == |was.slots| && i < |calls|
    ensures var before := was.slots[i].stage;
            var now := Do(tenant, calls, was, a).slots[i].stage;
            || now == before
            || (before.Spawned? && (now == Allowed(was.permissions) || now == Finished(was.permissions, was.tools)))
            || (before.Allowed? && (now == Found(before.seenPermissions, was.tools) || now == Finished(before.seenPermissions, was.tools)))
            || (before.Found? && now == Finished(before.seenPermissions, before.seenTools))
    ensures a.Advance? ==> Do(tenant, calls, was, a).tools == was.tools
    ensures Do(tenant, calls, was, a).slots[i] != was.slots[i] ==> a.Advance?
  {
  }

  ghost predicate SawRealTables(s0: Sys, tenant: string, calls: seq<ToolCall>, actions: seq<Action>, stage: Stage)
    requires |calls| == |s0.slots|
  {
    match stage
    case Spawned => true
    case Allowed(p) => Held(s0, tenant, calls, actions, p, Run(tenant, calls, s0, actions).tools)
    case Found(p, t) => Held(s0, tenant, calls, actions, p, t)
    case Finished(p, t) => Held(s0, tenant, calls, actions, p, t)
  }

  lemma {:induction false} TablesSeenWereReal(s0: Sys, tenant: string, calls: seq<ToolCall>, actions: seq<Action>, i: nat)
    requires |calls| == |s0.slots| && i < |calls| && s0.slots[i] == Slot(Spawned, None)
    ensures SawRealTables(s0, tenant, calls, actions, Run(tenant, calls, s0, actions).slots[i].stage)
  {
    if actions != [] {
      var n := |actions| - 1;
      var before := actions[..n];
      TablesSeenWereReal(s0, tenant, calls, before, i);
      var was := Run(tenant, calls, s0, before);
      HeldNow(s0, tenant, calls, before);
      HeldStays(s0, tenant, calls, actions, n, was.permissions, was.tools);
      var stage := was.slots[i].stage;
      if !stage.Spawned? {
        HeldStays(s0, tenant, calls, actions, n, stage.seenPermissions, if stage.Allowed? then was.tools else stage.seenTools);
      }
      StageStep(was, tenant, calls, actions[n], i);
    }
  }

  /** Whatever happens to the registry meanwhile, a written slot holds the outcome of its own call under a
      permission table the registry held at some step of the dispatch and a tool table it held no earlier. */
  lemma ResultsAreOutcomes(s0: Sys, tenant: string, calls: seq<ToolCall>, actions: seq<Action>, i: nat)
    requires s0 == Begin(s0.permissions, s0.tools, |calls|) && i < |calls|
    requires Run(tenant, calls, s0, actions).slots[i].result.Some?
    ensures exists p, t :: Held(s0, tenant, calls, actions, p, t)
                           && Run(tenant, calls, s0, actions).slots[i].result == Some(Outcome(p, t, tenant, calls[i]))
                           && Answers(p, t, tenant, calls[i], Run(tenant, calls, s0, actions).slots[i].result.value)
  {
    TablesSeenWereReal(s0, tenant, calls, actions, i);
    SlotsHoldOwnOutcomes(s0, tenant, calls, actions, i);
    var stage := Run(tenant, calls, s0, actions).slots[i].stage;
    assert Held(s0, tenant, calls, actions, stage.seenPermissions, stage.seenTools);
    OutcomeAnswers(stage.seenPermissions, stage.seenTools, tenant, calls[i]);
  }

  // ---- completion ----

  /** Steps taken by goroutine i. */
  function StepsOf(actions: seq<Action>, i: nat): nat {
    if actions == [] then 0
    else StepsOf(actions[..|actions| - 1], i) + if actions[|actions| - 1] == Advance(i) then 1 else 0
  }

  function Progress(stage: Stage): nat {
    match stage
    case Spawned => 0
    case Allowed(_) => 1
    case Found(_, _) => 2
    case Finished(_, _) => 3
  }

  lemma AdvancedProgresses(p: Permissions, tools: map<string, Tool>, tenant: string, c: ToolCall, slot: Slot)
    requires SlotOk(tenant, c, slot)
    ensures var was, now := Progress(slot.stage), Progress(Advanced(p, tools, tenant, c, slot).stage);
            was <= now && (was < 3 ==> was < now)
  {
  }

  lemma {:induction false} ProgressKeepsUp(s0: Sys, tenant: string, calls: seq<ToolCall>, actions: seq<Action>, i: nat)
    requires |calls| == |s0.slots| && i < |calls| && s0.slots[i] == Slot(Spawned, None)
    ensures var done := Progress(Run(tenant, calls, s0, actions).slots[i].stage);
            done >= StepsOf(actions, i) || done == 3
  {
    if actions != [] {
      var before := actions[..|actions| - 1];
      var was := Run(tenant, calls, s0, before);
      ProgressKeepsUp(s0, tenant, calls, before, i);
      SlotsHoldOwnOutcomes(s0, tenant, calls, before, i);
      AdvancedProgresses(was.permissions, was.tools, tenant, calls[i], was.slots[i]);
    }
  }

  /** No goroutine waits for another: three steps of its own, whatever is interleaved, fill its slot. */
  lemma ThreeStepsFinish(s0: Sys, tenant: string, calls: seq<ToolCall>, actions: seq<Action>, i: nat)
    requires s0 == Begin(s0.permissions, s0.tools, |calls|) && i < |calls|
    requires StepsOf(actions, i) >= 3
    ensures Run(tenant, calls, s0, actions).slots[i].result.Some?
  {
    ProgressKeepsUp(s0, tenant, calls, actions, i);
    SlotsHoldOwnOutcomes(s0, tenant, calls, actions, i);
  }

  ghost predicate LeavesRegistryAlone(actions: seq<Action>) {
    forall k :: 0 <= k < |actions| ==> actions[k].Advance?
  }

  lemma {:induction false} FixedRegistry(s0: Sys, tenant: string, calls: seq<ToolCall>, actions: seq<Action>)
    requires |calls| == |s0.slots| && LeavesRegistryAlone(actions)
    ensures Run(tenant, calls, s0, actions).permissions == s0.permissions
    ensures Run(tenant, calls, s0, actions).tools == s0.tools
  {
    if actions != [] {
      assert actions[|actions| - 1].Advance?;
      FixedRegistry(s0, tenant, calls, actions[..|actions| - 1]);
    }
  }

  lemma HeldIsFixed(s0: Sys, tenant: string, calls: seq<ToolCall>, actions: seq<Action>, p: Permissions,
      t: map<string, Tool>)
    requires |calls| == |s0.slots| && LeavesRegistryAlone(actions)
    requires Held(s0, tenant, calls, actions, p, t)
    ensures p == s0.permissions && t == s0.tools
  {
    var k, l :| 0 <= k <= l <= |actions|
                && Run(tenant, calls, s0, actions[..k]).permissions == p
                && Run(tenant, calls, s0, actions[..l]).tools == t;
    FixedRegistry(s0, tenant, calls, actions[..k]);
    FixedRegistry(s0, tenant, calls, actions[..l]);
  }

  /** Schedule independence: with a fixed registry, every interleaving leaves in each slot whose goroutine has
      finished, as it has after three steps, what the sequential map would put there, call IDs in call
      order. */
  lemma DispatchIsScheduleIndependent(s0: Sys, tenant: string, calls: seq<ToolCall>, actions: seq<Action>, i: nat)
    requires s0 == Begin(s0.permissions, s0.tools, |calls|) && i < |calls|
    requires LeavesRegistryAlone(actions)
    ensures var slot := Run(tenant, calls, s0, actions).slots[i];
            && (slot.stage.Finished? <==> slot.result.Some?)
            && (StepsOf(actions, i) >= 3 ==> slot.stage.Finished?)
            && (slot.result.Some? ==> slot.result.value == Outcome(s0.permissions, s0.tools, tenant, calls[i])
                                      && Answers(s0.permissions, s0.tools, tenant, calls[i], slot.result.value))
  {
    SlotsHoldOwnOutcomes(s0, tenant, calls, actions, i);
    if StepsOf(actions, i) >= 3 {
      ThreeStepsFinish(s0, tenant, calls, actions, i);
    }
    if Run(tenant, calls, s0, actions).slots[i].result.Some? {
      ResultsAreOutcomes(s0, tenant, calls, actions, i);
      var p, t :| Held(s0, tenant, calls, actions, p, t)
                  && Run(tenant, calls, s0, actions).slots[i].result == Some(Outcome(p, t, tenant, calls[i]));
      HeldIsFixed(s0, tenant, calls, actions, p, t);
      OutcomeAnswers(p, t, tenant, calls[i]);
    }
  }
}

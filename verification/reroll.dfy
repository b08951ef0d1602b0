/** `App::main_internal` and the helpers it sequences: the rolling restart
    of one compose service over the scripted gateway. */
module Reroll {
  import opened Wrappers
  import opened Gateway
  import opened Config
  import Text
  import opened ContainerIds
  import opened RuntimeCalls
  import opened Readiness

  /** How a run ends: `Ok(())`, an error, or the panic of indexing an empty
      list of old ids. */
  datatype Exit = Ok | Err(error: Error) | Panicked

  function ToExit(o: Outcome<Error>): Exit {
    if o.Pass? then Ok else Err(o.error)
  }

  /** The placeholder a pre-stop command template carries. */
  const Placeholder: string := "{id}"

  /** The pre-stop command for one container. */
  function HookCommand(template: string, id: string): string {
    Text.Replace(template, Placeholder, id)
  }

  /** A template without the placeholder runs as it is, for every id. */
  lemma {:induction false} HookWithoutPlaceholder(template: string, id: string)
    requires !Text.Contains(template, Placeholder)
    ensures HookCommand(template, id) == template
  {
    Text.ReplaceWithoutOccurrence(template, Placeholder, id);
  }

  /** A placeholder placed right after a placeholder-free prefix cannot
      start inside that prefix: such a start would either lie wholly in the
      prefix or overlap the placeholder's '{' with a later character of the
      placeholder, which holds no '{'. */
  lemma {:induction false} NoPlaceholderBefore(a: string, b: string)
    requires !Text.Contains(a, Placeholder)
    ensures forall i: nat :: i < |a| ==> !Text.OccursAt(a + Placeholder + b, Placeholder, i)
  {
    var s := a + Placeholder + b;
    Text.ContainsIffOccurs(a, Placeholder);
    forall i: nat | i < |a| ensures !Text.OccursAt(s, Placeholder, i) {
      if i + |Placeholder| <= |a| {
        assert s[i..i + |Placeholder|] == a[i..i + |Placeholder|];
        assert !Text.OccursAt(a, Placeholder, i);
      } else {
        var m := |a| - i;
        assert s[i..i + |Placeholder|][m] == s[|a|] == '{';
        assert Placeholder[m] != '{';
      }
    }
  }

  /** A template cut at its placeholders, with no placeholder inside any
      piece, runs with the id put in the place of every placeholder. */
  lemma {:induction false} HookFillsEveryPlaceholder(parts: seq<string>, id: string)
    requires forall j :: 0 <= j < |parts| ==> !Text.Contains(parts[j], Placeholder)
    ensures HookCommand(Text.JoinWith(parts, Placeholder), id) == Text.JoinWith(parts, id)
    decreases |parts|
  {
    if |parts| == 1 {
      Text.ReplaceWithoutOccurrence(parts[0], Placeholder, id);
    } else if |parts| > 1 {
      var a := parts[0];
      var rest := Text.JoinWith(parts[1..], Placeholder);
      HookFillsEveryPlaceholder(parts[1..], id);
      NoPlaceholderBefore(a, rest);
      assert a + Placeholder + rest == a + (Placeholder + rest);
      Text.ReplaceCopiesUnmatched(a, Placeholder + rest, Placeholder, id);
      Text.ReplaceLeadingOccurrence(rest, Placeholder, id);
      assert Text.JoinWith(parts, id) == a + (id + Text.JoinWith(parts[1..], id));
    }
  }

  /** One hook per id, in the order of the ids. */
  function Hooks(template: string, ids: seq<string>): (cmds: seq<Command>)
    ensures |cmds| == |ids|
  {
    if ids == [] then [] else [Shell(HookCommand(template, ids[0]))] + Hooks(template, ids[1..])
  }

  /** Hook `j` runs the template with id `j` put in. */
  lemma {:induction false} HooksRunEachId(template: string, ids: seq<string>)
    ensures forall j :: 0 <= j < |ids| ==> Hooks(template, ids)[j] == Shell(HookCommand(template, ids[j]))
    decreases |ids|
  {
    if ids != [] {
      HooksRunEachId(template, ids[1..]);
    }
  }

  /** The `for` loop of `pre_stop`: runs the hook of every id; what the shell
      reports is never looked at. */
  function RunHooks(script: Script, io: Io, template: string, ids: seq<string>): Io
    decreases |ids|
  {
    if ids == [] then io
    else RunHooks(script, Call(script, io, Shell(HookCommand(template, ids[0]))).1, template, ids[1..])
  }

  /** The hooks are issued in order, one reply each, and take no time. */
  lemma {:induction false} RunHooksIssuesHooks(script: Script, io: Io, template: string, ids: seq<string>)
    ensures RunHooks(script, io, template, ids) == Io(io.next + |ids|, io.clock, io.trace + Hooks(template, ids))
    decreases |ids|
  {
    if ids == [] {
      assert io.trace + [] == io.trace;
    } else {
      var hook := Shell(HookCommand(template, ids[0]));
      var io1 := Call(script, io, hook).1;
      assert RunHooks(script, io, template, ids) == RunHooks(script, io1, template, ids[1..]);
      RunHooksIssuesHooks(script, io1, template, ids[1..]);
      assert Hooks(template, ids) == [hook] + Hooks(template, ids[1..]);
      assert io1.trace + Hooks(template, ids[1..]) == io.trace + Hooks(template, ids);
    }
  }

  /** What `pre_stop` issues when its hooks start at reply `start`: nothing
      without a template; otherwise the hooks, followed, when asked for, by a
      wait for none of the ids to be healthy. */
  function PreStopTrace(app: App, script: Script, start: nat, ids: seq<string>): seq<Command>
  {
    match app.args.preStopCmd
    case None => []
    case Some(template) => Hooks(template, ids) + UnhealthyWaitTrace(app, script, start + |ids|, ids)
  }

  function UnhealthyWaitTrace(app: App, script: Script, start: nat, ids: seq<string>): seq<Command>
  {
    if app.args.preStopWaitUntilUnhealthy
    then WaitTrace(script, start, ids, 0, app.args.healthcheckTimeout)
    else []
  }

  /** The number of replies the optional unhealthy wait consumes. */
  function UnhealthyWaitReplies(app: App, script: Script, start: nat, ids: seq<string>): nat
  {
    if app.args.preStopWaitUntilUnhealthy
    then WaitReplies(script, start, ids, 0, app.args.healthcheckTimeout)
    else 0
  }

  /** The number of replies `pre_stop` consumes when it starts at reply
      `start`. */
  function PreStopReplies(app: App, script: Script, start: nat, ids: seq<string>): nat
  {
    match app.args.preStopCmd
    case None => 0
    case Some(_) => |ids| + UnhealthyWaitReplies(app, script, start + |ids|, ids)
  }

  /** The optional wait of `pre_stop` for none of the ids to be healthy; its
      timeout is only a warning. */
  function WaitUntilUnhealthy(app: App, script: Script, io: Io, ids: seq<string>): Io
  {
    if !app.args.preStopWaitUntilUnhealthy then io
    else WaitUntilHealthyCount(script, io, app.args.healthcheckTimeout, 0, ids).1
  }

  lemma {:induction false} WaitUntilUnhealthySpec(app: App, script: Script, io: Io, ids: seq<string>)
    ensures WaitUntilUnhealthy(app, script, io, ids).trace == io.trace + UnhealthyWaitTrace(app, script, io.next, ids)
    ensures WaitUntilUnhealthy(app, script, io, ids).next == io.next + UnhealthyWaitReplies(app, script, io.next, ids)
  {
    if app.args.preStopWaitUntilUnhealthy {
      WaitIssuesWaitTrace(script, io, app.args.healthcheckTimeout, 0, ids);
      WaitConsumesReplies(script, io, app.args.healthcheckTimeout, 0, ids);
    } else {
      assert io.trace + [] == io.trace;
    }
  }

  /** `pre_stop`. It has no failing path, so its `?` in `main_internal`
      never returns early. */
  function PreStop(app: App, script: Script, io: Io, ids: seq<string>): (Outcome<Error>, Io)
  {
    match app.args.preStopCmd
    case None => (Pass, io)
    case Some(template) => (Pass, WaitUntilUnhealthy(app, script, RunHooks(script, io, template, ids), ids))
  }

  /** `pre_stop` never fails. */
  lemma {:induction false} PreStopPasses(app: App, script: Script, io: Io, ids: seq<string>)
    ensures PreStop(app, script, io, ids).0 == Pass
  {
  }

  /** Without a template `pre_stop` does nothing. */
  lemma {:induction false} PreStopWithoutTemplate(app: App, script: Script, io: Io, ids: seq<string>)
    requires app.args.preStopCmd.None?
    ensures PreStop(app, script, io, ids).1 == io
  {
  }

  /** With a template, `pre_stop` runs the hooks and then the optional
      wait. */
  lemma {:induction false} PreStopWithTemplate(app: App, script: Script, io: Io, ids: seq<string>, template: string)
    requires app.args.preStopCmd == Some(template)
    ensures PreStop(app, script, io, ids).1 == WaitUntilUnhealthy(app, script, RunHooks(script, io, template, ids), ids)
  {
  }

  /** `pre_stop` issues the hooks, then the optional wait. */
  lemma {:induction false} PreStopIssues(app: App, script: Script, io: Io, ids: seq<string>)
    ensures PreStop(app, script, io, ids).1.trace == io.trace + PreStopTrace(app, script, io.next, ids)
  {
    match app.args.preStopCmd
    case None =>
      assert io.trace + [] == io.trace;
    case Some(template) =>
      PreStopAfterHooks(app, script, io, ids, template);
      UnhealthyWaitAppends(app, script, io.next + |ids|, io.clock, io.trace, Hooks(template, ids), ids);
  }

  /** With a template, `pre_stop` is the optional wait started right after
      the hooks. */
  lemma {:induction false} PreStopAfterHooks(app: App, script: Script, io: Io, ids: seq<string>, template: string)
    requires app.args.preStopCmd == Some(template)
    ensures PreStop(app, script, io, ids).1
         == WaitUntilUnhealthy(app, script, Io(io.next + |ids|, io.clock, io.trace + Hooks(template, ids)), ids)
  {
    RunHooksIssuesHooks(script, io, template, ids);
    PreStopWithTemplate(app, script, io, ids, template);
  }

  /** The optional wait, started after some commands, appends its own. */
  lemma {:induction false} UnhealthyWaitAppends(app: App, script: Script, next: nat, clock: nat, front: seq<Command>, hooks: seq<Command>, ids: seq<string>)
    ensures WaitUntilUnhealthy(app, script, Io(next, clock, front + hooks), ids).trace
         == front + (hooks + UnhealthyWaitTrace(app, script, next, ids))
  {
    WaitUntilUnhealthySpec(app, script, Io(next, clock, front + hooks), ids);
    var w := UnhealthyWaitTrace(app, script, next, ids);
    assert front + hooks + w == front + (hooks + w);
  }

  /** `pre_stop` reads one reply per hook and per inspection of its wait. */
  lemma {:induction false} PreStopReads(app: App, script: Script, io: Io, ids: seq<string>)
    ensures PreStop(app, script, io, ids).1.next == io.next + PreStopReplies(app, script, io.next, ids)
  {
    match app.args.preStopCmd
    case None =>
    case Some(template) =>
      RunHooksIssuesHooks(script, io, template, ids);
      var io1 := RunHooks(script, io, template, ids);
      WaitUntilUnhealthySpec(app, script, io1, ids);
  }

  /** `wait_for_healthy_or_rollback`: wait for every new container to be
      healthy; on a timeout stop and remove them and fail. A failing stop or
      remove ends the rollback with its own error. */
  function WaitForHealthyOrRollback(app: App, script: Script, io: Io, ids: seq<string>): (Outcome<Error>, Io)
  {
    var (waited, io1) := WaitUntilHealthyCount(script, io, app.args.healthcheckTimeout, |ids|, ids);
    if waited.Pass? then (Pass, io1)
    else
      var (stopped, io2) := StopContainers(script, io1, ids);
      if stopped.Fail? then (stopped, io2)
      else
        var (removed, io3) := RemoveContainers(script, io2, ids);
        if removed.Fail? then (removed, io3)
        else (Fail(NotHealthyAfterTimeout), io3)
  }

  /** `wait_for_healthy_to_settle_down`: sleeps only for a non-zero setting. */
  function SettleDown(app: App, io: Io): Io {
    if app.args.waitAfterHealthy == 0 then io else Pause(io, app.args.waitAfterHealthy)
  }

  /** `wait_fallback`: sleeps the configured time, zero included. */
  function WaitFallback(app: App, io: Io): Io {
    Pause(io, app.args.wait)
  }

  /** The readiness gate of `main_internal`: with a health check, wait for
      the new containers (rolling back on a timeout) and settle; without one,
      sleep the fallback time. */
  function AwaitReady(app: App, script: Script, io: Io, newIds: seq<string>, healthCheck: bool): (Outcome<Error>, Io)
  {
    if healthCheck then
      var (ready, io1) := WaitForHealthyOrRollback(app, script, io, newIds);
      if ready.Fail? then (ready, io1) else (Pass, SettleDown(app, io1))
    else (Pass, WaitFallback(app, io))
  }

  /** Stop, then remove, the old containers; a failed stop skips the
      removal. */
  function Retire(script: Script, io: Io, ids: seq<string>): (out: (Outcome<Error>, Io))
    ensures out.1.trace == io.trace + [Stop(ids)] + (if Succeeded(ReplyTo(script, io.next)) then [Rm(ids)] else [])
    ensures out.0 == Pass <==> Succeeded(ReplyTo(script, io.next)) && Succeeded(ReplyTo(script, io.next + 1))
    ensures !Succeeded(ReplyTo(script, io.next)) ==> out.0 == Fail(StopFailed(FailureCause(ReplyTo(script, io.next))))
    ensures Succeeded(ReplyTo(script, io.next)) && !Succeeded(ReplyTo(script, io.next + 1)) ==>
      out.0 == Fail(RemoveFailed(FailureCause(ReplyTo(script, io.next + 1))))
  {
    var (stopped, io1) := StopContainers(script, io, ids);
    if stopped.Fail? then (stopped, io1)
    else RemoveContainers(script, io1, ids)
  }

  /** `main_internal` from the readiness gate on. */
  function Finish(app: App, script: Script, io: Io, oldIds: seq<string>, newIds: seq<string>, healthCheck: bool): (Exit, Io)
  {
    var (ready, io1) := AwaitReady(app, script, io, newIds, healthCheck);
    if ready.Fail? then (Err(ready.error), io1)
    else
      // `pre_stop` never fails, so its `?` never returns early.
      var (_, io2) := PreStop(app, script, io1, oldIds);
      var (retired, io3) := Retire(script, io2, oldIds);
      (ToExit(retired), io3)
  }

  /** `main_internal` after its running check: list the old containers and
      go on to scale. */
  function RollOver(app: App, script: Script, io: Io): (Exit, Io)
  {
    var (listed, io1) := GetContainerIds(script, io);
    if listed.Failure? then (Err(listed.error), io1)
    else DoubleReplicas(app, script, io1, listed.value)
  }

  /** Ask for twice as many replicas as there are old containers. */
  function DoubleReplicas(app: App, script: Script, io: Io, oldIds: seq<string>): (Exit, Io)
  {
    var (scaled, io1) := ScaleTo(script, io, 2 * |oldIds|);
    if scaled.Fail? then (Err(scaled.error), io1)
    else SpotNewContainers(app, script, io1, oldIds)
  }

  /** List again and take the new containers as those not listed before;
      then index the old ids, which panics when there are none. */
  function SpotNewContainers(app: App, script: Script, io: Io, oldIds: seq<string>): (Exit, Io)
  {
    var (relisted, io1) := GetContainerIds(script, io);
    if relisted.Failure? then (Err(relisted.error), io1)
    else if oldIds == [] then (Panicked, io1)
    else ProbeHealthCheck(app, script, io1, oldIds, NewIds(relisted.value, oldIds))
  }

  /** Decide from the first old container whether the service has a health
      check, then finish. */
  function ProbeHealthCheck(app: App, script: Script, io: Io, oldIds: seq<string>, newIds: seq<string>): (Exit, Io)
    requires oldIds != []
  {
    var (probed, io1) := InspectHasHealthCheck(script, io, oldIds[0]);
    if probed.Failure? then (Err(probed.error), io1)
    else Finish(app, script, io1, oldIds, newIds, probed.value)
  }

  /** `main_internal`. Its running check is inverted as written: an EMPTY
      listing counts as running and goes on to the rolling restart, a
      non-empty one starts the service. */
  function MainInternal(app: App, script: Script, io: Io): (Exit, Io)
  {
    var (listed, io1) := GetContainerIds(script, io);
    if listed.Failure? then (Err(listed.error), io1)
    else if !IsServiceRunning(listed.value) then
      var (started, io2) := StartService(script, io1);
      (ToExit(started), io2)
    else RollOver(app, script, io1)
  }

  /** A whole run from a fresh gateway: its exit and its trace. */
  function Run(app: App, script: Script): (Exit, seq<Command>)
  {
    var (exit, io) := MainInternal(app, script, Io(0, 0, []));
    (exit, io.trace)
  }
}

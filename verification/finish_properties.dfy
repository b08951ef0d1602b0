/** What `main_internal` does from the readiness gate on: the gate itself,
    the rollback of the new containers on a timeout, and the retirement of
    the old ones. */
module FinishProperties {
  import opened Wrappers
  import opened Gateway
  import opened Config
  import opened RuntimeCalls
  import opened Readiness
  import opened Reroll

  /** Some poll within the health-check timeout, reading its replies from
      `start` on, saw every new container healthy. */
  predicate BecameReady(app: App, script: Script, start: nat, newIds: seq<string>) {
    exists k :: 0 <= k < app.args.healthcheckTimeout && CountAt(script, start, newIds, k) == |newIds|
  }

  /** The gate lets the run through: there is no health check, or the new
      containers became ready in time. */
  predicate GatePasses(app: App, script: Script, start: nat, newIds: seq<string>, healthCheck: bool) {
    !healthCheck || BecameReady(app, script, start, newIds)
  }

  /** The sleep after the new containers became ready, when one is asked for. */
  function SettleTrace(app: App): seq<Command> {
    if app.args.waitAfterHealthy == 0 then [] else [Sleep(app.args.waitAfterHealthy)]
  }

  /** The commands of a gate that lets the run through. */
  function GateTrace(app: App, script: Script, start: nat, newIds: seq<string>, healthCheck: bool): seq<Command> {
    if healthCheck
    then WaitTrace(script, start, newIds, |newIds|, app.args.healthcheckTimeout) + SettleTrace(app)
    else [Sleep(app.args.wait)]
  }

  /** The index of the first reply after a gate that lets the run through. */
  function GateEnd(app: App, script: Script, start: nat, newIds: seq<string>, healthCheck: bool): nat {
    if healthCheck
    then start + WaitReplies(script, start, newIds, |newIds|, app.args.healthcheckTimeout)
    else start
  }

  /** The gate passes exactly when there is no health check or the new
      containers became ready in time; then it has waited for them (and
      settled) or slept the fallback time. */
  lemma {:induction false} AwaitReadyPasses(app: App, script: Script, io: Io, newIds: seq<string>, healthCheck: bool)
    ensures AwaitReady(app, script, io, newIds, healthCheck).0 == Pass
        <==> GatePasses(app, script, io.next, newIds, healthCheck)
    ensures GatePasses(app, script, io.next, newIds, healthCheck) ==>
      var out := AwaitReady(app, script, io, newIds, healthCheck);
      && out.1.trace == io.trace + GateTrace(app, script, io.next, newIds, healthCheck)
      && out.1.next == GateEnd(app, script, io.next, newIds, healthCheck)
  {
    var timeout := app.args.healthcheckTimeout;
    if healthCheck {
      WaitSucceedsIff(script, io, timeout, |newIds|, newIds);
      WaitIssuesWaitTrace(script, io, timeout, |newIds|, newIds);
      WaitConsumesReplies(script, io, timeout, |newIds|, newIds);
      var io1 := WaitUntilHealthyCount(script, io, timeout, |newIds|, newIds).1;
      if BecameReady(app, script, io.next, newIds) {
        assert WaitForHealthyOrRollback(app, script, io, newIds) == (Pass, io1);
        assert io1.trace + SettleTrace(app) == SettleDown(app, io1).trace;
      }
    }
  }

  /** The gate only appends to the trace. */
  lemma {:induction false} AwaitReadyExtends(app: App, script: Script, io: Io, newIds: seq<string>, healthCheck: bool)
    ensures io.trace <= AwaitReady(app, script, io, newIds, healthCheck).1.trace
  {
    if healthCheck {
      var timeout := app.args.healthcheckTimeout;
      WaitIssuesWaitTrace(script, io, timeout, |newIds|, newIds);
      var io1 := WaitUntilHealthyCount(script, io, timeout, |newIds|, newIds).1;
      assert io.trace <= io1.trace;
      var io2 := StopContainers(script, io1, newIds).1;
      assert io.trace <= io2.trace;
      assert io.trace <= RemoveContainers(script, io2, newIds).1.trace;
    }
  }

  /** From the gate on, the run only appends to the trace. */
  lemma {:induction false} FinishExtends(app: App, script: Script, io: Io, oldIds: seq<string>, newIds: seq<string>, healthCheck: bool)
    ensures io.trace <= Finish(app, script, io, oldIds, newIds, healthCheck).1.trace
  {
    AwaitReadyExtends(app, script, io, newIds, healthCheck);
    var (ready, io1) := AwaitReady(app, script, io, newIds, healthCheck);
    if ready.Pass? {
      PreStopIssues(app, script, io1, oldIds);
      var io2 := PreStop(app, script, io1, oldIds).1;
      assert io.trace <= io2.trace;
      assert io.trace <= Retire(script, io2, oldIds).1.trace;
    }
  }

  /** The index of the reply to the stop of a rollback that starts reading
      replies at `start`: the one after all the polls of the wait. */
  function RollbackStart(app: App, start: nat, newIds: seq<string>): nat {
    start + PollReplies(newIds, app.args.healthcheckTimeout)
  }

  /** The error a rollback ends with, given the replies to its stop and its
      removal: the stop's own failure, else the removal's, else the timeout.
      A failing stop or removal hides the timeout. */
  function RollbackError(stopReply: Reply, rmReply: Reply): Error {
    if !Succeeded(stopReply) then StopFailed(FailureCause(stopReply))
    else if !Succeeded(rmReply) then RemoveFailed(FailureCause(rmReply))
    else NotHealthyAfterTimeout
  }

  /** The commands of a rollback whose stop reply is `stopReply`: the
      unsuccessful polls, the stop of the new containers and, when the stop
      succeeded, their removal. */
  function RollbackTrace(app: App, newIds: seq<string>, stopReply: Reply): seq<Command> {
    Rounds(newIds, app.args.healthcheckTimeout) + [Stop(newIds)] + (if Succeeded(stopReply) then [Rm(newIds)] else [])
  }

  /** With a health check and no poll in time seeing every new container
      healthy, the gate times out, stops and removes the new containers,
      and fails. */
  lemma {:induction false} AwaitReadyRollsBack(app: App, script: Script, io: Io, newIds: seq<string>)
    requires !BecameReady(app, script, io.next, newIds)
    ensures var s := RollbackStart(app, io.next, newIds);
      var out := AwaitReady(app, script, io, newIds, true);
      && out.0 == Fail(RollbackError(ReplyTo(script, s), ReplyTo(script, s + 1)))
      && out.1.trace == io.trace + RollbackTrace(app, newIds, ReplyTo(script, s))
  {
    var timeout := app.args.healthcheckTimeout;
    WaitSucceedsIff(script, io, timeout, |newIds|, newIds);
    var io1 := AfterRounds(io, newIds, timeout);
    WaitIsLoopOutcome(script, io, timeout, |newIds|, newIds);
    assert WaitUntilHealthyCount(script, io, timeout, |newIds|, newIds) == (Fail(TimedOut), io1);
    var s := io.next + PollReplies(newIds, timeout);
    assert io1.next == s;
    var io2 := Io(s + 1, io1.clock, io1.trace + [Stop(newIds)]);
    assert StopContainers(script, io1, newIds).1 == io2;
  }

  /** A rollback ends the run with its error, before `pre_stop`: the old
      containers are neither hooked, stopped nor removed. */
  lemma {:induction false} FinishRollsBack(app: App, script: Script, io: Io, oldIds: seq<string>, newIds: seq<string>, healthCheck: bool)
    requires healthCheck && !BecameReady(app, script, io.next, newIds)
    ensures var s := RollbackStart(app, io.next, newIds);
      var f := Finish(app, script, io, oldIds, newIds, healthCheck);
      && f.0 == Err(RollbackError(ReplyTo(script, s), ReplyTo(script, s + 1)))
      && f.1.trace == io.trace + RollbackTrace(app, newIds, ReplyTo(script, s))
  {
    AwaitReadyRollsBack(app, script, io, newIds);
  }

  /** The only stops and removals of a rollback name the new containers. */
  lemma {:induction false} RollbackTraceTouchesOnlyNew(app: App, newIds: seq<string>, stopReply: Reply)
    ensures forall c :: c in RollbackTrace(app, newIds, stopReply) && (c.Stop? || c.Rm?) ==> c.ids == newIds
    ensures Stop(newIds) in RollbackTrace(app, newIds, stopReply)
  {
    RoundsOnlyProbe(newIds, app.args.healthcheckTimeout);
    var r := Rounds(newIds, app.args.healthcheckTimeout);
    assert RollbackTrace(app, newIds, stopReply)[|r|] == Stop(newIds);
  }

  /** The replies index at which the stop of the old containers is read,
      once the gate has let the run through. */
  function RetireStart(app: App, script: Script, start: nat, oldIds: seq<string>, newIds: seq<string>, healthCheck: bool): nat {
    var g := GateEnd(app, script, start, newIds, healthCheck);
    g + PreStopReplies(app, script, g, oldIds)
  }

  /** Once the gate has let the run through, `Finish` is the pre-stop of the
      old containers followed by their retirement. */
  lemma {:induction false} FinishAfterGateSteps(app: App, script: Script, io: Io, oldIds: seq<string>, newIds: seq<string>, healthCheck: bool)
    requires GatePasses(app, script, io.next, newIds, healthCheck)
    ensures var io1 := AwaitReady(app, script, io, newIds, healthCheck).1;
      var io2 := PreStop(app, script, io1, oldIds).1;
      && io1.trace == io.trace + GateTrace(app, script, io.next, newIds, healthCheck)
      && io1.next == GateEnd(app, script, io.next, newIds, healthCheck)
      && Finish(app, script, io, oldIds, newIds, healthCheck) == (ToExit(Retire(script, io2, oldIds).0), Retire(script, io2, oldIds).1)
  {
    AwaitReadyPasses(app, script, io, newIds, healthCheck);
  }

  /** The rest of `main_internal` once the gate has let the run through
      issues the pre-stop commands on the old containers, then their stop
      and, when that succeeded, their removal. */
  lemma {:induction false} FinishAfterGateTrace(app: App, script: Script, io: Io, oldIds: seq<string>, newIds: seq<string>, healthCheck: bool)
    requires GatePasses(app, script, io.next, newIds, healthCheck)
    ensures var g := GateEnd(app, script, io.next, newIds, healthCheck);
      var p := RetireStart(app, script, io.next, oldIds, newIds, healthCheck);
      Finish(app, script, io, oldIds, newIds, healthCheck).1.trace
        == io.trace + GateTrace(app, script, io.next, newIds, healthCheck)
           + PreStopTrace(app, script, g, oldIds)
           + [Stop(oldIds)] + (if Succeeded(ReplyTo(script, p)) then [Rm(oldIds)] else [])
  {
    FinishAfterGateSteps(app, script, io, oldIds, newIds, healthCheck);
    var io1 := AwaitReady(app, script, io, newIds, healthCheck).1;
    PreStopIssues(app, script, io1, oldIds);
    PreStopReads(app, script, io1, oldIds);
  }

  /** Once the gate has let the run through, the run is `Ok` exactly when
      both the stop and the removal of the old containers succeed; otherwise
      it ends with the first of them that failed. */
  lemma {:induction false} FinishAfterGateExit(app: App, script: Script, io: Io, oldIds: seq<string>, newIds: seq<string>, healthCheck: bool)
    requires GatePasses(app, script, io.next, newIds, healthCheck)
    ensures var p := RetireStart(app, script, io.next, oldIds, newIds, healthCheck);
      Finish(app, script, io, oldIds, newIds, healthCheck).0
        == (if !Succeeded(ReplyTo(script, p)) then Err(StopFailed(FailureCause(ReplyTo(script, p))))
            else if !Succeeded(ReplyTo(script, p + 1)) then Err(RemoveFailed(FailureCause(ReplyTo(script, p + 1))))
            else Ok)
  {
    FinishAfterGateSteps(app, script, io, oldIds, newIds, healthCheck);
    var io1 := AwaitReady(app, script, io, newIds, healthCheck).1;
    PreStopReads(app, script, io1, oldIds);
  }

  /** With a health check, a run that retires the old containers
      successfully has seen every new container healthy in time. */
  lemma {:induction false} FinishOkNeedsReadiness(app: App, script: Script, io: Io, oldIds: seq<string>, newIds: seq<string>, healthCheck: bool)
    requires healthCheck && Finish(app, script, io, oldIds, newIds, healthCheck).0 == Ok
    ensures BecameReady(app, script, io.next, newIds)
  {
    if !BecameReady(app, script, io.next, newIds) {
      FinishRollsBack(app, script, io, oldIds, newIds, healthCheck);
      assert false;
    }
  }
}

/** The methods of `App` that issue one runtime command each, over the
    scripted gateway. Each issues exactly one command and takes its reply;
    they differ in which failures they report. */
module RuntimeCalls {
  import opened Wrappers
  import opened Gateway
  import ContainerIds
  import Health

  /** `get_container_ids`: `ps --quiet`; fails only when the command cannot
      be started (the exit code is never looked at). */
  function GetContainerIds(script: Script, io: Io): (out: (Result<seq<string>, Error>, Io))
    ensures out.1 == Io(io.next + 1, io.clock, io.trace + [Ps])
    ensures out.0.Failure? <==> ReplyTo(script, io.next).SpawnFailed?
    ensures out.0.Failure? ==> out.0.error == ListFailed
    ensures out.0.Success? ==> out.0.value == ContainerIds.ParseIds(ReplyTo(script, io.next).stdout)
  {
    var (reply, io1) := Call(script, io, Ps);
    if reply.SpawnFailed? then (Failure(ListFailed), io1)
    else (Success(ContainerIds.ParseIds(reply.stdout)), io1)
  }

  /** `start_service`: `up --detach --no-recreate`; any exit code counts as
      started, only a failure to start the command is an error. */
  function StartService(script: Script, io: Io): (out: (Outcome<Error>, Io))
    ensures out.1 == Io(io.next + 1, io.clock, io.trace + [Up])
    ensures out.0 == Pass <==> ReplyTo(script, io.next).Spawned?
    ensures out.0.Fail? ==> out.0.error == StartFailed
  {
    var (reply, io1) := Call(script, io, Up);
    if reply.SpawnFailed? then (Fail(StartFailed), io1) else (Pass, io1)
  }

  /** `scale`: `up --detach --scale <service>=<n> --no-recreate`; fails on a
      start failure or a non-zero exit. */
  function ScaleTo(script: Script, io: Io, replicas: nat): (out: (Outcome<Error>, Io))
    ensures out.1 == Io(io.next + 1, io.clock, io.trace + [Scale(replicas)])
    ensures out.0 == Pass <==> Succeeded(ReplyTo(script, io.next))
    ensures out.0.Fail? ==> out.0.error == ScaleFailed(FailureCause(ReplyTo(script, io.next)))
  {
    var (reply, io1) := Call(script, io, Scale(replicas));
    if Succeeded(reply) then (Pass, io1) else (Fail(ScaleFailed(FailureCause(reply))), io1)
  }

  /** `stop`: `docker stop <ids>`; fails on a start failure or a non-zero
      exit. */
  function StopContainers(script: Script, io: Io, ids: seq<string>): (out: (Outcome<Error>, Io))
    ensures out.1 == Io(io.next + 1, io.clock, io.trace + [Stop(ids)])
    ensures out.0 == Pass <==> Succeeded(ReplyTo(script, io.next))
    ensures out.0.Fail? ==> out.0.error == StopFailed(FailureCause(ReplyTo(script, io.next)))
  {
    var (reply, io1) := Call(script, io, Stop(ids));
    if Succeeded(reply) then (Pass, io1) else (Fail(StopFailed(FailureCause(reply))), io1)
  }

  /** `remove`: `docker rm <ids>`; fails on a start failure or a non-zero
      exit. */
  function RemoveContainers(script: Script, io: Io, ids: seq<string>): (out: (Outcome<Error>, Io))
    ensures out.1 == Io(io.next + 1, io.clock, io.trace + [Rm(ids)])
    ensures out.0 == Pass <==> Succeeded(ReplyTo(script, io.next))
    ensures out.0.Fail? ==> out.0.error == RemoveFailed(FailureCause(ReplyTo(script, io.next)))
  {
    var (reply, io1) := Call(script, io, Rm(ids));
    if Succeeded(reply) then (Pass, io1) else (Fail(RemoveFailed(FailureCause(reply))), io1)
  }

  /** `has_health_check`: inspects `.State.Health`; a failure to start the
      inspection is an error, otherwise the output decides, whatever the
      exit code. */
  function InspectHasHealthCheck(script: Script, io: Io, id: string): (out: (Result<bool, Error>, Io))
    ensures out.1 == Io(io.next + 1, io.clock, io.trace + [Inspect(id, Health)])
    ensures out.0.Failure? <==> ReplyTo(script, io.next).SpawnFailed?
    ensures out.0.Failure? ==> out.0.error == InspectFailed
    ensures out.0.Success? ==> (out.0.value <==> Health.HasHealthCheck(ReplyTo(script, io.next).stdout))
  {
    var (reply, io1) := Call(script, io, Inspect(id, Health));
    if reply.SpawnFailed? then (Failure(InspectFailed), io1)
    else (Success(Health.HasHealthCheck(reply.stdout)), io1)
  }

  /** A reply to `.State.Health.Status` read the way the readiness waiter
      reads it: an inspection that could not start counts as not healthy. */
  predicate ReportsHealthy(reply: Reply) {
    reply.Spawned? && Health.IsHealthy(reply.stdout)
  }

  /** `is_healthy`, with its error folded into "not healthy" as the waiter
      does. */
  function InspectIsHealthy(script: Script, io: Io, id: string): (out: (bool, Io))
    ensures out.1 == Io(io.next + 1, io.clock, io.trace + [Inspect(id, HealthStatus)])
    ensures out.0 == ReportsHealthy(ReplyTo(script, io.next))
  {
    var (reply, io1) := Call(script, io, Inspect(id, HealthStatus));
    (ReportsHealthy(reply), io1)
  }
}

/** The runtime gateway as seen by the restart logic: every subprocess the
    program starts (a `docker compose` or `docker` invocation, or a shell for
    a pre-stop hook) is one command in a trace, answered by the next reply of
    a script. Sleeps are trace events too; they answer nothing and advance an
    abstract clock. */
module Gateway {

  /** What a subprocess call yields: it could not be started at all, or it
      ran to an exit code with some captured standard output. */
  datatype Reply = Spawned(exitCode: int, stdout: string) | SpawnFailed

  /** The reply to the i-th subprocess call of a run. */
  type Script = nat -> Reply

  /** The two `docker inspect --format` templates: `{{json .State.Health}}`
      and `{{json .State.Health.Status}}`. */
  datatype Query = Health | HealthStatus

  /** The observable actions of a run. `Ps` lists the service's containers,
      `Up` starts the service without recreating containers, `Scale` asks for
      a replica count, `Shell` runs a pre-stop hook. */
  datatype Command =
    | Ps
    | Up
    | Scale(replicas: nat)
    | Inspect(id: string, query: Query)
    | Stop(ids: seq<string>)
    | Rm(ids: seq<string>)
    | Shell(text: string)
    | Sleep(seconds: nat)

  /** The state a run threads through: index of the next reply, the clock in
      seconds, and the commands issued so far. */
  datatype Io = Io(next: nat, clock: nat, trace: seq<Command>)

  /** Why a checked command failed: it did not start, or it exited non-zero. */
  datatype Cause = SpawnError | NonZeroExit(code: int)

  /** The errors a run can end with, one per `bail!`/`context` message. */
  datatype Error =
    | ListFailed                    // failed to get container ids
    | StartFailed                   // failed to start service
    | ScaleFailed(scale: Cause)     // failed to scale instances
    | InspectFailed                 // inspect for a health check did not start
    | StopFailed(stop: Cause)       // failed to stop instances
    | RemoveFailed(remove: Cause)   // failed to remove instances
    | NotHealthyAfterTimeout        // new containers weren't healthy after timeout
    | TimedOut                      // the readiness waiter's deadline passed

  /** The reply to the call numbered `k`. */
  function ReplyTo(script: Script, k: nat): Reply {
    script(k)
  }

  /** Issues a subprocess command and takes its reply. */
  function Call(script: Script, io: Io, cmd: Command): (out: (Reply, Io))
    requires !cmd.Sleep?
    ensures out.1.next == io.next + 1 && out.1.clock == io.clock
    ensures out.1.trace == io.trace + [cmd]
  {
    (ReplyTo(script, io.next), Io(io.next + 1, io.clock, io.trace + [cmd]))
  }

  /** `thread::sleep`: records the sleep and advances the clock. */
  function Pause(io: Io, seconds: nat): (io': Io)
    ensures io'.next == io.next && io'.clock == io.clock + seconds
    ensures io'.trace == io.trace + [Sleep(seconds)]
  {
    Io(io.next, io.clock + seconds, io.trace + [Sleep(seconds)])
  }

  /** `ExitStatus::success`: the command ran and exited with code 0. */
  predicate Succeeded(reply: Reply) {
    reply.Spawned? && reply.exitCode == 0
  }

  /** The cause of a failed checked command. */
  function FailureCause(reply: Reply): Cause
    requires !Succeeded(reply)
  {
    if reply.SpawnFailed? then SpawnError else NonZeroExit(reply.exitCode)
  }
}

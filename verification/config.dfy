/** The read-only inputs of a run: the command-line options the restart
    logic reads. The options that only shape the argv of a `docker`
    invocation (the compose file, the env file, the service name, the
    compose command and the docker options) do not appear, since the
    commands of a trace carry no argv. */
module Config {
  import opened Wrappers

  /** `AppArgs`, with the defaults clap fills in already applied. The
      durations are whole seconds. */
  datatype AppArgs = AppArgs(
    preStopCmd: Option<string>,
    preStopWaitUntilUnhealthy: bool,
    healthcheckTimeout: nat,
    wait: nat,
    waitAfterHealthy: nat)

  /** `App`: the options a run is started with. */
  datatype App = App(args: AppArgs)
}

/** What a run of the rolling restart does, stated over every script of
    gateway replies. */
module RerollProperties {
  import opened Wrappers
  import opened Gateway
  import opened Config
  import opened ContainerIds
  import opened RuntimeCalls
  import opened Reroll
  import Health
  import opened FinishProperties

  /** The first listing came back and was blank. */
  predicate FirstListingBlank(script: Script) {
    ReplyTo(script, 0).Spawned? && ParseIds(ReplyTo(script, 0).stdout) == []
  }

  /** The old ids: what the second listing printed. */
  function OldIds(script: Script): seq<string>
    requires ReplyTo(script, 1).Spawned?
  {
    ParseIds(ReplyTo(script, 1).stdout)
  }

  /** A listing that names containers sends the run to `start_service`, which
      only fails when `up` cannot be started: no scaling, stopping or
      removing happens. */
  lemma {:induction false} FreshStartOnlyStartsService(app: App, script: Script)
    requires ReplyTo(script, 0).Spawned? && ParseIds(ReplyTo(script, 0).stdout) != []
    ensures Run(app, script).1 == [Ps, Up]
    ensures Run(app, script).0 == if ReplyTo(script, 1).Spawned? then Ok else Err(StartFailed)
  {
  }

  /** A first listing that cannot be started ends the run at once. */
  lemma {:induction false} FirstListingFailureAborts(app: App, script: Script)
    requires ReplyTo(script, 0).SpawnFailed?
    ensures Run(app, script) == (Err(ListFailed), [Ps])
  {
    assert [] + [Ps] == [Ps];
  }

  /** The scale request is twice the number of old ids. */
  lemma {:induction false} ScaleRequestDoublesOldCount(app: App, script: Script)
    requires FirstListingBlank(script) && ReplyTo(script, 1).Spawned?
    ensures var trace := Run(app, script).1;
      |trace| >= 3 && trace[..3] == [Ps, Ps, Scale(2 * |OldIds(script)|)]
  {
    var oldIds := OldIds(script);
    var io3 := Io(3, 0, [Ps, Ps, Scale(2 * |oldIds|)]);
    if Succeeded(ReplyTo(script, 2)) {
      RunReachesRelisting(app, script);
      SpotNewContainersExtends(app, script, io3, oldIds);
    } else {
      ScaleFailureAborts(app, script);
    }
  }

  /** A failed scale request ends the run right there. */
  lemma {:induction false} ScaleFailureAborts(app: App, script: Script)
    requires FirstListingBlank(script) && ReplyTo(script, 1).Spawned? && !Succeeded(ReplyTo(script, 2))
    ensures Run(app, script)
         == (Err(ScaleFailed(FailureCause(ReplyTo(script, 2)))), [Ps, Ps, Scale(2 * |OldIds(script)|)])
  {
    var oldIds := OldIds(script);
    RunRollsOver(app, script);
    var io1 := Io(1, 0, [Ps]);
    var io2 := Io(2, 0, [Ps, Ps]);
    assert [Ps] + [Ps] == [Ps, Ps];
    assert RollOver(app, script, io1) == DoubleReplicas(app, script, io2, oldIds);
    assert io2.trace + [Scale(2 * |oldIds|)] == [Ps, Ps, Scale(2 * |oldIds|)];
  }

  /** From the third listing on, the run only appends to the trace. */
  lemma {:induction false} SpotNewContainersExtends(app: App, script: Script, io: Io, oldIds: seq<string>)
    ensures io.trace <= SpotNewContainers(app, script, io, oldIds).1.trace
  {
    var (relisted, io1) := GetContainerIds(script, io);
    if relisted.Success? && oldIds != [] {
      var newIds := NewIds(relisted.value, oldIds);
      var (probed, io2) := InspectHasHealthCheck(script, io1, oldIds[0]);
      assert io.trace <= io2.trace;
      if probed.Success? {
        FinishExtends(app, script, io2, oldIds, newIds, probed.value);
      }
    }
  }

  /** A run whose first listing is blank and whose scale request succeeds
      lists the containers a third time. */
  lemma {:induction false} RunReachesRelisting(app: App, script: Script)
    requires FirstListingBlank(script) && ReplyTo(script, 1).Spawned? && Succeeded(ReplyTo(script, 2))
    ensures var oldIds := OldIds(script);
      var s := SpotNewContainers(app, script, Io(3, 0, [Ps, Ps, Scale(2 * |oldIds|)]), oldIds);
      Run(app, script) == (s.0, s.1.trace)
  {
    var oldIds := OldIds(script);
    var io1 := Io(1, 0, [Ps]);
    assert [] + [Ps] == [Ps];
    assert MainInternal(app, script, Io(0, 0, [])) == RollOver(app, script, io1);
    var io2 := Io(2, 0, [Ps, Ps]);
    assert [Ps] + [Ps] == [Ps, Ps];
    assert RollOver(app, script, io1) == DoubleReplicas(app, script, io2, oldIds);
    var io3 := Io(3, 0, [Ps, Ps, Scale(2 * |oldIds|)]);
    assert io2.trace + [Scale(2 * |oldIds|)] == io3.trace;
  }

  /** With a blank first listing and an empty second one the scale request is
      0 and the run panics on `old_ids[0]` after the third listing. */
  lemma {:induction false} EmptyOldIdsPanics(app: App, script: Script)
    requires FirstListingBlank(script) && ReplyTo(script, 1).Spawned? && OldIds(script) == []
    requires Succeeded(ReplyTo(script, 2)) && ReplyTo(script, 3).Spawned?
    ensures Run(app, script) == (Panicked, [Ps, Ps, Scale(0), Ps])
  {
    RunReachesRelisting(app, script);
    var io3 := Io(3, 0, [Ps, Ps, Scale(0)]);
    assert io3.trace + [Ps] == [Ps, Ps, Scale(0), Ps];
  }

  /** The replies that take a run to the readiness gate: a blank first
      listing, a non-empty second one, a successful scale, a third listing
      and a health-check probe that could be started. */
  predicate ReachesGate(script: Script) {
    && FirstListingBlank(script)
    && ReplyTo(script, 1).Spawned? && OldIds(script) != []
    && Succeeded(ReplyTo(script, 2))
    && ReplyTo(script, 3).Spawned?
    && ReplyTo(script, 4).Spawned?
  }

  /** The new ids: the third listing without the old ids. */
  function NewIdsOf(script: Script): seq<string>
    requires ReplyTo(script, 1).Spawned? && ReplyTo(script, 3).Spawned?
  {
    NewIds(ParseIds(ReplyTo(script, 3).stdout), OldIds(script))
  }

  /** The gateway state at the readiness gate. */
  function GateIo(script: Script): Io
    requires ReplyTo(script, 1).Spawned? && OldIds(script) != []
  {
    Io(5, 0, [Ps, Ps, Scale(2 * |OldIds(script)|), Ps, Inspect(OldIds(script)[0], Health)])
  }

  /** The health-check decision, taken from the first old container only. */
  predicate HealthCheckOf(script: Script)
    requires ReplyTo(script, 4).Spawned?
  {
    Health.HasHealthCheck(ReplyTo(script, 4).stdout)
  }

  /** A run that reaches the gate has issued the two listings, the scale
      request, the third listing and the probe of the first old container,
      and continues with the rest of `main_internal` on the old and new ids. */
  lemma {:induction false} RunReachesGate(app: App, script: Script)
    requires ReachesGate(script)
    ensures var f := Finish(app, script, GateIo(script), OldIds(script), NewIdsOf(script), HealthCheckOf(script));
      Run(app, script) == (f.0, f.1.trace)
  {
    var oldIds := OldIds(script);
    RunReachesRelisting(app, script);
    var io3 := Io(3, 0, [Ps, Ps, Scale(2 * |oldIds|)]);
    var io4 := Io(4, 0, io3.trace + [Ps]);
    assert SpotNewContainers(app, script, io3, oldIds) == ProbeHealthCheck(app, script, io4, oldIds, NewIdsOf(script));
    assert io4.trace + [Inspect(oldIds[0], Health)] == GateIo(script).trace;
  }

  /** The new containers never include the first old one, so they are never
      the old ones. */
  lemma {:induction false} NewIdsAreNotOld(script: Script)
    requires ReplyTo(script, 1).Spawned? && ReplyTo(script, 3).Spawned? && OldIds(script) != []
    ensures NewIdsOf(script) != OldIds(script)
  {
    var oldIds := OldIds(script);
    NewIdsMembers(ParseIds(ReplyTo(script, 3).stdout), oldIds);
    assert oldIds[0] in oldIds;
    assert oldIds[0] !in NewIdsOf(script);
  }

  /** The commands up to the gate stop and remove nothing. */
  lemma {:induction false} GateIoStopsNothing(script: Script)
    requires ReplyTo(script, 1).Spawned? && OldIds(script) != []
    ensures forall c :: c in GateIo(script).trace ==> !c.Stop? && !c.Rm?
  {
  }

  /** When the service has a health check and the new containers never all
      report healthy in time, the run fails with the rollback's error. */
  lemma {:induction false} RollbackFailsRun(app: App, script: Script)
    requires ReachesGate(script) && HealthCheckOf(script)
    requires !BecameReady(app, script, 5, NewIdsOf(script))
    ensures var s := RollbackStart(app, GateIo(script).next, NewIdsOf(script));
      Run(app, script).0 == Err(RollbackError(ReplyTo(script, s), ReplyTo(script, s + 1)))
  {
    var s := RollbackStart(app, GateIo(script).next, NewIdsOf(script));
    var f := Finish(app, script, GateIo(script), OldIds(script), NewIdsOf(script), HealthCheckOf(script));
    FinishRollsBack(app, script, GateIo(script), OldIds(script), NewIdsOf(script), HealthCheckOf(script));
    assert f.0 == Err(RollbackError(ReplyTo(script, s), ReplyTo(script, s + 1)));
    RunReachesGate(app, script);
    assert Run(app, script) == (f.0, f.1.trace);
  }

  /** ... after the commands up to the gate and those of the rollback. */
  lemma {:induction false} RollbackRunTrace(app: App, script: Script)
    requires ReachesGate(script) && HealthCheckOf(script)
    requires !BecameReady(app, script, 5, NewIdsOf(script))
    ensures var s := RollbackStart(app, GateIo(script).next, NewIdsOf(script));
      Run(app, script).1 == GateIo(script).trace + RollbackTrace(app, NewIdsOf(script), ReplyTo(script, s))
  {
    RunReachesGate(app, script);
    FinishRollsBack(app, script, GateIo(script), OldIds(script), NewIdsOf(script), HealthCheckOf(script));
  }

  /** ... and it stops the new containers, while no stop or removal of
      the run names any of the old ones. */
  lemma {:induction false} RollbackSparesOldContainers(app: App, script: Script)
    requires ReachesGate(script) && HealthCheckOf(script)
    requires !BecameReady(app, script, 5, NewIdsOf(script))
    ensures Stop(NewIdsOf(script)) in Run(app, script).1
    ensures forall c, x :: c in Run(app, script).1 && (c.Stop? || c.Rm?) && x in c.ids ==> x !in OldIds(script)
  {
    var oldIds, newIds := OldIds(script), NewIdsOf(script);
    var s := RollbackStart(app, GateIo(script).next, newIds);
    var rest := RollbackTrace(app, newIds, ReplyTo(script, s));
    RollbackRunTrace(app, script);
    RollbackTraceTouchesOnlyNew(app, newIds, ReplyTo(script, s));
    NewIdsMembers(ParseIds(ReplyTo(script, 3).stdout), oldIds);
    GateIoStopsNothing(script);
    OnlyStopsOf(GateIo(script).trace, rest, oldIds, newIds);
  }

  /** A trace that stops and removes only `newIds` after a prefix that stops
      and removes nothing never stops or removes an id outside `newIds`. */
  lemma {:induction false} OnlyStopsOf(prefix: seq<Command>, rest: seq<Command>, oldIds: seq<string>, newIds: seq<string>)
    requires forall c :: c in prefix ==> !c.Stop? && !c.Rm?
    requires forall c :: c in rest && (c.Stop? || c.Rm?) ==> c.ids == newIds
    requires forall x :: x in newIds ==> x !in oldIds
    ensures forall c, x :: c in prefix + rest && (c.Stop? || c.Rm?) && x in c.ids ==> x !in oldIds
  {
    forall c, x | c in prefix + rest && (c.Stop? || c.Rm?) && x in c.ids
      ensures x !in oldIds
    {
      assert c in rest;
    }
  }

  /** The trace ends with the stop and then the removal of `ids`. */
  predicate EndsRetiring(trace: seq<Command>, ids: seq<string>) {
    |trace| >= 2 && trace[|trace| - 2..] == [Stop(ids), Rm(ids)]
  }

  /** A blank first listing hands the run to the rolling restart. */
  lemma {:induction false} RunRollsOver(app: App, script: Script)
    requires FirstListingBlank(script)
    ensures var r := RollOver(app, script, Io(1, 0, [Ps]));
      Run(app, script) == (r.0, r.1.trace)
  {
    assert [] + [Ps] == [Ps];
  }

  /** The stages of the rolling restart end `Ok` only when the command they
      issue succeeds (in the sense each of them checks) and the next stage
      ends `Ok`. */
  lemma {:induction false} RollOverOk(app: App, script: Script, io: Io)
    requires RollOver(app, script, io).0 == Ok
    ensures GetContainerIds(script, io).0.Success?
    ensures var (listed, io1) := GetContainerIds(script, io);
      RollOver(app, script, io) == DoubleReplicas(app, script, io1, listed.value)
  {
  }

  lemma {:induction false} DoubleReplicasOk(app: App, script: Script, io: Io, oldIds: seq<string>)
    requires DoubleReplicas(app, script, io, oldIds).0 == Ok
    ensures Succeeded(ReplyTo(script, io.next))
    ensures DoubleReplicas(app, script, io, oldIds)
         == SpotNewContainers(app, script, Io(io.next + 1, io.clock, io.trace + [Scale(2 * |oldIds|)]), oldIds)
  {
  }

  lemma {:induction false} SpotNewContainersOk(app: App, script: Script, io: Io, oldIds: seq<string>)
    requires SpotNewContainers(app, script, io, oldIds).0 == Ok
    ensures ReplyTo(script, io.next).Spawned? && oldIds != []
    ensures SpotNewContainers(app, script, io, oldIds)
         == ProbeHealthCheck(app, script, Io(io.next + 1, io.clock, io.trace + [Ps]), oldIds,
                             NewIds(ParseIds(ReplyTo(script, io.next).stdout), oldIds))
  {
  }

  lemma {:induction false} ProbeHealthCheckOk(app: App, script: Script, io: Io, oldIds: seq<string>, newIds: seq<string>)
    requires oldIds != []
    requires ProbeHealthCheck(app, script, io, oldIds, newIds).0 == Ok
    ensures ReplyTo(script, io.next).Spawned?
  {
  }

  /** A run that ends `Ok` after a blank first listing went through the
      readiness gate. */
  lemma {:induction false} OkRolloverReachesGate(app: App, script: Script)
    requires FirstListingBlank(script) && Run(app, script).0 == Ok
    ensures ReachesGate(script)
  {
    RunRollsOver(app, script);
    var io1 := Io(1, 0, [Ps]);
    RollOverOk(app, script, io1);
    var oldIds := ParseIds(ReplyTo(script, 1).stdout);
    var io2 := Io(2, 0, [Ps] + [Ps]);
    DoubleReplicasOk(app, script, io2, oldIds);
    var io3 := Io(3, 0, io2.trace + [Scale(2 * |oldIds|)]);
    SpotNewContainersOk(app, script, io3, oldIds);
    var io4 := Io(4, 0, io3.trace + [Ps]);
    ProbeHealthCheckOk(app, script, io4, oldIds, NewIds(ParseIds(ReplyTo(script, 3).stdout), oldIds));
  }

  /** A run ends `Ok` only in one of two ways: the first listing named
      containers and `up` could be started; or the rolling restart reached
      the gate, the new containers became ready in time when there is a
      health check, and the old containers were stopped and removed last. */
  lemma {:induction false} OkRunShape(app: App, script: Script)
    requires Run(app, script).0 == Ok
    ensures var trace := Run(app, script).1;
      || (ReplyTo(script, 0).Spawned? && ParseIds(ReplyTo(script, 0).stdout) != [] && trace == [Ps, Up])
      || (&& ReachesGate(script)
          && GateIo(script).trace <= trace
          && (HealthCheckOf(script) ==> BecameReady(app, script, 5, NewIdsOf(script)))
          && EndsRetiring(trace, OldIds(script)))
  {
    if ReplyTo(script, 0).SpawnFailed? {
      FirstListingFailureAborts(app, script);
    } else if ParseIds(ReplyTo(script, 0).stdout) != [] {
      FreshStartOnlyStartsService(app, script);
    } else {
      OkRolloverReachesGate(app, script);
      OkRunKeepsGatePrefix(app, script);
      if HealthCheckOf(script) {
        OkRunNeedsReadiness(app, script);
      }
      OkRunEndsRetiring(app, script);
    }
  }

  /** A run that went through the gate and ends `Ok` keeps the commands
      up to the gate in front. */
  lemma {:induction false} OkRunKeepsGatePrefix(app: App, script: Script)
    requires ReachesGate(script)
    ensures GateIo(script).trace <= Run(app, script).1
  {
    RunReachesGate(app, script);
    FinishExtends(app, script, GateIo(script), OldIds(script), NewIdsOf(script), HealthCheckOf(script));
  }

  /** With a health check, a run that went through the gate and ends `Ok`
      saw every new container healthy in time. */
  lemma {:induction false} OkRunNeedsReadiness(app: App, script: Script)
    requires ReachesGate(script) && HealthCheckOf(script) && Run(app, script).0 == Ok
    ensures BecameReady(app, script, 5, NewIdsOf(script))
  {
    RunReachesGate(app, script);
    FinishOkNeedsReadiness(app, script, GateIo(script), OldIds(script), NewIdsOf(script), HealthCheckOf(script));
  }

  /** A run that went through the gate and ends `Ok` stopped and then
      removed the old containers, last. */
  lemma {:induction false} OkRunEndsRetiring(app: App, script: Script)
    requires ReachesGate(script) && Run(app, script).0 == Ok
    ensures EndsRetiring(Run(app, script).1, OldIds(script))
  {
    RunReachesGate(app, script);
    var oldIds, newIds, hc := OldIds(script), NewIdsOf(script), HealthCheckOf(script);
    var io := GateIo(script);
    if hc {
      FinishOkNeedsReadiness(app, script, io, oldIds, newIds, hc);
    }
    assert GatePasses(app, script, io.next, newIds, hc);
    FinishAfterGateExit(app, script, io, oldIds, newIds, hc);
    FinishAfterGateTrace(app, script, io, oldIds, newIds, hc);
    var p := RetireStart(app, script, io.next, oldIds, newIds, hc);
    assert Succeeded(ReplyTo(script, p));
    var g := GateEnd(app, script, io.next, newIds, hc);
    var front := io.trace + GateTrace(app, script, io.next, newIds, hc) + PreStopTrace(app, script, g, oldIds);
    EndsRetiringAfter(front, oldIds);
  }

  lemma {:induction false} EndsRetiringAfter(front: seq<Command>, ids: seq<string>)
    ensures EndsRetiring(front + [Stop(ids)] + [Rm(ids)], ids)
  {
    var trace := front + [Stop(ids)] + [Rm(ids)];
    assert trace[|trace| - 2..] == [Stop(ids), Rm(ids)];
  }
}

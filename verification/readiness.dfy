/** `wait_until_healthy_count`: poll the health status of a list of
    containers until exactly `target` of them report healthy, or until the
    deadline `timeout` seconds away passes. Polls take no time on the
    abstract clock; the one-second sleep after each unsuccessful poll
    advances it. */
module Readiness {
  import opened Wrappers
  import opened Gateway
  import opened RuntimeCalls

  /** Number of replies reporting healthy among the `n` replies from index
      `from` on. */
  function HealthyCount(script: Script, from: nat, n: nat): (c: nat)
    ensures c <= n
    decreases n
  {
    if n == 0 then 0
    else (if ReportsHealthy(ReplyTo(script, from)) then 1 else 0) + HealthyCount(script, from + 1, n - 1)
  }

  /** The commands of one poll pass: the status of every id, in order. */
  function Probes(ids: seq<string>): (cmds: seq<Command>)
    ensures |cmds| == |ids|
  {
    if ids == [] then [] else [Inspect(ids[0], HealthStatus)] + Probes(ids[1..])
  }

  /** Probe `j` asks for the status of id `j`. */
  lemma {:induction false} ProbesInspectEach(ids: seq<string>)
    ensures forall j :: 0 <= j < |ids| ==> Probes(ids)[j] == Inspect(ids[j], HealthStatus)
    decreases |ids|
  {
    if ids != [] {
      ProbesInspectEach(ids[1..]);
    }
  }

  /** One pass of the inner `for` loop: inspects every id once, in order,
      and counts the ones reported healthy. Inspections take no time. */
  function Poll(script: Script, io: Io, ids: seq<string>): (out: (nat, Io))
    ensures out.1.clock == io.clock
    decreases |ids|
  {
    if ids == [] then (0, io)
    else
      var probe := InspectIsHealthy(script, io, ids[0]);
      var rest := Poll(script, probe.1, ids[1..]);
      ((if probe.0 then 1 else 0) + rest.0, rest.1)
  }

  /** A poll issues one status inspection per id, in order, and reads one
      reply for each. */
  lemma {:induction false} PollIssuesProbes(script: Script, io: Io, ids: seq<string>)
    ensures Poll(script, io, ids).1 == Io(io.next + |ids|, io.clock, io.trace + Probes(ids))
    decreases |ids|
  {
    if ids == [] {
      assert io.trace + [] == io.trace;
    } else {
      var probe := InspectIsHealthy(script, io, ids[0]);
      PollIssuesProbes(script, probe.1, ids[1..]);
      assert Poll(script, io, ids).1 == Poll(script, probe.1, ids[1..]).1;
      assert Probes(ids) == [Inspect(ids[0], HealthStatus)] + Probes(ids[1..]);
      assert probe.1.trace + Probes(ids[1..]) == io.trace + Probes(ids);
    }
  }

  /** The count of a poll is the number of its replies that report healthy;
      an inspection that fails counts as not healthy. */
  lemma {:induction false} PollCountsHealthy(script: Script, io: Io, ids: seq<string>)
    ensures Poll(script, io, ids).0 == HealthyCount(script, io.next, |ids|)
    decreases |ids|
  {
    if ids != [] {
      var probe := InspectIsHealthy(script, io, ids[0]);
      PollCountsHealthy(script, probe.1, ids[1..]);
    }
  }

  /** The number of replies `polls` polls over `ids` read. */
  function PollReplies(ids: seq<string>, polls: nat): nat {
    polls * |ids|
  }

  /** The healthy count seen by poll number `k` (from 0) of a wait whose
      first poll reads the reply at index `start`. */
  function CountAt(script: Script, start: nat, ids: seq<string>, k: nat): nat
  {
    HealthyCount(script, start + PollReplies(ids, k), |ids|)
  }

  lemma {:induction false} CountAtShift(script: Script, start: nat, ids: seq<string>, k: nat)
    requires k >= 1
    ensures CountAt(script, start, ids, k) == CountAt(script, start + |ids|, ids, k - 1)
  {
    assert PollReplies(ids, k) == |ids| + PollReplies(ids, k - 1);
  }

  /** The number of the first poll among `budget` polls whose count is
      exactly `target`; `budget` when there is none. */
  function FirstHit(script: Script, start: nat, ids: seq<string>, target: nat, budget: nat): (h: nat)
    ensures h <= budget
    ensures h < budget ==> CountAt(script, start, ids, h) == target
    decreases budget
  {
    if budget == 0 || CountAt(script, start, ids, 0) == target then 0
    else
      var h := 1 + FirstHit(script, start + |ids|, ids, target, budget - 1);
      CountAtShift(script, start, ids, h);
      h
  }

  /** No poll before the first hit sees the target. */
  lemma {:induction false} FirstHitIsFirst(script: Script, start: nat, ids: seq<string>, target: nat, budget: nat, k: nat)
    requires k < FirstHit(script, start, ids, target, budget)
    ensures CountAt(script, start, ids, k) != target
    decreases budget
  {
    if k > 0 {
      CountAtShift(script, start, ids, k);
      FirstHitIsFirst(script, start + |ids|, ids, target, budget - 1, k - 1);
    }
  }

  /** `n` unsuccessful polls, each followed by its one-second sleep. */
  function Rounds(ids: seq<string>, n: nat): seq<Command>
    decreases n
  {
    if n == 0 then [] else Probes(ids) + [Sleep(1)] + Rounds(ids, n - 1)
  }

  /** The commands a wait issues: the unsuccessful polls before the first
      poll that sees `target` healthy, then that poll; or `timeout`
      unsuccessful polls when none does. */
  function WaitTrace(script: Script, start: nat, ids: seq<string>, target: nat, timeout: nat): seq<Command>
  {
    var h := FirstHit(script, start, ids, target, timeout);
    if h < timeout then Rounds(ids, h) + Probes(ids) else Rounds(ids, timeout)
  }

  /** The number of replies a wait consumes. */
  function WaitReplies(script: Script, start: nat, ids: seq<string>, target: nat, timeout: nat): nat
  {
    var h := FirstHit(script, start, ids, target, timeout);
    if h < timeout then PollReplies(ids, h + 1) else PollReplies(ids, timeout)
  }

  /** The `while Instant::now() < end_time` loop. */
  function PollUntil(script: Script, io: Io, end: nat, target: nat, ids: seq<string>): (out: (Outcome<Error>, Io))
    decreases end - io.clock
  {
    if io.clock < end then
      var (count, io1) := Poll(script, io, ids);
      if count == target then (Pass, io1)
      else PollUntil(script, Pause(io1, 1), end, target, ids)
    else (Fail(TimedOut), io)
  }

  /** The state the loop is in after `n` unsuccessful polls from `io`. */
  function AfterRounds(io: Io, ids: seq<string>, n: nat): Io
  {
    Io(io.next + PollReplies(ids, n), io.clock + n, io.trace + Rounds(ids, n))
  }

  /** One more unsuccessful poll in front of `n` of them. */
  lemma {:induction false} AfterRoundsStep(io: Io, ids: seq<string>, n: nat)
    ensures AfterRounds(Pause(AfterPoll(io, ids), 1), ids, n) == AfterRounds(io, ids, n + 1)
  {
    assert |ids| + PollReplies(ids, n) == PollReplies(ids, n + 1);
    assert Rounds(ids, n + 1) == Probes(ids) + [Sleep(1)] + Rounds(ids, n);
    assert io.trace + Probes(ids) + [Sleep(1)] + Rounds(ids, n) == io.trace + Rounds(ids, n + 1);
  }

  /** The state after one poll, whatever it counted. */
  function AfterPoll(io: Io, ids: seq<string>): Io
  {
    Io(io.next + |ids|, io.clock, io.trace + Probes(ids))
  }

  /** What the loop does from `io` on, with `budget` polls left before the
      deadline: it stops after the first poll that sees exactly `target`
      healthy, having slept once after each earlier poll; with no such poll
      in the budget it times out after `budget` polls and sleeps. */
  function LoopOutcome(script: Script, io: Io, budget: nat, target: nat, ids: seq<string>): (Outcome<Error>, Io)
  {
    var h := FirstHit(script, io.next, ids, target, budget);
    if h < budget then (Pass, AfterPoll(AfterRounds(io, ids, h), ids))
    else (Fail(TimedOut), AfterRounds(io, ids, budget))
  }

  /** A poll that misses the target costs one poll and one sleep of the
      budget. */
  lemma {:induction false} LoopOutcomeMiss(script: Script, io: Io, budget: nat, target: nat, ids: seq<string>)
    requires budget > 0
    requires CountAt(script, io.next, ids, 0) != target
    ensures LoopOutcome(script, io, budget, target, ids)
         == LoopOutcome(script, Pause(AfterPoll(io, ids), 1), budget - 1, target, ids)
  {
    var io2 := Pause(AfterPoll(io, ids), 1);
    var h' := FirstHit(script, io2.next, ids, target, budget - 1);
    assert FirstHit(script, io.next, ids, target, budget) == h' + 1;
    AfterRoundsStep(io, ids, h');
    AfterRoundsStep(io, ids, budget - 1);
  }

  /** `PollUntil` is the loop `LoopOutcome` describes. */
  lemma {:induction false} PollUntilSpec(script: Script, io: Io, end: nat, target: nat, ids: seq<string>)
    requires io.clock <= end
    ensures PollUntil(script, io, end, target, ids) == LoopOutcome(script, io, end - io.clock, target, ids)
    decreases end - io.clock
  {
    var budget := end - io.clock;
    if io.clock < end {
      var (count, io1) := Poll(script, io, ids);
      PollCountsHealthy(script, io, ids);
      PollIssuesProbes(script, io, ids);
      assert io1 == AfterPoll(io, ids);
      assert count == CountAt(script, io.next, ids, 0);
      if count == target {
        assert FirstHit(script, io.next, ids, target, budget) == 0;
        assert AfterRounds(io, ids, 0) == io;
      } else {
        var io2 := Pause(io1, 1);
        assert PollUntil(script, io, end, target, ids) == PollUntil(script, io2, end, target, ids);
        PollUntilSpec(script, io2, end, target, ids);
        LoopOutcomeMiss(script, io, budget, target, ids);
      }
    } else {
      assert AfterRounds(io, ids, 0) == io;
    }
  }

  /** `wait_until_healthy_count`: polls until the deadline `timeout`
      seconds away. */
  function WaitUntilHealthyCount(script: Script, io: Io, timeout: nat, target: nat, ids: seq<string>): (Outcome<Error>, Io)
  {
    PollUntil(script, io, io.clock + timeout, target, ids)
  }

  /** A wait succeeds exactly when one of the first `timeout` polls sees
      exactly `target` containers healthy, returning right after the first
      such poll; otherwise it times out after `timeout` polls, each followed
      by a sleep. */
  lemma {:induction false} WaitIsLoopOutcome(script: Script, io: Io, timeout: nat, target: nat, ids: seq<string>)
    ensures WaitUntilHealthyCount(script, io, timeout, target, ids) == LoopOutcome(script, io, timeout, target, ids)
  {
    PollUntilSpec(script, io, io.clock + timeout, target, ids);
  }

  /** The commands of a wait are the ones `WaitTrace` describes; the clock
      advances by the number of sleeps. */
  lemma {:induction false} WaitIssuesWaitTrace(script: Script, io: Io, timeout: nat, target: nat, ids: seq<string>)
    ensures var out := WaitUntilHealthyCount(script, io, timeout, target, ids);
      var h := FirstHit(script, io.next, ids, target, timeout);
      && out.1.trace == io.trace + WaitTrace(script, io.next, ids, target, timeout)
      && out.1.clock == io.clock + (if h < timeout then h else timeout)
      && (out.0.Fail? ==> out.0.error == TimedOut)
  {
    WaitIsLoopOutcome(script, io, timeout, target, ids);
  }

  /** A wait reads one reply per inspection it issues. */
  lemma {:induction false} WaitConsumesReplies(script: Script, io: Io, timeout: nat, target: nat, ids: seq<string>)
    ensures WaitUntilHealthyCount(script, io, timeout, target, ids).1.next
         == io.next + WaitReplies(script, io.next, ids, target, timeout)
  {
    WaitIsLoopOutcome(script, io, timeout, target, ids);
    var h := FirstHit(script, io.next, ids, target, timeout);
    if h < timeout {
      assert PollReplies(ids, h) + |ids| == PollReplies(ids, h + 1);
    }
  }

  /** Success is equivalent to some poll within the budget seeing exactly the
      target. */
  lemma {:induction false} WaitSucceedsIff(script: Script, io: Io, timeout: nat, target: nat, ids: seq<string>)
    ensures WaitUntilHealthyCount(script, io, timeout, target, ids).0 == Pass
        <==> exists k :: 0 <= k < timeout && CountAt(script, io.next, ids, k) == target
  {
    WaitIsLoopOutcome(script, io, timeout, target, ids);
    var h := FirstHit(script, io.next, ids, target, timeout);
    if h < timeout {
      assert CountAt(script, io.next, ids, h) == target;
    } else if k :| 0 <= k < timeout && CountAt(script, io.next, ids, k) == target {
      FirstHitIsFirst(script, io.next, ids, target, timeout, k);
    }
  }

  /** More healthy containers than containers cannot be seen, so such a wait
      always runs into its deadline. */
  lemma {:induction false} TargetAboveCountTimesOut(script: Script, io: Io, timeout: nat, target: nat, ids: seq<string>)
    requires target > |ids|
    ensures WaitUntilHealthyCount(script, io, timeout, target, ids)
         == (Fail(TimedOut), Io(io.next + PollReplies(ids, timeout), io.clock + timeout, io.trace + Rounds(ids, timeout)))
  {
    WaitIsLoopOutcome(script, io, timeout, target, ids);
  }

  /** A zero timeout times out at once, without inspecting anything. */
  lemma {:induction false} ZeroTimeoutDoesNotPoll(script: Script, io: Io, target: nat, ids: seq<string>)
    ensures WaitUntilHealthyCount(script, io, 0, target, ids) == (Fail(TimedOut), io)
  {
    WaitIsLoopOutcome(script, io, 0, target, ids);
    assert io.trace + Rounds(ids, 0) == io.trace;
  }

  /** A wait issues nothing but status inspections of its own ids and
      one-second sleeps. */
  lemma {:induction false} RoundsOnlyProbe(ids: seq<string>, n: nat)
    ensures forall c :: c in Rounds(ids, n) ==> c == Sleep(1) || (c.Inspect? && c.id in ids && c.query == HealthStatus)
    decreases n
  {
    if n > 0 {
      RoundsOnlyProbe(ids, n - 1);
      ProbesInspectEach(ids);
    }
  }

  lemma {:induction false} WaitTraceOnlyProbes(script: Script, start: nat, ids: seq<string>, target: nat, timeout: nat)
    ensures forall c :: c in WaitTrace(script, start, ids, target, timeout) ==>
      c == Sleep(1) || (c.Inspect? && c.id in ids && c.query == HealthStatus)
  {
    RoundsOnlyProbe(ids, timeout);
    RoundsOnlyProbe(ids, FirstHit(script, start, ids, target, timeout));
  }
}

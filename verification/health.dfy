/** Classification of `docker inspect` output. The output is treated as
    opaque text and examined only with substring tests, as `has_health_check`
    and `is_healthy` do. */
module Health {
  import opened Text

  /** `has_health_check`: the `{{json .State.Health}}` rendering names a
      status field. A container without a health check renders `null`. */
  predicate HasHealthCheck(inspected: string) {
    Contains(inspected, "Status")
  }

  /** `is_healthy`: the `{{json .State.Health.Status}}` rendering mentions
      "healthy" and does not mention "unhealthy". */
  predicate IsHealthy(status: string) {
    !Contains(status, "unhealthy") && Contains(status, "healthy")
  }

  /** Every "unhealthy" holds a "healthy" two chars further on. */
  lemma {:induction false} UnhealthyHoldsHealthy(s: string, i: nat)
    requires OccursAt(s, "unhealthy", i)
    ensures OccursAt(s, "healthy", i + 2)
  {
    assert s[i + 2..i + 9] == s[i..i + 9][2..];
  }

  /** Why both tests are needed: text mentioning "unhealthy" also contains
      "healthy", so the first test alone would call it healthy; the
      classification rejects it. */
  lemma {:induction false} UnhealthyIsNeverHealthy(s: string)
    requires Contains(s, "unhealthy")
    ensures Contains(s, "healthy")
    ensures !IsHealthy(s)
  {
    ContainsIffOccurs(s, "unhealthy");
    ContainsIffOccurs(s, "healthy");
    var i: nat :| OccursAt(s, "unhealthy", i);
    UnhealthyHoldsHealthy(s, i);
  }

  lemma {:induction false} UnPrefixMakesUnhealthy(s: string, i: nat)
    requires OccursAt(s, "healthy", i) && i >= 2
    requires s[i - 2..i] == "un"
    ensures OccursAt(s, "unhealthy", i - 2)
  {
    assert s[i - 2..i + 7] == s[i - 2..i] + s[i..i + 7];
  }

  /** In text classified healthy no occurrence of "healthy" is preceded by
      "un". */
  lemma {:induction false} HealthyOccurrencesStandAlone(s: string, i: nat)
    requires IsHealthy(s)
    requires OccursAt(s, "healthy", i) && i >= 2
    ensures s[i - 2..i] != "un"
  {
    ContainsIffOccurs(s, "unhealthy");
    if s[i - 2..i] == "un" {
      UnPrefixMakesUnhealthy(s, i);
      assert false;
    }
  }

  /** The JSON strings docker prints for the health states. */
  lemma {:induction false} HealthyStatusExample()
    ensures IsHealthy("\"healthy\"")
  {
    var healthy := "\"healthy\"";
    assert healthy[1..8] == "healthy";
    assert OccursAt(healthy, "healthy", 1);
    ContainsIffOccurs(healthy, "healthy");
    AbsentHeadNeverOccurs(healthy, "unhealthy");
  }

  lemma {:induction false} UnhealthyStatusExample()
    ensures !IsHealthy("\"unhealthy\"")
  {
    var unhealthy := "\"unhealthy\"";
    assert unhealthy[1..10] == "unhealthy";
    assert OccursAt(unhealthy, "unhealthy", 1);
    ContainsIffOccurs(unhealthy, "unhealthy");
  }

  lemma {:induction false} StartingStatusExample()
    ensures !IsHealthy("\"starting\"")
  {
    AbsentHeadNeverOccurs("\"starting\"", "healthy");
  }

  /** The two renderings of the health object: a populated one, and the
      `null` of a container without a health check. */
  lemma {:induction false} HealthObjectExamples()
    ensures HasHealthCheck("{\"Status\":\"starting\"}")
    ensures !HasHealthCheck("null")
  {
    var inspected := "{\"Status\":\"starting\"}";
    assert inspected[2..8] == "Status";
    assert OccursAt(inspected, "Status", 2);
    ContainsIffOccurs(inspected, "Status");
  }
}

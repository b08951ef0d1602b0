/** Container ids as `get_container_ids` reads them from the standard output
    of `ps --quiet`, and the id-set arithmetic of the restart. */
module ContainerIds {
  import opened Text

  /** The trimmed output, one id per line. */
  function ParseIds(stdout: string): seq<string>
  {
    Lines(Trim(stdout))
  }

  /** `is_service_running`, as written: it holds when NO container is
      listed. */
  predicate IsServiceRunning(ids: seq<string>) {
    ids == []
  }

  /** The running check answers yes exactly when the listing is blank. */
  lemma {:induction false} RunningIffBlankListing(stdout: string)
    ensures IsServiceRunning(ParseIds(stdout)) <==> forall j :: 0 <= j < |stdout| ==> IsWhitespace(stdout[j])
  {
  }

  /** Without carriage returns the ids are exactly the lines of the trimmed
      output. */
  lemma {:induction false} ParsedIdsAreTrimmedLines(stdout: string)
    requires '\r' !in stdout
    ensures JoinLines(ParseIds(stdout)) == Trim(stdout)
  {
    var t := Trim(stdout);
    assert '\r' !in t by {
      var a := LeadingWhitespace(stdout);
      forall j | 0 <= j < |t| ensures t[j] != '\r' { assert t[j] == stdout[a + j]; }
    }
    JoinLinesOfLines(t);
  }

  /** An id as docker prints it: non-empty, no whitespace. */
  predicate ValidId(id: string) {
    id != [] && NoWhitespace(id)
  }

  /** What `ps --quiet` prints: every id on a line of its own. */
  function PsOutput(ids: seq<string>): string
  {
    if ids == [] then [] else ids[0] + "\n" + PsOutput(ids[1..])
  }

  lemma {:induction false} PsOutputIsJoinedLines(ids: seq<string>)
    requires ids != []
    ensures PsOutput(ids) == JoinLines(ids) + "\n"
    decreases |ids|
  {
    if |ids| > 1 {
      PsOutputIsJoinedLines(ids[1..]);
    } else {
      assert ids[1..] == [];
    }
  }

  lemma {:induction false} JoinLinesFirst(ids: seq<string>)
    requires ids != [] && ids[0] != []
    ensures JoinLines(ids) != [] && JoinLines(ids)[0] == ids[0][0]
  {
  }

  lemma {:induction false} JoinLinesLast(ids: seq<string>)
    requires ids != [] && ids[|ids| - 1] != []
    ensures var s := JoinLines(ids); s != [] && s[|s| - 1] == ids[|ids| - 1][|ids[|ids| - 1]| - 1]
    decreases |ids|
  {
    if |ids| > 1 {
      var tail := ids[1..];
      assert tail[|tail| - 1] == ids[|ids| - 1];
      JoinLinesLast(tail);
    }
  }

  /** Trimming drops the final line feed and nothing else. */
  lemma {:induction false} TrimOfTerminatedLine(s: string)
    requires s != [] && !IsWhitespace(s[0]) && !IsWhitespace(s[|s| - 1])
    ensures Trim(s + "\n") == s
  {
    var t := s + "\n";
    assert LeadingWhitespace(t) == 0;
    assert t[..|t| - 1] == s;
    assert TrailingWhitespace(t) == 1 + TrailingWhitespace(s);
  }

  lemma {:induction false} ValidIdHasNoLineBreak(id: string)
    requires ValidId(id)
    ensures '\n' !in id && '\r' !in id
  {
    assert IsWhitespace('\n') && IsWhitespace('\r');
  }

  /** Listing round trip: parsing what `ps --quiet` prints for well-formed
      ids gives back those ids, in order. */
  lemma {:induction false} ParseIdsOfPsOutput(ids: seq<string>)
    requires forall j :: 0 <= j < |ids| ==> ValidId(ids[j])
    ensures ParseIds(PsOutput(ids)) == ids
  {
    if ids != [] {
      var joined := JoinLines(ids);
      var first, last := ids[0], ids[|ids| - 1];
      assert ValidId(first) && ValidId(last);
      PsOutputIsJoinedLines(ids);
      JoinLinesFirst(ids);
      JoinLinesLast(ids);
      assert !IsWhitespace(joined[0]) && !IsWhitespace(joined[|joined| - 1]);
      TrimOfTerminatedLine(joined);
      forall j | 0 <= j < |ids| ensures '\n' !in ids[j] && '\r' !in ids[j] {
        ValidIdHasNoLineBreak(ids[j]);
      }
      LinesOfJoinLines(ids);
    }
  }

  /** `a` is `b` with some elements left out, order kept. */
  predicate IsSubsequence<T(==)>(a: seq<T>, b: seq<T>)
    decreases |b|
  {
    if a == [] then true
    else if b == [] then false
    else if a[0] == b[0] then IsSubsequence(a[1..], b[1..])
    else IsSubsequence(a, b[1..])
  }

  /** The ids listed after scaling up that were not listed before it, in
      the order of `allIds`. */
  function NewIds(allIds: seq<string>, oldIds: seq<string>): (r: seq<string>)
    ensures |r| <= |allIds|
    decreases |allIds|
  {
    if allIds == [] then []
    else
      var rest := NewIds(allIds[1..], oldIds);
      if allIds[0] in oldIds then rest else [allIds[0]] + rest
  }

  /** The new ids are exactly those of `allIds` that are not in `oldIds`. */
  lemma {:induction false} NewIdsMembers(allIds: seq<string>, oldIds: seq<string>)
    ensures forall x :: x in NewIds(allIds, oldIds) <==> x in allIds && x !in oldIds
    decreases |allIds|
  {
    if allIds != [] {
      NewIdsMembers(allIds[1..], oldIds);
      assert allIds == [allIds[0]] + allIds[1..];
    }
  }

  /** Each id not listed before scaling keeps every one of its listings in
      `allIds`; an id listed before scaling keeps none. */
  lemma {:induction false} NewIdsCounts(allIds: seq<string>, oldIds: seq<string>)
    ensures forall x :: multiset(NewIds(allIds, oldIds))[x] == if x in oldIds then 0 else multiset(allIds)[x]
    decreases |allIds|
  {
    if allIds != [] {
      NewIdsCounts(allIds[1..], oldIds);
      assert allIds == [allIds[0]] + allIds[1..];
      assert multiset(allIds) == multiset([allIds[0]]) + multiset(allIds[1..]);
    }
  }

  /** The new ids keep the order of `allIds`. */
  lemma {:induction false} NewIdsKeepOrder(allIds: seq<string>, oldIds: seq<string>)
    ensures IsSubsequence(NewIds(allIds, oldIds), allIds)
    decreases |allIds|
  {
    if allIds != [] {
      NewIdsKeepOrder(allIds[1..], oldIds);
      var rest := NewIds(allIds[1..], oldIds);
      if allIds[0] in oldIds {
        NewIdsMembers(allIds[1..], oldIds);
        assert rest == [] || rest[0] != allIds[0] by {
          if rest != [] { assert rest[0] in rest; }
        }
      } else {
        assert ([allIds[0]] + rest)[1..] == rest;
      }
    }
  }
}

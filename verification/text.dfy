/** The handful of Rust `str` operations the restart logic relies on:
    `trim`, `lines`, `contains` and `replace`, over strings of Unicode
    scalar values. */
module Text {

  /** Rust's `char::is_whitespace`: the Unicode White_Space property. */
  predicate IsWhitespace(c: char) {
    || ('\t' <= c <= '\r')
    || c == ' '
    || c == '\U{0085}'
    || c == '\U{00A0}'
    || c == '\U{1680}'
    || ('\U{2000}' <= c <= '\U{200A}')
    || c == '\U{2028}'
    || c == '\U{2029}'
    || c == '\U{202F}'
    || c == '\U{205F}'
    || c == '\U{3000}'
  }

  predicate NoWhitespace(s: string) {
    forall j :: 0 <= j < |s| ==> !IsWhitespace(s[j])
  }

  /** Length of the longest all-whitespace prefix of `s`. */
  function LeadingWhitespace(s: string): (k: nat)
    ensures k <= |s|
    ensures forall j :: 0 <= j < k ==> IsWhitespace(s[j])
    ensures k < |s| ==> !IsWhitespace(s[k])
  {
    if |s| > 0 && IsWhitespace(s[0]) then 1 + LeadingWhitespace(s[1..]) else 0
  }

  /** Length of the longest all-whitespace suffix of `s`. */
  function TrailingWhitespace(s: string): (k: nat)
    ensures k <= |s|
    ensures forall j :: |s| - k <= j < |s| ==> IsWhitespace(s[j])
    ensures k < |s| ==> !IsWhitespace(s[|s| - k - 1])
  {
    if |s| > 0 && IsWhitespace(s[|s| - 1]) then 1 + TrailingWhitespace(s[..|s| - 1]) else 0
  }

  /** `str::trim`: `s` without its leading and trailing whitespace. The result
      is the slice of `s` that starts after the leading whitespace and leaves
      only whitespace behind it; it is empty exactly when `s` is all
      whitespace, and otherwise starts and ends with a non-whitespace char. */
  function Trim(s: string): (t: string)
    ensures var a := LeadingWhitespace(s);
      && a + |t| <= |s|
      && t == s[a..a + |t|]
      && forall j :: a + |t| <= j < |s| ==> IsWhitespace(s[j])
    ensures t == [] <==> forall j :: 0 <= j < |s| ==> IsWhitespace(s[j])
    ensures t != [] ==> !IsWhitespace(t[0]) && !IsWhitespace(t[|t| - 1])
  {
    var a := LeadingWhitespace(s);
    var rest := s[a..];
    rest[..|rest| - TrailingWhitespace(rest)]
  }

  /** Position of the first `c` in `s`, or `|s|` when there is none. */
  function IndexOf<T(==)>(s: seq<T>, c: T): (k: nat)
    ensures k <= |s|
    ensures forall j :: 0 <= j < k ==> s[j] != c
    ensures k < |s| ==> s[k] == c
  {
    if s == [] then 0 else if s[0] == c then 0 else 1 + IndexOf(s[1..], c)
  }

  /** Drops one carriage return ending a line that was ended by a line feed. */
  function StripCarriageReturn(line: string): (r: string)
    ensures r == line || (line == r + ['\r'])
  {
    if |line| > 0 && line[|line| - 1] == '\r' then line[..|line| - 1] else line
  }

  /** `str::lines`: splits at every line feed, removing a carriage return that
      directly precedes a line feed. A final line feed does not start an extra
      empty line, and a final unterminated line keeps all its chars. */
  function Lines(s: string): (ls: seq<string>)
    decreases |s|
  {
    if s == [] then []
    else
      var k := IndexOf(s, '\n');
      if k == |s| then [s]
      else [StripCarriageReturn(s[..k])] + Lines(s[k + 1..])
  }

  /** Only empty text has no lines. */
  lemma {:induction false} LinesEmptyIff(s: string)
    ensures Lines(s) == [] <==> s == []
  {
  }

  /** No line holds a line feed. */
  lemma {:induction false} LinesHoldNoFeed(s: string)
    ensures forall j :: 0 <= j < |Lines(s)| ==> '\n' !in Lines(s)[j]
    decreases |s|
  {
    if s != [] {
      var k := IndexOf(s, '\n');
      if k < |s| {
        LinesHoldNoFeed(s[k + 1..]);
        var line := s[..k];
        assert '\n' !in line by {
          forall i | 0 <= i < |line| ensures line[i] != '\n' { assert line[i] == s[i]; }
        }
        assert '\n' !in StripCarriageReturn(line) by {
          forall i | 0 <= i < |StripCarriageReturn(line)| ensures StripCarriageReturn(line)[i] != '\n' {
            assert StripCarriageReturn(line)[i] == line[i];
          }
        }
      }
    }
  }

  /** Joins the parts with `sep` between neighbours (none before the first
      or after the last). */
  function JoinWith(parts: seq<string>, sep: string): (s: string)
    decreases |parts|
  {
    if parts == [] then []
    else if |parts| == 1 then parts[0]
    else parts[0] + sep + JoinWith(parts[1..], sep)
  }

  /** Joins lines with a line feed between neighbours (no final line feed). */
  function JoinLines(ls: seq<string>): (s: string)
  {
    JoinWith(ls, "\n")
  }

  lemma {:induction false} JoinLinesCons(x: string, ls: seq<string>)
    requires ls != []
    ensures JoinLines([x] + ls) == x + "\n" + JoinLines(ls)
  {
    assert ([x] + ls)[1..] == ls;
  }

  /** Without carriage returns, `Lines` cuts the first line at the first
      line feed and keeps it as it is. */
  lemma {:induction false} LinesAtFirstFeed(s: string)
    requires '\r' !in s
    requires IndexOf(s, '\n') < |s|
    ensures var k := IndexOf(s, '\n');
      Lines(s) == [s[..k]] + Lines(s[k + 1..])
  {
    var k := IndexOf(s, '\n');
    var line := s[..k];
    if |line| > 0 {
      assert line[k - 1] == s[k - 1];
    }
  }

  /** A suffix of a text without carriage returns has none either. */
  lemma {:induction false} NoCarriageReturnAfter(s: string, i: nat)
    requires '\r' !in s
    requires i <= |s|
    ensures '\r' !in s[i..]
  {
    forall j | 0 <= j < |s| - i ensures s[i..][j] != '\r' {
      assert s[i..][j] == s[i + j];
    }
  }

  /** Splitting text that does not end in its first line feed and joining
      the lines again gives back the first line, that line feed, and the
      join of the lines of the rest. */
  lemma {:induction false} JoinLinesAtFirstFeed(s: string)
    requires '\r' !in s
    requires IndexOf(s, '\n') < |s| - 1
    ensures var k := IndexOf(s, '\n');
      JoinLines(Lines(s)) == s[..k] + "\n" + JoinLines(Lines(s[k + 1..]))
  {
    var k := IndexOf(s, '\n');
    var rest := s[k + 1..];
    LinesAtFirstFeed(s);
    assert rest != [];
    assert Lines(rest) != [];
    JoinLinesCons(s[..k], Lines(rest));
  }

  /** A text is its part before position `k`, the char there, and the rest. */
  lemma {:induction false} CutAt(s: string, k: nat)
    requires k < |s|
    ensures s == s[..k] + [s[k]] + s[k + 1..]
  {
  }

  /** Splitting and joining agree on text without carriage returns that does
      not end in a line feed. */
  lemma {:induction false} JoinLinesOfLines(s: string)
    requires '\r' !in s
    requires s == [] || s[|s| - 1] != '\n'
    ensures JoinLines(Lines(s)) == s
    decreases |s|
  {
    if s != [] {
      var k := IndexOf(s, '\n');
      if k < |s| {
        var rest := s[k + 1..];
        JoinLinesAtFirstFeed(s);
        NoCarriageReturnAfter(s, k + 1);
        assert rest[|rest| - 1] == s[|s| - 1];
        JoinLinesOfLines(rest);
        CutAt(s, k);
      }
    }
  }

  /** A line free of line feeds and carriage returns, followed by a line
      feed, is split off as it is. */
  lemma {:induction false} LinesAfterLine(head: string, rest: string)
    requires '\n' !in head && '\r' !in head
    ensures Lines(head + "\n" + rest) == [head] + Lines(rest)
  {
    var s := head + "\n" + rest;
    assert s[|head|] == '\n';
    assert forall j :: 0 <= j < |head| ==> s[j] == head[j];
    var k := IndexOf(s, '\n');
    assert k == |head|;
    assert s[..k] == head;
    assert s[k + 1..] == rest;
    assert StripCarriageReturn(head) == head by {
      if |head| > 0 { assert head[|head| - 1] in head; }
    }
  }

  /** Lines that hold no line feed and no carriage return, the last of them
      non-empty, are recovered by splitting their join. */
  lemma {:induction false} LinesOfJoinLines(ls: seq<string>)
    requires ls != []
    requires forall j :: 0 <= j < |ls| ==> '\n' !in ls[j] && '\r' !in ls[j]
    requires ls[|ls| - 1] != []
    ensures Lines(JoinLines(ls)) == ls
    decreases |ls|
  {
    var head := ls[0];
    assert '\n' !in head && '\r' !in head;
    if |ls| == 1 {
      assert IndexOf(head, '\n') == |head|;
    } else {
      var tail := ls[1..];
      assert tail[|tail| - 1] == ls[|ls| - 1];
      LinesOfJoinLines(tail);
      LinesAfterLine(head, JoinLines(tail));
      assert JoinLines(ls) == head + "\n" + JoinLines(tail);
      assert ls == [head] + tail;
    }
  }

  /** `p` occurs in `s` starting at position `i`. */
  predicate OccursAt(s: string, p: string, i: nat) {
    i + |p| <= |s| && s[i..i + |p|] == p
  }

  /** A pattern whose first character is nowhere in the text occurs nowhere
      in it. */
  lemma {:induction false} AbsentHeadNeverOccurs(s: string, p: string)
    requires p != [] && p[0] !in s
    ensures !Contains(s, p)
  {
    ContainsIffOccurs(s, p);
    forall i: nat ensures !OccursAt(s, p, i) {
      if i + |p| <= |s| {
        assert s[i..i + |p|][0] == s[i];
      }
    }
  }

  predicate IsPrefix(p: string, s: string) {
    |p| <= |s| && s[..|p|] == p
  }

  /** `str::contains` for a string pattern: a scan trying the pattern at
      every position from the left. */
  function Contains(s: string, p: string): bool
    decreases |s|
  {
    if IsPrefix(p, s) then true
    else if s == [] then false
    else Contains(s[1..], p)
  }

  /** The scan finds the pattern exactly when it occurs somewhere. */
  lemma {:induction false} ContainsIffOccurs(s: string, p: string)
    ensures Contains(s, p) <==> exists i: nat :: OccursAt(s, p, i)
    decreases |s|
  {
    if IsPrefix(p, s) {
      assert OccursAt(s, p, 0);
    } else if s == [] {
      assert forall i: nat :: !OccursAt(s, p, i);
    } else {
      ContainsIffOccurs(s[1..], p);
      if Contains(s[1..], p) {
        var i: nat :| OccursAt(s[1..], p, i);
        assert s[i + 1..i + 1 + |p|] == s[1..][i..i + |p|];
        assert OccursAt(s, p, i + 1);
      }
      if exists i: nat :: OccursAt(s, p, i) {
        var i: nat :| OccursAt(s, p, i);
        assert i != 0;
        assert s[1..][i - 1..i - 1 + |p|] == s[i..i + |p|];
        assert OccursAt(s[1..], p, i - 1);
      }
    }
  }

  /** `str::replace`: every non-overlapping occurrence of `p`, found by a
      left-to-right scan, is replaced by `r`. */
  function Replace(s: string, p: string, r: string): string
    requires p != []
    decreases |s|
  {
    if IsPrefix(p, s) then r + Replace(s[|p|..], p, r)
    else if s == [] then []
    else [s[0]] + Replace(s[1..], p, r)
  }

  /** A string in which the pattern never occurs is left unchanged. */
  lemma {:induction false} ReplaceWithoutOccurrence(s: string, p: string, r: string)
    requires p != []
    requires !Contains(s, p)
    ensures Replace(s, p, r) == s
    decreases |s|
  {
    if s != [] {
      assert !OccursAt(s, p, 0);
      ReplaceWithoutOccurrence(s[1..], p, r);
    }
  }

  /** Chars of a leading part `a` at which no occurrence starts are copied
      unchanged; the scan then continues on the rest. */
  lemma {:induction false} ReplaceCopiesUnmatched(a: string, b: string, p: string, r: string)
    requires p != []
    requires forall i: nat :: i < |a| ==> !OccursAt(a + b, p, i)
    ensures Replace(a + b, p, r) == a + Replace(b, p, r)
    decreases |a|
  {
    if a != [] {
      var s := a + b;
      var s' := a[1..] + b;
      assert !OccursAt(s, p, 0);
      assert !IsPrefix(p, s);
      assert s[1..] == s';
      assert Replace(s, p, r) == [s[0]] + Replace(s', p, r);
      forall i: nat | i < |a[1..]| ensures !OccursAt(s', p, i) {
        assert !OccursAt(s, p, i + 1);
      }
      ReplaceCopiesUnmatched(a[1..], b, p, r);
      assert Replace(s', p, r) == a[1..] + Replace(b, p, r);
      assert s[0] == a[0];
      assert [a[0]] + (a[1..] + Replace(b, p, r)) == a + Replace(b, p, r);
    } else {
      assert a + b == b;
    }
  }


  /** An occurrence at the start is replaced and the scan resumes after it. */
  lemma {:induction false} ReplaceLeadingOccurrence(b: string, p: string, r: string)
    requires p != []
    ensures Replace(p + b, p, r) == r + Replace(b, p, r)
  {
    assert (p + b)[..|p|] == p;
    assert (p + b)[|p|..] == b;
  }
}

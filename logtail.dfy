/**
 * The progress lines monitor_pod shows while the build pod has not finished
 * (docker-build-cli.py:430-437): the log text is stripped of surrounding
 * whitespace, split at '\n', cut to its last five lines, and of those the
 * lines that are not blank are shown.
 */
module LogTail {
  const Newline: char := '\n'
  const Shown: nat := 5

  /** Python's str.isspace for one character. */
  predicate IsSpace(c: char) {
    || c == ' ' || ('\t' <= c <= '\r') || ('\U{1C}' <= c <= '\U{1F}')
    || c == '\U{85}' || c == '\U{A0}' || c == '\U{1680}' || ('\U{2000}' <= c <= '\U{200A}')
    || c == '\U{2028}' || c == '\U{2029}' || c == '\U{202F}' || c == '\U{205F}' || c == '\U{3000}'
  }

  /** `line.strip()` is empty. */
  predicate Blank(s: string) {
    forall i :: 0 <= i < |s| ==> IsSpace(s[i])
  }

  function TrimStart(s: string): (r: string)
    ensures |r| <= |s| && r == s[|s| - |r|..]
    ensures r == [] || !IsSpace(r[0])
    ensures Blank(s[..|s| - |r|])
  {
    if s == [] || !IsSpace(s[0]) then s
    else
      var r := TrimStart(s[1..]);
      assert s[1..][..|s| - 1 - |r|] == s[1..|s| - |r|];
      assert s[..|s| - |r|] == [s[0]] + s[1..|s| - |r|];
      r
  }

  function TrimEnd(s: string): (r: string)
    ensures |r| <= |s| && r == s[..|r|]
    ensures r == [] || !IsSpace(r[|r| - 1])
    ensures Blank(s[|r|..])
  {
    if s == [] || !IsSpace(s[|s| - 1]) then s
    else
      var r := TrimEnd(s[..|s| - 1]);
      assert s[..|s| - 1][|r|..] == s[|r|..|s| - 1];
      assert s[|r|..] == s[|r|..|s| - 1] + [s[|s| - 1]];
      r
  }

  /** `s.strip()`: `s` without its leading and trailing whitespace. */
  function Strip(s: string): string {
    TrimEnd(TrimStart(s))
  }

  /** `Strip` keeps a middle part of `s`, drops only whitespace, and leaves no whitespace at either end. */
  lemma StripIsTrim(s: string)
    ensures var r := Strip(s);
      && (exists i, j :: 0 <= i <= j <= |s| && r == s[i..j] && Blank(s[..i]) && Blank(s[j..]))
      && (r == [] || (!IsSpace(r[0]) && !IsSpace(r[|r| - 1])))
  {
    var t := TrimStart(s);
    var r := TrimEnd(t);
    var i := |s| - |t|;
    var j := i + |r|;
    assert r == t[..|r|] && t == s[i..];
    assert r == s[i..j];
    assert s[j..] == t[|r|..];
    if r != [] {
      assert r[0] == t[0];
    }
    assert 0 <= i <= j <= |s| && r == s[i..j] && Blank(s[..i]) && Blank(s[j..]);
  }

  /** Stripping twice strips nothing more. */
  lemma StripIdempotent(s: string)
    ensures Strip(Strip(s)) == Strip(s)
  {
    var r := Strip(s);
    StripIsTrim(s);
    if r != [] {
      assert TrimStart(r) == r;
      assert TrimEnd(r) == r;
    }
  }

  /** The position of the first '\n' in `s`, if any. */
  function NewlineAt(s: string): (k: int)
    ensures -1 <= k < |s|
    ensures k == -1 ==> Newline !in s
    ensures k >= 0 ==> s[k] == Newline && Newline !in s[..k]
  {
    if s == [] then -1
    else if s[0] == Newline then 0
    else
      var k := NewlineAt(s[1..]);
      if k == -1 then -1
      else
        assert s[..k + 1] == [s[0]] + s[1..][..k];
        k + 1
  }

  /** `s.split('\n')`: never empty, and no piece holds a '\n'. */
  function Split(s: string): (parts: seq<string>)
    ensures |parts| >= 1
    ensures forall i :: 0 <= i < |parts| ==> Newline !in parts[i]
    decreases |s|
  {
    var k := NewlineAt(s);
    if k == -1 then [s] else [s[..k]] + Split(s[k + 1..])
  }

  /** `'\n'.join(parts)`. */
  function Join(parts: seq<string>): string
    requires |parts| >= 1
  {
    if |parts| == 1 then parts[0] else parts[0] + [Newline] + Join(parts[1..])
  }

  /** Joining the pieces of a split gives back the text. */
  lemma {:induction false} JoinSplit(s: string)
    ensures Join(Split(s)) == s
    decreases |s|
  {
    var k := NewlineAt(s);
    if k != -1 {
      var a, b := s[..k], s[k + 1..];
      assert s == a + [Newline] + b;
      SplitCons(a, b);
      JoinSplit(b);
      var parts := [a] + Split(b);
      assert parts[1..] == Split(b);
    }
  }

  /** Splitting a join of pieces without '\n' gives back the pieces. */
  lemma {:induction false} SplitJoin(parts: seq<string>)
    requires |parts| >= 1
    requires forall i :: 0 <= i < |parts| ==> Newline !in parts[i]
    ensures Split(Join(parts)) == parts
    decreases |parts|
  {
    if |parts| > 1 {
      SplitCons(parts[0], Join(parts[1..]));
      SplitJoin(parts[1..]);
      assert parts == [parts[0]] + parts[1..];
    }
  }

  /** Splitting a line, a '\n' and more text splits off that line. */
  lemma SplitCons(a: string, rest: string)
    requires Newline !in a
    ensures Split(a + [Newline] + rest) == [a] + Split(rest)
  {
    var s := a + [Newline] + rest;
    NewlineOf(a, rest);
    assert s[..|a|] == a;
    assert s[|a| + 1..] == rest;
  }

  lemma {:induction false} NewlineOf(a: string, b: string)
    requires Newline !in a
    ensures NewlineAt(a + [Newline] + b) == |a|
  {
    if a != [] {
      assert (a + [Newline] + b)[1..] == a[1..] + [Newline] + b;
      NewlineOf(a[1..], b);
    }
  }

  /** `lines[-5:]`. */
  function LastLines(lines: seq<string>): (r: seq<string>)
    ensures |r| == if |lines| < Shown then |lines| else Shown
    ensures lines == lines[..|lines| - |r|] + r
  {
    if |lines| <= Shown then lines else lines[|lines| - Shown..]
  }

  /** The lines among `lines` that are not blank, in order. */
  function NonBlank(lines: seq<string>): (r: seq<string>)
    ensures |r| <= |lines|
  {
    if lines == [] then []
    else if Blank(lines[0]) then NonBlank(lines[1..])
    else [lines[0]] + NonBlank(lines[1..])
  }

  /** What one pass of the progress branch shows for the log text `logs`. */
  function Tail(logs: string): seq<string> {
    if logs == [] then [] else NonBlank(LastLines(Split(Strip(logs))))
  }

  /** The lines of NonBlank(`lines`): their first line, if it is not blank, then those of the rest. */
  lemma NonBlankStep(lines: seq<string>)
    requires lines != []
    ensures NonBlank(lines) == if Blank(lines[0]) then NonBlank(lines[1..]) else [lines[0]] + NonBlank(lines[1..])
  {
  }

  lemma NonBlankKeeps(lines: seq<string>)
    ensures var r := NonBlank(lines);
      && (forall i :: 0 <= i < |r| ==> !Blank(r[i]) && r[i] in lines)
      && ((forall i :: 0 <= i < |lines| ==> !Blank(lines[i])) ==> r == lines)
  {
    NonBlankNotBlank(lines);
    NonBlankFrom(lines);
    if forall i :: 0 <= i < |lines| ==> !Blank(lines[i]) {
      NonBlankAllKept(lines);
    }
  }

  lemma {:induction false} NonBlankNotBlank(lines: seq<string>)
    ensures var r := NonBlank(lines); forall i :: 0 <= i < |r| ==> !Blank(r[i])
  {
    if lines != [] {
      NonBlankNotBlank(lines[1..]);
      NonBlankStep(lines);
      var t := NonBlank(lines[1..]);
      if !Blank(lines[0]) {
        var r := [lines[0]] + t;
        forall i | 0 < i < |r|
          ensures r[i] == t[i - 1]
        {
        }
      }
    }
  }

  lemma {:induction false} NonBlankFrom(lines: seq<string>)
    ensures var r := NonBlank(lines); forall i :: 0 <= i < |r| ==> r[i] in lines
  {
    if lines != [] {
      var rest := lines[1..];
      NonBlankFrom(rest);
      NonBlankStep(lines);
      var t := NonBlank(rest);
      assert lines == [lines[0]] + rest;
      forall i | 0 <= i < |t|
        ensures t[i] in lines
      {
        assert t[i] in rest;
      }
      if !Blank(lines[0]) {
        var r := [lines[0]] + t;
        forall i | 0 < i < |r|
          ensures r[i] == t[i - 1]
        {
        }
      }
    }
  }

  lemma {:induction false} NonBlankAllKept(lines: seq<string>)
    requires forall i :: 0 <= i < |lines| ==> !Blank(lines[i])
    ensures NonBlank(lines) == lines
  {
    if lines != [] {
      var rest := lines[1..];
      assert forall i :: 0 <= i < |rest| ==> rest[i] == lines[i + 1];
      NonBlankAllKept(rest);
      NonBlankStep(lines);
      assert lines == [lines[0]] + rest;
    }
  }

  /** Each line of `r` is the line of `lines` at the matching position of `idx`. */
  ghost predicate Picks(idx: seq<nat>, r: seq<string>, lines: seq<string>) {
    |idx| == |r| && forall k :: 0 <= k < |idx| ==> idx[k] < |lines| && r[k] == lines[idx[k]]
  }

  ghost predicate Increasing(idx: seq<nat>) {
    forall k, m :: 0 <= k < m < |idx| ==> idx[k] < idx[m]
  }

  /** `idx` holds exactly the positions of the lines of `lines` that are not blank. */
  ghost predicate NonBlankAt(idx: seq<nat>, lines: seq<string>) {
    forall j :: 0 <= j < |lines| ==> (!Blank(lines[j]) <==> j in idx)
  }

  /**
   * `idx` lists, in increasing order, exactly the positions of the lines of
   * `lines` that are not blank, and `r` holds the lines at those positions.
   */
  ghost predicate Selects(idx: seq<nat>, r: seq<string>, lines: seq<string>) {
    Picks(idx, r, lines) && Increasing(idx) && NonBlankAt(idx, lines)
  }

  /** Every position moved one line further down. */
  function Shifted(idx: seq<nat>): (r: seq<nat>)
    ensures |r| == |idx| && forall k :: 0 <= k < |idx| ==> r[k] == idx[k] + 1
  {
    seq(|idx|, k requires 0 <= k < |idx| => idx[k] + 1)
  }

  lemma ShiftedHolds(idx: seq<nat>)
    ensures 0 !in Shifted(idx)
    ensures forall j: nat :: j in idx <==> j + 1 in Shifted(idx)
  {
    var up := Shifted(idx);
    forall j: nat
      ensures j in idx <==> j + 1 in up
    {
      if j + 1 in up {
        var k :| 0 <= k < |up| && up[k] == j + 1;
        assert idx[k] == j;
      }
      if j in idx {
        var k :| 0 <= k < |idx| && idx[k] == j;
        assert up[k] == j + 1;
      }
    }
  }

  /** A blank line in front selects the same lines, one position further down. */
  lemma SelectsBlankFirst(idx: seq<nat>, r: seq<string>, first: string, rest: seq<string>)
    requires Selects(idx, r, rest) && Blank(first)
    ensures Selects(Shifted(idx), r, [first] + rest)
  {
    var lines := [first] + rest;
    var up := Shifted(idx);
    ShiftedHolds(idx);
    forall j | 0 <= j < |lines|
      ensures !Blank(lines[j]) <==> j in up
    {
      if j > 0 {
        assert lines[j] == rest[j - 1];
        assert j - 1 in idx <==> j in up;
      }
    }
  }

  /** A line in front that is not blank is selected first, before the lines of the rest. */
  lemma SelectsLineFirst(idx: seq<nat>, r: seq<string>, first: string, rest: seq<string>)
    requires Selects(idx, r, rest) && !Blank(first)
    ensures Selects([0] + Shifted(idx), [first] + r, [first] + rest)
  {
    PicksLineFirst(idx, r, first, rest);
    IncreasingFromZero(idx);
    NonBlankAtLineFirst(idx, first, rest);
  }

  lemma PicksLineFirst(idx: seq<nat>, r: seq<string>, first: string, rest: seq<string>)
    requires Picks(idx, r, rest)
    ensures Picks([0] + Shifted(idx), [first] + r, [first] + rest)
  {
    var lines := [first] + rest;
    var all := [0] + Shifted(idx);
    var shown := [first] + r;
    forall k | 0 < k < |all|
      ensures all[k] < |lines| && shown[k] == lines[all[k]]
    {
      assert all[k] == idx[k - 1] + 1 && shown[k] == r[k - 1];
      assert lines[idx[k - 1] + 1] == rest[idx[k - 1]];
    }
  }

  lemma IncreasingFromZero(idx: seq<nat>)
    requires Increasing(idx)
    ensures Increasing([0] + Shifted(idx))
  {
    var all := [0] + Shifted(idx);
    forall k, m | 0 <= k < m < |all|
      ensures all[k] < all[m]
    {
      assert all[m] == idx[m - 1] + 1;
      if k > 0 {
        assert all[k] == idx[k - 1] + 1;
      }
    }
  }

  lemma NonBlankAtLineFirst(idx: seq<nat>, first: string, rest: seq<string>)
    requires NonBlankAt(idx, rest) && !Blank(first)
    ensures NonBlankAt([0] + Shifted(idx), [first] + rest)
  {
    var lines := [first] + rest;
    var up := Shifted(idx);
    var all := [0] + up;
    ShiftedHolds(idx);
    forall j | 0 < j < |lines|
      ensures !Blank(lines[j]) <==> j in all
    {
      assert lines[j] == rest[j - 1];
      assert j - 1 in idx <==> j in up;
    }
  }

  /** NonBlank keeps exactly the lines that are not blank, in their order. */
  lemma {:induction false} NonBlankSelects(lines: seq<string>)
    ensures exists idx :: Selects(idx, NonBlank(lines), lines)
  {
    if lines == [] {
      assert Selects([], NonBlank(lines), lines);
    } else {
      var rest := lines[1..];
      NonBlankSelects(rest);
      var sub :| Selects(sub, NonBlank(rest), rest);
      NonBlankStep(lines);
      assert lines == [lines[0]] + rest;
      if Blank(lines[0]) {
        SelectsBlankFirst(sub, NonBlank(rest), lines[0], rest);
        assert Selects(Shifted(sub), NonBlank(lines), lines);
      } else {
        SelectsLineFirst(sub, NonBlank(rest), lines[0], rest);
        assert Selects([0] + Shifted(sub), NonBlank(lines), lines);
      }
    }
  }

  /** A selection shows every line that is not blank. */
  lemma SelectsAll(idx: seq<nat>, r: seq<string>, lines: seq<string>)
    requires Selects(idx, r, lines)
    ensures forall i :: 0 <= i < |lines| && !Blank(lines[i]) ==> lines[i] in r
  {
    forall i | 0 <= i < |lines| && !Blank(lines[i])
      ensures lines[i] in r
    {
      var k :| 0 <= k < |idx| && idx[k] == i;
      assert r[k] == lines[i];
    }
  }

  /** Dropping blank lines keeps lines that hold no '\n' free of it. */
  lemma {:induction false} NonBlankSingleLines(lines: seq<string>)
    requires forall i :: 0 <= i < |lines| ==> Newline !in lines[i]
    ensures var r := NonBlank(lines); forall i :: 0 <= i < |r| ==> Newline !in r[i]
  {
    if lines != [] {
      var rest := lines[1..];
      assert forall i :: 0 <= i < |rest| ==> rest[i] == lines[i + 1];
      NonBlankSingleLines(rest);
      NonBlankStep(lines);
      var t := NonBlank(rest);
      if !Blank(lines[0]) {
        var r := [lines[0]] + t;
        forall i | 0 <= i < |r|
          ensures Newline !in r[i]
        {
          if i > 0 {
            assert r[i] == t[i - 1];
          }
        }
      }
    }
  }

  /**
   * At most five lines are shown, each a single non-blank line. Of the last
   * five lines of the stripped log (all of them, if fewer), every line that
   * is not blank is shown, in the log's order, and nothing else is; when
   * none of them is blank, exactly those lines are shown.
   */
  lemma TailShowsLastLines(logs: string)
    ensures var r := Tail(logs);
      var last := LastLines(Split(Strip(logs)));
      && |r| <= Shown
      && (forall i :: 0 <= i < |r| ==> !Blank(r[i]) && Newline !in r[i])
      && (logs != [] ==> exists idx :: Selects(idx, r, last))
      && (logs != [] ==> forall i :: 0 <= i < |last| && !Blank(last[i]) ==> last[i] in r)
      && (logs != [] && (forall i :: 0 <= i < |last| ==> !Blank(last[i])) ==> r == last)
  {
    if logs != [] {
      var lines := Split(Strip(logs));
      var last := LastLines(lines);
      var r := NonBlank(last);
      assert last == lines[|lines| - |last|..];
      NonBlankKeeps(last);
      NonBlankSingleLines(last);
      NonBlankSelects(last);
      assert Tail(logs) == r;
      var idx :| Selects(idx, r, last);
      SelectsAll(idx, r, last);
      assert Selects(idx, Tail(logs), LastLines(Split(Strip(logs))));
    }
  }

  /** A log that is empty or all whitespace shows nothing. */
  lemma BlankLogShowsNothing(logs: string)
    requires Blank(logs)
    ensures Tail(logs) == []
  {
    if logs != [] {
      StripIsTrim(logs);
      var r := Strip(logs);
      assert Split(r) == [[]];
    }
  }
}

/**
 The line diff of the drift page: a dynamic-programming table of LCS lengths over suffixes,
 then a greedy walk through it.
 */
module LineDiff {

  datatype RowKind = Ctx | Add | Del
  datatype DiffRow = DiffRow(t: RowKind, text: string)

  // ---------------------------------------------------------------------------------------
  // Texts and lines
  // ---------------------------------------------------------------------------------------

  /** Drops one newline at the very end of the text, if there is one. */
  function StripFinalNewline(s: string): string {
    if s != [] && s[|s| - 1] == '\n' then s[..|s| - 1] else s
  }

  /** JavaScript's split on "\n": one more piece than there are newlines. */
  function SplitLines(s: string): (lines: seq<string>)
    ensures lines != []
  {
    if s == [] then [""]
    else if s[0] == '\n' then [""] + SplitLines(s[1..])
    else var rest := SplitLines(s[1..]); [[s[0]] + rest[0]] + rest[1..]
  }

  function JoinLines(lines: seq<string>): string
    requires lines != []
  {
    if |lines| == 1 then lines[0] else lines[0] + "\n" + JoinLines(lines[1..])
  }

  function Lines(text: string): seq<string> {
    SplitLines(StripFinalNewline(text))
  }

  /** No line holds a newline, and the lines put back together are the text they came from. */
  lemma {:induction false} SplitIsExact(s: string)
    ensures JoinLines(SplitLines(s)) == s
    ensures forall line :: line in SplitLines(s) ==> '\n' !in line
  {
    if s != [] {
      SplitIsExact(s[1..]);
      var rest := SplitLines(s[1..]);
      assert s == [s[0]] + s[1..];
      if s[0] == '\n' {
        NewLineFirst(rest);
      } else {
        LongerFirst(s[0], rest);
      }
    }
  }

  lemma NewLineFirst(rest: seq<string>)
    requires rest != []
    ensures JoinLines([""] + rest) == "\n" + JoinLines(rest)
  {
  }

  lemma LongerFirst(c: char, rest: seq<string>)
    requires rest != [] && c != '\n' && forall line :: line in rest ==> '\n' !in line
    ensures JoinLines([[c] + rest[0]] + rest[1..]) == [c] + JoinLines(rest)
    ensures forall line :: line in [[c] + rest[0]] + rest[1..] ==> '\n' !in line
  {
    hide JoinLines;
    var r := [[c] + rest[0]] + rest[1..];
    assert r[0] == [c] + rest[0] && r[1..] == rest[1..];
    JoinStep(rest);
    JoinStep(r);
    if |rest| > 1 {
      var tail := "\n" + JoinLines(rest[1..]);
      assert [c] + rest[0] + tail == [c] + (rest[0] + tail);
    }
  }

  lemma JoinStep(lines: seq<string>)
    requires lines != []
    ensures |lines| == 1 ==> JoinLines(lines) == lines[0]
    ensures |lines| > 1 ==> JoinLines(lines) == lines[0] + ("\n" + JoinLines(lines[1..]))
  {
  }

  ghost predicate AreLines(lines: seq<string>) {
    lines != [] && forall line :: line in lines ==> '\n' !in line
  }

  /** The lines spell the text; a newline at its very end, if there is one, is left out. */
  ghost predicate Spells(lines: seq<string>, text: string) {
    AreLines(lines) &&
    if text != "" && text[|text| - 1] == '\n' then JoinLines(lines) + "\n" == text else JoinLines(lines) == text
  }

  /** Lines are determined by the text they join to. */
  lemma {:induction false} JoinedOnce(lines: seq<string>)
    requires AreLines(lines)
    ensures SplitLines(JoinLines(lines)) == lines
  {
    if |lines| == 1 {
      WithoutNewline(lines[0]);
      assert lines == [lines[0]];
    } else {
      JoinedOnce(lines[1..]);
      LineFirst(lines[0], JoinLines(lines[1..]));
      assert lines == [lines[0]] + lines[1..];
    }
  }

  lemma {:induction false} WithoutNewline(line: string)
    requires '\n' !in line
    ensures SplitLines(line) == [line]
  {
    if line != [] {
      assert line[0] in line;
      WithoutNewline(line[1..]);
      assert line == [line[0]] + line[1..];
    }
  }

  lemma {:induction false} LineFirst(line: string, rest: string)
    requires '\n' !in line
    ensures SplitLines(line + "\n" + rest) == [line] + SplitLines(rest)
  {
    var s := line + "\n" + rest;
    if line == [] {
      assert s[1..] == rest;
    } else {
      assert line[0] in line && s[1..] == line[1..] + "\n" + rest && s[0] == line[0];
      LineFirst(line[1..], rest);
      assert line == [line[0]] + line[1..];
    }
  }

  /** The lines the diff works on are the only ones that spell the text. */
  lemma SpellsIff(lines: seq<string>, text: string)
    ensures Spells(lines, text) <==> lines == Lines(text)
  {
    var kept := StripFinalNewline(text);
    SplitIsExact(kept);
    if text != "" && text[|text| - 1] == '\n' {
      assert kept + "\n" == text;
      if Spells(lines, text) {
        assert (JoinLines(lines) + "\n")[..|text| - 1] == JoinLines(lines);
        JoinedOnce(lines);
      }
    } else if Spells(lines, text) {
      JoinedOnce(lines);
    }
  }

  // ---------------------------------------------------------------------------------------
  // Edit scripts and common subsequences
  // ---------------------------------------------------------------------------------------

  /** The lines a script keeps or deletes: the text it starts from. */
  function OldSide(rows: seq<DiffRow>): seq<string> {
    if rows == [] then []
    else if rows[0].t == Add then OldSide(rows[1..])
    else [rows[0].text] + OldSide(rows[1..])
  }

  /** The lines a script keeps or adds: the text it ends with. */
  function NewSide(rows: seq<DiffRow>): seq<string> {
    if rows == [] then []
    else if rows[0].t == Del then NewSide(rows[1..])
    else [rows[0].text] + NewSide(rows[1..])
  }

  function Kept(rows: seq<DiffRow>): seq<string> {
    if rows == [] then []
    else if rows[0].t == Ctx then [rows[0].text] + Kept(rows[1..])
    else Kept(rows[1..])
  }

  ghost predicate Transforms(rows: seq<DiffRow>, a: seq<string>, b: seq<string>) {
    OldSide(rows) == a && NewSide(rows) == b
  }

  /** c can be obtained from s by deleting elements. */
  ghost predicate IsSubsequence(c: seq<string>, s: seq<string>) {
    if c == [] then true
    else if s == [] then false
    else (c[0] == s[0] && IsSubsequence(c[1..], s[1..])) || IsSubsequence(c, s[1..])
  }

  ghost predicate IsCommonSubsequence(c: seq<string>, a: seq<string>, b: seq<string>) {
    IsSubsequence(c, a) && IsSubsequence(c, b)
  }

  lemma {:induction false} DropHeads(c: seq<string>, s: seq<string>)
    requires c != [] && IsSubsequence(c, s)
    ensures s != [] && IsSubsequence(c[1..], s[1..])
  {
    if !(c[0] == s[0] && IsSubsequence(c[1..], s[1..])) {
      DropHeads(c, s[1..]);
      assert IsSubsequence(c[1..], s[1..]);
    }
  }

  lemma {:induction false} WidenSubsequence(c: seq<string>, x: string, s: seq<string>)
    requires IsSubsequence(c, s)
    ensures IsSubsequence(c, [x] + s)
  {
  }

  // ---------------------------------------------------------------------------------------
  // The recurrence the table is filled by
  // ---------------------------------------------------------------------------------------

  function Max(x: int, y: int): int { if x >= y then x else y }

  /** The table entry for two suffixes. */
  function LcsLength(a: seq<string>, b: seq<string>): nat
    decreases |a| + |b|
  {
    if a == [] || b == [] then 0
    else if a[0] == b[0] then LcsLength(a[1..], b[1..]) + 1
    else Max(LcsLength(a[1..], b), LcsLength(a, b[1..]))
  }

  /** The recurrence bounds every common subsequence. */
  lemma {:induction false} LcsIsUpperBound(c: seq<string>, a: seq<string>, b: seq<string>)
    requires IsCommonSubsequence(c, a, b)
    ensures |c| <= LcsLength(a, b)
    decreases |a| + |b|
  {
    if c != [] {
      if a[0] == b[0] {
        DropHeads(c, a);
        DropHeads(c, b);
        LcsIsUpperBound(c[1..], a[1..], b[1..]);
      } else if c[0] != a[0] {
        LcsIsUpperBound(c, a[1..], b);
      } else {
        LcsIsUpperBound(c, a, b[1..]);
      }
    }
  }

  /** The walk, as a function of the two line lists: on a tie it deletes first. */
  function Script(a: seq<string>, b: seq<string>): seq<DiffRow>
    decreases |a| + |b|
  {
    if a == [] && b == [] then []
    else if b == [] then [DiffRow(Del, a[0])] + Script(a[1..], b)
    else if a == [] then [DiffRow(Add, b[0])] + Script(a, b[1..])
    else if a[0] == b[0] then [DiffRow(Ctx, a[0])] + Script(a[1..], b[1..])
    else if LcsLength(a[1..], b) >= LcsLength(a, b[1..]) then [DiffRow(Del, a[0])] + Script(a[1..], b)
    else [DiffRow(Add, b[0])] + Script(a, b[1..])
  }

  /** The walk turns the first list into the second and keeps exactly as many lines as the table promises. */
  lemma {:induction false} ScriptIsExact(a: seq<string>, b: seq<string>)
    ensures Transforms(Script(a, b), a, b)
    ensures |Kept(Script(a, b))| == LcsLength(a, b)
    decreases |a| + |b|
  {
    var s := Script(a, b);
    if a == [] && b == [] {
    } else if b == [] || (a != [] && a[0] != b[0] && LcsLength(a[1..], b) >= LcsLength(a, b[1..])) {
      ScriptIsExact(a[1..], b);
      assert s[1..] == Script(a[1..], b);
    } else if a == [] || a[0] != b[0] {
      ScriptIsExact(a, b[1..]);
      assert s[1..] == Script(a, b[1..]);
    } else {
      ScriptIsExact(a[1..], b[1..]);
      assert s[1..] == Script(a[1..], b[1..]);
    }
  }

  /** What any script keeps is a common subsequence, and its length is fixed by how much it keeps. */
  lemma {:induction false} KeptIsCommon(rows: seq<DiffRow>)
    ensures IsCommonSubsequence(Kept(rows), OldSide(rows), NewSide(rows))
    ensures |rows| == |OldSide(rows)| + |NewSide(rows)| - |Kept(rows)|
  {
    if rows != [] {
      KeptIsCommon(rows[1..]);
      var k, o, n := Kept(rows[1..]), OldSide(rows[1..]), NewSide(rows[1..]);
      var x := rows[0].text;
      match rows[0].t {
        case Ctx =>
          assert ([x] + k)[1..] == k && ([x] + o)[1..] == o && ([x] + n)[1..] == n;
        case Del => WidenSubsequence(k, x, o);
        case Add => WidenSubsequence(k, x, n);
      }
    }
  }

  /** The script is right, it keeps a longest common subsequence, and no correct script is shorter. */
  lemma ScriptIsOptimal(a: seq<string>, b: seq<string>)
    ensures Transforms(Script(a, b), a, b)
    ensures IsCommonSubsequence(Kept(Script(a, b)), a, b)
    ensures forall c :: IsCommonSubsequence(c, a, b) ==> |c| <= |Kept(Script(a, b))|
    ensures forall rows :: Transforms(rows, a, b) ==> |Script(a, b)| <= |rows|
  {
    ScriptIsExact(a, b);
    KeptIsCommon(Script(a, b));
    forall c | IsCommonSubsequence(c, a, b)
      ensures |c| <= |Kept(Script(a, b))|
    {
      LcsIsUpperBound(c, a, b);
    }
    forall rows | Transforms(rows, a, b)
      ensures |Script(a, b)| <= |rows|
    {
      KeptIsCommon(rows);
      LcsIsUpperBound(Kept(rows), a, b);
    }
  }

  /** Between two kept lines the deleted ones come before the added ones. */
  ghost predicate DeletesFirst(rows: seq<DiffRow>) {
    forall k :: 0 < k < |rows| ==> !(rows[k - 1].t == Add && rows[k].t == Del)
  }

  lemma {:induction false} LcsGrows(x: string, a: seq<string>, b: seq<string>)
    ensures LcsLength(a, b) <= LcsLength([x] + a, b)
    decreases |a| + |b|, 1
  {
    assert ([x] + a)[1..] == a;
    if b != [] && x == b[0] {
      LcsStep(a, b);
    }
  }

  /** One line more adds at most one to the length. */
  lemma {:induction false} LcsStep(a: seq<string>, b: seq<string>)
    requires b != []
    ensures LcsLength(a, b) <= LcsLength(a, b[1..]) + 1
    decreases |a| + |b|, 0
  {
    if a != [] && a[0] != b[0] {
      LcsStep(a[1..], b);
      LcsGrows(a[0], a[1..], b[1..]);
      assert a == [a[0]] + a[1..];
    } else if a != [] {
      LcsGrows(a[0], a[1..], b[1..]);
      assert a == [a[0]] + a[1..];
    }
  }

  lemma {:induction false} LcsIsSymmetric(a: seq<string>, b: seq<string>)
    ensures LcsLength(a, b) == LcsLength(b, a)
    decreases |a| + |b|
  {
    if a != [] && b != [] {
      LcsIsSymmetric(a[1..], b[1..]);
      LcsIsSymmetric(a[1..], b);
      LcsIsSymmetric(a, b[1..]);
    }
  }

  lemma {:induction false} ScriptDeletesFirst(a: seq<string>, b: seq<string>)
    ensures DeletesFirst(Script(a, b))
    decreases |a| + |b|
  {
    var s := Script(a, b);
    if a == [] && b == [] {
    } else if b == [] || (a != [] && a[0] != b[0] && LcsLength(a[1..], b) >= LcsLength(a, b[1..])) {
      ScriptDeletesFirst(a[1..], b);
      DeletesFirstAfter(DiffRow(Del, a[0]), Script(a[1..], b));
    } else if a == [] || a[0] != b[0] {
      ScriptDeletesFirst(a, b[1..]);
      DeletesFirstAfter(DiffRow(Add, b[0]), Script(a, b[1..]));
      if a != [] && b[1..] != [] {
        LcsIsSymmetric(a[1..], b);
        LcsIsSymmetric(a[1..], b[1..]);
        LcsGrows(b[0], b[1..], a[1..]);
        assert b == [b[0]] + b[1..];
      }
    } else {
      ScriptDeletesFirst(a[1..], b[1..]);
      DeletesFirstAfter(DiffRow(Ctx, a[0]), Script(a[1..], b[1..]));
    }
  }

  lemma DeletesFirstAfter(row: DiffRow, rest: seq<DiffRow>)
    requires DeletesFirst(rest)
    ensures row.t != Add || rest == [] || rest[0].t != Del ==> DeletesFirst([row] + rest)
  {
  }

  // ---------------------------------------------------------------------------------------
  // The algorithm
  // ---------------------------------------------------------------------------------------

  /** Every entry is the LCS length of the two suffixes it stands for. */
  ghost predicate IsLcsTable(dp: array2<int>, a: seq<string>, b: seq<string>)
    reads dp
  {
    && dp.Length0 == |a| + 1 && dp.Length1 == |b| + 1
    && forall i, j :: 0 <= i <= |a| && 0 <= j <= |b| ==> dp[i, j] == LcsLength(a[i..], b[j..])
  }

  /** Fills the table from the bottom right corner. */
  method FillTable(a: seq<string>, b: seq<string>) returns (dp: array2<int>)
    ensures fresh(dp) && IsLcsTable(dp, a, b)
  {
    var n, m := |a|, |b|;
    dp := new int[n + 1, m + 1]((i, j) => 0);
    for i := n downto 0
      invariant forall x, y :: 0 <= x <= n && 0 <= y <= m ==>
        dp[x, y] == if x >= i then LcsLength(a[x..], b[y..]) else 0
    {
      for j := m downto 0
        invariant forall x, y :: 0 <= x <= n && 0 <= y <= m ==>
          dp[x, y] == if x > i || (x == i && y >= j) then LcsLength(a[x..], b[y..]) else 0
      {
        assert a[i..][1..] == a[i + 1..] && b[j..][1..] == b[j + 1..];
        dp[i, j] := if a[i] == b[j] then dp[i + 1, j + 1] + 1 else Max(dp[i + 1, j], dp[i, j + 1]);
      }
    }
  }

  /** The script still to be pushed when the walk stands at (i, j), and its first row. */
  lemma Unfold(a: seq<string>, b: seq<string>, i: nat, j: nat)
    requires i <= |a| && j <= |b|
    ensures i == |a| && j == |b| ==> Script(a[i..], b[j..]) == []
    ensures i < |a| && j < |b| && a[i] == b[j] ==>
      Script(a[i..], b[j..]) == [DiffRow(Ctx, a[i])] + Script(a[i + 1..], b[j + 1..])
    ensures i < |a| && (j < |b| ==> a[i] != b[j] && LcsLength(a[i + 1..], b[j..]) >= LcsLength(a[i..], b[j + 1..])) ==>
      Script(a[i..], b[j..]) == [DiffRow(Del, a[i])] + Script(a[i + 1..], b[j..])
    ensures j < |b| && (i < |a| ==> a[i] != b[j] && LcsLength(a[i + 1..], b[j..]) < LcsLength(a[i..], b[j + 1..])) ==>
      Script(a[i..], b[j..]) == [DiffRow(Add, b[j])] + Script(a[i..], b[j + 1..])
  {
  }

  /** Pushing the next row of a script leaves the rest of it to push. */
  lemma PushRow(out: seq<DiffRow>, row: DiffRow, rest: seq<DiffRow>)
    ensures out + ([row] + rest) == (out + [row]) + rest
  {
  }

  /** The greedy walk through a filled table. */
  method WalkTable(a: seq<string>, b: seq<string>, dp: array2<int>) returns (out: seq<DiffRow>)
    requires IsLcsTable(dp, a, b)
    ensures out == Script(a, b)
  {
    var n, m := |a|, |b|;
    ghost var whole := Script(a, b);
    out := [];
    var i, j := 0, 0;
    assert a[0..] == a && b[0..] == b;
    while i < n && j < m
      invariant 0 <= i <= n && 0 <= j <= m
      invariant out + Script(a[i..], b[j..]) == whole
      decreases n - i + m - j
    {
      Unfold(a, b, i, j);
      if a[i] == b[j] {
        PushRow(out, DiffRow(Ctx, a[i]), Script(a[i + 1..], b[j + 1..]));
        out := out + [DiffRow(Ctx, a[i])];
        i, j := i + 1, j + 1;
      } else if dp[i + 1, j] >= dp[i, j + 1] {
        PushRow(out, DiffRow(Del, a[i]), Script(a[i + 1..], b[j..]));
        out := out + [DiffRow(Del, a[i])];
        i := i + 1;
      } else {
        PushRow(out, DiffRow(Add, b[j]), Script(a[i..], b[j + 1..]));
        out := out + [DiffRow(Add, b[j])];
        j := j + 1;
      }
    }
    while i < n
      invariant 0 <= i <= n && 0 <= j <= m && (i < n ==> j == m)
      invariant out + Script(a[i..], b[j..]) == whole
    {
      Unfold(a, b, i, j);
      PushRow(out, DiffRow(Del, a[i]), Script(a[i + 1..], b[j..]));
      out := out + [DiffRow(Del, a[i])];
      i := i + 1;
    }
    while j < m
      invariant i == n && 0 <= j <= m
      invariant out + Script(a[i..], b[j..]) == whole
    {
      Unfold(a, b, i, j);
      PushRow(out, DiffRow(Add, b[j]), Script(a[i..], b[j + 1..]));
      out := out + [DiffRow(Add, b[j])];
      j := j + 1;
    }
    Unfold(a, b, i, j);
  }

  /**
   The diff of two texts: its sides spell them, it keeps a longest common subsequence of their
   lines, no other script between them is shorter, and deletions come before additions.
   */
  method LineDiff(aStr: string, bStr: string) returns (out: seq<DiffRow>)
    ensures Spells(OldSide(out), aStr) && Spells(NewSide(out), bStr)
    ensures forall c, a, b :: Spells(a, aStr) && Spells(b, bStr) && IsCommonSubsequence(c, a, b) ==> |c| <= |Kept(out)|
    ensures forall rows :: Spells(OldSide(rows), aStr) && Spells(NewSide(rows), bStr) ==> |out| <= |rows|
    ensures DeletesFirst(out)
  {
    var a, b := Lines(aStr), Lines(bStr);
    var dp := FillTable(a, b);
    out := WalkTable(a, b, dp);
    ScriptIsOptimal(a, b);
    ScriptDeletesFirst(a, b);
    forall lines
      ensures Spells(lines, aStr) <==> lines == a
      ensures Spells(lines, bStr) <==> lines == b
    {
      SpellsIff(lines, aStr);
      SpellsIff(lines, bStr);
    }
  }
}

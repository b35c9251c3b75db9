/** The unified-diff line classifier of the diff viewer
    (frontend/app/components/DiffViewer.tsx, `parseDiff`): each line of the diff
    becomes a hunk header, an added line, a removed line or a context line, and added
    and plain context lines are numbered by a running counter. */
module DiffViewer {
  import opened Wrappers
  import Text

  datatype LineKind = Add | Remove | Context | Hunk

  /** `{ type, content, lineNumber? }`. */
  datatype DiffLine = DiffLine(kind: LineKind, content: string, lineNumber: Option<nat>)

  predicate IsHunk(line: string) { Text.StartsWith(line, "@@") }
  predicate IsAdd(line: string) { Text.StartsWith(line, "+") && !Text.StartsWith(line, "+++") }
  predicate IsRemove(line: string) { Text.StartsWith(line, "-") && !Text.StartsWith(line, "---") }
  predicate IsNoNewlineMarker(line: string) { Text.StartsWith(line, "\\") }

  /** The lines that move the counter on: added lines and plain context lines, which
      include the "+++" and "---" file headers. */
  predicate Advances(line: string) {
    !IsHunk(line) && !IsRemove(line) && !IsNoNewlineMarker(line)
  }

  /** The entry for one line when the counter stands at `lineNum`. */
  function ClassifyLine(line: string, lineNum: nat): (r: DiffLine)
    ensures r.kind == Hunk <==> IsHunk(line)
    ensures r.kind == Add <==> !IsHunk(line) && IsAdd(line)
    ensures r.kind == Remove <==> !IsHunk(line) && IsRemove(line)
    ensures Advances(line) <==> r.lineNumber == Some(lineNum + 1)
    ensures r.kind == Remove <==> r.lineNumber == Some(lineNum)
    ensures r.lineNumber == None <==> IsHunk(line) || (!IsRemove(line) && IsNoNewlineMarker(line))
    ensures r.content == line || (|line| > 0 && r.content == line[1..])
    ensures r.kind in {Add, Remove} ==> r.content == line[1..]
    ensures r.kind == Context && r.lineNumber.Some? ==>
      r.content == if Text.StartsWith(line, " ") then line[1..] else line
    ensures r.kind == Hunk || r.lineNumber.None? ==> r.content == line
  {
    if IsHunk(line) then DiffLine(Hunk, line, None)
    else if IsAdd(line) then DiffLine(Add, line[1..], Some(lineNum + 1))
    else if IsRemove(line) then DiffLine(Remove, line[1..], Some(lineNum))
    else if IsNoNewlineMarker(line) then DiffLine(Context, line, None)
    else DiffLine(Context, if Text.StartsWith(line, " ") then line[1..] else line, Some(lineNum + 1))
  }

  /** How far the counter has moved after `lines`. */
  function Count(lines: seq<string>): nat {
    if |lines| == 0 then 0
    else Count(lines[..|lines| - 1]) + (if Advances(lines[|lines| - 1]) then 1 else 0)
  }

  /** The entries of `lines`: each line classified with the counter the lines before it
      left behind. */
  function Entries(lines: seq<string>): (r: seq<DiffLine>)
    ensures |r| == |lines|
  {
    seq(|lines|, i requires 0 <= i < |lines| => ClassifyLine(lines[i], Count(lines[..i])))
  }

  /** `parseDiff(diffText)`: one entry per "\n"-separated line, in order. */
  method ParseDiff(diffText: string) returns (parsed: seq<DiffLine>)
    ensures parsed == Entries(Text.Split(diffText, '\n'))
  {
    var lines := Text.Split(diffText, '\n');
    parsed := [];
    var lineNum: nat := 0;
    for i := 0 to |lines|
      invariant parsed == Entries(lines[..i])
      invariant lineNum == Count(lines[..i])
    {
      var line := lines[i];
      var entry: DiffLine;
      ghost var before := lineNum;
      if Text.StartsWith(line, "@@") {
        entry := DiffLine(Hunk, line, None);
      } else if Text.StartsWith(line, "+") && !Text.StartsWith(line, "+++") {
        lineNum := lineNum + 1;
        entry := DiffLine(Add, line[1..], Some(lineNum));
      } else if Text.StartsWith(line, "-") && !Text.StartsWith(line, "---") {
        entry := DiffLine(Remove, line[1..], Some(lineNum));
      } else if Text.StartsWith(line, "\\") {
        entry := DiffLine(Context, line, None);
      } else {
        lineNum := lineNum + 1;
        entry := DiffLine(Context, if Text.StartsWith(line, " ") then line[1..] else line, Some(lineNum));
      }
      assert entry == ClassifyLine(line, before);
      assert lineNum == before + (if Advances(line) then 1 else 0);
      assert lines[..i + 1] == lines[..i] + [line];
      EntriesSnoc(lines[..i], line);
      parsed := parsed + [entry];
    }
    assert lines[..|lines|] == lines;
  }

  /** The numbers carried by the counter-moving entries, in order. */
  function AdvancingNumbers(entries: seq<DiffLine>): seq<nat> {
    if |entries| == 0 then []
    else
      var last := entries[|entries| - 1];
      AdvancingNumbers(entries[..|entries| - 1])
      + (if last.lineNumber.Some? && last.kind != Remove then [last.lineNumber.value] else [])
  }

  /** `[1, 2, ..., n]`. */
  function Range(n: nat): (r: seq<nat>)
    ensures |r| == n
    ensures forall i :: 0 <= i < n ==> r[i] == i + 1
  {
    if n == 0 then [] else Range(n - 1) + [n]
  }

  lemma {:induction false} EntriesSnoc(lines: seq<string>, line: string)
    ensures Entries(lines + [line]) == Entries(lines) + [ClassifyLine(line, Count(lines))]
  {
    var all := lines + [line];
    assert all[..|lines|] == lines;
    forall i | 0 <= i < |lines| ensures Entries(all)[i] == Entries(lines)[i] {
      assert all[..i] == lines[..i];
    }
  }

  /** The added and plain context lines are numbered 1, 2, 3, ... in order, with no gap
      and no repeat, up to the number of such lines. */
  lemma {:induction false} NumbersAreConsecutive(lines: seq<string>)
    ensures AdvancingNumbers(Entries(lines)) == Range(Count(lines))
  {
    if |lines| > 0 {
      var init := lines[..|lines| - 1];
      var last := lines[|lines| - 1];
      assert init + [last] == lines;
      EntriesSnoc(init, last);
      NumbersAreConsecutive(init);
      assert Entries(lines)[..|lines| - 1] == Entries(init);
      var e := ClassifyLine(last, Count(init));
      assert Entries(lines)[|lines| - 1] == e;
    }
  }

  /** A removed line carries the number of the last added or context line before it
      (0 when there is none), so it never takes a number of its own. */
  lemma RemoveCarriesPreviousNumber(lines: seq<string>, i: nat)
    requires i < |lines| && Entries(lines)[i].kind == Remove
    ensures Entries(lines)[i].lineNumber == Some(Count(lines[..i]))
    ensures !Advances(lines[i]) && Count(lines[..i + 1]) == Count(lines[..i])
  {
    assert lines[..i + 1][..i] == lines[..i];
  }
}

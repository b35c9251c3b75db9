/** The deterministic parts of the generative-model client (backend/gemini.py):
    extracting the JSON text from a fenced reply (`clear_json_response`), choosing the
    failing test to put in the patch prompt, and defaulting the `risks` of a parsed
    patch reply. */
module Gemini {
  import opened Wrappers
  import Text
  import opened Js

  const Fence: string := "```"

  /** The characters Python's `str.isspace` accepts, which `str.strip()` removes. */
  predicate PyIsSpace(c: char) {
    var k := c as int;
    (9 <= k <= 13) || (0x1C <= k <= 0x20) || k == 0x85 || k == 0xA0 || k == 0x1680
    || (0x2000 <= k <= 0x200A) || k == 0x2028 || k == 0x2029 || k == 0x202F || k == 0x205F
    || k == 0x3000
  }

  /** `s.strip()`. */
  function PyStrip(s: string): (r: string)
    ensures |r| > 0 ==> !PyIsSpace(r[0]) && !PyIsSpace(r[|r| - 1])
    ensures (forall i :: 0 <= i < |s| ==> PyIsSpace(s[i])) ==> r == ""
  {
    Text.Trim(s, PyIsSpace)
  }

  /** Three backticks start at index `i` of `s`. */
  predicate FenceAt(s: string, i: nat) {
    i + 3 <= |s| && s[i] == '`' && s[i + 1] == '`' && s[i + 2] == '`'
  }

  predicate NoFence(s: string) {
    forall i: nat :: i < |s| ==> !FenceAt(s, i)
  }

  /** The first index at or after `from` where a fence starts. */
  function FindFence(s: string, from: nat): (r: Option<nat>)
    decreases |s| - from
    ensures r.Some? ==> from <= r.value && FenceAt(s, r.value)
    ensures forall i: nat :: from <= i && (r.None? || i < r.value) ==> !FenceAt(s, i)
  {
    if from + 3 > |s| then None
    else if FenceAt(s, from) then Some(from)
    else FindFence(s, from + 1)
  }

  /** Group 1 of `re.search(r"```(?:json)?\n?(.*?)\n?```", text, re.DOTALL)`.
      The leftmost fence opens the match: after it an optional "json" and an optional
      newline are taken greedily, and the lazy group runs to the next fence, leaving out
      one newline right before it. When no fence follows the first one, no later start
      can match either (every later fence starts after the first one's header), so
      there is no match at all. */
  function FencedGroup(text: string): (r: Option<string>)
    ensures r.Some? ==> NoFence(r.value)
    ensures r.Some? ==> exists i: nat, j: nat :: FenceAt(text, i) && i + 3 <= j && FenceAt(text, j)
    ensures (exists i: nat, j: nat :: FenceAt(text, i) && i + 8 <= j && FenceAt(text, j)) ==> r.Some?
  {
    match FindFence(text, 0)
    case None => None
    case Some(p) =>
      var s2 := HeaderEnd(text, p);
      match FindFence(text, s2)
      case None => None
      case Some(q) =>
        var end := if q > s2 && text[q - 1] == '\n' then q - 1 else q;
        SliceWithoutFence(text, s2, end);
        Some(text[s2..end])
  }

  /** A slice in which no fence of `text` starts and ends has no fence. */
  lemma SliceWithoutFence(text: string, a: nat, b: nat)
    requires a <= b <= |text|
    requires forall i: nat :: a <= i && i + 3 <= b ==> !FenceAt(text, i)
    ensures NoFence(text[a..b])
  {
    var g := text[a..b];
    forall i: nat | i < |g| ensures !FenceAt(g, i) {
      if i + 3 <= |g| {
        assert !FenceAt(text, a + i);
        assert g[i] == text[a + i] && g[i + 1] == text[a + i + 1] && g[i + 2] == text[a + i + 2];
      }
    }
  }

  /** The index after the fence at `p`, the optional "json" and the optional newline
      that follow it. */
  function HeaderEnd(text: string, p: nat): (r: nat)
    requires p + 3 <= |text|
    ensures p + 3 <= r <= p + 8 && r <= |text|
  {
    var s1 := if Text.StartsWith(text[p + 3..], "json") then p + 7 else p + 3;
    if s1 < |text| && text[s1] == '\n' then s1 + 1 else s1
  }

  /** `clear_json_response(text)`: the fenced block's content stripped, or the whole
      reply stripped when there is no fenced block. The result never starts or ends
      with white space. */
  function ClearJsonResponse(text: string): (r: string)
    ensures NoFence(text) ==> r == PyStrip(text)
    ensures |r| > 0 ==> !PyIsSpace(r[0]) && !PyIsSpace(r[|r| - 1])
  {
    match FencedGroup(text)
    case Some(g) => PyStrip(g)
    case None => PyStrip(text)
  }

  /** The four ways the pattern lets a block open: the fence, then "json" or nothing,
      then a newline or nothing. */
  predicate Opening(open: string) {
    open == "```json\n" || open == "```\n" || open == "```json" || open == "```"
  }

  /** The two ways the pattern lets a block close: a newline and the fence, or the
      fence alone. */
  predicate Closing(close: string) {
    close == "\n```" || close == "```"
  }

  /** What follows an opening is not read as part of it: after a bare fence it does not
      start with "json" or a newline, and after "```json" it does not start with a
      newline. */
  predicate HeaderFits(open: string, rest: string) {
    && (open == "```" ==> !Text.StartsWith(rest, "json") && !Text.StartsWith(rest, "\n"))
    && (open == "```json" ==> !Text.StartsWith(rest, "\n"))
  }

  /** A reply made of text without fences (and not ending in a backtick), a block, and
      anything after it: the group is exactly the block's content, and the result is
      that content stripped. The block opens with any of the four openings and closes
      with either closing; its content has no fence, is not read as part of the
      opening, and before a bare closing fence does not end in a backtick or a
      newline. */
  lemma BlockExtracted(pre: string, open: string, body: string, close: string, post: string)
    requires NoFence(pre) && !Text.EndsWith(pre, "`")
    requires Opening(open) && Closing(close) && NoFence(body)
    requires HeaderFits(open, body + close)
    requires close == "```" ==> !Text.EndsWith(body, "`") && !Text.EndsWith(body, "\n")
    ensures FencedGroup(pre + open + body + close + post) == Some(body)
    ensures ClearJsonResponse(pre + open + body + close + post) == PyStrip(body)
  {
    var tail := body + close + post;
    var text := pre + open + tail;
    assert pre + open + body + close + post == text;
    var p := |pre|;
    if p > 0 {
      assert pre[|pre| - 1..] == [pre[p - 1]];
    }
    FitsBeforeTail(open, body, close, post);
    OpeningEnd(pre, open, tail);
    var s2 := p + |open|;
    assert text[s2..] == tail;
    ClosingAt(text, s2, body, close, post);
    GroupIsContent(text, p, s2, body, close, post);
  }

  /** Once the leftmost fence, its header and the closing fence are known, the group is
      the block's content. */
  lemma GroupIsContent(text: string, p: nat, s2: nat, body: string, close: string, post: string)
    requires FindFence(text, 0) == Some(p) && p + 3 <= |text| && HeaderEnd(text, p) == s2
    requires s2 <= |text| && text[s2..] == body + close + post && Closing(close)
    requires close == "```" ==> !Text.EndsWith(body, "\n")
    requires FindFence(text, s2) == Some(s2 + |body| + |close| - 3)
    ensures FencedGroup(text) == Some(body)
  {
    ContentEnd(text, s2, body, close, post);
    var q := s2 + |body| + |close| - 3;
    var e := if q > s2 && text[q - 1] == '\n' then q - 1 else q;
    assert e == s2 + |body|;
    assert text[s2..e] == body;
    GroupFrom(text, p, s2, q);
    assert FencedGroup(text) == Some(text[s2..e]);
  }

  /** What follows the content of a block cannot change whether it fits its opening. */
  lemma FitsBeforeTail(open: string, body: string, close: string, post: string)
    requires Closing(close) && HeaderFits(open, body + close)
    ensures HeaderFits(open, body + close + post)
  {
    var block := body + close;
    var tail := block + post;
    if |block| < 4 {
      assert body == "" && close == "```";
      assert tail[0] == '`';
    } else {
      assert tail[..4] == block[..4];
    }
    assert tail[..1] == block[..1];
  }

  /** The group that ends before the closing fence of a block is the block's content. */
  lemma ContentEnd(text: string, s2: nat, body: string, close: string, post: string)
    requires s2 <= |text| && text[s2..] == body + close + post && Closing(close)
    requires close == "```" ==> !Text.EndsWith(body, "\n")
    ensures var q := s2 + |body| + |close| - 3;
      (if q > s2 && text[q - 1] == '\n' then q - 1 else q) == s2 + |body|
      && text[s2..s2 + |body|] == body
  {
    var tail := text[s2..];
    var q := s2 + |body| + |close| - 3;
    assert text[s2..s2 + |body|] == tail[..|body|] == body;
    if close == "\n```" {
      assert text[q - 1] == tail[|body|] == '\n';
    } else if |body| > 0 {
      assert body[|body| - 1..] == [body[|body| - 1]];
      assert text[q - 1] == body[|body| - 1] != '\n';
    }
  }

  /** The group, once the leftmost fence, its header and the next fence are known. */
  lemma GroupFrom(text: string, p: nat, s2: nat, q: nat)
    requires FindFence(text, 0) == Some(p) && p + 3 <= |text| && HeaderEnd(text, p) == s2
    requires FindFence(text, s2) == Some(q)
    ensures FencedGroup(text) == Some(text[s2..if q > s2 && text[q - 1] == '\n' then q - 1 else q])
  {
  }

  /** The first fence of a reply `pre + open + tail` is the opening's, and the group
      starts right after the whole opening. */
  lemma OpeningEnd(pre: string, open: string, tail: string)
    requires NoFence(pre) && (|pre| > 0 ==> pre[|pre| - 1] != '`')
    requires Opening(open) && HeaderFits(open, tail) && |tail| > 0
    ensures var text := pre + open + tail;
      FindFence(text, 0) == Some(|pre|) && HeaderEnd(text, |pre|) == |pre| + |open|
  {
    var rest := open + tail;
    var text := pre + open + tail;
    assert text == pre + rest;
    var p := |pre|;
    assert rest[0] == '`' && rest[1] == '`' && rest[2] == '`';
    LeftmostFence(pre, rest);
    var after := text[p + 3..];
    assert after == open[3..] + tail;
    assert tail[..1] == [tail[0]];
    if open == "```json\n" {
      assert after[..4] == "json";
      assert text[p + 7] == open[7] == '\n';
    } else if open == "```json" {
      assert after[..4] == "json";
      assert text[p + 7] == tail[0];
    } else if open == "```\n" {
      assert after[0] == '\n';
    } else {
      assert after == tail && text[p + 3] == tail[0];
    }
  }

  /** The first fence of `pre + rest` is the one `rest` starts with, when `pre` has no
      fence and does not end in a backtick. */
  lemma LeftmostFence(pre: string, rest: string)
    requires NoFence(pre) && (|pre| > 0 ==> pre[|pre| - 1] != '`') && FenceAt(rest, 0)
    ensures FindFence(pre + rest, 0) == Some(|pre|)
  {
    var text := pre + rest;
    var p := |pre|;
    forall i: nat | i < p ensures !FenceAt(text, i) {
      if i + 3 <= p {
        assert !FenceAt(pre, i);
      } else {
        assert text[p - 1] == pre[p - 1];
      }
    }
    FindFenceFirst(text, 0, p);
  }

  /** From the start of a block's content, the next fence is the closing one, when the
      content has no fence and, before a bare closing fence, does not end in a
      backtick. */
  lemma ClosingAt(text: string, s2: nat, body: string, close: string, post: string)
    requires s2 <= |text| && text[s2..] == body + close + post && NoFence(body) && Closing(close)
    requires close == "```" ==> !Text.EndsWith(body, "`")
    ensures FindFence(text, s2) == Some(s2 + |body| + |close| - 3)
  {
    var tail := text[s2..];
    var c := |close| - 3;
    var q := s2 + |body| + c;
    assert tail[|body| + c] == '`' && tail[|body| + c + 1] == '`' && tail[|body| + c + 2] == '`';
    assert text[q] == tail[|body| + c] && text[q + 1] == tail[|body| + c + 1] && text[q + 2] == tail[|body| + c + 2];
    forall i: nat | s2 <= i < q ensures !FenceAt(text, i) {
      if i + 3 <= s2 + |body| {
        assert !FenceAt(body, i - s2);
        assert text[i] == body[i - s2] && text[i + 1] == body[i - s2 + 1] && text[i + 2] == body[i - s2 + 2];
      } else if i + 3 <= |text| {
        if close == "\n```" {
          assert text[s2 + |body|] == tail[|body|] == '\n';
        } else {
          assert body[|body| - 1..] == [body[|body| - 1]];
          assert text[q - 1] == body[|body| - 1] != '`';
        }
      }
    }
    FindFenceFirst(text, s2, q);
  }

  /** A reply with at most one fence (an unclosed block, or none at all) has no match,
      so it is stripped whole. */
  lemma SingleFenceStripsWhole(text: string)
    requires forall i: nat, j: nat :: FenceAt(text, i) && FenceAt(text, j) ==> i == j
    ensures FencedGroup(text) == None
    ensures ClearJsonResponse(text) == PyStrip(text)
  {
  }

  /** `FindFence` returns the fence at `q` when it is the first at or after `from`. */
  lemma {:induction false} FindFenceFirst(s: string, from: nat, q: nat)
    requires from <= q && FenceAt(s, q)
    requires forall i: nat :: from <= i < q ==> !FenceAt(s, i)
    ensures FindFence(s, from) == Some(q)
    decreases q - from
  {
    if from < q {
      FindFenceFirst(s, from + 1, q);
    }
  }

  /** Python truthiness of a JSON value (`None`, `False`, `0`, "", [] and {} are falsy). */
  predicate PyTruthy(v: Json) {
    match v
    case JNull => false
    case JBool(b) => b
    case JNum(n) => n != 0
    case JStr(s) => s != ""
    case JArr(items) => items != []
    case JObj(fields) => fields != map[]
  }

  /** JavaScript and Python agree on the truthiness of every JSON value except the
      empty array and the empty object, which only JavaScript counts as true. */
  lemma TruthinessDiffersOnEmptyContainers(v: Json)
    ensures Truthy(Some(v)) != PyTruthy(v) <==> v == JArr([]) || v == JObj(map[])
  {
  }

  /** `request.failing_test or (request.run_result and request.run_result.get("playwrightSpec", "")) or ""`:
      the request's own failing test when it is non-empty, else the run result's
      `playwrightSpec` when the run result is a non-empty dict and that entry is truthy,
      else the empty string. */
  function FailingTest(failingTest: string, runResult: Option<map<string, Json>>): (r: Json)
    ensures failingTest != "" ==> r == JStr(failingTest)
    ensures (failingTest == "" && runResult.Some? && "playwrightSpec" in runResult.value
             && PyTruthy(runResult.value["playwrightSpec"]))
            ==> r == runResult.value["playwrightSpec"]
    ensures (failingTest == "" && (runResult.None? || "playwrightSpec" !in runResult.value
             || !PyTruthy(runResult.value["playwrightSpec"])))
            ==> r == JStr("")
    ensures r == JStr("") || PyTruthy(r)
  {
    if failingTest != "" then JStr(failingTest)
    else
      var fromRun :=
        match runResult
        case None => JNull
        case Some(d) => if d == map[] then JObj(d) else if "playwrightSpec" in d then d["playwrightSpec"] else JStr("");
      if PyTruthy(fromRun) then fromRun else JStr("")
  }

  /** The dict `json.loads` made of the model's patch reply; `generate_patch`
      updates it in place before building the response. */
  class ParsedReply {
    var data: map<string, Json>

    constructor (data: map<string, Json>)
      ensures this.data == data
    {
      this.data := data;
    }

    /** `if "risks" not in data: data["risks"] = []`: a missing entry becomes the empty
        list; an existing one, whatever its value, is kept; no other key changes. */
    method DefaultRisks()
      modifies this
      ensures "risks" in data
      ensures "risks" in old(data) ==> data == old(data)
      ensures "risks" !in old(data) ==> data == old(data)["risks" := JArr([])]
    {
      if "risks" !in data {
        data := data["risks" := JArr([])];
      }
    }
  }
}

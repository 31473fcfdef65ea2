/** The code extractor of the dynamic code agent: three `re.search` calls with
    lazy groups and DOTALL, tried in a fixed priority, with the whole reply as
    the last resort. */
module CodeExtraction {
  import opened Common
  import opened Text

  /** A regular expression of the shape `OPEN(?!AVOID)(.*?)CLOSE` under DOTALL. */
  datatype Pattern = Pattern(open: string, close: string, avoid: Option<string>)

  /** r"```(?!python)(.*?)```" */
  const UntaggedFence := Pattern("```", "```", Some("python"))
  /** r"```python(.*?)```" */
  const PythonFence := Pattern("```python", "```", None)
  /** r"`(.*?)`" */
  const InlineCode := Pattern("`", "`", None)

  /** The opening delimiter of `p` occurs at `i` and the lookahead allows it. */
  predicate Opens(p: Pattern, s: string, i: int) {
    IsAt(s, i, p.open) && !(p.avoid.Some? && IsAt(s, i + |p.open|, p.avoid.value))
  }

  /** The regular expression matches with its match starting at `i`: the opening
      delimiter is there and a closing delimiter follows it somewhere. */
  ghost predicate MatchesAt(p: Pattern, s: string, i: int) {
    Opens(p, s, i) && exists j :: i + |p.open| <= j && IsAt(s, j, p.close)
  }

  /** `re.search(p, s)` finds a match. */
  ghost predicate Matches(p: Pattern, s: string) {
    exists i :: MatchesAt(p, s, i)
  }

  /** A match: the opening delimiter starts at `start`, the closing one at `close`;
      `group(1)` is the text between them. */
  datatype Match = Match(start: nat, close: nat)

  function Group(p: Pattern, s: string, m: Match): string
    requires m.start + |p.open| <= m.close <= |s|
  {
    s[m.start + |p.open|..m.close]
  }

  /** The first occurrence of `t` in `s` at or after `from`. */
  function FindFrom(s: string, t: string, from: nat): (r: Option<nat>)
    decreases |s| - from
    ensures r.Some? ==> from <= r.value && IsAt(s, r.value, t)
    ensures r.Some? ==> forall j :: from <= j < r.value ==> !IsAt(s, j, t)
    ensures r.None? ==> forall j :: from <= j ==> !IsAt(s, j, t)
  {
    if from + |t| > |s| then None
    else if IsAt(s, from, t) then Some(from)
    else FindFrom(s, t, from + 1)
  }

  /** `re.search` from position `i` on: the leftmost start at which the pattern
      matches, with the lazy group ending at the first closing delimiter. */
  function SearchFrom(p: Pattern, s: string, i: nat): (r: Option<Match>)
    requires p.open != []
    decreases |s| - i
    ensures r.Some? ==> i <= r.value.start && MatchesAt(p, s, r.value.start)
    ensures r.Some? ==> forall k :: i <= k < r.value.start ==> !MatchesAt(p, s, k)
    ensures r.Some? ==> r.value.start + |p.open| <= r.value.close && IsAt(s, r.value.close, p.close)
    ensures r.Some? ==> forall j :: r.value.start + |p.open| <= j < r.value.close ==> !IsAt(s, j, p.close)
    ensures r.None? ==> forall k :: i <= k ==> !MatchesAt(p, s, k)
  {
    if i >= |s| then None
    else if Opens(p, s, i) then
      match FindFrom(s, p.close, i + |p.open|)
      case Some(j) => Some(Match(i, j))
      case None => SearchFrom(p, s, i + 1)
    else SearchFrom(p, s, i + 1)
  }

  /** `re.search(p, s, re.DOTALL)`. */
  function Search(p: Pattern, s: string): (r: Option<Match>)
    requires p.open != []
    ensures r.Some? <==> Matches(p, s)
    ensures r.Some? ==> MatchesAt(p, s, r.value.start)
                        && r.value.start + |p.open| <= r.value.close <= |s|
  {
    SearchFrom(p, s, 0)
  }

  /** Which branch of the extractor produced the code. */
  datatype Branch = FromUntaggedFence | FromPythonFence | FromInlineCode | FromWholeText

  datatype Extraction = Extraction(code: string, branch: Branch)

  /** The pattern a fence branch searches for. */
  function PatternOf(b: Branch): Pattern
    requires b != FromWholeText
  {
    match b
    case FromUntaggedFence => UntaggedFence
    case FromPythonFence => PythonFence
    case FromInlineCode => InlineCode
  }

  /** Where the code lies in the reply: `reply[lo..hi]`, and which branch found it. */
  datatype Span = Span(lo: nat, hi: nat, branch: Branch)

  /** The fence search of `agent_extract_code`: the first pattern that matches
      anywhere wins and its group is the code; a reply without any match is
      taken whole; an empty reply yields nothing. */
  function Locate(reply: string): (r: Option<Span>)
    ensures r.Some? <==> reply != ""
    ensures r.Some? ==> r.value.lo <= r.value.hi <= |reply|
    ensures r.Some? && r.value.branch != FromWholeText ==>
      var p := PatternOf(r.value.branch);
      r.value.lo >= |p.open| && Search(p, reply) == Some(Match(r.value.lo - |p.open|, r.value.hi))
    ensures r.Some? && r.value.branch == FromWholeText ==> r.value.lo == 0 && r.value.hi == |reply|
  {
    match Search(UntaggedFence, reply)
    case Some(m) => Some(Span(m.start + 3, m.close, FromUntaggedFence))
    case None =>
      match Search(PythonFence, reply)
      case Some(m) => Some(Span(m.start + 9, m.close, FromPythonFence))
      case None =>
        match Search(InlineCode, reply)
        case Some(m) => Some(Span(m.start + 1, m.close, FromInlineCode))
        case None => if reply != "" then Some(Span(0, |reply|, FromWholeText)) else None
  }

  /** `agent_extract_code` without its state: the located text, stripped. */
  function Extract(reply: string): (r: Option<Extraction>)
    ensures r.Some? <==> reply != ""
  {
    match Locate(reply)
    case Some(sp) => Some(Extraction(Strip(reply[sp.lo..sp.hi]), sp.branch))
    case None => None
  }

  /** The branches are tried in priority order: a pattern is used exactly when it
      matches somewhere and no earlier pattern does. */
  lemma ExtractPriority(reply: string)
    requires reply != ""
    ensures var b := Extract(reply).value.branch;
      && (b == FromUntaggedFence <==> Matches(UntaggedFence, reply))
      && (b == FromPythonFence <==> !Matches(UntaggedFence, reply) && Matches(PythonFence, reply))
      && (b == FromInlineCode <==> !Matches(UntaggedFence, reply) && !Matches(PythonFence, reply)
                                    && Matches(InlineCode, reply))
      && (b == FromWholeText <==> !Matches(UntaggedFence, reply) && !Matches(PythonFence, reply)
                                   && !Matches(InlineCode, reply))
  {
    assert Extract(reply).value.branch == Locate(reply).value.branch;
  }

  /** `reply[a + |p.open|..b]` is the group of the match `re.search` reports:
      `a` is the leftmost start at which `p` matches and `b` is the first
      closing delimiter after the opening one (the lazy `.*?`). */
  ghost predicate LeftmostLazyGroup(p: Pattern, reply: string, a: int, b: int) {
    && MatchesAt(p, reply, a)
    && (forall k :: 0 <= k < a ==> !MatchesAt(p, reply, k))
    && a + |p.open| <= b <= |reply| && IsAt(reply, b, p.close)
    && (forall j :: a + |p.open| <= j < b ==> !IsAt(reply, j, p.close))
  }

  /** The span a fence branch strips is the group of the match `re.search`
      reports, and that match is the leftmost one, lazily closed. */
  lemma LocateLeftmostLazy(reply: string)
    requires Locate(reply).Some? && Locate(reply).value.branch != FromWholeText
    ensures var sp := Locate(reply).value; var p := PatternOf(sp.branch);
      && Search(p, reply).Some?
      && var m := Search(p, reply).value;
      && LeftmostLazyGroup(p, reply, m.start, m.close)
      && sp.lo == m.start + |p.open| && sp.hi == m.close
  {
    var p := PatternOf(Locate(reply).value.branch);
    assert Search(p, reply) == SearchFrom(p, reply, 0);
  }

  /** Whatever branch is taken, the code is a piece of the reply with no
      whitespace at either end. */
  lemma ExtractTrimmedSubstring(reply: string)
    requires reply != ""
    ensures var code := Extract(reply).value.code;
      && IsSubstring(code, reply)
      && (code != [] ==> !IsSpace(code[0]) && !IsSpace(code[|code| - 1]))
  {
    var sp := Locate(reply).value;
    StrippedSliceIsSubstring(reply, sp.lo, sp.hi);
  }

  /** Every pattern opens with a backtick. */
  lemma OpensWithBacktick(p: Pattern, s: string, i: int)
    requires p == UntaggedFence || p == PythonFence || p == InlineCode
    requires Opens(p, s, i)
    ensures s[i] == '`'
  {
    assert s[i..i + |p.open|][0] == s[i];
  }

  /** No pattern matches a text without backticks. */
  lemma NoMatchWithoutBacktick(p: Pattern, s: string)
    requires p == UntaggedFence || p == PythonFence || p == InlineCode
    requires '`' !in s
    ensures !Matches(p, s)
  {
    forall i | Opens(p, s, i) ensures false {
      OpensWithBacktick(p, s, i);
    }
  }

  /** A non-empty reply without any backtick is taken whole, stripped. */
  lemma NoBacktickTakesWholeText(reply: string)
    requires reply != "" && '`' !in reply
    ensures Extract(reply) == Some(Extraction(Strip(reply), FromWholeText))
  {
    NoMatchWithoutBacktick(UntaggedFence, reply);
    NoMatchWithoutBacktick(PythonFence, reply);
    NoMatchWithoutBacktick(InlineCode, reply);
    assert reply[0..|reply|] == reply;
  }
}

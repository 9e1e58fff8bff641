/**
  Finding the support statement in a changelog entry (scripts/release.py:
  `_opens_comment`, `_support_lines`).
 */
module SupportLines {
  import opened Common

  const SUPPORT_PREFIX := "**Support:** "
  const WHITESPACE := {' ', '\t', '\n', '\r', '\U{000B}', '\U{000C}'}

  // --- text ---------------------------------------------------------------------------------------

  function LeftStrip(s: string): (r: string)
  {
    if s != "" && s[0] in WHITESPACE then LeftStrip(s[1..]) else s
  }

  function RightStrip(s: string): (r: string)
  {
    if s != "" && s[|s| - 1] in WHITESPACE then RightStrip(s[..|s| - 1]) else s
  }

  function Strip(s: string): (r: string)
  {
    RightStrip(LeftStrip(s))
  }

  predicate OccursAt(s: string, t: string, i: nat)
  {
    i + |t| <= |s| && s[i..i + |t|] == t
  }

  /** Where `t` last occurs in `s`, at or before `from`. */
  function LastIndex(s: string, t: string, from: nat): (r: Option<nat>)
    ensures r.Some? ==> OccursAt(s, t, r.value) && forall i :: r.value < i <= from ==> !OccursAt(s, t, i)
    ensures r.None? ==> forall i :: 0 <= i <= from ==> !OccursAt(s, t, i)
  {
    if OccursAt(s, t, from) then Some(from)
    else if from == 0 then None
    else LastIndex(s, t, from - 1)
  }

  predicate Contains(s: string, t: string)
  {
    LastIndex(s, t, |s|).Some?
  }

  /** What follows the last `t`: `rsplit(t, 1)[1]`. */
  function AfterLast(s: string, t: string): (r: string)
    requires Contains(s, t)
  {
    s[LastIndex(s, t, |s|).value + |t|..]
  }

  /** A `<!--` with no `-->` after the last one. */
  predicate OpensComment(s: string)
  {
    Contains(s, "<!--") && !Contains(AfterLast(s, "<!--"), "-->")
  }

  function Run(s: string, c: char): (n: nat)
    ensures n <= |s| && forall i :: 0 <= i < n ==> s[i] == c
  {
    if s != "" && s[0] == c then
      var n := Run(s[1..], c);
      assert forall i :: 0 < i < n + 1 ==> s[i] == s[1..][i - 1];
      n + 1
    else 0
  }

  /** Up to three spaces, then three or more backticks or tildes: the fence. */
  function OpeningFence(line: string): (r: Option<string>)
    ensures r.Some? ==> |r.value| >= 3 && (r.value[0] == '`' || r.value[0] == '~')
  {
    var spaces := Run(line, ' ');
    var rest := line[spaces..];
    if spaces > 3 || rest == "" || (rest[0] != '`' && rest[0] != '~') || Run(rest, rest[0]) < 3 then None
    else Some(rest[..Run(rest, rest[0])])
  }

  /** The opener's character only, at least as many of them. */
  predicate ClosesFence(stripped: string, fence: string)
    requires fence != ""
  {
    fence <= stripped && forall i :: 0 <= i < |stripped| ==> stripped[i] == fence[0]
  }

  predicate IsSupport(line: string)
  {
    SUPPORT_PREFIX <= Strip(line)
  }

  // --- the scan -------------------------------------------------------------------------------------

  datatype Scan = Scan(fence: Option<string>, inComment: bool, hidden: nat, outside: seq<string>)

  const Start := Scan(None, false, 0, [])

  function ScanLine(s: Scan, line: string): (r: Scan)
    requires s.fence.Some? ==> s.fence.value != ""
    ensures r.fence.Some? ==> r.fence.value != ""
  {
    var more := if IsSupport(line) then 1 else 0;
    if s.inComment then
      s.(hidden := s.hidden + more,
         inComment := if Contains(line, "-->") then OpensComment(AfterLast(line, "-->")) else true)
    else if s.fence.None? && OpeningFence(line).Some? then s.(fence := OpeningFence(line))
    else if s.fence.Some? then
      (if ClosesFence(Strip(line), s.fence.value) then s.(fence := None) else s.(hidden := s.hidden + more))
    else
      s.(outside := if IsSupport(line) then s.outside + [RightStrip(line)] else s.outside,
         inComment := OpensComment(line))
  }

  function ScanAll(lines: seq<string>): (r: Scan)
    ensures r.fence.Some? ==> r.fence.value != ""
  {
    if lines == [] then Start else ScanLine(ScanAll(lines[..|lines| - 1]), lines[|lines| - 1])
  }

  /** `_support_lines`, over the entry's lines. */
  method FindSupportLines(lines: seq<string>) returns (outside: seq<string>, hidden: nat)
    ensures outside == ScanAll(lines).outside && hidden == ScanAll(lines).hidden
  {
    outside, hidden := [], 0;
    var fence: Option<string> := None;
    var inComment := false;
    for i := 0 to |lines|
      invariant fence.Some? ==> fence.value != ""
      invariant Scan(fence, inComment, hidden, outside) == ScanAll(lines[..i])
    {
      var line := lines[i];
      assert lines[..i + 1][..i] == lines[..i];
      var stripped := Strip(line);
      if inComment {
        if SUPPORT_PREFIX <= stripped {
          hidden := hidden + 1;
        }
        if Contains(line, "-->") {
          inComment := OpensComment(AfterLast(line, "-->"));
        }
        continue;
      }
      var opener := OpeningFence(line);
      if fence.None? && opener.Some? {
        fence := opener;
        continue;
      }
      if fence.Some? {
        if ClosesFence(stripped, fence.value) {
          fence := None;
        } else if SUPPORT_PREFIX <= stripped {
          hidden := hidden + 1;
        }
        continue;
      }
      if SUPPORT_PREFIX <= stripped {
        outside := outside + [RightStrip(line)];
      }
      inComment := OpensComment(line);
    }
    assert lines[..|lines|] == lines;
  }

  function SupportCount(lines: seq<string>): (r: nat)
  {
    if lines == [] then 0 else SupportCount(lines[..|lines| - 1]) + if IsSupport(lines[|lines| - 1]) then 1 else 0
  }

  // --- no support line is lost -------------------------------------------------------------------------

  lemma {:induction false} LeftStripFrom(s: string, n: nat)
    requires n <= |s| && (forall i :: 0 <= i < n ==> s[i] in WHITESPACE) && (n < |s| ==> s[n] !in WHITESPACE)
    ensures LeftStrip(s) == s[n..]
  {
    if n > 0 {
      LeftStripFrom(s[1..], n - 1);
    }
  }

  lemma {:induction false} RightStripKeepsHead(s: string)
    ensures RightStrip(s) <= s && (s != "" && s[0] !in WHITESPACE ==> RightStrip(s) != "" && RightStrip(s)[0] == s[0])
  {
    if s != "" && s[|s| - 1] in WHITESPACE {
      RightStripKeepsHead(s[..|s| - 1]);
    }
  }

  /** A fence is no support line, at either end. */
  lemma OpenerIsNoSupport(line: string)
    requires OpeningFence(line).Some?
    ensures !IsSupport(line)
  {
    var spaces := Run(line, ' ');
    LeftStripFrom(line, spaces);
    RightStripKeepsHead(line[spaces..]);
    assert SUPPORT_PREFIX[0] == '*';
  }

  lemma CloserIsNoSupport(line: string, fence: string)
    requires fence != "" && ClosesFence(Strip(line), fence)
    ensures !IsSupport(line)
  {
    assert SUPPORT_PREFIX[0] == '*' && SUPPORT_PREFIX[2] == 'S';
  }

  /** For every text: the lines found plus the lines hidden in a code block or a
      comment are all the lines that start with the prefix; and a scan is never
      inside a code block and a comment at once. */
  lemma {:induction false} NothingIsLost(lines: seq<string>)
    ensures var s := ScanAll(lines);
            |s.outside| + s.hidden == SupportCount(lines) && !(s.inComment && s.fence.Some?)
  {
    if lines != [] {
      var n := |lines| - 1;
      NothingIsLost(lines[..n]);
      var s, line := ScanAll(lines[..n]), lines[n];
      if !s.inComment && s.fence.None? && OpeningFence(line).Some? {
        OpenerIsNoSupport(line);
      } else if !s.inComment && s.fence.Some? && ClosesFence(Strip(line), s.fence.value) {
        CloserIsNoSupport(line, s.fence.value);
      }
    }
  }
}

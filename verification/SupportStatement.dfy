/**
  Accepting the support statement, and choosing the release it names
  (scripts/release.py: `_support_problem`, `parse_tag`,
  `_check_previous_release`).
 */
module SupportStatement {
  import opened Common
  import opened Numerals
  import opened Patterns
  import opened SupportLines

  datatype Version = Version(major: nat, minor: nat, patch: nat)

  /** Tuple comparison. */
  predicate Below(a: Version, b: Version)
  {
    || a.major < b.major
    || (a.major == b.major && (a.minor < b.minor || (a.minor == b.minor && a.patch < b.patch)))
  }

  const MINOR := [
    Lit("**Support:** "), Num, Lit("."), Num, Lit(" is fully supported. "), Num, Lit("."), Num,
    Lit(" receives"),
    Lit(" security and critical bug-fix support until 90 days after this release's GitHub Release `published_at`.")]

  const PATCH := [Lit("**Support:** Unchanged: "), Num, Lit("."), Num, Lit(" is fully supported.")]

  const TAG := [Lit("v"), Num, Lit("."), Num, Lit("."), Num]

  datatype Problem =
    | WrongCount(found: nat, hidden: nat) | Indented | NotAPatchStatement | NamesAnotherLine
    | NotAMinorStatement | NamesAnotherCurrentLine | NothingPrecedes | NamesAnotherPreviousLine

  /** The newest of the releases below `v`. */
  function NewestBelow(releases: seq<Version>, v: Version): (r: Option<Version>)
  {
    if releases == [] then None
    else
      var before, last := NewestBelow(releases[..|releases| - 1], v), releases[|releases| - 1];
      if !Below(last, v) then before
      else if before.None? || Below(before.value, last) then Some(last)
      else before
  }

  /** `_support_problem`, after the scan. */
  function Judge(version: Version, outside: seq<string>, hidden: nat, releases: seq<Version>): (r: Option<Problem>)
  {
    if |outside| != 1 then Some(WrongCount(|outside|, hidden))
    else if outside[0] != LeftStrip(outside[0]) then Some(Indented)
    else if version.patch != 0 then
      var groups := Match(PATCH, outside[0]);
      if groups.None? then Some(NotAPatchStatement)
      else if groups.value != [version.major, version.minor] then Some(NamesAnotherLine)
      else None
    else
      var groups := Match(MINOR, outside[0]);
      if groups.None? || |groups.value| != 4 then Some(NotAMinorStatement)
      else if groups.value[..2] != [version.major, version.minor] then Some(NamesAnotherCurrentLine)
      else
        var newest := NewestBelow(releases, version);
        if newest.None? then Some(NothingPrecedes)
        else if groups.value[2..] != [newest.value.major, newest.value.minor] then Some(NamesAnotherPreviousLine)
        else None
  }

  /** The one text a release may carry, if any. */
  function Statement(version: Version, releases: seq<Version>): (r: Option<string>)
  {
    PatternSizes();
    if version.patch != 0 then Some(Render(PATCH, [version.major, version.minor]))
    else
      var newest := NewestBelow(releases, version);
      if newest.None? then None
      else Some(Render(MINOR, [version.major, version.minor, newest.value.major, newest.value.minor]))
  }

  lemma PatternSizes()
    ensures Nums(PATCH) == 2 && Nums(MINOR) == 4 && Nums(TAG) == 3
    ensures Delimited(PATCH) && Delimited(MINOR) && Delimited(TAG)
  {
    PatchSize();
    MinorSize();
    TagSize();
    PatchDelimited();
    MinorDelimited();
    TagDelimited();
  }

  lemma PatchDelimited()
    ensures Delimited(PATCH)
  {
    assert EndsNumber(PATCH[2]) && EndsNumber(PATCH[4]);
  }

  lemma MinorDelimited()
    ensures Delimited(MINOR)
  {
    assert EndsNumber(MINOR[2]) && EndsNumber(MINOR[4]) && EndsNumber(MINOR[6]) && EndsNumber(MINOR[8]);
  }

  lemma TagDelimited()
    ensures Delimited(TAG)
  {
    assert EndsNumber(TAG[2]) && EndsNumber(TAG[4]);
  }

  lemma PatchSize()
    ensures Nums(PATCH) == 2
  {
    Tail(PATCH, 0);
    Tail(PATCH, 1);
    Tail(PATCH, 2);
    Tail(PATCH, 3);
    Tail(PATCH, 4);
  }

  lemma TagSize()
    ensures Nums(TAG) == 3
  {
    Tail(TAG, 0);
    Tail(TAG, 1);
    Tail(TAG, 2);
    Tail(TAG, 3);
    Tail(TAG, 4);
    Tail(TAG, 5);
  }

  lemma MinorSize()
    ensures Nums(MINOR) == 4
  {
    Tail(MINOR, 0);
    Tail(MINOR, 1);
    Tail(MINOR, 2);
    Tail(MINOR, 3);
    Tail(MINOR, 4);
    Tail(MINOR, 5);
    Tail(MINOR, 6);
    Tail(MINOR, 7);
    Tail(MINOR, 8);
    Tail(MINOR, 9);
  }

  lemma Tail(tokens: seq<Token>, k: nat)
    requires k < |tokens|
    ensures Nums(tokens[k..]) == (if tokens[k].Num? then 1 else 0) + if k + 1 == |tokens| then 0
            else Nums(tokens[k + 1..])
    ensures tokens[0..] == tokens
  {
    assert tokens[k..][1..] == tokens[k + 1..];
  }

  // --- exactly one text -------------------------------------------------------------------------------

  /** The statement is one of the two patterns, filled in. */
  lemma StatementShape(version: Version, releases: seq<Version>) returns (tokens: seq<Token>, values: seq<nat>)
    requires Statement(version, releases).Some?
    ensures tokens == PATCH || tokens == MINOR
    ensures |values| == Nums(tokens) && Statement(version, releases).value == Render(tokens, values)
  {
    PatternSizes();
    if version.patch != 0 {
      tokens, values := PATCH, [version.major, version.minor];
    } else {
      var newest := NewestBelow(releases, version).value;
      tokens, values := MINOR, [version.major, version.minor, newest.major, newest.minor];
    }
  }

  lemma StartsItsLine(version: Version, releases: seq<Version>)
    requires Statement(version, releases).Some?
    ensures LeftStrip(Statement(version, releases).value) == Statement(version, releases).value
  {
    StatementBegins(version, releases);
    assert Statement(version, releases).value[0] == SUPPORT_PREFIX[0];
  }

  lemma PatchExactly(version: Version, line: string)
    ensures Nums(PATCH) == 2
    ensures Match(PATCH, line) == Some([version.major, version.minor]) <==>
              line == Render(PATCH, [version.major, version.minor])
  {
    PatternSizes();
    MatchesExactlyTheRendering(PATCH, line, [version.major, version.minor]);
  }

  lemma MinorExactly(version: Version, previous: Version, line: string)
    ensures Nums(MINOR) == 4
    ensures var values := [version.major, version.minor, previous.major, previous.minor];
            Match(MINOR, line) == Some(values) <==> line == Render(MINOR, values)
  {
    PatternSizes();
    MatchesExactlyTheRendering(MINOR, line, [version.major, version.minor, previous.major, previous.minor]);
  }

  lemma PatchAccepted(version: Version, line: string, hidden: nat, releases: seq<Version>)
    requires version.patch != 0
    ensures Judge(version, [line], hidden, releases).None? <==> Some(line) == Statement(version, releases)
  {
    StartsItsLine(version, releases);
    PatchExactly(version, line);
  }

  lemma MinorAccepted(version: Version, line: string, hidden: nat, releases: seq<Version>)
    requires version.patch == 0
    ensures Judge(version, [line], hidden, releases).None? <==> Some(line) == Statement(version, releases)
  {
    if NewestBelow(releases, version).Some? {
      var newest := NewestBelow(releases, version).value;
      StartsItsLine(version, releases);
      MinorExactly(version, newest, line);
      FourGroups(Match(MINOR, line), version, newest);
    }
  }

  /** An entry is accepted exactly when its one visible statement is the
      canonical text for its version and the releases before it. */
  lemma AcceptedExactly(version: Version, outside: seq<string>, hidden: nat, releases: seq<Version>)
    ensures Judge(version, outside, hidden, releases).None? <==>
            Statement(version, releases).Some? && outside == [Statement(version, releases).value]
  {
    if |outside| == 1 {
      assert outside == [outside[0]];
      if version.patch != 0 {
        PatchAccepted(version, outside[0], hidden, releases);
      } else {
        MinorAccepted(version, outside[0], hidden, releases);
      }
    }
  }

  lemma FourGroups(groups: Option<seq<nat>>, version: Version, newest: Version)
    ensures groups.Some? && |groups.value| == 4 ==>
              (groups == Some([version.major, version.minor, newest.major, newest.minor]) <==>
               groups.value[..2] == [version.major, version.minor] && groups.value[2..] == [newest.major, newest.minor])
  {
    if groups.Some? && |groups.value| == 4 {
      var g := groups.value;
      assert g == [g[0], g[1], g[2], g[3]] && g[..2] == [g[0], g[1]] && g[2..] == [g[2], g[3]];
    }
  }

  /** Two accepted entries of one release differ in hidden text and trailing
      whitespace only. */
  lemma OneTextOnly(version: Version, a: seq<string>, b: seq<string>, releases: seq<Version>)
    requires Judge(version, ScanAll(a).outside, ScanAll(a).hidden, releases).None?
    requires Judge(version, ScanAll(b).outside, ScanAll(b).hidden, releases).None?
    ensures ScanAll(a).outside == ScanAll(b).outside
  {
    AcceptedExactly(version, ScanAll(a).outside, ScanAll(a).hidden, releases);
    AcceptedExactly(version, ScanAll(b).outside, ScanAll(b).hidden, releases);
  }

  /** `_support_problem`: none exactly when the visible statements of the entry
      are the canonical one alone. */
  method SupportProblem(version: Version, lines: seq<string>, releases: seq<Version>) returns (problem: Option<Problem>)
    ensures problem.None? <==>
              Statement(version, releases).Some? && ScanAll(lines).outside == [Statement(version, releases).value]
    ensures problem == Judge(version, ScanAll(lines).outside, ScanAll(lines).hidden, releases)
  {
    var outside, hidden := FindSupportLines(lines);
    NothingIsLost(lines);
    AcceptedExactly(version, outside, hidden, releases);
    problem := Judge(version, outside, hidden, releases);
  }

  lemma {:induction false} LiteralTail(tokens: seq<Token>, values: seq<nat>)
    requires |values| == Nums(tokens) && tokens != [] && tokens[|tokens| - 1].Lit? && tokens[|tokens| - 1].text != ""
    ensures var s, t := Render(tokens, values), tokens[|tokens| - 1].text; s != "" && s[|s| - 1] == t[|t| - 1]
  {
    if |tokens| > 1 {
      var rest := if tokens[0].Num? then values[1..] else values;
      assert tokens[1..][|tokens| - 2] == tokens[|tokens| - 1];
      LiteralTail(tokens[1..], rest);
      RenderEnds(tokens, values, rest);
    } else {
      assert tokens[1..] == [];
      assert Render(tokens, values) == tokens[0].text;
    }
  }

  lemma RenderEnds(tokens: seq<Token>, values: seq<nat>, rest: seq<nat>)
    requires |values| == Nums(tokens) && tokens != [] && rest == if tokens[0].Num? then values[1..] else values
    ensures |rest| == Nums(tokens[1..])
    ensures var s, t := Render(tokens, values), Render(tokens[1..], rest);
            |t| <= |s| && (t != "" ==> s[|s| - 1] == t[|t| - 1])
  {
  }

  lemma StatementEnds(version: Version, releases: seq<Version>)
    requires Statement(version, releases).Some?
    ensures var s := Statement(version, releases).value; s != "" && s[|s| - 1] == '.'
  {
    var tokens, values := StatementShape(version, releases);
    LiteralTail(tokens, values);
  }

  lemma StatementBegins(version: Version, releases: seq<Version>)
    requires Statement(version, releases).Some?
    ensures SUPPORT_PREFIX <= Statement(version, releases).value
  {
    var tokens, values := StatementShape(version, releases);
    PrefixTexts();
    assert tokens[0].text <= Render(tokens, values);
  }

  lemma PrefixTexts()
    ensures SUPPORT_PREFIX <= PATCH[0].text && SUPPORT_PREFIX <= MINOR[0].text
  {
    assert PATCH[0].text == SUPPORT_PREFIX + "Unchanged: ";
  }

  /** The canonical text, on a line of its own, is found and accepted. */
  lemma CanonicalLineIsAccepted(version: Version, releases: seq<Version>)
    requires Statement(version, releases).Some?
    ensures var line := Statement(version, releases).value;
            ScanAll([line]).outside == [line]
              && Judge(version, ScanAll([line]).outside, ScanAll([line]).hidden, releases).None?
  {
    var line := Statement(version, releases).value;
    StartsItsLine(version, releases);
    StatementBegins(version, releases);
    StatementEnds(version, releases);
    assert line[0] == SUPPORT_PREFIX[0] == '*';
    assert OpeningFence(line).None?;
    assert RightStrip(line) == line && Strip(line) == line;
    var none: seq<string> := [];
    assert [line][..0] == none;
    assert ScanAll([line]) == ScanLine(Start, line);
    AcceptedExactly(version, [line], ScanAll([line]).hidden, releases);
  }

  // --- the previous release -----------------------------------------------------------------------------

  lemma {:induction false} NewestBelowMeans(releases: seq<Version>, v: Version)
    ensures var r := NewestBelow(releases, v);
            && (r.None? <==> forall x :: x in releases ==> !Below(x, v))
            && (r.Some? ==> r.value in releases && Below(r.value, v)
                            && forall x :: x in releases && Below(x, v) ==> x == r.value || Below(x, r.value))
  {
    if releases != [] {
      var n := |releases| - 1;
      NewestBelowMeans(releases[..n], v);
      assert releases == releases[..n] + [releases[n]];
    }
  }

  /** `parse_tag`: `$` also matches before one final newline. */
  function ParseTag(tag: string): (r: Option<Version>)
  {
    var text := if tag != "" && tag[|tag| - 1] == '\n' then tag[..|tag| - 1] else tag;
    var groups := Match(TAG, text);
    if groups.Some? && |groups.value| == 3 then Some(Version(groups.value[0], groups.value[1], groups.value[2]))
      else None
  }

  function PrintTag(v: Version): (tag: string)
  {
    PatternSizes();
    Render(TAG, [v.major, v.minor, v.patch])
  }

  lemma TextRoundTrip(text: string, v: Version)
    ensures (Match(TAG, text) == Some([v.major, v.minor, v.patch])) <==> text == PrintTag(v)
  {
    PatternSizes();
    MatchesExactlyTheRendering(TAG, text, [v.major, v.minor, v.patch]);
  }

  lemma {:induction false} NumberTail(tokens: seq<Token>, values: seq<nat>)
    requires |values| == Nums(tokens) && tokens != [] && tokens[|tokens| - 1].Num?
    ensures var s := Render(tokens, values); s != "" && IsDigit(s[|s| - 1])
  {
    if |tokens| == 1 {
      PrintThenParse(values[0]);
    } else {
      var rest := if tokens[0].Num? then values[1..] else values;
      NumberTail(tokens[1..], rest);
      RenderEnds(tokens, values, rest);
    }
  }

  lemma PrintEndsInDigit(v: Version)
    ensures var s := PrintTag(v); s != "" && IsDigit(s[|s| - 1])
  {
    PatternSizes();
    NumberTail(TAG, [v.major, v.minor, v.patch]);
  }

  lemma ThreeGroups(groups: Option<seq<nat>>, v: Version)
    ensures (groups == Some([v.major, v.minor, v.patch])) <==>
            groups.Some? && |groups.value| == 3 && Version(groups.value[0], groups.value[1], groups.value[2]) == v
  {
    if groups.Some? && |groups.value| == 3 {
      assert groups.value == [groups.value[0], groups.value[1], groups.value[2]];
    }
  }

  /** Every tag: it parses to a version exactly when it is that version's print,
      with or without one final newline. */
  lemma TagRoundTrip(tag: string, v: Version)
    ensures ParseTag(tag) == Some(v) <==> tag == PrintTag(v) || tag == PrintTag(v) + "\n"
  {
    var text := if tag != "" && tag[|tag| - 1] == '\n' then tag[..|tag| - 1] else tag;
    TextRoundTrip(text, v);
    ThreeGroups(Match(TAG, text), v);
    PrintEndsInDigit(v);
    if tag != text {
      assert tag == text + "\n";
    }
  }

  /** Every release tag, and every one but the tag being released. */
  function Releases(tags: seq<string>): (r: seq<Version>)
  {
    if tags == [] then []
    else
      var last := ParseTag(tags[|tags| - 1]);
      Releases(tags[..|tags| - 1]) + if last.Some? then [last.value] else []
  }

  function Others(tags: seq<string>, own: string): (r: seq<string>)
  {
    if tags == [] then []
    else Others(tags[..|tags| - 1], own) + if tags[|tags| - 1] != own then [tags[|tags| - 1]] else []
  }

  /** The choice of `_check_previous_release`: the newest of the others. */
  function Newest(releases: seq<Version>): (r: Option<Version>)
  {
    if releases == [] then None
    else
      var before, last := Newest(releases[..|releases| - 1]), releases[|releases| - 1];
      if before.None? || Below(before.value, last) then Some(last) else before
  }

  lemma {:induction false} NewestMeans(releases: seq<Version>)
    ensures var r := Newest(releases);
            && (r.None? <==> releases == [])
            && (r.Some? ==> r.value in releases && forall x :: x in releases ==> x == r.value || Below(x, r.value))
  {
    if releases != [] {
      var n := |releases| - 1;
      NewestMeans(releases[..n]);
      assert releases == releases[..n] + [releases[n]];
    }
  }

  lemma {:induction false} ReleasesAre(tags: seq<string>, v: Version)
    ensures v in Releases(tags) <==> exists tag :: tag in tags && ParseTag(tag) == Some(v)
  {
    if tags != [] {
      var n := |tags| - 1;
      ReleasesAre(tags[..n], v);
      assert tags == tags[..n] + [tags[n]];
      if v in Releases(tags[..n]) {
        var tag :| tag in tags[..n] && ParseTag(tag) == Some(v);
        assert tag in tags;
      }
    }
  }

  lemma {:induction false} OthersAre(tags: seq<string>, own: string, tag: string)
    ensures tag in Others(tags, own) <==> tag in tags && tag != own
  {
    if tags != [] {
      OthersAre(tags[..|tags| - 1], own, tag);
      assert tags == tags[..|tags| - 1] + [tags[|tags| - 1]];
    }
  }

  lemma PrintIsInjective(a: Version, b: Version)
    ensures PrintTag(a) == PrintTag(b) ==> a == b
    ensures PrintTag(a) != PrintTag(b) + "\n"
  {
    TextRoundTrip(PrintTag(a), a);
    TextRoundTrip(PrintTag(a), b);
    PrintEndsInDigit(a);
  }

  /** The other tags hold every other release, and this one only as a tag with a
      final newline. */
  lemma OtherReleases(tags: seq<string>, version: Version, v: Version)
    ensures v in Releases(Others(tags, PrintTag(version))) <==>
            v in Releases(tags) && (v != version || PrintTag(version) + "\n" in tags)
  {
    var own := PrintTag(version);
    ReleasesAre(tags, v);
    ReleasesAre(Others(tags, own), v);
    PrintIsInjective(v, version);
    forall tag: string
      ensures ParseTag(tag) == Some(v) <==> tag == PrintTag(v) || tag == PrintTag(v) + "\n"
      ensures tag in Others(tags, own) <==> tag in tags && tag != own
    {
      OthersAre(tags, own, tag);
      TagRoundTrip(tag, v);
    }
    PrintIsInjective(version, v);
    assert PrintTag(v) + "\n" == own ==> PrintTag(version) == PrintTag(v) + "\n";
    assert v != version && PrintTag(v) in tags ==> PrintTag(v) in Others(tags, own);
    assert PrintTag(v) + "\n" in tags ==> PrintTag(v) + "\n" in Others(tags, own);
  }

  lemma BelowIsStrict(a: Version, b: Version)
    ensures !Below(a, a) && (a != b ==> Below(a, b) || Below(b, a))
  {
  }

  /** When the version-order check passes, the previous line that the support
      statement must name is the line of the release that check follows, if and
      only if the version's own tag has no twin with a final newline. */
  lemma PreviousReleasesAgree(tags: seq<string>, version: Version)
    requires forall v :: v in Releases(Others(tags, PrintTag(version))) ==> !Below(version, v)
    ensures NewestBelow(Releases(tags), version) == Newest(Releases(Others(tags, PrintTag(version))))
            <==> PrintTag(version) + "\n" !in tags
  {
    var all, others := Releases(tags), Releases(Others(tags, PrintTag(version)));
    NewestBelowMeans(all, version);
    NewestMeans(others);
    forall v: Version
      ensures v in others <==> v in all && (v != version || PrintTag(version) + "\n" in tags)
      ensures !Below(v, v) && (v != version ==> Below(v, version) || Below(version, v))
    {
      OtherReleases(tags, version, v);
      BelowIsStrict(v, version);
    }
    if PrintTag(version) + "\n" in tags {
      ReleasesAre(tags, version);
      TagRoundTrip(PrintTag(version) + "\n", version);
      assert version in others;
    } else {
      NoTwin(all, others, version);
    }
  }

  lemma NoTwin(all: seq<Version>, others: seq<Version>, version: Version)
    requires forall v: Version :: v in others <==> v in all && v != version
    requires forall v :: v in others ==> !Below(version, v)
    ensures NewestBelow(all, version) == Newest(others)
  {
    NewestBelowMeans(all, version);
    NewestMeans(others);
    forall v: Version
      ensures v in others <==> v in all && Below(v, version)
    {
      BelowIsStrict(v, version);
    }
    if others != [] {
      assert others[0] in others;
    }
  }
}

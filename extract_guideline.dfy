/** The markdown guideline extractor used by the grading tests: find the
    `## Section` heading, then a `- **Principle**` bullet inside that section,
    then keep that bullet with the indented sub-bullets that follow it. The
    markdown text is a parameter; reading it from disk is not modelled. */
module GuidelineExtractor {
  import opened Js

  // ---------------------------------------------------------------------------
  // Line tests

  /** `content.split('\n')` */
  function Lines(content: string): seq<string> {
    Split(content, '\n')
  }

  /** `line.trim() === '## ' + sectionName` */
  function IsHeaderFor(sectionName: string): string -> bool {
    (line: string) => Trim(line) == "## " + sectionName
  }

  /** The `^## ` test: the line opens another section. */
  function OpensSection(line: string): bool {
    StartsWith(line, "## ")
  }

  /** `^-\s+` followed by `text`: a dash, a nonempty run of white space, then
      `text` literally. When `text` starts with a non-space character the
      regex's `\s+` has to take the whole run, which TrimStart removes. */
  predicate DashThen(line: string, text: string) {
    |line| >= 1 && line[0] == '-'
    && |TrimStart(line[1..])| < |line[1..]|
    && StartsWith(TrimStart(line[1..]), text)
  }

  /** `^-\s+` then two asterisks: a top-level bold bullet. */
  predicate IsTopBullet(line: string) {
    DashThen(line, "**")
  }

  /** The principle pattern with the name regex-escaped, so that the name is
      matched character for character. */
  predicate IsPrincipleLine(line: string, principleName: string) {
    DashThen(line, "**" + principleName + "**")
  }

  function IsPrincipleFor(principleName: string): string -> bool {
    (line: string) => IsPrincipleLine(line, principleName)
  }

  /** The test that ends the collection: another top-level bullet, or a
      nonblank line that does not start with a space. */
  predicate IsStopLine(line: string) {
    IsTopBullet(line) || (Trim(line) != [] && !StartsWith(line, " "))
  }

  /** `line.startsWith('    -')`: an indented sub-bullet. */
  predicate IsSubBullet(line: string) {
    StartsWith(line, "    -")
  }

  /** The escaping makes the match literal: a dash, any nonempty run of
      white space and the bold name make a principle line whatever follows,
      including names holding regex metacharacters. */
  lemma PrincipleLineLiteral(ws: string, principleName: string, tail: string)
    requires ws != [] && forall i :: 0 <= i < |ws| ==> IsSpace(ws[i])
    ensures IsPrincipleLine("-" + ws + "**" + principleName + "**" + tail, principleName)
  {
    var bold := "**" + principleName + "**";
    var line := "-" + ws + "**" + principleName + "**" + tail;
    assert line[1..] == ws + (bold + tail);
    TrimStartSpaces(ws, bold + tail);
    assert TrimStart(line[1..]) == bold + tail;
  }

  /** Leading spaces before a non-space character are exactly what TrimStart
      removes. */
  lemma {:induction false} TrimStartSpaces(ws: string, t: string)
    requires forall i :: 0 <= i < |ws| ==> IsSpace(ws[i])
    requires t != [] && !IsSpace(t[0])
    ensures TrimStart(ws + t) == t
  {
    if ws != [] {
      assert (ws + t)[1..] == ws[1..] + t;
      TrimStartSpaces(ws[1..], t);
    } else {
      assert ws + t == t;
    }
  }

  // ---------------------------------------------------------------------------
  // The steps of the extraction

  /** The lines after the header up to the next `## ` line, or to the end. */
  function SectionLines(lines: seq<string>, start: nat): (section: seq<string>)
    requires start < |lines|
    ensures start + 1 + |section| <= |lines|
    ensures section == lines[start + 1..start + 1 + |section|]
    ensures forall k :: 0 <= k < |section| ==> !OpensSection(section[k])
    ensures start + 1 + |section| == |lines| || OpensSection(lines[start + 1 + |section|])
  {
    var rest := lines[start + 1..];
    var end := FindIndex(rest, OpensSection);
    if end == -1 then rest else rest[..end]
  }

  /** The principle line and the lines after it, cut before the first stop
      line. */
  function CandidateLines(fromPrinciple: seq<string>): (candidate: seq<string>)
    requires |fromPrinciple| >= 1
    ensures 1 <= |candidate| <= |fromPrinciple|
    ensures candidate == fromPrinciple[..|candidate|]
    ensures forall k :: 1 <= k < |candidate| ==> !IsStopLine(candidate[k])
    ensures |candidate| == |fromPrinciple| || IsStopLine(fromPrinciple[|candidate|])
  {
    var rest := fromPrinciple[1..];
    var stop := FindIndex(rest, (line: string) => IsStopLine(line));
    if stop == -1 then fromPrinciple else fromPrinciple[..stop + 1]
  }

  /** `filter((line, index) => index === 0 || line.startsWith('    -'))`:
      the first line, then the sub-bullets among the others in their order,
      none left out. */
  function KeepBulletAndSubBullets(candidate: seq<string>): (kept: seq<string>)
    requires |candidate| >= 1
    ensures 1 <= |kept| <= |candidate| && kept[0] == candidate[0]
    ensures forall k :: 1 <= k < |kept| ==> IsSubBullet(kept[k]) && kept[k] in candidate[1..]
    ensures IsSubsequence(kept[1..], candidate[1..])
    ensures forall line :: IsSubBullet(line) ==> multiset(kept[1..])[line] == multiset(candidate[1..])[line]
  {
    var keep := (line: string) => IsSubBullet(line);
    FilterIsSubsequence(candidate[1..], keep);
    FilterKeepsAll(candidate[1..], keep);
    var kept := [candidate[0]] + Filter(candidate[1..], keep);
    assert kept[1..] == Filter(candidate[1..], keep);
    kept
  }

  /** What a successful extraction returns: nonempty, opening with the
      bullet's dash, with no white space at either end. */
  predicate IsGuidelineText(g: string) {
    g != [] && g[0] == '-' && !IsSpace(g[|g| - 1])
  }

  /** The kept lines joined with newlines, trimmed. */
  function GuidelineText(section: seq<string>, p: nat, principleName: string): (g: string)
    requires p < |section| && IsPrincipleLine(section[p], principleName)
    ensures g == Trim(Join(KeepBulletAndSubBullets(CandidateLines(section[p..])), "\n"))
    ensures IsGuidelineText(g)
  {
    var candidate := CandidateLines(section[p..]);
    var kept := KeepBulletAndSubBullets(candidate);
    assert kept[0] == section[p] by {
      assert candidate[0] == section[p..][0];
    }
    TrimmedJoinIsGuideline(kept);
    Trim(Join(kept, "\n"))
  }

  /** Lines whose first one opens with a dash join and trim to guideline
      text. */
  lemma TrimmedJoinIsGuideline(kept: seq<string>)
    requires |kept| >= 1 && kept[0] != [] && kept[0][0] == '-'
    ensures IsGuidelineText(Trim(Join(kept, "\n")))
  {
    JoinHead(kept, "\n");
    TrimOfLeadingSolid(Join(kept, "\n"));
  }

  /** The first piece of a join is its prefix. */
  lemma {:induction false} JoinHead(parts: seq<string>, sep: string)
    requires |parts| >= 1
    ensures |parts[0]| <= |Join(parts, sep)| && Join(parts, sep)[..|parts[0]|] == parts[0]
  {
    if |parts| > 1 {
      assert Join(parts, sep) == parts[0] + (sep + Join(parts[1..], sep));
    }
  }

  /** Trimming a string that starts with a non-space character keeps that
      character first. */
  lemma TrimOfLeadingSolid(s: string)
    requires s != [] && !IsSpace(s[0])
    ensures Trim(s) != [] && Trim(s)[0] == s[0]
  {
    assert TrimStart(s) == s;
  }

  // ---------------------------------------------------------------------------
  // extractGuideline

  function SectionMissing(sectionName: string): string {
    "Could not find section \"" + sectionName + "\" in claude.md"
  }

  function PrincipleMissing(principleName: string, sectionName: string): string {
    "Could not extract \"" + principleName + "\" guideline from claude.md in section \"" + sectionName + "\""
  }

  /** The two messages differ (at their eleventh character), so a caller can
      tell which lookup failed. */
  lemma MessagesDiffer(principleName: string, sectionName: string, sectionName': string)
    ensures SectionMissing(sectionName) != PrincipleMissing(principleName, sectionName')
  {
    assert SectionMissing(sectionName)[10] == 'f';
    assert PrincipleMissing(principleName, sectionName')[10] == 'e';
  }

  predicate HasSection(lines: seq<string>, sectionName: string) {
    exists k :: 0 <= k < |lines| && IsHeaderFor(sectionName)(lines[k])
  }

  /** The part of `extractGuideline` after the section is found. The final
      emptiness check is kept as written; GuidelineText shows it never fires. */
  function FromSection(section: seq<string>, principleName: string, sectionName: string): (r: Result<string>)
    ensures r != Err(SectionMissing(sectionName))
    ensures r.Err? ==> r == Err(PrincipleMissing(principleName, sectionName))
    ensures r.Ok? <==> exists k :: 0 <= k < |section| && IsPrincipleLine(section[k], principleName)
    ensures r.Ok? ==> IsGuidelineText(r.value)
  {
    var p := FindIndex(section, IsPrincipleFor(principleName));
    MessagesDiffer(principleName, sectionName, sectionName);
    if p == -1 then
      assert forall k :: 0 <= k < |section| ==> !IsPrincipleFor(principleName)(section[k]);
      Err(PrincipleMissing(principleName, sectionName))
    else
      assert IsPrincipleFor(principleName)(section[p]);
      var guideline := GuidelineText(section, p, principleName);
      if guideline == [] then Err(PrincipleMissing(principleName, sectionName)) else Ok(guideline)
  }

  /** `extractGuideline(principleName, sectionName)` over the file content. */
  function ExtractGuideline(content: string, principleName: string, sectionName: string): (r: Result<string>)
    ensures !HasSection(Lines(content), sectionName) <==> r == Err(SectionMissing(sectionName))
    ensures r.Ok? ==> IsGuidelineText(r.value)
  {
    var lines := Lines(content);
    var start := FindIndex(lines, IsHeaderFor(sectionName));
    if start == -1 then Err(SectionMissing(sectionName))
    else
      assert IsHeaderFor(sectionName)(lines[start]);
      FromSection(SectionLines(lines, start), principleName, sectionName)
  }

  /** Only the first header line counts: the extraction is the lookup in
      the section that follows it. */
  lemma ExtractUsesFirstSection(content: string, principleName: string, sectionName: string, start: nat)
    requires start < |Lines(content)| && IsHeaderFor(sectionName)(Lines(content)[start])
    requires forall k :: 0 <= k < start ==> !IsHeaderFor(sectionName)(Lines(content)[k])
    ensures ExtractGuideline(content, principleName, sectionName)
              == FromSection(SectionLines(Lines(content), start), principleName, sectionName)
  {
    assert FindIndex(Lines(content), IsHeaderFor(sectionName)) == start;
  }

  /** The first principle line of the section is the one taken. */
  lemma FromSectionUsesFirstPrinciple(section: seq<string>, principleName: string, sectionName: string, p: nat)
    requires p < |section| && IsPrincipleLine(section[p], principleName)
    requires forall k :: 0 <= k < p ==> !IsPrincipleLine(section[k], principleName)
    ensures FromSection(section, principleName, sectionName) == Ok(GuidelineText(section, p, principleName))
  {
    assert IsPrincipleFor(principleName)(section[p]);
    forall k | 0 <= k < p ensures !IsPrincipleFor(principleName)(section[k]) {
      assert !IsPrincipleLine(section[k], principleName);
    }
    assert FindIndex(section, IsPrincipleFor(principleName)) == p;
  }

  /** The whole lookup: with the first header at `start` and the first
      principle line of its section at `p`, the extraction succeeds with
      that principle's guideline text. */
  lemma ExtractIsFirstGuideline(content: string, principleName: string, sectionName: string, start: nat, p: nat)
    requires start < |Lines(content)| && IsHeaderFor(sectionName)(Lines(content)[start])
    requires forall k :: 0 <= k < start ==> !IsHeaderFor(sectionName)(Lines(content)[k])
    requires var section := SectionLines(Lines(content), start);
             p < |section| && IsPrincipleLine(section[p], principleName)
             && forall k :: 0 <= k < p ==> !IsPrincipleLine(section[k], principleName)
    ensures ExtractGuideline(content, principleName, sectionName)
              == Ok(GuidelineText(SectionLines(Lines(content), start), p, principleName))
  {
    ExtractUsesFirstSection(content, principleName, sectionName, start);
    FromSectionUsesFirstPrinciple(SectionLines(Lines(content), start), principleName, sectionName, p);
  }

  // ---------------------------------------------------------------------------
  // A worked example on lines

  /** The next principle's bullet is a stop line. */
  lemma ExampleNextBulletStops(line: string)
    requires line == "- **Other**"
    ensures IsStopLine(line)
  {
    assert line[1..] == " " + "**Other**";
    TrimStartSpaces(" ", "**Other**");
  }

  /** A blank line and a sub-bullet do not stop the collection. */
  lemma ExampleBodyContinues(sub: string, blank: string)
    requires sub == "    - Return early" && blank == ""
    ensures !IsStopLine(sub) && !IsStopLine(blank)
  {
    assert Trim(blank) == [];
  }

  /** Two continuing lines and then a stop line: the candidate lines are
      the bullet and the two continuing lines. */
  lemma CandidateStopsAtThird(bullet: string, a: string, b: string, next: string)
    requires !IsStopLine(a) && !IsStopLine(b) && IsStopLine(next)
    ensures CandidateLines([bullet, a, b, next]) == [bullet, a, b]
  {
    var candidate := CandidateLines([bullet, a, b, next]);
    assert [bullet, a, b, next][3] == next;
    assert |candidate| != 1 && |candidate| != 2 && |candidate| != 4;
  }

  /** The filter keeps a sub-bullet and drops a line that is not one. */
  lemma KeepDropsNonBullet(bullet: string, sub: string, other: string)
    requires IsSubBullet(sub) && !IsSubBullet(other)
    ensures KeepBulletAndSubBullets([bullet, sub, other]) == [bullet, sub]
  {
    var keep := (line: string) => IsSubBullet(line);
    assert [bullet, sub, other][1..] == [sub, other];
    assert Filter([other], keep) == [] by {
      assert [other][1..] == [];
    }
    assert Filter([sub, other], keep) == [sub] + Filter([other], keep) by {
      assert [sub, other][1..] == [other];
    }
  }

  /** A section with a multi-line principle followed by another principle:
      the second principle's bullet stops the collection, and a blank line
      inside the sub-bullets is dropped by the filter. */
  lemma ExampleSection(bullet: string, sub: string, blank: string, next: string)
    requires bullet == "- **Guard Clauses**" && sub == "    - Return early"
    requires blank == "" && next == "- **Other**"
    ensures KeepBulletAndSubBullets(CandidateLines([bullet, sub, blank, next])) == [bullet, sub]
  {
    ExampleBodyContinues(sub, blank);
    ExampleNextBulletStops(next);
    CandidateStopsAtThird(bullet, sub, blank, next);
    assert IsSubBullet(sub);
    KeepDropsNonBullet(bullet, sub, blank);
  }

  /** On that section the extracted text is the bullet and its sub-bullet,
      one per line. */
  lemma ExampleGuidelineText(bullet: string, sub: string, blank: string, next: string)
    requires bullet == "- **Guard Clauses**" && sub == "    - Return early"
    requires blank == "" && next == "- **Other**"
    ensures IsPrincipleLine(bullet, "Guard Clauses")
    ensures GuidelineText([bullet, sub, blank, next], 0, "Guard Clauses") == bullet + "\n" + sub
  {
    ExamplePrincipleLine(bullet);
    var section := [bullet, sub, blank, next];
    assert section[0..] == section;
    ExampleSection(bullet, sub, blank, next);
    ExampleJoinTrim(bullet, sub);
  }

  lemma ExamplePrincipleLine(bullet: string)
    requires bullet == "- **Guard Clauses**"
    ensures IsPrincipleLine(bullet, "Guard Clauses")
  {
    assert bullet == "- " + ("**" + "Guard Clauses" + "**");
    BoldBulletIsPrinciple("Guard Clauses");
  }

  /** `- **name**` is a principle line for `name`. */
  lemma BoldBulletIsPrinciple(principleName: string)
    ensures IsPrincipleLine("- " + ("**" + principleName + "**"), principleName)
  {
    var bold := "**" + principleName + "**";
    assert ("- " + bold)[1..] == " " + bold;
    TrimStartSpaces(" ", bold);
    assert bold[..|bold|] == bold;
  }

  /** Two lines with solid outer ends join and trim to themselves. */
  lemma ExampleJoinTrim(bullet: string, sub: string)
    requires bullet == "- **Guard Clauses**" && sub == "    - Return early"
    ensures Trim(Join([bullet, sub], "\n")) == bullet + "\n" + sub
  {
    assert [bullet, sub][1..] == [sub];
    var text := bullet + "\n" + sub;
    assert text[0] == bullet[0] && text[|text| - 1] == sub[|sub| - 1];
    TrimOfSolid(text);
  }
}

/**
 * The classification helpers of the PDF report generator in `utils/pdf.py`:
 * colour and status tiers, the risk lookups, the priority tiers of the
 * recommendations, the section counter and the line-by-line formatting of the
 * generated analysis text.  Page layout and drawing are not modelled; colours
 * and icons are named, not given as RGB values or glyphs.
 */
module Report {
  import opened Text
  import Wrappers
  import Analysis
  import Headers
  import Tls

  // ---------------------------------------------------------------------
  // Colours, icons and tiers
  // ---------------------------------------------------------------------

  /** The named colours of the report's palette. */
  datatype Color =
    | Primary | Secondary | Accent | Warning | Success | Danger | Dark
    | LightGray | MediumGray | Border | Watermark

  /** `_get_score_color`: green from 80, orange from 50, red below. */
  function ScoreColor(score: int): (c: Color)
    ensures c == Success <==> score >= 80
    ensures c == Warning <==> 50 <= score < 80
    ensures c == Danger <==> score < 50
  {
    if score >= 80 then Success
    else if score >= 50 then Warning
    else Danger
  }

  /** `_get_risk_badge_color`: a fixed colour per known level, medium grey otherwise. */
  function RiskBadgeColor(level: string): (c: Color)
    ensures level !in {"Low", "Medium", "High", "Critical"} ==> c == MediumGray
  {
    if level == "Low" then Success
    else if level == "Medium" then Warning
    else if level == "High" then Danger
    else if level == "Critical" then Accent
    else MediumGray
  }

  /** The circle icons of the risk levels. */
  datatype Icon = GreenCircle | OrangeCircle | RedCircle | BlackCircle | WhiteCircle

  /** `_get_risk_icon`: a fixed icon per known level, a white circle otherwise. */
  function RiskIcon(level: string): (i: Icon)
    ensures level !in {"Low", "Medium", "High", "Critical"} ==> i == WhiteCircle
  {
    if level == "Low" then GreenCircle
    else if level == "Medium" then OrangeCircle
    else if level == "High" then RedCircle
    else if level == "Critical" then BlackCircle
    else WhiteCircle
  }

  /** The risk level the analysis computes is always one the lookups know:
      never the default, never Critical, and its badge has the colour its
      score would get in the score tiers whenever the two tier tables agree. */
  lemma RiskLookupsKnowAnalysisLevels(score: int)
    ensures var level := Analysis.RiskLevel(score);
      && RiskBadgeColor(level) !in {MediumGray, Accent}
      && RiskIcon(level) !in {WhiteCircle, BlackCircle}
      && (score < 40 ==> RiskBadgeColor(level) == ScoreColor(score) == Danger)
      && (score >= 80 ==> RiskBadgeColor(level) == ScoreColor(score) == Success)
  {
  }

  /** The rating of one breakdown category. */
  datatype Status = Good | Fair | Poor

  /** The status column of the breakdown table: Good from 70, Fair from 40, Poor below. */
  function CategoryStatus(score: int): (s: Status)
    ensures s == Good <==> score >= 70
    ensures s == Fair <==> 40 <= score < 70
    ensures s == Poor <==> score < 40
  {
    if score >= 70 then Good
    else if score >= 40 then Fair
    else Poor
  }

  /** The breakdown budgets are at most 40, so no category ever rates Good,
      and only a headers category with nothing deducted rates Fair. */
  lemma BreakdownNeverGood(a: Headers.HeaderAnalysis, s: Tls.ScanResult)
    ensures forall c :: c in Analysis.Categories ==>
      && CategoryStatus(Analysis.BreakdownOf(a, s)[c]) != Good
      && (CategoryStatus(Analysis.BreakdownOf(a, s)[c]) == Fair <==>
            c == Analysis.HeaderCategory && a.missingEssential == [] && a.deprecated == [])
  {
    var b := Analysis.BreakdownOf(a, s);
    forall c | c in Analysis.Categories
      ensures CategoryStatus(b[c]) == Fair <==>
            c == Analysis.HeaderCategory && a.missingEssential == [] && a.deprecated == []
    {
      assert b[c] <= Analysis.Budget(c);
    }
  }

  /** The rating the breakdown table evidently means: the same 70 and 40
      percent tiers, taken of the category's own budget instead of 100. */
  function BudgetStatus(c: Analysis.Category, points: int): (s: Status)
    ensures s == Good <==> points * 100 >= 70 * Analysis.Budget(c)
    ensures s == Fair <==> 40 * Analysis.Budget(c) <= points * 100 < 70 * Analysis.Budget(c)
    ensures s == Poor <==> points * 100 < 40 * Analysis.Budget(c)
  {
    var b := Analysis.Budget(c);
    if points * 100 >= 70 * b then Good
    else if points * 100 >= 40 * b then Fair
    else Poor
  }

  /** Rated against its budget, a category with nothing deducted is Good,
      one with every point deducted is Poor, and fewer points never rate
      better. */
  lemma BudgetStatusTiers(c: Analysis.Category, p: int, q: int)
    requires 0 <= p <= q <= Analysis.Budget(c)
    ensures BudgetStatus(c, Analysis.Budget(c)) == Good
    ensures BudgetStatus(c, 0) == Poor
    ensures BudgetStatus(c, q) == Poor ==> BudgetStatus(c, p) == Poor
    ensures BudgetStatus(c, p) == Good ==> BudgetStatus(c, q) == Good
  {
  }

  /** With budget-relative ratings the cookie and CORS categories, which
      are never charged, rate Good, and so does the headers category of a
      response that lacks no essential header and carries no deprecated one. */
  lemma BudgetStatusOfBreakdown(a: Headers.HeaderAnalysis, s: Tls.ScanResult)
    ensures var b := Analysis.BreakdownOf(a, s);
      && BudgetStatus(Analysis.CookieCategory, b[Analysis.CookieCategory]) == Good
      && BudgetStatus(Analysis.CorsCategory, b[Analysis.CorsCategory]) == Good
      && (a.missingEssential == [] && a.deprecated == [] ==>
            BudgetStatus(Analysis.HeaderCategory, b[Analysis.HeaderCategory]) == Good)
  {
    BudgetStatusTiers(Analysis.CookieCategory, 0, 15);
    BudgetStatusTiers(Analysis.CorsCategory, 0, 10);
    BudgetStatusTiers(Analysis.HeaderCategory, 0, 40);
  }

  // ---------------------------------------------------------------------
  // Priorities
  // ---------------------------------------------------------------------

  datatype Severity = High | Medium | Low

  /** The priority of recommendation number `i` (from 1) in the recommendations section. */
  function RecommendationPriority(i: nat): (p: Severity)
    ensures p == High <==> i <= 5
    ensures p == Medium <==> 6 <= i <= 10
    ensures p == Low <==> i > 10
  {
    if i <= 5 then High else if i <= 10 then Medium else Low
  }

  datatype Action = Immediate | Soon

  /** One row of the priority findings table. */
  datatype FindingRow = FindingRow(number: nat, finding: string, severity: Severity, action: Action)

  const FindingWidth: nat := 70

  /** A finding longer than 70 characters is cut to 70 and marked with "...". */
  function Truncate(rec: string): (r: string)
    ensures |rec| <= FindingWidth ==> r == rec
    ensures |rec| > FindingWidth ==>
      |r| == FindingWidth + 3 && r[..FindingWidth] == rec[..FindingWidth] && r[FindingWidth..] == "..."
  {
    if |rec| > FindingWidth then rec[..FindingWidth] + "..." else rec
  }

  /** The row for recommendation number `i` (from 1) of the table. */
  function RowOf(i: nat, rec: string): FindingRow
  {
    var severity := if i <= 3 then High else Medium;
    FindingRow(i, Truncate(rec), severity, if severity == High then Immediate else Soon)
  }

  /** The rows of `_create_priority_findings_table`, for the first `|recs|` recommendations. */
  function Rows(recs: seq<string>): seq<FindingRow>
    decreases |recs|
  {
    if recs == [] then [] else Rows(recs[..|recs| - 1]) + [RowOf(|recs|, recs[|recs| - 1])]
  }

  /** `recommendations[:5]`. */
  function TopFive(recs: seq<string>): (r: seq<string>)
    ensures |r| == if |recs| < 5 then |recs| else 5
    ensures forall k :: 0 <= k < |r| ==> r[k] == recs[k]
  {
    if |recs| <= 5 then recs else recs[..5]
  }

  method PriorityFindings(recommendations: seq<string>) returns (rows: seq<FindingRow>)
    ensures rows == Rows(TopFive(recommendations))
  {
    var highPriority := if |recommendations| <= 5 then recommendations else recommendations[..5];
    rows := [];
    var i := 0;
    while i < |highPriority|
      invariant 0 <= i <= |highPriority|
      invariant rows == Rows(highPriority[..i])
    {
      var row := PriorityRow(i + 1, highPriority[i]);
      assert highPriority[..i + 1][..i] == highPriority[..i];
      rows := rows + [row];
      i := i + 1;
    }
    assert highPriority[..i] == highPriority;
  }

  /** One row of the priority table: severity by position, the finding cut
      at 70 characters. */
  method PriorityRow(i: nat, rec: string) returns (row: FindingRow)
    ensures row == RowOf(i, rec)
  {
    var severity := if i <= 3 then High else Medium;
    var finding := if |rec| > 70 then rec[..70] + "..." else rec;
    var action := if severity == High then Immediate else Soon;
    row := FindingRow(i, finding, severity, action);
  }

  /** The table has at most five rows, numbered from 1: the first three are
      HIGH and need immediate action, the rest MEDIUM, to be done soon, and
      each shows its recommendation, truncated. */
  lemma {:induction false} RowsShape(recs: seq<string>)
    requires |recs| <= 5
    ensures |Rows(recs)| == |recs|
    ensures forall k :: 0 <= k < |recs| ==>
      && Rows(recs)[k].number == k + 1
      && Rows(recs)[k].finding == Truncate(recs[k])
      && (Rows(recs)[k].severity == High <==> k < 3)
      && (Rows(recs)[k].action == Immediate <==> k < 3)
    decreases |recs|
  {
    if recs != [] {
      var init := recs[..|recs| - 1];
      RowsShape(init);
      assert forall k :: 0 <= k < |init| ==> init[k] == recs[k];
    }
  }

  /** A row the table rates HIGH is a recommendation the recommendations
      section also rates HIGH; rows 4 and 5 are MEDIUM in the table but HIGH
      in the section. */
  lemma TablePriorityWithinSection(i: nat, rec: string)
    requires 1 <= i <= 5
    ensures RowOf(i, rec).severity == High ==> RecommendationPriority(i) == High
    ensures 4 <= i ==> RowOf(i, rec).severity == Medium && RecommendationPriority(i) == High
  {
  }

  // ---------------------------------------------------------------------
  // Section numbering
  // ---------------------------------------------------------------------

  /** The mutable part of the PDF generator: the section counter and the
      table-of-contents entry list, both reset for every report. */
  class ReportGenerator {
    var sectionCounter: nat
    var tocEntries: seq<string>

    constructor()
      ensures sectionCounter == 0 && tocEntries == []
    {
      sectionCounter := 0;
      tocEntries := [];
    }

    /** The counter reset at the start of `generate_pdf_report`. */
    method ResetCounters()
      modifies this
      ensures sectionCounter == 0 && tocEntries == []
    {
      sectionCounter := 0;
      tocEntries := [];
    }

    /** `_get_next_section_number`. */
    method NextSectionNumber() returns (n: nat)
      modifies this
      ensures n == old(sectionCounter) + 1 && sectionCounter == n
      ensures tocEntries == old(tocEntries)
    {
      sectionCounter := sectionCounter + 1;
      n := sectionCounter;
    }

    /** The numbered section titles of one report: after the reset, the
      sections are numbered 1, 2, 3, ... in the order they are added. */
    method NumberSections(titles: seq<string>) returns (headings: seq<string>)
      modifies this
      ensures |headings| == |titles|
      ensures forall k :: 0 <= k < |titles| ==> headings[k] == NatToString(k + 1) + ". " + titles[k]
      ensures sectionCounter == |titles| && tocEntries == []
    {
      ResetCounters();
      headings := [];
      var i := 0;
      while i < |titles|
        invariant 0 <= i <= |titles|
        invariant sectionCounter == i && tocEntries == []
        invariant |headings| == i
        invariant forall k :: 0 <= k < i ==> headings[k] == NatToString(k + 1) + ". " + titles[k]
      {
        var n := NextSectionNumber();
        headings := headings + [NatToString(n) + ". " + titles[i]];
        i := i + 1;
      }
    }
  }

  // ---------------------------------------------------------------------
  // Formatting the generated analysis text
  // ---------------------------------------------------------------------

  /** The bullet marker exactly as the source text spells it: three
      characters (a UTF-8 bullet read back as Windows-1252). */
  const Bullet := "\U{E2}\U{20AC}\U{A2}"

  /** Section headers are set bold in the palette's secondary colour
      (RGB 0.02, 0.45, 0.41, scaled to 0..255 and truncated). */
  const HeaderOpen := "<b><font size='12' color='rgb(5,114,104)'>"
  const HeaderClose := "</font></b>"
  const LineBreak := "<br/>"
  const SectionBreak := "<br/><br/>"

  /** A pair of asterisks starts at `i`. */
  predicate PairAt(s: string, i: nat)
  {
    i + 1 < |s| && s[i] == '*' && s[i + 1] == '*'
  }

  /** The first pair of asterisks at or after `from`. */
  function FindPair(s: string, from: nat): (r: Wrappers.Option<nat>)
    ensures r.Some? ==> from <= r.value && PairAt(s, r.value)
    ensures forall i: nat :: from <= i && (r.None? || i < r.value) ==> !PairAt(s, i)
    decreases |s| - from
  {
    if from + 1 >= |s| then Wrappers.None
    else if PairAt(s, from) then Wrappers.Some(from)
    else FindPair(s, from + 1)
  }

  /** A pair of asterisks is an occurrence of `**`. */
  lemma PairAtOccurs(s: string, i: nat)
    ensures PairAt(s, i) <==> OccursAt(s, "**", i)
  {
    if i + 2 <= |s| {
      assert s[i..i + 2] == [s[i], s[i + 1]];
    }
  }

  /** `re.sub(r'\*\*(.*?)\*\*', r'<b>\1</b>', s)`: each leftmost `**`, up to
      the nearest `**` after it, becomes bold markup; the scan resumes after
      the closing pair.  An opening pair without a closing one stays as it is. */
  function BoldMarkup(s: string): (r: string)
    ensures s != "" ==> r != ""
    decreases |s|
  {
    match FindPair(s, 0)
    case None => s
    case Some(i) =>
      match FindPair(s, i + 2)
      case None => s
      case Some(j) =>
        var r := s[..i] + "<b>" + s[i + 2..j] + "</b>" + BoldMarkup(s[j + 2..]);
        assert r[|s[..i]|] == '<';
        r
  }

  /** `re.match(r'^\d+\.\s', line)`: digits, a dot and a whitespace character. */
  predicate NumberedItem(line: string)
  {
    var e := DigitRunEnd(line, 0);
    0 < e && e + 1 < |line| && line[e] == '.' && IsSpace(line[e + 1])
  }

  /** The formatting of one stripped, non-blank line, by the first rule that
      applies: section header, sub-header, bullet, numbered item, bold spans. */
  function FormatLine(line: string): (r: string)
    requires line != ""
    ensures r != ""
  {
    if StartsWith(line, "##") then HeaderOpen + Strip(ReplaceAll(line, "##", "")) + HeaderClose
    else if EndsWith(line, ":") && !StartsWith(line, Bullet) && !StartsWith(line, "*") then "<b>" + line + "</b>"
    else if StartsWith(line, Bullet) || StartsWith(line, "*") then "    " + Bullet + " " + Strip(line[1..])
    else if NumberedItem(line) then "<b>" + line + "</b>"
    else if Contains(line, "**") then BoldMarkup(line)
    else line
  }

  /** Text without `**` is left unchanged. */
  lemma BoldMarkupPlain(s: string)
    requires !Contains(s, "**")
    ensures BoldMarkup(s) == s
  {
    if FindPair(s, 0).Some? {
      PairAtOccurs(s, FindPair(s, 0).value);
    }
  }

  /** When `s` continues at `from` with `pre` and then `**`, and `pre`
      followed by one `*` holds no `**`, the first pair from `from` on is the
      one after `pre`. */
  lemma FirstPairAfter(s: string, pre: string, from: nat)
    requires from + |pre| + 2 <= |s| && s[from..from + |pre| + 2] == pre + "**"
    requires !Contains(pre + "*", "**")
    ensures FindPair(s, from) == Wrappers.Some(from + |pre|)
  {
    var t := pre + "*";
    var w := s[from..from + |pre| + 2];
    assert w[|pre|] == s[from + |pre|] && w[|pre| + 1] == s[from + |pre| + 1];
    assert PairAt(s, from + |pre|);
    forall k: nat | from <= k < from + |pre|
      ensures !PairAt(s, k)
    {
      assert w[k - from] == s[k] && w[k - from + 1] == s[k + 1];
      assert s[k] == t[k - from] && s[k + 1] == t[k - from + 1];
      PairAtOccurs(t, k - from);
      assert OccursAt(t, "**", k - from) ==> Contains(t, "**");
    }
  }

  /** A span between two pairs of asterisks becomes bold and the scan goes
      on after it, when neither the text before nor the span holds `**`. */
  lemma BoldMarkupSpan(a: string, b: string, c: string)
    requires !Contains(a + "*", "**") && !Contains(b + "*", "**")
    ensures BoldMarkup(a + "**" + b + "**" + c) == a + "<b>" + b + "</b>" + BoldMarkup(c)
  {
    var s := a + "**" + b + "**" + c;
    var j := |a| + 2 + |b|;
    assert FindPair(s, 0) == Wrappers.Some(|a|) by {
      assert s[0..|a| + 2] == a + "**";
      FirstPairAfter(s, a, 0);
    }
    assert FindPair(s, |a| + 2) == Wrappers.Some(j) by {
      assert s[|a| + 2..j + 2] == b + "**";
      FirstPairAfter(s, b, |a| + 2);
    }
    assert s[..|a|] == a && s[|a| + 2..j] == b && s[j + 2..] == c;
  }

  /** An opening pair of asterisks with no closing pair after it is left
      as written, as `re.sub` finds no match for it. */
  lemma BoldMarkupUnclosed(a: string, b: string)
    requires !Contains(a + "*", "**") && !Contains(b, "**")
    ensures BoldMarkup(a + "**" + b) == a + "**" + b
  {
    var s := a + "**" + b;
    assert s[0..|a| + 2] == a + "**";
    FirstPairAfter(s, a, 0);
    forall j: nat | |a| + 2 <= j
      ensures !PairAt(s, j)
    {
      if j + 1 < |s| {
        var k := j - |a| - 2;
        assert s[j] == b[k] && s[j + 1] == b[k + 1];
        PairAtOccurs(b, k);
        assert OccursAt(b, "**", k) ==> Contains(b, "**");
      }
    }
  }

  /** A line that is empty once stripped. */
  predicate Blank(line: string)
  {
    Strip(line) == ""
  }

  /** The formatted lines of one section: blank lines dropped, the rest formatted. */
  function FormattedLines(lines: seq<string>): seq<string>
    decreases |lines|
  {
    if lines == [] then []
    else
      var line := Strip(lines[|lines| - 1]);
      if line == "" then FormattedLines(lines[..|lines| - 1])
      else FormattedLines(lines[..|lines| - 1]) + [FormatLine(line)]
  }

  /** At most one formatted line per line, none of them empty; no lines at
      all exactly when every line is blank. */
  lemma {:induction false} FormattedLinesShape(lines: seq<string>)
    ensures |FormattedLines(lines)| <= |lines|
    ensures forall k :: 0 <= k < |FormattedLines(lines)| ==> FormattedLines(lines)[k] != ""
    ensures FormattedLines(lines) == [] <==> forall k :: 0 <= k < |lines| ==> Blank(lines[k])
    decreases |lines|
  {
    if lines != [] {
      var init := lines[..|lines| - 1];
      FormattedLinesShape(init);
      assert forall k :: 0 <= k < |init| ==> init[k] == lines[k];
    }
  }

  /** A section every line of which is blank. */
  predicate BlankSection(section: string)
  {
    forall l :: l in Split(section, "\n") ==> Blank(l)
  }

  /** The joined sections: a section without a non-blank line is left out. */
  function FormattedSections(sections: seq<string>): seq<string>
    decreases |sections|
  {
    if sections == [] then []
    else
      var lines := FormattedLines(Split(sections[|sections| - 1], "\n"));
      if lines == [] then FormattedSections(sections[..|sections| - 1])
      else FormattedSections(sections[..|sections| - 1]) + [Join(lines, LineBreak)]
  }

  /** Every joined section is non-empty. */
  lemma {:induction false} FormattedSectionsNonEmpty(sections: seq<string>)
    ensures forall k :: 0 <= k < |FormattedSections(sections)| ==> FormattedSections(sections)[k] != ""
    decreases |sections|
  {
    if sections != [] {
      var init := sections[..|sections| - 1];
      FormattedSectionsNonEmpty(init);
      var lines := FormattedLines(Split(sections[|sections| - 1], "\n"));
      if lines != [] {
        FormattedLinesShape(Split(sections[|sections| - 1], "\n"));
        JoinNonEmpty(lines, LineBreak);
      }
    }
  }

  /** No joined sections at all exactly when every section is blank. */
  lemma {:induction false} FormattedSectionsEmpty(sections: seq<string>)
    ensures FormattedSections(sections) == [] <==> forall k :: 0 <= k < |sections| ==> BlankSection(sections[k])
    decreases |sections|
  {
    if sections != [] {
      var init := sections[..|sections| - 1];
      var last := sections[|sections| - 1];
      FormattedSectionsEmpty(init);
      assert forall k :: 0 <= k < |init| ==> init[k] == sections[k];
      var parts := Split(last, "\n");
      FormattedLinesShape(parts);
      assert BlankSection(last) <==> forall k :: 0 <= k < |parts| ==> Blank(parts[k]);
    }
  }

  /** `_format_ai_analysis`: the text is empty exactly when no section
      survives the formatting. */
  function FormatAi(text: string): (r: string)
    ensures r == "" <==> FormattedSections(Split(text, "\n\n")) == []
  {
    if text == "" then
      assert Split(text, "\n\n") == [""];
      assert Split("", "\n") == [""];
      assert Blank("");
      assert FormattedLines([""]) == [];
      assert FormattedSections([""]) == [];
      ""
    else
      var secs := FormattedSections(Split(text, "\n\n"));
      FormattedSectionsNonEmpty(Split(text, "\n\n"));
      if secs != [] then JoinNonEmpty(secs, SectionBreak); Join(secs, SectionBreak)
      else Join(secs, SectionBreak)
  }

  /** The formatted text is empty exactly when every line of every section is
      blank, in particular for the empty text. */
  lemma FormatAiEmpty(text: string)
    ensures FormatAi(text) == "" <==> forall sec :: sec in Split(text, "\n\n") ==> BlankSection(sec)
  {
    var parts := Split(text, "\n\n");
    FormattedSectionsEmpty(parts);
    assert (forall sec :: sec in parts ==> BlankSection(sec)) <==> forall k :: 0 <= k < |parts| ==> BlankSection(parts[k]);
  }

  /** The loops of `_format_ai_analysis`: sections split at blank lines,
      lines formatted one by one, sections and lines joined with breaks. */
  method FormatAiAnalysis(text: string) returns (out: string)
    ensures out == FormatAi(text)
  {
    if text == "" {
      return "";
    }
    var sections := Split(text, "\n\n");
    var formattedSections: seq<string> := [];
    var i := 0;
    while i < |sections|
      invariant 0 <= i <= |sections|
      invariant formattedSections == FormattedSections(sections[..i])
    {
      var formattedLines := FormatLines(Split(sections[i], "\n"));
      assert sections[..i + 1][..i] == sections[..i];
      if formattedLines != [] {
        formattedSections := formattedSections + [Join(formattedLines, LineBreak)];
      }
      i := i + 1;
    }
    assert sections[..i] == sections;
    out := Join(formattedSections, SectionBreak);
  }

  /** The inner loop of `_format_ai_analysis`: strip each line, skip the
      blank ones, format the rest. */
  method FormatLines(lines: seq<string>) returns (formattedLines: seq<string>)
    ensures formattedLines == FormattedLines(lines)
  {
    formattedLines := [];
    var j := 0;
    while j < |lines|
      invariant 0 <= j <= |lines|
      invariant formattedLines == FormattedLines(lines[..j])
    {
      var line := Strip(lines[j]);
      assert lines[..j + 1][..j] == lines[..j];
      if line != "" {
        formattedLines := formattedLines + [FormatLine(line)];
      }
      j := j + 1;
    }
    assert lines[..j] == lines;
  }
}

/** The mock writing assistant: weak-phrase rewriting with a metrics hint,
    and a templated professional summary. The simulated network delay is not
    part of the model. */
module AiService {
  import opened Text
  import opened Content
  import AtsScorer

  // ---------------------------------------------------------------------
  // optimizeText
  // ---------------------------------------------------------------------

  /** The rewrite table, in the order its entries are applied. */
  const Improvements: seq<(string, string)> := [
    ("worked on", "spearheaded"),
    ("helped", "facilitated"),
    ("made", "engineered"),
    ("did", "executed"),
    ("was responsible for", "managed"),
    ("created", "developed"),
    ("used", "leveraged"),
    ("improved", "optimized"),
    ("changed", "transformed"),
    ("handled", "orchestrated")]

  const Suggestion := " [AI Suggestion: Add metrics or percentages to strengthen impact]"

  /** `/\bweak\b/i` matches at `i`. Every weak phrase starts and ends with a
      letter, so the boundaries are "no word character just outside". */
  predicate WordAt(s: string, weak: string, i: nat) {
    i + |weak| <= |s| && Lower(s[i..i + |weak|]) == weak &&
    (i == 0 || !IsWordChar(s[i - 1])) &&
    (i + |weak| == |s| || !IsWordChar(s[i + |weak|]))
  }

  /** `s.replace(/\bweak\b/gi, strong)` on the part of `s` from `i`: matches
      are found left to right on the original text and do not overlap. */
  function ReplaceFrom(s: string, weak: string, strong: string, i: nat): string
    requires weak != []
    decreases |s| - i
  {
    if i >= |s| then []
    else if WordAt(s, weak, i) then strong + ReplaceFrom(s, weak, strong, i + |weak|)
    else [s[i]] + ReplaceFrom(s, weak, strong, i + 1)
  }

  function ReplaceAll(s: string, weak: string, strong: string): string
    requires weak != []
  {
    ReplaceFrom(s, weak, strong, 0)
  }

  /** Without a match from `i` on, the rest of the text is copied. */
  lemma {:induction false} ReplaceNoMatch(s: string, weak: string, strong: string, i: nat)
    requires weak != [] && i <= |s|
    requires forall k :: i <= k < |s| ==> !WordAt(s, weak, k)
    ensures ReplaceFrom(s, weak, strong, i) == s[i..]
    decreases |s| - i
  {
    if i < |s| {
      ReplaceNoMatch(s, weak, strong, i + 1);
      assert s[i..] == [s[i]] + s[i + 1..];
    }
  }

  /** One step of the scan at a match. */
  lemma ReplaceAtMatch(s: string, weak: string, strong: string, i: nat)
    requires weak != [] && WordAt(s, weak, i)
    ensures ReplaceFrom(s, weak, strong, i) == strong + ReplaceFrom(s, weak, strong, i + |weak|)
  {
  }

  /** One step of the scan where no match starts. */
  lemma ReplaceAtCopy(s: string, weak: string, strong: string, i: nat)
    requires weak != [] && i < |s| && !WordAt(s, weak, i)
    ensures ReplaceFrom(s, weak, strong, i) == [s[i]] + ReplaceFrom(s, weak, strong, i + 1)
  {
  }

  /** The text before the first match is copied, the match becomes `strong`,
      and replacing resumes just after the match. */
  lemma {:induction false} ReplaceFirstMatch(s: string, weak: string, strong: string, i: nat, j: nat)
    requires weak != [] && i <= j && WordAt(s, weak, j)
    requires forall k :: i <= k < j ==> !WordAt(s, weak, k)
    ensures ReplaceFrom(s, weak, strong, i) == s[i..j] + (strong + ReplaceFrom(s, weak, strong, j + |weak|))
    decreases j - i
  {
    var rest := ReplaceFrom(s, weak, strong, j + |weak|);
    if i == j {
      ReplaceAtMatch(s, weak, strong, i);
      SlicePrefix(s, i, j, strong + rest);
    } else {
      ReplaceAtCopy(s, weak, strong, i);
      ReplaceFirstMatch(s, weak, strong, i + 1, j);
      SlicePrefix(s, i, j, strong + rest);
    }
  }

  /** `s[i..j] + t` as the first character of the slice and the rest. */
  lemma SlicePrefix(s: string, i: nat, j: nat, t: string)
    requires i <= j <= |s|
    ensures i == j ==> s[i..j] + t == t
    ensures i < j ==> s[i..j] + t == [s[i]] + (s[i + 1..j] + t)
  {
    if i < j {
      assert s[i..j] == [s[i]] + s[i + 1..j];
    }
  }

  /** The text after applying the table entries of `table` in order. */
  function ApplyAll(s: string, table: seq<(string, string)>): string
    requires forall k :: 0 <= k < |table| ==> table[k].0 != []
  {
    if table == [] then s
    else
      var last := table[|table| - 1];
      ReplaceAll(ApplyAll(s, table[..|table| - 1]), last.0, last.1)
  }

  /** Every entry is applied to the text the previous entries left. */
  function Rewritten(text: string): string {
    ApplyAll(text, Improvements)
  }

  /** The `forEach` over the improvement table in `optimizeText`: each entry
      rewrites the result of the entries before it. */
  method ApplyTable(text: string, table: seq<(string, string)>) returns (improved: string)
    requires forall k :: 0 <= k < |table| ==> table[k].0 != []
    ensures improved == ApplyAll(text, table)
  {
    improved := text;
    for i := 0 to |table|
      invariant improved == ApplyAll(text, table[..i])
    {
      var (weak, strong) := table[i];
      assert table[..i + 1][..i] == table[..i];
      improved := ReplaceAll(improved, weak, strong);
    }
    assert table[..|table|] == table;
  }

  /** `optimizeText`: blank text comes back as it is; otherwise the table
      rewrites it entry by entry, and for experience the hint is appended
      exactly when the rewritten text has no metric. */
  method OptimizeText(text: string, context: string) returns (improved: string)
    ensures IsBlank(text) ==> improved == text
    ensures !IsBlank(text) && context == "experience" && !AtsScorer.HasMetric(Rewritten(text)) ==>
      improved == Rewritten(text) + Suggestion
    ensures !IsBlank(text) && !(context == "experience" && !AtsScorer.HasMetric(Rewritten(text))) ==>
      improved == Rewritten(text)
  {
    if |Trim(text)| == 0 {
      return text;
    }
    improved := ApplyTable(text, Improvements);
    if context == "experience" && !AtsScorer.HasMetric(improved) {
      improved := improved + Suggestion;
    }
  }

  /** A text with no weak phrase anywhere is left alone by an entry. */
  lemma ReplaceAllIdentity(s: string, weak: string, strong: string)
    requires weak != []
    requires forall k :: 0 <= k < |s| ==> !WordAt(s, weak, k)
    ensures ReplaceAll(s, weak, strong) == s
  {
    ReplaceNoMatch(s, weak, strong, 0);
  }

  // ---------------------------------------------------------------------
  // generateSummary
  // ---------------------------------------------------------------------

  const GenericSummary: string := "Dynamic professional with proven track record of delivering results."

  function DigitChar(d: nat): (c: char)
    requires d < 10
    ensures IsDigit(c) && c as int - '0' as int == d
  {
    ('0' as int + d) as char
  }

  /** `${n}`: the decimal numeral of `n`. */
  function NatToString(n: nat): (r: string)
    ensures r != [] && (|r| > 1 ==> r[0] != '0')
    ensures forall k :: 0 <= k < |r| ==> IsDigit(r[k])
  {
    if n < 10 then [DigitChar(n)] else NatToString(n / 10) + [DigitChar(n % 10)]
  }

  /** The value of a numeral. */
  function ParseNat(s: string): nat
    requires forall k :: 0 <= k < |s| ==> IsDigit(s[k])
  {
    if s == [] then 0
    else
      assert IsDigit(s[|s| - 1]);
      ParseNat(s[..|s| - 1]) * 10 + (s[|s| - 1] as int - '0' as int)
  }

  /** The numeral reads back as the number. */
  lemma {:induction false} ParseNatToString(n: nat)
    ensures ParseNat(NatToString(n)) == n
  {
    if n >= 10 {
      ParseNatToString(n / 10);
      var r := NatToString(n);
      assert r[..|r| - 1] == NatToString(n / 10);
    }
  }

  /** `n+` for `n` entries, `multiple` for none. */
  function YearsPhrase(n: nat): (r: string)
    ensures n == 0 <==> r == "multiple"
    ensures n > 0 ==> (|r| >= 2 && r[|r| - 1] == '+' &&
      (forall k :: 0 <= k < |r| - 1 ==> IsDigit(r[k])) && ParseNat(r[..|r| - 1]) == n)
  {
    if n > 0 then
      ParseNatToString(n);
      assert (NatToString(n) + "+")[..|NatToString(n)|] == NatToString(n);
      NatToString(n) + "+"
    else "multiple"
  }

  function Take<T>(s: seq<T>, n: nat): (r: seq<T>)
    ensures |r| == Min(n, |s|) && r == s[..|r|]
  {
    if n < |s| then s[..n] else s
  }

  /** The first three comma pieces, trimmed and joined by `, `, or
      `various skills` when there are no skills. */
  function SkillsPhrase(skills: string): string {
    if skills == [] then "various skills"
    else Join(TrimAll(Take(Split(skills, ','), 3)), ", ")
  }

  lemma SkillsPhrasePieces(skills: string)
    ensures skills == [] ==> SkillsPhrase(skills) == "various skills"
    ensures skills != [] ==> exists pieces: seq<string> ::
      |pieces| == Min(3, CountChar(skills, ',') + 1) &&
      (forall k :: 0 <= k < |pieces| ==> pieces[k] == Trim(Split(skills, ',')[k])) &&
      SkillsPhrase(skills) == Join(pieces, ", ")
  {
    if skills != [] {
      var split := Split(skills, ',');
      var taken := Take(split, 3);
      var pieces := TrimAll(taken);
      forall k | 0 <= k < |pieces| ensures pieces[k] == Trim(split[k]) {
        assert taken[k] == split[k];
      }
      assert SkillsPhrase(skills) == Join(pieces, ", ");
    }
  }

  /** `generateSummary` */
  function GenerateSummary(d: Document): string {
    if d.personal.title == "" then GenericSummary
    else
      "Results-driven " + d.personal.title + " with " + YearsPhrase(|d.experience|) +
      " years of experience. Expertise in " + SkillsPhrase(d.skills) +
      ". Proven ability to drive innovation and deliver exceptional outcomes."
  }

  /** The generic sentence comes back exactly when there is no job title:
      the template around a title is longer than the generic sentence. */
  lemma GenericIffNoTitle(d: Document)
    ensures GenerateSummary(d) == GenericSummary <==> d.personal.title == ""
    ensures d.personal.title != "" ==> |GenerateSummary(d)| >= 126 + |d.personal.title|
  {
    assert |GenericSummary| == 68;
  }

  /** The summary does not depend on anything but the title, the number of
      experience entries and the skills. */
  lemma SummaryInputs(d: Document, d': Document)
    requires d.personal.title == d'.personal.title && |d.experience| == |d'.experience| && d.skills == d'.skills
    ensures GenerateSummary(d) == GenerateSummary(d')
  {
  }
}

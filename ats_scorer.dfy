/** The heuristic ATS (applicant tracking system) scorer: a weighted additive
    score out of 100, its banding into four categories, and the ordered list of
    recommendations. */
module AtsScorer {
  import opened Text
  import opened Content

  // ---------------------------------------------------------------------
  // Predicates the score is built from
  // ---------------------------------------------------------------------

  /** `field?.trim()` is truthy. */
  predicate Filled(s: string) { Trim(s) != [] }

  /** How many of fullName, email, phone and title are filled. */
  function FilledPersonal(p: Personal): nat {
    (if Filled(p.fullName) then 1 else 0) + (if Filled(p.email) then 1 else 0) +
    (if Filled(p.phone) then 1 else 0) + (if Filled(p.title) then 1 else 0)
  }

  /** An experience entry with role, company and a description longer than 30. */
  predicate CompleteExperience(e: Experience) {
    e.role != "" && e.company != "" && e.description != "" && |e.description| > 30
  }

  /** `experience.filter(CompleteExperience).length` */
  function CountCompleteExperience(es: seq<Experience>): (n: nat)
    ensures n <= |es|
  {
    if es == [] then 0
    else (if CompleteExperience(es[0]) then 1 else 0) + CountCompleteExperience(es[1..])
  }

  /** An education entry with school, degree and field. */
  predicate CompleteEducation(e: Education) {
    e.school != "" && e.degree != "" && e.field != ""
  }

  /** `education.filter(CompleteEducation).length` */
  function CountCompleteEducation(es: seq<Education>): (n: nat)
    ensures n <= |es|
  {
    if es == [] then 0
    else (if CompleteEducation(es[0]) then 1 else 0) + CountCompleteEducation(es[1..])
  }

  /** A match of `/\d+%|\d+ [a-z]+/i` ends its digit run at index `i`. */
  predicate MetricAt(s: string, i: int) {
    0 <= i && i + 1 < |s| && IsDigit(s[i]) &&
    (s[i + 1] == '%' || (s[i + 1] == ' ' && i + 2 < |s| && IsAsciiLetter(s[i + 2])))
  }

  /** Scans for a metric from index `i` on. */
  function MetricFrom(s: string, i: nat): (b: bool)
    decreases |s| - i
    ensures b <==> exists k :: i <= k && MetricAt(s, k)
  {
    if i + 1 >= |s| then false
    else if MetricAt(s, i) then true
    else MetricFrom(s, i + 1)
  }

  /** `/\d+%|\d+ [a-z]+/i.test(s)`: some run of digits is directly followed by
      `%`, or by a space and a letter. */
  function HasMetric(s: string): (b: bool)
    ensures b <==> exists k :: MetricAt(s, k)
  {
    MetricFrom(s, 0)
  }

  /** `experience.some(exp => exp.description && /…/i.test(exp.description))` */
  function AnyMetric(es: seq<Experience>): (b: bool)
    ensures b <==> exists k :: 0 <= k < |es| && HasMetric(es[k].description)
  {
    if es == [] then false
    else HasMetric(es[0].description) || AnyMetric(es[1..])
  }

  /** The number of pieces of `skills.split(',')` that are not blank. */
  function CountNonBlank(pieces: seq<string>): (n: nat)
    ensures n <= |pieces|
  {
    if pieces == [] then 0
    else (if Filled(pieces[0]) then 1 else 0) + CountNonBlank(pieces[1..])
  }

  /** The filter count is zero exactly when no entry passes, and the whole
      length exactly when every entry does. */
  lemma {:induction false} CompleteExperienceExtremes(es: seq<Experience>)
    ensures CountCompleteExperience(es) == 0 <==> forall k :: 0 <= k < |es| ==> !CompleteExperience(es[k])
    ensures CountCompleteExperience(es) == |es| <==> forall k :: 0 <= k < |es| ==> CompleteExperience(es[k])
  {
    if es != [] {
      CompleteExperienceExtremes(es[1..]);
      assert forall k :: 1 <= k < |es| ==> es[k] == es[1..][k - 1];
    }
  }

  lemma {:induction false} CompleteEducationExtremes(es: seq<Education>)
    ensures CountCompleteEducation(es) == 0 <==> forall k :: 0 <= k < |es| ==> !CompleteEducation(es[k])
    ensures CountCompleteEducation(es) == |es| <==> forall k :: 0 <= k < |es| ==> CompleteEducation(es[k])
  {
    if es != [] {
      CompleteEducationExtremes(es[1..]);
      assert forall k :: 1 <= k < |es| ==> es[k] == es[1..][k - 1];
    }
  }

  lemma NonBlankExtremes(pieces: seq<string>)
    ensures CountNonBlank(pieces) == 0 <==> forall k :: 0 <= k < |pieces| ==> !Filled(pieces[k])
    ensures CountNonBlank(pieces) == |pieces| <==> forall k :: 0 <= k < |pieces| ==> Filled(pieces[k])
  {
    NoneNonBlank(pieces);
    AllNonBlank(pieces);
  }

  lemma {:induction false} NoneNonBlank(pieces: seq<string>)
    ensures CountNonBlank(pieces) == 0 <==> forall k :: 0 <= k < |pieces| ==> !Filled(pieces[k])
  {
    if pieces != [] {
      NoneNonBlank(pieces[1..]);
      assert forall k :: 1 <= k < |pieces| ==> pieces[k] == pieces[1..][k - 1];
    }
  }

  lemma {:induction false} AllNonBlank(pieces: seq<string>)
    ensures CountNonBlank(pieces) == |pieces| <==> forall k :: 0 <= k < |pieces| ==> Filled(pieces[k])
  {
    if pieces != [] {
      AllNonBlank(pieces[1..]);
      assert forall k :: 1 <= k < |pieces| ==> pieces[k] == pieces[1..][k - 1];
    }
  }

  function SkillCount(skills: string): nat {
    CountNonBlank(Split(skills, ','))
  }

  /** The empty skills string has no skills (it splits into one blank piece). */
  lemma SkillCountEmpty()
    ensures SkillCount("") == 0
  {
    assert Split("", ',') == [[]];
    assert Trim([]) == [];
  }

  // ---------------------------------------------------------------------
  // The score
  // ---------------------------------------------------------------------

  function SummaryPoints(summary: string): nat {
    if |summary| > 50 then 10 else if summary != "" then 5 else 0
  }

  function SkillsPoints(count: nat): nat {
    if count >= 10 then 15 else if count >= 5 then 10 else if count > 0 then 5 else 0
  }

  /** `serializedLength` stands for `JSON.stringify(resumeData).length`. */
  function LengthPoints(serializedLength: nat): nat {
    if 500 < serializedLength < 5000 then 10 else if serializedLength > 200 then 5 else 0
  }

  function NonZero(n: nat): (r: nat)
    ensures r > 0
  {
    if n == 0 then 1 else n
  }

  /** The components that do not depend on the two entry lists: personal
      fields, summary, skills and length. */
  function BasePoints(d: Document, serializedLength: nat): (r: nat)
    ensures r <= 55
  {
    5 * FilledPersonal(d.personal) + SummaryPoints(d.personal.summary) +
    SkillsPoints(SkillCount(d.skills)) + LengthPoints(serializedLength)
  }

  /** The unrounded score times `NonZero(exps) * NonZero(edus)`, from the counts
      it depends on: experience adds 10 + 15 * completeExps / exps (+5 with a
      metric), education adds 8 + 7 * completeEdus / edus, each only when its
      list is non-empty. */
  function ScaledTotal(base: nat, exps: nat, completeExps: nat, metric: bool,
                       edus: nat, completeEdus: nat): nat
  {
    var n := NonZero(exps);
    var m := NonZero(edus);
    base * (n * m) +
    (if exps == 0 then 0 else (10 + (if metric then 5 else 0)) * (n * m) + 15 * completeExps * m) +
    (if edus == 0 then 0 else 8 * (n * m) + 7 * completeEdus * n)
  }

  /** The common denominator of the two fractional components. */
  function Denominator(d: Document): (r: nat)
    ensures r > 0
  {
    NonZero(|d.experience|) * NonZero(|d.education|)
  }

  /** A product of two naturals. */
  function Mul(a: nat, b: nat): nat {
    a * b
  }

  /** The experience component, times `Denominator(d)`. */
  function ExperiencePoints(d: Document): nat {
    if |d.experience| == 0 then 0
    else
      var bonus: nat := if AnyMetric(d.experience) then 5 else 0;
      Mul(10 + bonus, Denominator(d)) + Mul(15 * CountCompleteExperience(d.experience), NonZero(|d.education|))
  }

  /** The education component, times `Denominator(d)`. */
  function EducationPoints(d: Document): nat {
    if |d.education| == 0 then 0
    else Mul(8, Denominator(d)) + Mul(7 * CountCompleteEducation(d.education), NonZero(|d.experience|))
  }

  /** The experience and education components, times `Denominator(d)`. */
  function ListPoints(d: Document): nat {
    ExperiencePoints(d) + EducationPoints(d)
  }

  /** The unrounded score of a document, times `Denominator(d)`. */
  function ScaledScore(d: Document, serializedLength: nat): nat {
    ScaledTotal(BasePoints(d, serializedLength),
                |d.experience|, CountCompleteExperience(d.experience), AnyMetric(d.experience),
                |d.education|, CountCompleteEducation(d.education))
  }

  /** The scaled score is the list components plus the base points on the
      common denominator. */
  lemma ScaledScoreOf(d: Document, serializedLength: nat, lists: nat)
    requires lists == ListPoints(d)
    ensures ScaledScore(d, serializedLength) == lists + BasePoints(d, serializedLength) * Denominator(d)
  {
  }

  /** `Math.round(num / den)` for a non-negative fraction. */
  function RoundHalfUp(num: nat, den: nat): nat
    requires den > 0
  {
    (2 * num + den) / (2 * den)
  }

  /** `Math.min(Math.round(score), 100)` */
  function Score(d: Document, serializedLength: nat): nat {
    Min(RoundHalfUp(ScaledScore(d, serializedLength), Denominator(d)), 100)
  }

  /** `calculateATSScore`. The running total is kept multiplied by the
      denominator so that it stays exact; the branches that add whole points
      and the two fractional branches are accumulated separately. */
  method CalculateATSScore(d: Document, serializedLength: nat) returns (score: nat)
    ensures score == Score(d, serializedLength)
    ensures score <= 100
  {
    var base := AccumulateBase(d, serializedLength);
    var lists := AccumulateLists(d);
    var den := NonZero(|d.experience|) * NonZero(|d.education|);
    ScaledScoreOf(d, serializedLength, lists);
    var total := lists + base * den;
    score := RoundHalfUp(total, den);
    score := Min(score, 100);
    RawScoreAtMost100(d, serializedLength);
  }

  /** The branches of `calculateATSScore` that add whole points: personal
      fields, summary, skills and length. */
  method AccumulateBase(d: Document, serializedLength: nat) returns (base: nat)
    ensures base == BasePoints(d, serializedLength)
  {
    var skillCount := if d.skills != "" then SkillCount(d.skills) else 0;
    SkillCountEmpty();
    base := 5 * FilledPersonal(d.personal);
    if |d.personal.summary| > 50 {
      base := base + 10;
    } else if d.personal.summary != "" {
      base := base + 5;
    }
    if skillCount >= 10 {
      base := base + 15;
    } else if skillCount >= 5 {
      base := base + 10;
    } else if skillCount > 0 {
      base := base + 5;
    }
    if serializedLength > 500 && serializedLength < 5000 {
      base := base + 10;
    } else if serializedLength > 200 {
      base := base + 5;
    }
  }

  /** The experience and education branches of `calculateATSScore`, times
      the denominator. */
  method AccumulateLists(d: Document) returns (total: int)
    ensures total == ListPoints(d)
  {
    var exps := |d.experience|;
    var edus := |d.education|;
    var n := NonZero(exps);
    var m := NonZero(edus);
    var den := n * m;
    total := 0;
    if exps > 0 {
      total := total + 10 * den + 15 * CountCompleteExperience(d.experience) * m;
      if AnyMetric(d.experience) {
        total := total + 5 * den;
      }
    }
    if edus > 0 {
      total := total + 8 * den + 7 * CountCompleteEducation(d.education) * n;
    }
  }

  // ---------------------------------------------------------------------
  // Properties of the score
  // ---------------------------------------------------------------------

  lemma MulLe(a: nat, b: nat, c: nat)
    requires a <= b
    ensures a * c <= b * c
  {
  }

  lemma DivBelow(a: nat, b: nat, q: nat)
    requires b > 0 && a < q * b
    ensures a / b < q
  {
    var k := a / b;
    assert k * b <= a;
    if k >= q {
      MulLe(q, k, b);
      assert false;
    }
  }

  lemma DivMono(a: nat, b: nat, den: nat)
    requires a <= b && den > 0
    ensures a / den <= b / den
  {
    var x := a / den;
    var y := b / den;
    assert x * den <= a;
    assert b < (y + 1) * den;
    if x > y {
      MulLe(y + 1, x, den);
      assert false;
    }
  }

  /** Division with a known quotient and remainder. */
  lemma DivUnique(a: nat, b: nat, q: nat, r: nat)
    requires b > 0 && r < b && a == q * b + r
    ensures a / b == q
  {
    var k := a / b;
    assert a == k * b + a % b;
    if k < q {
      MulLe(k + 1, q, b);
      assert false;
    } else if k > q {
      MulLe(q + 1, k, b);
      assert false;
    }
  }

  /** A whole number of points is not changed by rounding. */
  lemma RoundWhole(t: nat, den: nat)
    requires den > 0
    ensures RoundHalfUp(t * den, den) == t
  {
    assert 2 * (t * den) + den == t * (2 * den) + den;
    DivUnique(2 * (t * den) + den, 2 * den, t, den);
  }

  /** The components add up to at most 20 + 10 + 30 + 15 + 15 + 10 = 100. */
  lemma {:induction false} ScaledTotalAtMost100(base: nat, exps: nat, completeExps: nat, metric: bool,
                                                edus: nat, completeEdus: nat)
    requires base <= 55 && completeExps <= exps && completeEdus <= edus
    ensures ScaledTotal(base, exps, completeExps, metric, edus, completeEdus)
         <= 100 * (NonZero(exps) * NonZero(edus))
  {
    var n := NonZero(exps);
    var m := NonZero(edus);
    var den := n * m;
    MulLe(base, 55, den);
    var e := if exps == 0 then 0 else (10 + (if metric then 5 else 0)) * den + 15 * completeExps * m;
    if exps > 0 {
      MulLe(completeExps, n, m);
      assert 15 * completeExps * m == 15 * (completeExps * m);
    }
    assert e <= 30 * den;
    var f := if edus == 0 then 0 else 8 * den + 7 * completeEdus * n;
    if edus > 0 {
      MulLe(completeEdus, m, n);
      assert 7 * completeEdus * n == 7 * (completeEdus * n);
      assert m * n == den;
    }
    assert f <= 15 * den;
  }

  /** The rounded score never exceeds 100, so the cap in `Math.min` never
      changes it. */
  lemma RawScoreAtMost100(d: Document, serializedLength: nat)
    ensures ScaledScore(d, serializedLength) <= 100 * Denominator(d)
    ensures RoundHalfUp(ScaledScore(d, serializedLength), Denominator(d)) <= 100
    ensures Score(d, serializedLength) == RoundHalfUp(ScaledScore(d, serializedLength), Denominator(d))
  {
    ScaledTotalAtMost100(BasePoints(d, serializedLength),
                         |d.experience|, CountCompleteExperience(d.experience), AnyMetric(d.experience),
                         |d.education|, CountCompleteEducation(d.education));
    var total := ScaledScore(d, serializedLength);
    var den := Denominator(d);
    DivBelow(2 * total + den, 2 * den, 101);
  }

  /** More base points never give a smaller total. */
  lemma ScaledTotalMonotoneInBase(base: nat, base': nat, exps: nat, completeExps: nat, metric: bool,
                                  edus: nat, completeEdus: nat)
    requires base <= base'
    ensures ScaledTotal(base, exps, completeExps, metric, edus, completeEdus)
         <= ScaledTotal(base', exps, completeExps, metric, edus, completeEdus)
  {
    MulLe(base, base', NonZero(exps) * NonZero(edus));
  }

  /** Filling more of the personal fields never lowers the score. */
  lemma ScoreMonotoneInPersonal(d: Document, p: Personal, serializedLength: nat)
    requires FilledPersonal(p) >= FilledPersonal(d.personal)
    requires p.summary == d.personal.summary
    ensures Score(d.(personal := p), serializedLength) >= Score(d, serializedLength)
  {
    var d' := d.(personal := p);
    var den := Denominator(d);
    assert Denominator(d') == den;
    assert BasePoints(d, serializedLength) <= BasePoints(d', serializedLength);
    ScaledTotalMonotoneInBase(BasePoints(d, serializedLength), BasePoints(d', serializedLength),
                              |d.experience|, CountCompleteExperience(d.experience), AnyMetric(d.experience),
                              |d.education|, CountCompleteEducation(d.education));
    var s := ScaledScore(d, serializedLength);
    var s' := ScaledScore(d', serializedLength);
    assert s <= s';
    RoundMono(s, s', den);
  }

  /** Rounding is monotone. */
  lemma RoundMono(s: nat, s': nat, den: nat)
    requires s <= s' && den > 0
    ensures RoundHalfUp(s, den) <= RoundHalfUp(s', den)
  {
    DivMono(2 * s + den, 2 * s' + den, 2 * den);
  }

  /** A document with nothing but a non-blank name scores 5 points for the name
      plus the length component. */
  lemma NameOnlyScore(name: string, serializedLength: nat)
    requires Filled(name)
    ensures Score(EmptyDocument.(personal := EmptyPersonal.(fullName := name)), serializedLength)
         == 5 + LengthPoints(serializedLength)
  {
    var d := EmptyDocument.(personal := EmptyPersonal.(fullName := name));
    assert !Filled("") by { assert Trim("") == []; }
    assert FilledPersonal(d.personal) == 1;
    assert Split("", ',') == [[]];
    assert SkillCount("") == 0 by { assert Trim([]) == []; }
    var t := 5 + LengthPoints(serializedLength);
    assert ScaledScore(d, serializedLength) == t * 1;
    RoundWhole(t, 1);
  }

  /** Skills alone give exactly the skills tier for the number of non-blank
      comma-separated pieces, plus the length component. */
  lemma SkillsOnlyScore(skills: string, serializedLength: nat)
    ensures Score(EmptyDocument.(skills := skills), serializedLength)
         == SkillsPoints(SkillCount(skills)) + LengthPoints(serializedLength)
  {
    var d := EmptyDocument.(skills := skills);
    assert !Filled("") by { assert Trim("") == []; }
    assert FilledPersonal(d.personal) == 0;
    var t := SkillsPoints(SkillCount(skills)) + LengthPoints(serializedLength);
    assert ScaledScore(d, serializedLength) == t * 1;
    RoundWhole(t, 1);
  }

  // ---------------------------------------------------------------------
  // Score category
  // ---------------------------------------------------------------------

  datatype Category = Excellent | Good | Fair | NeedsImprovement {
    function Label(): string {
      match this
      case Excellent => "Excellent"
      case Good => "Good"
      case Fair => "Fair"
      case NeedsImprovement => "Needs Improvement"
    }
    function Color(): string {
      match this
      case Excellent => "#10b981"
      case Good => "#3b82f6"
      case Fair => "#f59e0b"
      case NeedsImprovement => "#ef4444"
    }
    /** Position from the worst band (0) to the best (3). */
    function Rank(): nat {
      match this
      case NeedsImprovement => 0
      case Fair => 1
      case Good => 2
      case Excellent => 3
    }
  }

  /** `getScoreCategory`: bands at 80, 60 and 40. */
  function ScoreCategory(score: int): Category {
    if score >= 80 then Excellent
    else if score >= 60 then Good
    else if score >= 40 then Fair
    else NeedsImprovement
  }

  /** A higher score never falls in a lower band. */
  lemma CategoryMonotone(s: int, t: int)
    requires s <= t
    ensures ScoreCategory(s).Rank() <= ScoreCategory(t).Rank()
  {
  }

  /** Each band is entered exactly at its threshold. */
  lemma CategoryThresholds(s: int)
    ensures ScoreCategory(s) == Excellent <==> s >= 80
    ensures ScoreCategory(s) == Good <==> 60 <= s < 80
    ensures ScoreCategory(s) == Fair <==> 40 <= s < 60
    ensures ScoreCategory(s) == NeedsImprovement <==> s < 40
  {
  }

  // ---------------------------------------------------------------------
  // Recommendations
  // ---------------------------------------------------------------------

  /** The five recommendations, declared in the order they are considered. */
  datatype Advice = AddSummary | AddExperience | AddEducation | AddSkills | AddMetrics {
    function Message(): string {
      match this
      case AddSummary => "Add a professional summary (at least 50 characters)"
      case AddExperience => "Add work experience to strengthen your resume"
      case AddEducation => "Include your educational background"
      case AddSkills => "List more skills (aim for at least 5-10)"
      case AddMetrics => "Add quantifiable achievements (numbers, percentages) to experience"
    }
    function Rank(): nat {
      match this
      case AddSummary => 0
      case AddExperience => 1
      case AddEducation => 2
      case AddSkills => 3
      case AddMetrics => 4
    }
  }

  /** The five recommendations in the order they are considered. */
  const AllAdvice := [AddSummary, AddExperience, AddEducation, AddSkills, AddMetrics]

  /** The condition under which each recommendation is given. */
  predicate Needs(d: Document, a: Advice) {
    match a
    case AddSummary => d.personal.summary == "" || |d.personal.summary| < 50
    case AddExperience => |d.experience| == 0
    case AddEducation => |d.education| == 0
    case AddSkills => SkillCount(d.skills) < 5
    case AddMetrics => |d.experience| > 0 && !AnyMetric(d.experience)
  }

  /** The candidates whose condition holds, in candidate order. */
  function Select(d: Document, candidates: seq<Advice>): (r: seq<Advice>)
    ensures |r| <= |candidates|
  {
    if candidates == [] then []
    else
      var last := candidates[|candidates| - 1];
      Select(d, candidates[..|candidates| - 1]) + (if Needs(d, last) then [last] else [])
  }

  /** What `getATSRecommendations` returns. */
  function Recommendations(d: Document): seq<Advice> {
    Select(d, AllAdvice)
  }

  /** `getATSRecommendations`: pushes one recommendation per unmet condition. */
  method GetATSRecommendations(d: Document) returns (recs: seq<Advice>)
    ensures recs == Recommendations(d)
  {
    SkillCountEmpty();
    recs := [];
    if d.personal.summary == "" || |d.personal.summary| < 50 {
      recs := recs + [AddSummary];
    }
    assert recs == Pick(d, AddSummary);
    if |d.experience| == 0 {
      recs := recs + [AddExperience];
    }
    assert recs == Pick(d, AddSummary) + Pick(d, AddExperience);
    if |d.education| == 0 {
      recs := recs + [AddEducation];
    }
    assert recs == Pick(d, AddSummary) + Pick(d, AddExperience) + Pick(d, AddEducation);
    var skillCount := if d.skills != "" then SkillCount(d.skills) else 0;
    if skillCount < 5 {
      recs := recs + [AddSkills];
    }
    assert recs == Pick(d, AddSummary) + Pick(d, AddExperience) + Pick(d, AddEducation) + Pick(d, AddSkills);
    var hasMetrics := AnyMetric(d.experience);
    if !hasMetrics && |d.experience| > 0 {
      recs := recs + [AddMetrics];
    }
    RecommendationsUnrolled(d);
  }

  /** A candidate on its own: itself when needed, otherwise nothing. */
  function Pick(d: Document, a: Advice): seq<Advice> {
    if Needs(d, a) then [a] else []
  }

  /** The specified recommendations, candidate by candidate. */
  lemma RecommendationsUnrolled(d: Document)
    ensures Recommendations(d) == Pick(d, AddSummary) + Pick(d, AddExperience) + Pick(d, AddEducation) +
      Pick(d, AddSkills) + Pick(d, AddMetrics)
  {
    assert AllAdvice[..0] == [];
    SelectNext(d, 0);
    assert Select(d, AllAdvice[..1]) == Pick(d, AddSummary);
    SelectNext(d, 1);
    SelectNext(d, 2);
    SelectNext(d, 3);
    SelectNext(d, 4);
    assert AllAdvice[..5] == AllAdvice;
  }

  /** One more candidate considered: it is appended exactly when it is needed. */
  lemma SelectNext(d: Document, i: nat)
    requires i < |AllAdvice|
    ensures Select(d, AllAdvice[..i + 1]) == Select(d, AllAdvice[..i]) + Pick(d, AllAdvice[i])
  {
    assert AllAdvice[..i + 1][..i] == AllAdvice[..i];
  }

  /** `Select` keeps exactly the candidates whose condition holds. */
  lemma {:induction false} SelectMembers(d: Document, candidates: seq<Advice>, a: Advice)
    ensures a in Select(d, candidates) <==> a in candidates && Needs(d, a)
  {
    if candidates != [] {
      var init := candidates[..|candidates| - 1];
      SelectMembers(d, init, a);
      assert candidates == init + [candidates[|candidates| - 1]];
    }
  }

  /** `Select` keeps the candidates' order. */
  lemma {:induction false} SelectOrdered(d: Document, candidates: seq<Advice>)
    requires forall i, j :: 0 <= i < j < |candidates| ==> candidates[i].Rank() < candidates[j].Rank()
    ensures forall i, j :: 0 <= i < j < |Select(d, candidates)| ==>
      Select(d, candidates)[i].Rank() < Select(d, candidates)[j].Rank()
  {
    if candidates != [] {
      var init := candidates[..|candidates| - 1];
      var last := candidates[|candidates| - 1];
      SelectOrdered(d, init);
      forall a | a in Select(d, init) ensures a.Rank() < last.Rank() {
        SelectMembers(d, init, a);
      }
    }
  }

  /** `Select` drops nothing only when every candidate's condition holds. */
  lemma {:induction false} SelectFull(d: Document, candidates: seq<Advice>)
    requires |Select(d, candidates)| == |candidates|
    ensures forall a :: a in candidates ==> Needs(d, a)
  {
    if candidates != [] {
      var init := candidates[..|candidates| - 1];
      SelectFull(d, init);
      assert candidates == init + [candidates[|candidates| - 1]];
    }
  }

  /** Each recommendation appears exactly when its condition holds. */
  lemma RecommendationsMembers(d: Document)
    ensures AddSummary in Recommendations(d) <==> (d.personal.summary == "" || |d.personal.summary| < 50)
    ensures AddExperience in Recommendations(d) <==> |d.experience| == 0
    ensures AddEducation in Recommendations(d) <==> |d.education| == 0
    ensures AddSkills in Recommendations(d) <==> SkillCount(d.skills) < 5
    ensures AddMetrics in Recommendations(d) <==> (|d.experience| > 0 && !AnyMetric(d.experience))
  {
    SelectMembers(d, AllAdvice, AddSummary);
    SelectMembers(d, AllAdvice, AddExperience);
    SelectMembers(d, AllAdvice, AddEducation);
    SelectMembers(d, AllAdvice, AddSkills);
    SelectMembers(d, AllAdvice, AddMetrics);
  }

  /** The recommendations come in the fixed order, and never more than four at
      once: missing experience and missing metrics in the experience cannot
      both be reported. */
  lemma RecommendationsOrderedAndBounded(d: Document)
    ensures forall i, j :: 0 <= i < j < |Recommendations(d)| ==>
      Recommendations(d)[i].Rank() < Recommendations(d)[j].Rank()
    ensures |Recommendations(d)| <= 4
  {
    SelectOrdered(d, AllAdvice);
    assert AddExperience in AllAdvice && AddMetrics in AllAdvice;
    if |Recommendations(d)| == 5 {
      SelectFull(d, AllAdvice);
      assert false;
    }
  }

  /** At exactly 50 characters the score treats the summary as short (+5, since
      it needs more than 50) while the recommendations treat it as long enough
      (they ask only below 50). */
  lemma SummaryBoundaryAt50(summary: string)
    requires |summary| == 50
    ensures SummaryPoints(summary) == 5
    ensures !(summary == "" || |summary| < 50)
  {
  }
}

/** The resume-text importer: first-match extraction of e-mail and phone,
    the first non-blank line as the name, and keyword-anchored skills and
    summary slices. */
module ResumeParser {
  import opened Text
  import opened Content
  import opened Wrappers

  // ---------------------------------------------------------------------
  // The two patterns, and a backtracking matcher for the regular-expression
  // fragment they are written in: character classes with greedy counted
  // repetition, and a greedy optional group of such atoms.
  // ---------------------------------------------------------------------

  datatype CharClass = Digit | Plus | OpenParen | CloseParen | Separator | EmailChar | At | Dot

  predicate In(c: CharClass, ch: char) {
    match c
    case Digit => IsDigit(ch)
    case Plus => ch == '+'
    case OpenParen => ch == '('
    case CloseParen => ch == ')'
    case Separator => ch == '-' || ch == '.' || IsSpace(ch)     // [-.\s]
    case EmailChar => IsAsciiLetter(ch) || IsDigit(ch) || ch == '.' || ch == '_' || ch == '-'
    case At => ch == '@'
    case Dot => ch == '.'
  }

  datatype Bound = UpTo(n: nat) | Unbounded

  /** `cls{min,max}`, greedy; `cls+` has an unbounded maximum. */
  datatype Atom = Atom(cls: CharClass, min: nat, max: Bound)

  /** An atom, or `(a1 a2 …)?` over atoms. */
  datatype Elem = One(a: Atom) | Optional(group: seq<Atom>)

  predicate Within(k: nat, b: Bound) {
    b.Unbounded? || k <= b.n
  }

  predicate AllIn(w: string, c: CharClass) {
    forall i :: 0 <= i < |w| ==> In(c, w[i])
  }

  /** `[a-zA-Z0-9._-]+@[a-zA-Z0-9._-]+\.[a-zA-Z0-9._-]+` */
  const EmailPattern: seq<Elem> := [
    One(Atom(EmailChar, 1, Unbounded)), One(Atom(At, 1, UpTo(1))),
    One(Atom(EmailChar, 1, Unbounded)), One(Atom(Dot, 1, UpTo(1))),
    One(Atom(EmailChar, 1, Unbounded))]

  /** `(\+?\d{1,3}[-.\s]?)?\(?\d{3}\)?[-.\s]?\d{3}[-.\s]?\d{4}` */
  const PhonePattern: seq<Elem> := [
    Optional([Atom(Plus, 0, UpTo(1)), Atom(Digit, 1, UpTo(3)), Atom(Separator, 0, UpTo(1))]),
    One(Atom(OpenParen, 0, UpTo(1))), One(Atom(Digit, 3, UpTo(3))),
    One(Atom(CloseParen, 0, UpTo(1))), One(Atom(Separator, 0, UpTo(1))),
    One(Atom(Digit, 3, UpTo(3))), One(Atom(Separator, 0, UpTo(1))),
    One(Atom(Digit, 4, UpTo(4)))]

  function Ones(g: seq<Atom>): (r: seq<Elem>)
    ensures |r| == |g|
    ensures forall i :: 0 <= i < |g| ==> r[i] == One(g[i])
  {
    if g == [] then [] else [One(g[0])] + Ones(g[1..])
  }

  function Weight(e: Elem): nat {
    match e
    case One(_) => 1
    case Optional(g) => |g| + 1
  }

  /** A measure that opening an optional group decreases. */
  function Size(elems: seq<Elem>): nat {
    if elems == [] then 0 else Weight(elems[0]) + Size(elems[1..])
  }

  lemma {:induction false} SizeOnes(g: seq<Atom>, rest: seq<Elem>)
    ensures Size(Ones(g) + rest) == |g| + Size(rest)
  {
    if g == [] {
      assert Ones(g) + rest == rest;
    } else {
      assert (Ones(g) + rest)[0] == One(g[0]);
      assert (Ones(g) + rest)[1..] == Ones(g[1..]) + rest;
      SizeOnes(g[1..], rest);
    }
  }

  /** The language of a pattern, declaratively. */
  predicate InLang(w: string, elems: seq<Elem>)
    decreases Size(elems)
  {
    if elems == [] then w == []
    else match elems[0]
      case One(a) =>
        exists k :: a.min <= k <= |w| && Within(k, a.max) && AllIn(w[..k], a.cls) && InLang(w[k..], elems[1..])
      case Optional(g) =>
        SizeOnes(g, elems[1..]);
        InLang(w, Ones(g) + elems[1..]) || InLang(w, elems[1..])
  }

  /** How many characters of class `c` follow `pos`, at most `cap`. */
  function Run(s: string, pos: nat, c: CharClass, cap: nat): (n: nat)
    requires pos <= |s|
    decreases cap
    ensures n <= cap && pos + n <= |s|
    ensures AllIn(s[pos..pos + n], c)
    ensures n < cap && pos + n < |s| ==> !In(c, s[pos + n])
  {
    if cap == 0 || pos == |s| || !In(c, s[pos]) then 0
    else
      var m := Run(s, pos + 1, c, cap - 1);
      assert s[pos..pos + 1 + m] == [s[pos]] + s[pos + 1..pos + 1 + m];
      1 + m
  }

  function Cap(b: Bound, s: string): nat {
    match b
    case UpTo(n) => n
    case Unbounded => |s|
  }

  /** The end of the match of `elems` at `pos` that backtracking finds first:
      greedy atoms try their longest run first, an optional group is tried
      before it is skipped. */
  function MatchAt(s: string, pos: nat, elems: seq<Elem>): Option<nat>
    requires pos <= |s|
    decreases Size(elems), 1, 0
  {
    if elems == [] then Some(pos)
    else match elems[0]
      case One(a) =>
        Greedy(s, pos, a, Run(s, pos, a.cls, Cap(a.max, s)), elems[1..])
      case Optional(g) =>
        SizeOnes(g, elems[1..]);
        var first := MatchAt(s, pos, Ones(g) + elems[1..]);
        if first.Some? then first else MatchAt(s, pos, elems[1..])
  }

  /** Tries `k`, `k - 1`, …, `a.min` repetitions of `a` before `rest`. */
  function Greedy(s: string, pos: nat, a: Atom, k: nat, rest: seq<Elem>): Option<nat>
    requires pos + k <= |s|
    decreases Size(rest) + 1, 0, k
  {
    if k < a.min then None
    else
      var r := MatchAt(s, pos + k, rest);
      if r.Some? then r
      else if k == 0 then None
      else Greedy(s, pos, a, k - 1, rest)
  }

  /** Every match the matcher reports is a word of the pattern's language. */
  lemma {:induction false} MatchSound(s: string, pos: nat, elems: seq<Elem>)
    requires pos <= |s|
    ensures MatchAt(s, pos, elems).Some? ==>
      pos <= MatchAt(s, pos, elems).value <= |s| && InLang(s[pos..MatchAt(s, pos, elems).value], elems)
    decreases Size(elems), 1, 0
  {
    if elems != [] {
      match elems[0]
      case One(a) =>
        GreedySound(s, pos, a, Run(s, pos, a.cls, Cap(a.max, s)), elems, Cap(a.max, s));
      case Optional(g) =>
        SizeOnes(g, elems[1..]);
        MatchSound(s, pos, Ones(g) + elems[1..]);
        MatchSound(s, pos, elems[1..]);
    }
  }

  lemma {:induction false} GreedySound(s: string, pos: nat, a: Atom, k: nat, elems: seq<Elem>, cap: nat)
    requires elems != [] && elems[0] == One(a) && cap == Cap(a.max, s)
    requires pos + k <= |s| && k <= cap && AllIn(s[pos..pos + k], a.cls)
    ensures Greedy(s, pos, a, k, elems[1..]).Some? ==>
      pos <= Greedy(s, pos, a, k, elems[1..]).value <= |s| &&
      InLang(s[pos..Greedy(s, pos, a, k, elems[1..]).value], elems)
    decreases Size(elems[1..]) + 1, 0, k
  {
    var rest := elems[1..];
    if k >= a.min {
      MatchSound(s, pos + k, rest);
      var r := MatchAt(s, pos + k, rest);
      if r.Some? {
        var w := s[pos..r.value];
        assert w[..k] == s[pos..pos + k];
        assert w[k..] == s[pos + k..r.value];
        assert Within(k, a.max);
      } else if k > 0 {
        assert s[pos..pos + (k - 1)] == s[pos..pos + k][..k - 1];
        GreedySound(s, pos, a, k - 1, elems, cap);
      }
    }
  }

  /** The matcher finds a match wherever the language has a word. */
  lemma {:induction false} MatchComplete(s: string, pos: nat, e: nat, elems: seq<Elem>)
    requires pos <= e <= |s| && InLang(s[pos..e], elems)
    ensures MatchAt(s, pos, elems).Some?
    decreases Size(elems), 1, 0
  {
    if elems != [] {
      match elems[0]
      case One(a) =>
        var k := OneSplit(s, pos, e, a, elems);
        MatchComplete(s, pos + k, e, elems[1..]);
        GreedyFromRun(s, pos, a, k, elems[1..]);
      case Optional(g) =>
        SizeOnes(g, elems[1..]);
        if InLang(s[pos..e], Ones(g) + elems[1..]) {
          MatchComplete(s, pos, e, Ones(g) + elems[1..]);
        } else {
          MatchComplete(s, pos, e, elems[1..]);
        }
    }
  }

  /** A word of `One(a)` followed by the rest splits after `k` characters of
      the class of `a`. */
  lemma OneSplit(s: string, pos: nat, e: nat, a: Atom, elems: seq<Elem>) returns (k: nat)
    requires pos <= e <= |s| && elems != [] && elems[0] == One(a) && InLang(s[pos..e], elems)
    ensures pos + k <= e && a.min <= k && Within(k, a.max)
    ensures AllIn(s[pos..pos + k], a.cls) && InLang(s[pos + k..e], elems[1..])
  {
    var w := s[pos..e];
    k :| a.min <= k <= |w| && Within(k, a.max) && AllIn(w[..k], a.cls) && InLang(w[k..], elems[1..]);
    assert w[k..] == s[pos + k..e];
    assert w[..k] == s[pos..pos + k];
  }

  /** If `k` repetitions of `a` can be followed by `rest`, the greedy search
      from the longest run finds some match. */
  lemma GreedyFromRun(s: string, pos: nat, a: Atom, k: nat, rest: seq<Elem>)
    requires pos + k <= |s| && a.min <= k && Within(k, a.max) && AllIn(s[pos..pos + k], a.cls)
    requires MatchAt(s, pos + k, rest).Some?
    ensures Greedy(s, pos, a, Run(s, pos, a.cls, Cap(a.max, s)), rest).Some?
  {
    var cap := Cap(a.max, s);
    RunCovers(s, pos, a.cls, cap, k);
    GreedyComplete(s, pos, a, Run(s, pos, a.cls, cap), k, rest);
  }

  /** A run of `k` class characters within the cap is no longer than `Run`. */
  lemma {:induction false} RunCovers(s: string, pos: nat, c: CharClass, cap: nat, k: nat)
    requires pos + k <= |s| && k <= cap && AllIn(s[pos..pos + k], c)
    ensures k <= Run(s, pos, c, cap)
    decreases k
  {
    if k > 0 {
      var u, v := s[pos..pos + k], s[pos + 1..pos + k];
      assert u[0] == s[pos];
      forall j | 0 <= j < |v| ensures In(c, v[j]) {
        assert v[j] == u[j + 1];
      }
      RunCovers(s, pos + 1, c, cap - 1, k - 1);
    }
  }

  lemma {:induction false} GreedyComplete(s: string, pos: nat, a: Atom, k: nat, j: nat, rest: seq<Elem>)
    requires pos + k <= |s| && a.min <= j <= k
    requires MatchAt(s, pos + j, rest).Some?
    ensures Greedy(s, pos, a, k, rest).Some?
    decreases k
  {
    if k > j && MatchAt(s, pos + k, rest).None? {
      GreedyComplete(s, pos, a, k - 1, j, rest);
    }
  }

  /** The leftmost match at or after `from`: `(start, end)`. */
  function FirstMatch(s: string, elems: seq<Elem>, from: nat): (r: Option<(nat, nat)>)
    requires from <= |s|
    decreases |s| - from
    ensures r.None? ==> forall b :: from <= b <= |s| ==> MatchAt(s, b, elems).None?
    ensures r.Some? ==> from <= r.value.0 <= |s| && MatchAt(s, r.value.0, elems) == Some(r.value.1)
    ensures r.Some? ==> forall b :: from <= b < r.value.0 ==> MatchAt(s, b, elems).None?
  {
    var m := MatchAt(s, from, elems);
    if m.Some? then Some((from, m.value))
    else if from == |s| then None
    else FirstMatch(s, elems, from + 1)
  }

  /** `s.match(/…/g)?.[0] ?? ''` */
  function FirstMatchText(s: string, elems: seq<Elem>): string {
    match FirstMatch(s, elems, 0)
    case None => ""
    case Some((b, e)) => MatchSound(s, b, elems); s[b..e]
  }

  /** What `s.match(pattern)[0]` promises: a word of the pattern's language
      starting where the leftmost match does, and `''` only when no slice of
      the text is in the language. */
  lemma FirstMatchTextSpec(s: string, elems: seq<Elem>)
    ensures FirstMatch(s, elems, 0).None? ==> FirstMatchText(s, elems) == ""
    ensures FirstMatch(s, elems, 0).None? <==> forall b, e :: 0 <= b <= e <= |s| ==> !InLang(s[b..e], elems)
    ensures FirstMatch(s, elems, 0).Some? ==>
      var (b, e) := FirstMatch(s, elems, 0).value;
      b <= e <= |s| && FirstMatchText(s, elems) == s[b..e] && InLang(s[b..e], elems) &&
      forall b', e' :: 0 <= b' < b && b' <= e' <= |s| ==> !InLang(s[b'..e'], elems)
  {
    var r := FirstMatch(s, elems, 0);
    forall b, e | 0 <= b <= e <= |s| && InLang(s[b..e], elems)
      ensures MatchAt(s, b, elems).Some?
    {
      MatchComplete(s, b, e, elems);
    }
    if r.Some? {
      MatchSound(s, r.value.0, elems);
    }
  }

  // ---------------------------------------------------------------------
  // Field extractors.
  // ---------------------------------------------------------------------

  function FirstEmail(text: string): string {
    FirstMatchText(text, EmailPattern)
  }

  function FirstPhone(text: string): string {
    FirstMatchText(text, PhonePattern)
  }

  /** `lines.filter(l => l.length > 0)[0] ?? ''` */
  function FirstNonEmpty(lines: seq<string>): (r: string)
    ensures r == "" <==> forall k :: 0 <= k < |lines| ==> lines[k] == ""
    ensures r != "" ==> exists k :: 0 <= k < |lines| && r == lines[k] && forall j :: 0 <= j < k ==> lines[j] == ""
  {
    if lines == [] then ""
    else if lines[0] != "" then lines[0]
    else
      var r := FirstNonEmpty(lines[1..]);
      assert r != "" ==> exists k :: 0 <= k < |lines[1..]| && r == lines[1..][k] && forall j :: 0 <= j < k ==> lines[1..][j] == "";
      r
  }

  /** The name: the first line that is not blank, trimmed. */
  function FirstNonBlankLine(text: string): string {
    FirstNonEmpty(TrimAll(Split(text, '\n')))
  }

  /** The first non-empty trimmed line: empty exactly when every line trims
      to nothing, else the trim of a line all of whose predecessors do. */
  lemma FirstNonEmptyTrimmed(lines: seq<string>)
    ensures FirstNonEmpty(TrimAll(lines)) == "" <==> forall k :: 0 <= k < |lines| ==> Trim(lines[k]) == ""
    ensures FirstNonEmpty(TrimAll(lines)) != "" ==>
      exists k :: 0 <= k < |lines| && FirstNonEmpty(TrimAll(lines)) == Trim(lines[k]) &&
        forall j :: 0 <= j < k ==> Trim(lines[j]) == ""
  {
  }

  /** The name is the trim of a line of the text before which every line is
      blank; it is empty exactly when every line is blank. */
  lemma NameIsFirstNonBlankLine(text: string)
    ensures FirstNonBlankLine(text) == "" <==>
      forall k :: 0 <= k < |Split(text, '\n')| ==> Trim(Split(text, '\n')[k]) == ""
    ensures FirstNonBlankLine(text) != "" ==>
      exists k :: 0 <= k < |Split(text, '\n')| && FirstNonBlankLine(text) == Trim(Split(text, '\n')[k]) &&
        forall j :: 0 <= j < k ==> Trim(Split(text, '\n')[j]) == ""
  {
    FirstNonEmptyTrimmed(Split(text, '\n'));
  }

  /** `s.replace(/\n/g, ', ')` */
  function NewlinesToCommas(s: string): (r: string)
    ensures '\n' !in r
    ensures |r| == |s| + CountChar(s, '\n')
  {
    if s == [] then []
    else (if s[0] == '\n' then ", " else [s[0]]) + NewlinesToCommas(s[1..])
  }

  /** The characters that are not white space, in order. */
  function NonSpace(s: string): string {
    if s == [] then [] else (if IsSpace(s[0]) then [] else [s[0]]) + NonSpace(s[1..])
  }

  lemma {:induction false} NonSpaceAppend(a: string, b: string)
    ensures NonSpace(a + b) == NonSpace(a) + NonSpace(b)
  {
    if a == [] {
      assert a + b == b;
    } else {
      assert (a + b)[0] == a[0];
      assert (a + b)[1..] == a[1..] + b;
      NonSpaceAppend(a[1..], b);
    }
  }

  lemma {:induction false} NonSpaceBlank(s: string)
    requires IsBlank(s)
    ensures NonSpace(s) == []
  {
    if s != [] {
      NonSpaceBlank(s[1..]);
    }
  }

  /** A word: a non-empty run of characters none of which is white space. */
  predicate IsWord(x: string) {
    x != [] && forall i :: 0 <= i < |x| ==> !IsSpace(x[i])
  }

  /** The maximal runs of non-white-space characters, in order: a character
      that is not white space joins the word of its successor when that one
      is not white space either, and starts a word of its own otherwise. */
  function Words(s: string): (w: seq<string>)
    decreases |s|
    ensures s != [] && !IsSpace(s[0]) ==> w != []
    ensures forall k :: 0 <= k < |w| ==> IsWord(w[k])
  {
    if s == [] then []
    else
      var rest := Words(s[1..]);
      if IsSpace(s[0]) then rest
      else if |s| > 1 && !IsSpace(s[1]) then
        assert IsWord([s[0]] + rest[0]) by {
          assert forall i :: 1 <= i < |[s[0]] + rest[0]| ==> ([s[0]] + rest[0])[i] == rest[0][i - 1];
        }
        [[s[0]] + rest[0]] + rest[1..]
      else [[s[0]]] + rest
  }

  /** Leading white space is not part of any word. */
  lemma {:induction false} WordsSkipBlank(s: string, n: nat)
    requires n <= |s| && forall i :: 0 <= i < n ==> IsSpace(s[i])
    ensures Words(s) == Words(s[n..])
  {
    if n > 0 {
      WordsSkipBlank(s[1..], n - 1);
      assert s[1..][n - 1..] == s[n..];
    } else {
      assert s[0..] == s;
    }
  }

  /** Trailing white space is not part of any word. */
  lemma {:induction false} WordsDropBlank(m: string, z: string)
    requires IsBlank(z)
    ensures Words(m + z) == Words(m)
  {
    if m == [] {
      assert m + z == z;
      WordsSkipBlank(z, |z|);
      assert z[..|z|] == z;
    } else {
      assert (m + z)[0] == m[0];
      assert (m + z)[1..] == m[1..] + z;
      WordsDropBlank(m[1..], z);
      if |m| == 1 && z != [] {
        assert (m + z)[1] == z[0];
      } else if |m| > 1 {
        assert (m + z)[1] == m[1];
      }
    }
  }

  /** Trimming keeps the words. */
  lemma WordsTrim(s: string)
    ensures Words(Trim(s)) == Words(s)
  {
    var i, j := TrimBounds(s);
    assert forall k :: 0 <= k < i ==> s[k] == s[..i][k];
    WordsSkipBlank(s, i);
    assert s[i..] == s[i..j] + s[j..];
    WordsDropBlank(s[i..j], s[j..]);
  }

  /** The text has no white space but single `' '` characters. */
  predicate SingleSpaced(r: string) {
    (forall i :: 0 <= i < |r| && IsSpace(r[i]) ==> r[i] == ' ') &&
    (forall i :: 0 <= i < |r| - 1 ==> !(IsSpace(r[i]) && IsSpace(r[i + 1])))
  }

  /** `s.replace(/\s+/g, ' ')`: each run of white space becomes one space,
      and the text starts with a space exactly when it started with white
      space. */
  function CollapseSpaces(s: string): (r: string)
    decreases |s|
    ensures SingleSpaced(r)
    ensures r == [] <==> s == []
    ensures r != [] && r[0] == ' ' <==> s != [] && IsSpace(s[0])
    ensures NonSpace(r) == NonSpace(s)
  {
    if s == [] then []
    else if IsSpace(s[0]) then
      var n := LeadingSpaces(s);
      var rest := CollapseSpaces(s[n..]);
      assert s == s[..n] + s[n..];
      NonSpaceAppend(s[..n], s[n..]);
      NonSpaceBlank(s[..n]);
      NonSpaceAppend(" ", rest);
      [' '] + rest
    else
      var rest := CollapseSpaces(s[1..]);
      assert s == [s[0]] + s[1..];
      NonSpaceAppend([s[0]], s[1..]);
      NonSpaceAppend([s[0]], rest);
      [s[0]] + rest
  }

  /** Collapsing keeps the words: no two words are joined and none is split. */
  lemma {:induction false} CollapseKeepsWords(s: string)
    decreases |s|
    ensures Words(CollapseSpaces(s)) == Words(s)
  {
    if s != [] {
      var r := CollapseSpaces(s);
      if IsSpace(s[0]) {
        var n := LeadingSpaces(s);
        CollapseKeepsWords(s[n..]);
        WordsSkipBlank(s, n);
        assert r[1..] == CollapseSpaces(s[n..]);
      } else {
        var rest := CollapseSpaces(s[1..]);
        CollapseKeepsWords(s[1..]);
        assert r[1..] == rest;
        assert rest != [] ==> IsSpace(rest[0]) == IsSpace(s[1]);
      }
    }
  }

  /** The text ends with a space exactly when it ended with white space. */
  lemma {:induction false} CollapseTrailing(s: string)
    decreases |s|
    ensures var r := CollapseSpaces(s);
      r != [] && r[|r| - 1] == ' ' <==> s != [] && IsSpace(s[|s| - 1])
  {
    if s != [] {
      if IsSpace(s[0]) {
        var n := LeadingSpaces(s);
        CollapseTrailing(s[n..]);
        if n < |s| {
          assert s[n..][|s[n..]| - 1] == s[|s| - 1];
        }
      } else {
        CollapseTrailing(s[1..]);
        if |s| > 1 {
          assert s[1..][|s[1..]| - 1] == s[|s| - 1];
        }
      }
    }
  }

  /** Slicing keeps text single-spaced. */
  lemma SingleSpacedSlice(r: string, i: nat, j: nat)
    requires SingleSpaced(r) && i <= j <= |r|
    ensures SingleSpaced(r[i..j])
  {
    var t := r[i..j];
    assert forall k :: 0 <= k < |t| ==> t[k] == r[i + k];
  }

  /** White space around a middle part adds no non-space characters. */
  lemma NonSpaceMiddle(a: string, m: string, z: string)
    requires IsBlank(a) && IsBlank(z)
    ensures NonSpace(a + m + z) == NonSpace(m)
  {
    NonSpaceAppend(a + m, z);
    NonSpaceAppend(a, m);
    NonSpaceBlank(a);
    NonSpaceBlank(z);
  }

  /** Trimming drops only white space. */
  lemma TrimNonSpace(s: string)
    ensures NonSpace(Trim(s)) == NonSpace(s)
  {
    var i, j := TrimBounds(s);
    assert s == s[..i] + s[i..j] + s[j..] by {
      assert s[..i] + s[i..j] == s[..j];
    }
    NonSpaceMiddle(s[..i], s[i..j], s[j..]);
  }

  /** `text.toLowerCase().indexOf('skills')`, and the chunk of at most 294
      characters from 6 to 300 past it. */
  function SkillsChunk(text: string): Option<string> {
    var idx := IndexOf(Lower(text), "skills", 0);
    if idx == -1 then None else Some(Substring(text, idx + 6, idx + 300))
  }

  /** `.replace(/\n/g, ', ').replace(/\s+/g, ' ').trim()` */
  function CleanSkills(chunk: string): string {
    Trim(CollapseSpaces(NewlinesToCommas(chunk)))
  }

  /** Cleaning keeps the visible characters (newlines become commas) and
      leaves the text trimmed and single-spaced, so without newlines. */
  lemma CleanSkillsShape(chunk: string)
    ensures var r := CleanSkills(chunk);
      '\n' !in r && SingleSpaced(r) && (r == [] || (r[0] != ' ' && r[|r| - 1] != ' ')) &&
      NonSpace(r) == NonSpace(NewlinesToCommas(chunk))
  {
    var c := CollapseSpaces(NewlinesToCommas(chunk));
    TrimNonSpace(c);
    var i, j := TrimBounds(c);
    SingleSpacedSlice(c, i, j);
    var r := Trim(c);
    forall k | 0 <= k < |r| ensures r[k] != '\n' {
      if r[k] == '\n' {
        assert IsSpace(r[k]);
      }
    }
    assert r == [] || (IsSpace(' ') && r[0] != ' ' && r[|r| - 1] != ' ');
  }

  /** Cleaning keeps the words of the chunk once newlines are commas:
      no two are joined, none is split and none is lost. */
  lemma CleanSkillsWords(chunk: string)
    ensures Words(CleanSkills(chunk)) == Words(NewlinesToCommas(chunk))
  {
    var c := CollapseSpaces(NewlinesToCommas(chunk));
    WordsTrim(c);
    CollapseKeepsWords(NewlinesToCommas(chunk));
  }

  function SkillsText(text: string): string {
    match SkillsChunk(text)
    case None => ""
    case Some(chunk) => CleanSkills(chunk)
  }

  /** Skills are `''` unless `skills` occurs ignoring case; then the chunk is
      the text from 6 to (at most) 300 characters past the first occurrence. */
  lemma SkillsLocated(text: string)
    ensures SkillsChunk(text).None? <==> forall k :: !OccursAt(Lower(text), "skills", k)
    ensures SkillsChunk(text).None? ==> SkillsText(text) == ""
    ensures SkillsChunk(text).Some? ==>
      var idx := IndexOf(Lower(text), "skills", 0);
      (forall k :: 0 <= k < idx ==> !OccursAt(Lower(text), "skills", k)) &&
      OccursAt(Lower(text), "skills", idx) && idx + 6 <= |text| &&
      SkillsChunk(text).value == text[idx + 6..Min(idx + 300, |text|)] &&
      |SkillsChunk(text).value| <= 294 && SkillsText(text) == CleanSkills(SkillsChunk(text).value)
  {
    var idx := IndexOf(Lower(text), "skills", 0);
    if idx != -1 {
      assert OccursAt(Lower(text), "skills", idx);
      assert idx + 6 <= |text|;
      var chunk := text[idx + 6..Min(idx + 300, |text|)];
      assert SkillsChunk(text) == Some(chunk);
      assert |chunk| <= 294;
    }
  }

  /** Summary keywords, in the order they are tried. */
  const SummaryKeywords: seq<string> := ["summary", "profile", "about me"]

  /** The position in `keywords` of the first keyword that occurs anywhere in
      `lower`, or `|keywords|` when none does. */
  function FirstFound(lower: string, keywords: seq<string>): (j: nat)
    ensures j <= |keywords|
    ensures forall i :: 0 <= i < j ==> IndexOf(lower, keywords[i], 0) == -1
    ensures j < |keywords| ==> IndexOf(lower, keywords[j], 0) != -1
  {
    if keywords == [] || IndexOf(lower, keywords[0], 0) != -1 then 0
    else
      var j := FirstFound(lower, keywords[1..]);
      assert forall i :: 1 <= i < 1 + j ==> keywords[i] == keywords[1..][i - 1];
      1 + j
  }

  /** The position just past the first keyword of `keywords` (in list order)
      that occurs in `lower`, or -1. */
  function KeywordEnd(lower: string, keywords: seq<string>): (r: int)
    ensures r == -1 <==> forall j :: 0 <= j < |keywords| ==> IndexOf(lower, keywords[j], 0) == -1
    ensures r != -1 ==> FirstFound(lower, keywords) < |keywords|
    ensures r != -1 ==>
              r == IndexOf(lower, keywords[FirstFound(lower, keywords)], 0) + |keywords[FirstFound(lower, keywords)]|
    ensures -1 <= r <= |lower|
  {
    var j := FirstFound(lower, keywords);
    if j == |keywords| then -1 else IndexOf(lower, keywords[j], 0) + |keywords[j]|
  }

  /** An occurrence with no earlier character equal to the pattern's first
      is the first occurrence. */
  lemma IndexOfFirst(s: string, pat: string, i: nat)
    requires pat != [] && OccursAt(s, pat, i)
    requires forall k :: 0 <= k < i ==> s[k] != pat[0]
    ensures IndexOf(s, pat, 0) == i
  {
    var r := IndexOf(s, pat, 0);
    assert s[r..r + |pat|][0] == s[r];
  }

  /** The keyword earlier in the list wins even when another keyword occurs
      earlier in the text: in `profile\nsummary` the summary starts after
      `summary`, not after `profile`. */
  lemma KeywordOrderBeatsPosition()
    ensures OccursAt("profile\nsummary", "profile", 0)
    ensures KeywordEnd("profile\nsummary", SummaryKeywords) == 15
  {
    IndexOfFirst("profile\nsummary", "summary", 8);
  }

  /** The keyword loop: the first keyword that occurs anywhere wins. */
  method FindSummaryStart(text: string) returns (summaryIndex: int)
    ensures summaryIndex == KeywordEnd(Lower(text), SummaryKeywords)
  {
    summaryIndex := -1;
    var lower := Lower(text);
    var i := 0;
    while i < |SummaryKeywords|
      invariant 0 <= i <= |SummaryKeywords|
      invariant summaryIndex == -1
      invariant forall k :: 0 <= k < i ==> IndexOf(lower, SummaryKeywords[k], 0) == -1
    {
      var keyword := SummaryKeywords[i];
      var idx := IndexOf(lower, keyword, 0);
      if idx != -1 {
        summaryIndex := idx + |keyword|;
        assert FirstFound(lower, SummaryKeywords) == i;
        break;
      }
      i := i + 1;
    }
  }

  /** From the end of the keyword to the next blank line (`\n\n`), or 500
      characters when there is none, trimmed; `''` without a keyword. */
  function SummaryText(text: string, start: int): string
    requires -1 <= start <= |text|
  {
    if start == -1 then ""
    else
      var stop := IndexOf(text, "\n\n", start);
      Trim(Substring(text, start, if stop != -1 then stop else start + 500))
  }

  lemma SummaryExtraction(text: string, start: int)
    requires 0 <= start <= |text|
    ensures var stop := IndexOf(text, "\n\n", start);
      (stop != -1 ==> (SummaryText(text, start) == Trim(text[start..stop]) &&
        forall k :: start <= k < stop ==> !OccursAt(text, "\n\n", k))) &&
      (stop == -1 ==> SummaryText(text, start) == Trim(text[start..Min(start + 500, |text|)]))
  {
  }

  /** `parseResumeText`: fills the fields of a fresh record one by one;
      experience, education and the title are never filled. */
  method ParseResumeText(text: string) returns (d: Document)
    ensures d.experience == [] && d.education == [] && d.personal.title == ""
    ensures d.publications == [] && d.awards == []
    ensures d.personal.email == FirstEmail(text) && d.personal.phone == FirstPhone(text)
    ensures d.personal.fullName == FirstNonBlankLine(text)
    ensures d.skills == SkillsText(text)
    ensures d.personal.summary == SummaryText(text, KeywordEnd(Lower(text), SummaryKeywords))
  {
    d := EmptyDocument;
    var email := FirstMatch(text, EmailPattern, 0);
    if email.Some? {
      d := d.(personal := d.personal.(email := FirstEmail(text)));
    }
    var phone := FirstMatch(text, PhonePattern, 0);
    if phone.Some? {
      d := d.(personal := d.personal.(phone := FirstPhone(text)));
    }
    d := d.(personal := d.personal.(fullName := FirstNonBlankLine(text)));
    var chunk := SkillsChunk(text);
    if chunk.Some? {
      d := d.(skills := SkillsText(text));
    }
    var summaryIndex := FindSummaryStart(text);
    if summaryIndex != -1 {
      d := d.(personal := d.personal.(summary := SummaryText(text, summaryIndex)));
    }
  }
}

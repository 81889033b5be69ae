/** The category step: keyword flags computed from the job description and
    the four category cards they recommend. */
module CategoryPage {
  import opened Text

  const TechWords: seq<string> := ["developer", "software", "engineer", "code", "react", "node"]
  const CreativeWords: seq<string> := ["design", "art", "creative", "writer", "editor"]
  const AcademicWords: seq<string> := ["research", "professor", "phd", "student", "scholarship"]

  /** `s.match(/w1|w2|…/)` is truthy: some alternative occurs as a plain
      substring, not necessarily as a whole word. */
  function ContainsAny(s: string, words: seq<string>): (b: bool)
    ensures b <==> exists k :: 0 <= k < |words| && Contains(s, words[k])
  {
    if words == [] then false
    else Contains(s, words[0]) || ContainsAny(s, words[1..])
  }

  predicate IsTech(description: string) { ContainsAny(Lower(description), TechWords) }
  predicate IsCreative(description: string) { ContainsAny(Lower(description), CreativeWords) }
  predicate IsAcademic(description: string) { ContainsAny(Lower(description), AcademicWords) }

  /** A category card: the id handed on when it is chosen, and whether it
      carries the "Recommended" badge. */
  datatype Card = Card(id: string, caption: string, recommended: bool)

  function Categories(description: string): seq<Card> {
    var tech := IsTech(description);
    var creative := IsCreative(description);
    var academic := IsAcademic(description);
    [Card("job", "Technical / Engineering", tech),
     Card("creative", "Creative / Artistic", creative),
     Card("job", "Corporate / Professional", !tech && !creative && !academic),
     Card("scholarship", "Academic / Resume", academic)]
  }

  /** Each card's badge follows its flag; Corporate is recommended exactly
      when no flag holds, so some card always is, and several may be. */
  lemma Recommendation(description: string)
    ensures var cards := Categories(description);
      |cards| == 4 &&
      (cards[0].recommended <==> IsTech(description)) &&
      (cards[1].recommended <==> IsCreative(description)) &&
      (cards[3].recommended <==> IsAcademic(description)) &&
      (cards[2].recommended <==> !IsTech(description) && !IsCreative(description) && !IsAcademic(description))
    ensures exists k :: 0 <= k < |Categories(description)| && Categories(description)[k].recommended
  {
    var cards := Categories(description);
    if !cards[0].recommended && !cards[1].recommended && !cards[3].recommended {
      assert cards[2].recommended;
    }
  }

  /** The description is read without regard to letter case. */
  lemma FlagsIgnoreCase(d1: string, d2: string)
    requires Lower(d1) == Lower(d2)
    ensures Categories(d1) == Categories(d2)
  {
  }

  /** Technical and Corporate hand on the same id. */
  lemma SharedJobId(description: string)
    ensures Categories(description)[0].id == Categories(description)[2].id == "job"
    ensures Categories(description)[1].id == "creative" && Categories(description)[3].id == "scholarship"
  {
  }

  /** Choosing a card loads the purpose configuration for its id and then
      goes to the design step. */
  datatype Selection = Selection(purpose: string, route: string)

  function Select(cards: seq<Card>, i: nat): (r: Selection)
    requires i < |cards|
    ensures r.purpose == cards[i].id && r.route == "/designs"
  {
    Selection(cards[i].id, "/designs")
  }

  /** Whatever the description, every card leads to the design step,
      Technical and Corporate lead to the same purpose, and the three
      distinct purposes are reached by the other cards. */
  lemma SelectOutcomes(description: string)
    ensures var cards := Categories(description);
      forall i :: 0 <= i < |cards| ==> Select(cards, i).route == "/designs"
    ensures var cards := Categories(description);
      Select(cards, 0) == Select(cards, 2) &&
      Select(cards, 0) != Select(cards, 1) && Select(cards, 0) != Select(cards, 3) &&
      Select(cards, 1) != Select(cards, 3)
  {
    var cards := Categories(description);
    assert Select(cards, 0).purpose[0] == 'j' && Select(cards, 1).purpose[0] == 'c' && Select(cards, 3).purpose[0] == 's';
  }

  /** Words are matched inside other words: `start` counts as creative
      because it contains `art`. */
  lemma SubstringNotWord()
    ensures IsCreative("start")
  {
    var lower := Lower("start");
    assert lower == "start" by {
      assert lower[0] == 's' && lower[1] == 't' && lower[2] == 'a' && lower[3] == 'r' && lower[4] == 't';
    }
    assert OccursAt(lower, "art", 2);
    assert Contains(lower, CreativeWords[1]);
  }
}

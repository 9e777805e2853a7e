/**
 * The topic browser: the topic table narrowed by a difficulty filter, a
 * category filter and a case-insensitive search over title, description and
 * emotional context.
 */
module TopicsPage {
  import opened Types
  import opened Seqs
  import opened Text
  import opened MockData

  /** `'all' | 'beginner' | 'intermediate' | 'advanced'`. */
  datatype DifficultyFilter = AllDifficulties | OnlyDifficulty(level: Level)

  /** `'all' | 'Family' | 'Relationships' | 'Culture' | 'Personal'`. */
  datatype Category = Family | Relationships | Culture | Personal {
    function Name(): string {
      match this
      case Family => "Family"
      case Relationships => "Relationships"
      case Culture => "Culture"
      case Personal => "Personal"
    }
  }

  datatype CategoryFilter = AllCategories | OnlyCategory(category: Category)

  /** The three pieces of page state that decide which topics are listed. */
  datatype Filters = Filters(difficulty: DifficultyFilter, category: CategoryFilter, query: string)

  /** The state the page opens with, and the one "Reset Filters" returns to. */
  const Defaults: Filters := Filters(AllDifficulties, AllCategories, "")

  predicate PassesDifficulty(f: Filters, t: Topic) {
    f.difficulty.AllDifficulties? || t.difficulty == f.difficulty.level
  }

  predicate PassesCategory(f: Filters, t: Topic) {
    f.category.AllCategories? || t.category == f.category.category.Name()
  }

  /** An empty query matches everything; otherwise one of the three texts must contain it, ignoring case. */
  predicate MatchesQuery(query: string, t: Topic) {
    query == "" ||
    ContainsIgnoringCase(t.title, query) ||
    ContainsIgnoringCase(t.description, query) ||
    ContainsIgnoringCase(t.emotionalContext, query)
  }

  /** The filter callback: a kept topic has the chosen difficulty and category; the defaults keep everything. */
  predicate Keeps(f: Filters, t: Topic)
    ensures Keeps(f, t) && f.difficulty.OnlyDifficulty? ==> t.difficulty == f.difficulty.level
    ensures Keeps(f, t) && f.category.OnlyCategory? ==> t.category == f.category.category.Name()
    ensures f.difficulty.AllDifficulties? && f.category.AllCategories? && f.query == "" ==> Keeps(f, t)
  {
    PassesDifficulty(f, t) && PassesCategory(f, t) && MatchesQuery(f.query, t)
  }

  /** `filteredTopics`. */
  function FilteredTopics(f: Filters): (r: seq<Topic>)
    ensures forall t :: t in r <==> t in Topics && Keeps(f, t)
    ensures f.difficulty.OnlyDifficulty? ==> forall t :: t in r ==> t.difficulty == f.difficulty.level
    ensures f.category.OnlyCategory? ==> forall t :: t in r ==> t.category == f.category.category.Name()
    ensures |r| <= |Topics|
  {
    Filter(Topics, (t: Topic) => Keeps(f, t))
  }

  /** The listed topics keep the table's order. */
  lemma FilteredTopicsInOrder(f: Filters)
    ensures SubsequenceOf(FilteredTopics(f), Topics)
  {
    FilterIsSubsequence(Topics, (t: Topic) => Keeps(f, t));
  }

  /**
   * Among topics that pass the two filters, a non-empty query keeps exactly the
   * topics whose lowercased title, description or emotional context has the
   * lowercased query at some position.
   */
  lemma QueryKeepsIff(f: Filters, t: Topic)
    requires PassesDifficulty(f, t) && PassesCategory(f, t) && f.query != ""
    ensures Keeps(f, t) <==>
      (exists i: nat :: OccursAt(Lower(t.title), Lower(f.query), i)) ||
      (exists i: nat :: OccursAt(Lower(t.description), Lower(f.query), i)) ||
      (exists i: nat :: OccursAt(Lower(t.emotionalContext), Lower(f.query), i))
  {
    IncludesIff(Lower(t.title), Lower(f.query));
    IncludesIff(Lower(t.description), Lower(f.query));
    IncludesIff(Lower(t.emotionalContext), Lower(f.query));
  }

  /** With every filter at its default the whole table is listed. */
  lemma DefaultsShowAll()
    ensures FilteredTopics(Defaults) == Topics
  {
    FilterKeepsAll(Topics, (t: Topic) => Keeps(Defaults, t));
  }

  /** "Reset Filters": all three filters back to their defaults, so every topic is listed again. */
  function Reset(f: Filters): (r: Filters)
    ensures r.difficulty == AllDifficulties && r.category == AllCategories && r.query == ""
    ensures FilteredTopics(r) == Topics
  {
    DefaultsShowAll();
    Defaults
  }

  /** `text` has "family" or "Family" at position `i`, so a search for "Family" finds it. */
  lemma FamilyAt(text: string, i: nat)
    requires i + 6 <= |text|
    requires text[i..i + 6] == "family" || text[i..i + 6] == "Family"
    ensures ContainsIgnoringCase(text, "Family")
  {
    var q := Lower("Family");
    assert q == "family";
    forall k | 0 <= k < 6 ensures Lower(text)[i + k] == q[k] {
      assert text[i + k] == text[i..i + 6][k];
    }
    assert Lower(text)[i..i + 6] == q;
    IncludesAt(Lower(text), q, i);
  }

  lemma FamilyInTopic1()
    ensures ContainsIgnoringCase(Topics[0].title, "Family")
  {
    assert Topics[0].title[0..6] == "Family";
    FamilyAt(Topics[0].title, 0);
  }

  lemma FamilyInTopic2()
    ensures ContainsIgnoringCase(Topics[1].description, "Family")
  {
    assert Topics[1].description[60..66] == "family";
    FamilyAt(Topics[1].description, 60);
  }

  lemma FamilyInTopic6()
    ensures ContainsIgnoringCase(Topics[5].description, "Family")
  {
    assert Topics[5].description[52..58] == "family";
    FamilyAt(Topics[5].description, 52);
  }

  /** Searching for "Family" lists topic 1 (by its title), topic 2 and topic 6 (by their descriptions). */
  lemma FamilySearch()
    ensures Topics[0] in FilteredTopics(Filters(AllDifficulties, AllCategories, "Family"))
    ensures Topics[1] in FilteredTopics(Filters(AllDifficulties, AllCategories, "Family"))
    ensures Topics[5] in FilteredTopics(Filters(AllDifficulties, AllCategories, "Family"))
  {
    var f := Filters(AllDifficulties, AllCategories, "Family");
    FamilyInTopic1();
    FamilyInTopic2();
    FamilyInTopic6();
    assert Keeps(f, Topics[0]) && Keeps(f, Topics[1]) && Keeps(f, Topics[5]);
  }
}

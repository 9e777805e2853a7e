/** The static reference tables the pages read: conversation topics, scenarios and resources. */
module MockData {
  import opened Types
  import opened Seqs

  const Topics: seq<Topic> := [
    Topic("1", "Family Gatherings",
      "Practice conversations for family reunions, dinners, and celebrations.",
      "Family", "Warmth, nostalgia, belonging", Beginner, true),
    Topic("2", "Expressing Love and Appreciation",
      "Learn how to express deep feelings of love and gratitude to family members.",
      "Relationships", "Love, gratitude, vulnerability", Intermediate, true),
    Topic("3", "Cultural Traditions and Celebrations",
      "Discuss important cultural traditions, holidays, and ceremonies.",
      "Culture", "Pride, connection, celebration", Intermediate, true),
    Topic("4", "Cooking and Food",
      "Talk about traditional recipes, cooking techniques, and food memories.",
      "Culture", "Nostalgia, joy, sharing", Beginner, true),
    Topic("5", "Resolving Conflicts",
      "Practice difficult conversations about disagreements and misunderstandings.",
      "Relationships", "Tension, resolution, understanding", Advanced, true),
    Topic("6", "Childhood Memories",
      "Share stories and memories from your childhood with family members.",
      "Personal", "Nostalgia, joy, reflection", Intermediate, true)
  ]

  const Scenarios: seq<Scenario> := [
    Scenario("1", "1", "Family Dinner Conversation", [
      Prompt("1-1", 1),
      Prompt("1-2", 2),
      Prompt("1-3", 3),
      Prompt("1-4", 4)
    ]),
    Scenario("2", "2", "Expressing Gratitude to Parents", [
      Prompt("2-1", 1),
      Prompt("2-2", 2),
      Prompt("2-3", 3)
    ])
  ]

  const Resources: seq<Resource> := [
    Resource("1", "Heritage Language Learning: A Literature Review",
      "An academic article exploring the unique challenges and opportunities of heritage language learning.",
      Article, "English", ["research", "academic", "heritage language"]),
    Resource("2", "Reconnecting with Your Roots Through Language",
      "A podcast series featuring interviews with heritage language speakers who have reconnected with their cultural roots.",
      Podcast, "English", ["podcast", "personal stories", "cultural identity"]),
    Resource("3", "Cultural Phrases and Expressions",
      "A video series explaining common cultural phrases, idioms, and expressions in various languages.",
      Video, "Multiple", ["video", "phrases", "expressions", "idioms"]),
    Resource("4", "Heritage Language Communities Online",
      "A directory of online communities and forums for heritage language speakers.",
      Website, "English", ["community", "forums", "social"]),
    Resource("5", "Emotional Vocabulary in Your Heritage Language",
      "A guide to expressing emotions and feelings in different languages, with cultural context.",
      Book, "Multiple", ["emotions", "vocabulary", "cultural context"])
  ]

  /** The first scenario written for `topicId` (`conversationScenarios.find(s => s.topicId === id)`). */
  function ScenarioFor(topicId: string): (r: Option<Scenario>)
    ensures r.Some? ==> r.value in Scenarios && r.value.topicId == topicId && |r.value.prompts| > 0
    ensures r.None? ==> forall s :: s in Scenarios ==> s.topicId != topicId
  {
    Find(Scenarios, (s: Scenario) => s.topicId == topicId)
  }

  /** Scripted scenarios exist for topics "1" (four prompts) and "2" (three prompts) only. */
  lemma ScenarioCoverage(topicId: string)
    ensures ScenarioFor(topicId).Some? <==> topicId == "1" || topicId == "2"
    ensures topicId == "1" ==> |ScenarioFor(topicId).value.prompts| == 4
    ensures topicId == "2" ==> |ScenarioFor(topicId).value.prompts| == 3
  {
    var p := (s: Scenario) => s.topicId == topicId;
    assert Scenarios[0].topicId == "1" && Scenarios[1].topicId == "2";
    if topicId == "1" {
      FindFirst(Scenarios, p, 0);
    } else if topicId == "2" {
      FindFirst(Scenarios, p, 1);
    }
  }

  /** The predicate "its id is in `ids`". */
  function IdIn(ids: seq<string>): Topic -> bool {
    (t: Topic) => t.id in ids
  }

  /**
   * `conversationTopics.filter(topic => ids.includes(topic.id))`: the table's
   * topics named in `ids`, in table order; ids the table lacks are dropped.
   */
  function TopicsWithIds(ids: seq<string>): (r: seq<Topic>)
    ensures forall t :: t in r <==> t in Topics && t.id in ids
    ensures NoDuplicates(r)
    ensures SubsequenceOf(r, Topics)
  {
    TopicsDistinct();
    FilterNoDuplicates(Topics, IdIn(ids));
    FilterIsSubsequence(Topics, IdIn(ids));
    Filter(Topics, IdIn(ids))
  }

  /** Every topic of the table is a different record, so the table has no repeats. */
  lemma TopicsDistinct()
    ensures NoDuplicates(Topics)
  {
    forall i, j | 0 <= i < j < |Topics| ensures Topics[i] != Topics[j] {
      assert Topics[i].id != Topics[j].id;
    }
  }
}

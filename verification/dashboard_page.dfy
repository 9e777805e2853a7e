/**
 * The dashboard: once a language is chosen, up to three recommended topics at
 * the learner's level, up to three favourites and up to three completed
 * topics, each in table order.
 */
module DashboardPage {
  import opened Types
  import opened Seqs
  import opened MockData
  import opened ProfileStore

  /** How many topics each dashboard list shows at most (`slice(0, 3)`). */
  const ListLimit: nat := 3

  datatype View =
    | SetupRequired
    | Overview(recommended: seq<Topic>, favorites: seq<Topic>, completed: seq<Topic>, topicsCompleted: nat)

  /** `topic.difficulty === profile.proficiencyLevel`: never true while no level is set. */
  function AtLevel(level: Option<Level>): Topic -> bool {
    (t: Topic) => level.Some? && t.difficulty == level.value
  }

  /** The first three table topics at the learner's level, or all of them when there are fewer. */
  function Recommended(p: Profile): (r: seq<Topic>)
    ensures |r| <= ListLimit
    ensures forall t :: t in r ==> t in Topics && p.proficiencyLevel == Some(t.difficulty)
    ensures r <= Filter(Topics, AtLevel(p.proficiencyLevel))
    ensures |r| == if |Filter(Topics, AtLevel(p.proficiencyLevel))| < ListLimit then |Filter(Topics, AtLevel(p.proficiencyLevel))| else ListLimit
  {
    TakeOfFilter(Topics, AtLevel(p.proficiencyLevel), ListLimit);
    Take(Filter(Topics, AtLevel(p.proficiencyLevel)), ListLimit)
  }

  /** Without a level nothing is recommended. */
  lemma NoLevelNoRecommendations(p: Profile)
    requires p.proficiencyLevel.None?
    ensures Recommended(p) == []
  {
    FilterKeepsNone(Topics, AtLevel(p.proficiencyLevel));
  }

  /** The first three table topics marked as favourite, or all of them when there are fewer. */
  function FavoritesPreview(p: Profile): (r: seq<Topic>)
    ensures |r| <= ListLimit
    ensures forall t :: t in r ==> t in Topics && t.id in p.favoriteTopics
    ensures r <= TopicsWithIds(p.favoriteTopics)
    ensures |r| == if |TopicsWithIds(p.favoriteTopics)| < ListLimit then |TopicsWithIds(p.favoriteTopics)| else ListLimit
  {
    TakeOfFilter(Topics, IdIn(p.favoriteTopics), ListLimit);
    Take(TopicsWithIds(p.favoriteTopics), ListLimit)
  }

  /** The first three table topics marked as completed, or all of them when there are fewer. */
  function CompletedPreview(p: Profile): (r: seq<Topic>)
    ensures |r| <= ListLimit
    ensures forall t :: t in r ==> t in Topics && t.id in p.completedTopics
    ensures r <= TopicsWithIds(p.completedTopics)
    ensures |r| == if |TopicsWithIds(p.completedTopics)| < ListLimit then |TopicsWithIds(p.completedTopics)| else ListLimit
  {
    TakeOfFilter(Topics, IdIn(p.completedTopics), ListLimit);
    Take(TopicsWithIds(p.completedTopics), ListLimit)
  }

  /** The page: setup is required until a profile with a chosen language exists. */
  function DashboardView(profile: Option<Profile>): (v: View)
    ensures v.SetupRequired? <==> profile.None? || profile.value.selectedLanguage.None?
    ensures v.Overview? ==>
      v.recommended == Recommended(profile.value) &&
      v.favorites == FavoritesPreview(profile.value) &&
      v.completed == CompletedPreview(profile.value) &&
      v.topicsCompleted == |profile.value.completedTopics|
  {
    if profile.None? || profile.value.selectedLanguage.None? then SetupRequired
    else
      var p := profile.value;
      Overview(Recommended(p), FavoritesPreview(p), CompletedPreview(p), |p.completedTopics|)
  }

  /** Each list keeps the table's order: it is a subsequence of the table. */
  lemma PreviewsInTableOrder(p: Profile)
    ensures SubsequenceOf(Recommended(p), Topics)
    ensures SubsequenceOf(FavoritesPreview(p), Topics)
    ensures SubsequenceOf(CompletedPreview(p), Topics)
  {
    TakeOfFilter(Topics, AtLevel(p.proficiencyLevel), ListLimit);
    TakeOfFilter(Topics, IdIn(p.favoriteTopics), ListLimit);
    TakeOfFilter(Topics, IdIn(p.completedTopics), ListLimit);
  }
}

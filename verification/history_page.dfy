/**
 * The conversation history: the topics a profile has completed or marked as
 * favourite, shown through an 'all' / 'completed' / 'favorites' filter.
 */
module HistoryPage {
  import opened Types
  import opened Seqs
  import opened MockData
  import opened ProfileStore

  datatype HistoryFilter = All | Completed | Favorites

  /** What the page renders. */
  datatype View =
    | SignInPrompt
    | History(
        shown: seq<Topic>,
        completedButton: nat,
        favoritesButton: nat,
        topicsCompletedStat: nat,
        favoriteTopicsStat: nat)

  /** The table topics whose id the profile lists under `completedTopics`, in table order, without repeats. */
  function CompletedTopics(p: Profile): (r: seq<Topic>)
    ensures forall t :: t in r <==> t in Topics && t.id in p.completedTopics
    ensures SubsequenceOf(r, Topics) && NoDuplicates(r)
  {
    TopicsWithIds(p.completedTopics)
  }

  /** The table topics whose id the profile lists under `favoriteTopics`, in table order, without repeats. */
  function FavoriteTopics(p: Profile): (r: seq<Topic>)
    ensures forall t :: t in r <==> t in Topics && t.id in p.favoriteTopics
    ensures SubsequenceOf(r, Topics) && NoDuplicates(r)
  {
    TopicsWithIds(p.favoriteTopics)
  }

  /**
   * `filteredTopics`: 'all' is `[...new Set([...completed, ...favorites])]`,
   * the completed topics followed by the favourites not already among them.
   */
  function Shown(p: Profile, filter: HistoryFilter): (r: seq<Topic>)
    ensures filter.All? ==> r == CompletedTopics(p) + Filter(FavoriteTopics(p), NotIn(CompletedTopics(p)))
    ensures filter.All? ==> NoDuplicates(r)
    ensures filter.All? ==> forall t :: t in r <==> t in Topics && (t.id in p.completedTopics || t.id in p.favoriteTopics)
    ensures filter.Completed? ==> r == CompletedTopics(p)
    ensures filter.Favorites? ==> r == FavoriteTopics(p)
    ensures !filter.All? ==> SubsequenceOf(r, Topics) && NoDuplicates(r)
    ensures filter.Completed? ==> forall t :: t in r <==> t in Topics && t.id in p.completedTopics
    ensures filter.Favorites? ==> forall t :: t in r <==> t in Topics && t.id in p.favoriteTopics
  {
    match filter
    case All =>
      DedupUnion(CompletedTopics(p), FavoriteTopics(p));
      Dedup(CompletedTopics(p) + FavoriteTopics(p))
    case Completed => CompletedTopics(p)
    case Favorites => FavoriteTopics(p)
  }

  /**
   * The page: a sign-in prompt without a profile; otherwise the selected list,
   * the two filter buttons labelled with the table-backed counts, and the
   * statistics showing the raw lengths of the profile's lists.
   */
  function HistoryView(profile: Option<Profile>, filter: HistoryFilter): (v: View)
    ensures v.SignInPrompt? <==> profile.None?
    ensures v.History? ==>
      v.shown == Shown(profile.value, filter) &&
      v.completedButton == |CompletedTopics(profile.value)| &&
      v.favoritesButton == |FavoriteTopics(profile.value)| &&
      v.topicsCompletedStat == |profile.value.completedTopics| &&
      v.favoriteTopicsStat == |profile.value.favoriteTopics|
  {
    match profile
    case None => SignInPrompt
    case Some(p) =>
      History(Shown(p, filter), |CompletedTopics(p)|, |FavoriteTopics(p)|, |p.completedTopics|, |p.favoriteTopics|)
  }

  /** Every id of the topic table is a single character. */
  lemma TableIdsShort()
    ensures forall i :: 0 <= i < |Topics| ==> |Topics[i].id| == 1
  {
  }

  /** Completed ids the table does not know (custom topics, say) are not listed. */
  lemma UnknownIdsDropped(p: Profile)
    requires forall t :: t in Topics ==> t.id !in p.completedTopics
    ensures CompletedTopics(p) == []
  {
    FilterKeepsNone(Topics, IdIn(p.completedTopics));
  }

  /** Such ids still count in the statistics, though the "Completed" button shows none. */
  lemma UnknownIdsCountedInStats(p: Profile)
    requires forall t :: t in Topics ==> t.id !in p.completedTopics
    ensures HistoryView(Some(p), Completed).shown == []
    ensures HistoryView(Some(p), Completed).completedButton == 0
    ensures HistoryView(Some(p), Completed).topicsCompletedStat == |p.completedTopics|
  {
    UnknownIdsDropped(p);
    var v := HistoryView(Some(p), Completed);
    assert v.shown == CompletedTopics(p);
  }

  /** For example, a single custom topic: the statistic says 1 while the button says 0. */
  lemma CustomTopicExample(p: Profile)
    requires p.completedTopics == ["custom"]
    ensures HistoryView(Some(p), Completed).completedButton == 0
    ensures HistoryView(Some(p), Completed).topicsCompletedStat == 1
  {
    TableIdsShort();
    UnknownIdsCountedInStats(p);
  }
}

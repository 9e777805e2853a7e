/**
 * The conversation-practice flow: a step (`'mode' | 'topic' | 'conversation'`),
 * the selected topic and a cursor into that topic's scenario prompts. Reaching
 * the end marks the topic completed in the profile store.
 */
module Practice {
  import opened Types
  import opened Seqs
  import opened MockData
  import opened ProfileStore

  datatype Step = ModeStep | TopicStep | ConversationStep

  datatype ConversationMode = English | Characters | Voice

  /** The picker lists every topic while no level is known, and otherwise only topics of that level. */
  predicate ShownInPicker(profile: Option<Profile>, t: Topic) {
    profile.None? || profile.value.proficiencyLevel.None? || t.difficulty == profile.value.proficiencyLevel.value
  }

  /** The predefined topics the topic step offers, in table order. */
  function PickerTopics(profile: Option<Profile>): (r: seq<Topic>)
    ensures forall t :: t in r <==> t in Topics && ShownInPicker(profile, t)
  {
    Filter(Topics, (t: Topic) => ShownInPicker(profile, t))
  }

  /** The picker rule over any topic table `ts`. */
  lemma PickerOver(ts: seq<Topic>, profile: Option<Profile>)
    ensures profile.None? || profile.value.proficiencyLevel.None? ==> Filter(ts, (t: Topic) => ShownInPicker(profile, t)) == ts
    ensures SubsequenceOf(Filter(ts, (t: Topic) => ShownInPicker(profile, t)), ts)
    ensures profile.Some? && profile.value.proficiencyLevel.Some? ==>
      forall t :: t in Filter(ts, (t: Topic) => ShownInPicker(profile, t)) <==> t in ts && t.difficulty == profile.value.proficiencyLevel.value
  {
    var p := (t: Topic) => ShownInPicker(profile, t);
    FilterIsSubsequence(ts, p);
    if profile.None? || profile.value.proficiencyLevel.None? {
      FilterKeepsAll(ts, p);
    }
  }

  /** Without a level the picker shows the whole table; with one, exactly that level's topics, in table order. */
  lemma PickerByLevel(profile: Option<Profile>)
    ensures profile.None? || profile.value.proficiencyLevel.None? ==> PickerTopics(profile) == Topics
    ensures SubsequenceOf(PickerTopics(profile), Topics)
    ensures profile.Some? && profile.value.proficiencyLevel.Some? ==>
      forall t :: t in PickerTopics(profile) <==> t in Topics && t.difficulty == profile.value.proficiencyLevel.value
  {
    PickerOver(Topics, profile);
  }

  class PracticePage {
    const store: ProfileProvider
    var step: Step
    var conversationMode: ConversationMode
    var selectedTopicId: string
    var currentPromptIndex: nat
    var userResponse: string
    var feedback: Option<string>
    var isFavorite: bool

    /** The cursor points at a prompt of the selected topic's scenario, when there is one. */
    ghost predicate CursorInRange()
      reads this
    {
      ScenarioFor(selectedTopicId).Some? ==> currentPromptIndex < |ScenarioFor(selectedTopicId).value.prompts|
    }

    ghost predicate Valid()
      reads this, store
    {
      store.Valid() && CursorInRange()
    }

    /** "Next" moves to another prompt rather than completing. */
    predicate CanAdvance()
      reads this
    {
      ScenarioFor(selectedTopicId).Some? && currentPromptIndex < |ScenarioFor(selectedTopicId).value.prompts| - 1
    }

    /** Whether the favourites button shows the selected topic as favourited, per the profile. */
    predicate FavoriteInProfile()
      reads this, store
    {
      store.profile.Some? && selectedTopicId in store.profile.value.favoriteTopics
    }

    /**
     * Opening the page, possibly with a `topicId` query parameter (an empty
     * parameter counts as absent), followed by the mount effects.
     */
    constructor (store: ProfileProvider, topicIdFromQuery: Option<string>)
      requires store.Valid()
      ensures Valid() && this.store == store
      ensures step == if topicIdFromQuery.Some? && topicIdFromQuery.value != "" then ModeStep else TopicStep
      ensures selectedTopicId == if topicIdFromQuery.Some? then topicIdFromQuery.value else ""
      ensures currentPromptIndex == 0 && userResponse == "" && feedback == None && conversationMode == Characters
      ensures isFavorite == (selectedTopicId != "" && FavoriteInProfile())
    {
      this.store := store;
      step := if topicIdFromQuery.Some? && topicIdFromQuery.value != "" then ModeStep else TopicStep;
      conversationMode := Characters;
      selectedTopicId := if topicIdFromQuery.Some? then topicIdFromQuery.value else "";
      currentPromptIndex := 0;
      userResponse := "";
      feedback := None;
      isFavorite := false;
      new;
      SyncFavorite();
    }

    /** The effect that re-reads the favourite flag when the profile or the selected topic changes. */
    method SyncFavorite()
      modifies this`isFavorite
      ensures isFavorite == if store.profile.Some? && selectedTopicId != "" then FavoriteInProfile() else old(isFavorite)
    {
      if store.profile.Some? && selectedTopicId != "" {
        isFavorite := selectedTopicId in store.profile.value.favoriteTopics;
      }
    }

    method HandleModeSelect(mode: ConversationMode)
      requires Valid()
      modifies this`conversationMode, this`step
      ensures Valid()
      ensures conversationMode == mode
      ensures step == if selectedTopicId != "" then ConversationStep else TopicStep
    {
      conversationMode := mode;
      if selectedTopicId != "" {
        step := ConversationStep;
      } else {
        step := TopicStep;
      }
    }

    /** Choosing a topic, followed by the reset and favourite effects when the selection changed. */
    method HandleTopicSelect(topicId: string)
      requires Valid()
      modifies this
      ensures Valid()
      ensures selectedTopicId == topicId && step == ConversationStep && conversationMode == old(conversationMode)
      ensures topicId != old(selectedTopicId) && topicId != "" ==>
        currentPromptIndex == 0 && userResponse == "" && feedback == None &&
        isFavorite == if store.profile.Some? then FavoriteInProfile() else old(isFavorite)
      ensures topicId == old(selectedTopicId) ==>
        currentPromptIndex == old(currentPromptIndex) && userResponse == old(userResponse) &&
        feedback == old(feedback) && isFavorite == old(isFavorite)
      ensures topicId == "" ==>
        currentPromptIndex == old(currentPromptIndex) && userResponse == old(userResponse) &&
        feedback == old(feedback) && isFavorite == old(isFavorite)
    {
      var changed := topicId != selectedTopicId;
      ScenarioCoverage(topicId);
      selectedTopicId := topicId;
      step := ConversationStep;
      if changed && topicId != "" {
        currentPromptIndex := 0;
        userResponse := "";
        feedback := None;
      }
      if changed {
        SyncFavorite();
      }
    }

    /**
     * Move to the next prompt, or, on the last one (or without a scenario),
     * mark the topic completed and return to the mode step.
     */
    method HandleNext()
      requires Valid()
      modifies this, store
      ensures Valid()
      ensures selectedTopicId == old(selectedTopicId) && conversationMode == old(conversationMode)
      ensures store.user == old(store.user) && store.isLoading == old(store.isLoading)
      ensures store.storage == Saved(old(store.storage), store.user, store.profile)
      ensures old(CanAdvance()) ==>
        currentPromptIndex == old(currentPromptIndex) + 1 && userResponse == "" && feedback == None &&
        step == old(step) && isFavorite == old(isFavorite) &&
        store.profile == old(store.profile) && store.storage == old(store.storage)
      ensures !old(CanAdvance()) ==>
        currentPromptIndex == old(currentPromptIndex) && userResponse == old(userResponse) &&
        feedback == old(feedback) && step == ModeStep
      ensures !old(CanAdvance()) ==>
        isFavorite == if store.profile.Some? && store.profile != old(store.profile) then FavoriteInProfile() else old(isFavorite)
      ensures !old(CanAdvance()) && selectedTopicId != "" ==>
        store.profile == (if old(store.profile).Some? then
          Some(old(store.profile).value.(completedTopics := AddCompleted(old(store.profile).value.completedTopics, selectedTopicId)))
          else None)
      ensures !old(CanAdvance()) && selectedTopicId == "" ==> store.profile == old(store.profile) && store.storage == old(store.storage)
    {
      var scenario := ScenarioFor(selectedTopicId);
      if scenario.Some? && currentPromptIndex < |scenario.value.prompts| - 1 {
        currentPromptIndex := currentPromptIndex + 1;
        userResponse := "";
        feedback := None;
      } else {
        if selectedTopicId != "" {
          var before := store.profile;
          store.AddCompletedTopic(selectedTopicId);
          if store.profile != before {
            SyncFavorite();
          }
        }
        step := ModeStep;
      }
    }

    /** Move back one prompt; at the first prompt nothing happens. */
    method HandlePrevious()
      requires Valid()
      modifies this`currentPromptIndex, this`userResponse, this`feedback
      ensures Valid()
      ensures old(currentPromptIndex) > 0 ==>
        currentPromptIndex == old(currentPromptIndex) - 1 && userResponse == "" && feedback == None
      ensures old(currentPromptIndex) == 0 ==>
        currentPromptIndex == 0 && userResponse == old(userResponse) && feedback == old(feedback)
    {
      if currentPromptIndex > 0 {
        currentPromptIndex := currentPromptIndex - 1;
        userResponse := "";
        feedback := None;
      }
    }

    /** "Back to Conversation Modes" on the topic step. */
    method BackToModes()
      modifies this`step
      ensures step == ModeStep
    {
      step := ModeStep;
    }

    /** "Back to Topics" in a conversation, and "Choose Another Topic" when the topic is unknown. */
    method BackToTopics()
      modifies this`step
      ensures step == TopicStep
    {
      step := TopicStep;
    }

    /** Flip the favourite flag of the selected topic, in the profile and on the button. */
    method HandleToggleFavorite()
      requires Valid()
      modifies this`isFavorite, store
      ensures Valid()
      ensures store.user == old(store.user) && store.isLoading == old(store.isLoading)
      ensures store.storage == Saved(old(store.storage), store.user, store.profile)
      ensures selectedTopicId == "" ==>
        isFavorite == old(isFavorite) && store.profile == old(store.profile) && store.storage == old(store.storage)
      ensures selectedTopicId != "" ==>
        store.profile == (if old(store.profile).Some? then
          Some(old(store.profile).value.(favoriteTopics := ToggleFavorite(old(store.profile).value.favoriteTopics, selectedTopicId)))
          else None)
      ensures selectedTopicId != "" && store.profile.Some? ==>
        isFavorite == FavoriteInProfile() && isFavorite == !old(FavoriteInProfile())
      ensures selectedTopicId != "" && store.profile.None? ==> isFavorite == !old(isFavorite)
    {
      if selectedTopicId != "" {
        var before := store.profile;
        store.ToggleFavoriteTopic(selectedTopicId);
        isFavorite := !isFavorite;
        if store.profile != before {
          SyncFavorite();
        }
      }
    }
  }

  /**
   * Pressing "Next" from the first prompt of an n-prompt scenario: the first
   * n - 1 presses advance, the n-th completes, and the topic is then recorded
   * as completed in a loaded profile.
   */
  method PracticeUntilComplete(page: PracticePage) returns (presses: nat)
    requires page.Valid() && page.step == ConversationStep && page.selectedTopicId != ""
    requires ScenarioFor(page.selectedTopicId).Some? && page.currentPromptIndex == 0
    modifies page, page.store
    ensures page.Valid() && page.step == ModeStep && page.selectedTopicId == old(page.selectedTopicId)
    ensures presses == |ScenarioFor(page.selectedTopicId).value.prompts|
    ensures page.currentPromptIndex == presses - 1
    ensures old(page.store.profile).Some? ==>
      page.store.profile.Some? && page.selectedTopicId in page.store.profile.value.completedTopics
    ensures old(page.store.profile).None? ==> page.store.profile == None
  {
    var n := |ScenarioFor(page.selectedTopicId).value.prompts|;
    presses := 0;
    while page.currentPromptIndex < n - 1
      invariant page.Valid() && page.step == ConversationStep
      invariant page.selectedTopicId == old(page.selectedTopicId)
      invariant page.currentPromptIndex <= n - 1 && presses == page.currentPromptIndex
      invariant page.store.profile == old(page.store.profile)
      decreases n - page.currentPromptIndex
    {
      page.HandleNext();
      presses := presses + 1;
    }
    page.HandleNext();
    presses := presses + 1;
  }
}

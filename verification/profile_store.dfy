/**
 * The profile store: one learning profile for the signed-in identity, kept in
 * memory and persisted under the key `mockProfile-<user id>`. Storage is
 * modelled as a map from keys to profiles rather than as serialised text.
 */
module ProfileStore {
  import opened Types
  import opened Seqs
  import AuthStore

  datatype Profile = Profile(
    userId: string,
    selectedLanguage: Option<Language>,
    proficiencyLevel: Option<Level>,
    completedTopics: seq<string>,
    favoriteTopics: seq<string>)

  type Storage = map<string, Profile>

  const KeyPrefix: string := "mockProfile-"

  /** The storage key of a user's profile. */
  function ProfileKey(userId: string): string {
    KeyPrefix + userId
  }

  /** Different users never share a storage key. */
  lemma ProfileKeyInjective(a: string, b: string)
    ensures ProfileKey(a) == ProfileKey(b) <==> a == b
  {
    if ProfileKey(a) == ProfileKey(b) {
      assert a == ProfileKey(a)[|KeyPrefix|..];
      assert b == ProfileKey(b)[|KeyPrefix|..];
    }
  }

  /** Every stored profile sits under its own owner's key. */
  ghost predicate WellKeyed(storage: Storage) {
    forall k :: k in storage ==> k == ProfileKey(storage[k].userId)
  }

  /** The profile created for a user seen for the first time: nothing chosen, nothing done. */
  function NewProfile(userId: string): (r: Profile)
    ensures r.userId == userId && r.selectedLanguage.None? && r.proficiencyLevel.None?
    ensures |r.completedTopics| == 0 && |r.favoriteTopics| == 0
  {
    Profile(userId, None, None, [], [])
  }

  /**
   * The persist effect: while both a user and a profile are present, the
   * profile is written under the user's key; otherwise storage is untouched.
   */
  function Saved(storage: Storage, user: Option<AuthStore.User>, profile: Option<Profile>): (r: Storage)
    ensures user.Some? && profile.Some? ==> ProfileKey(user.value.id) in r && r[ProfileKey(user.value.id)] == profile.value
    ensures forall k :: k in storage && (user.None? || profile.None? || k != ProfileKey(user.value.id)) ==> k in r && r[k] == storage[k]
    ensures r.Keys <= storage.Keys + (if user.Some? then {ProfileKey(user.value.id)} else {})
  {
    if user.Some? && profile.Some? then storage[ProfileKey(user.value.id) := profile.value] else storage
  }

  /** `addCompletedTopic`'s list update: append `id` unless it is already there. */
  function AddCompleted(ids: seq<string>, id: string): (r: seq<string>)
    ensures forall x :: x in r <==> x in ids || x == id
    ensures ids <= r
    ensures |r| == if id in ids then |ids| else |ids| + 1
  {
    if id in ids then ids else ids + [id]
  }

  /** `filter(x => x !== id)`: every occurrence of `id` removed, the rest in order. */
  function Without(ids: seq<string>, id: string): (r: seq<string>)
    ensures forall x :: x in r <==> x in ids && x != id
  {
    Filter(ids, (x: string) => x != id)
  }

  /** `toggleFavoriteTopic`'s list update: remove `id` if present, append it otherwise. */
  function ToggleFavorite(ids: seq<string>, id: string): (r: seq<string>)
    ensures forall x :: x in r <==> if x == id then id !in ids else x in ids
  {
    if id in ids then Without(ids, id) else ids + [id]
  }

  lemma AddCompletedIdempotent(ids: seq<string>, id: string)
    ensures AddCompleted(AddCompleted(ids, id), id) == AddCompleted(ids, id)
  {
  }

  lemma AddCompletedKeepsDistinct(ids: seq<string>, id: string)
    requires NoDuplicates(ids)
    ensures NoDuplicates(AddCompleted(ids, id))
  {
  }

  /** Removal zeroes the count of `id` and keeps the count of every other entry. */
  lemma {:induction false} WithoutCounts(ids: seq<string>, id: string)
    ensures multiset(Without(ids, id)) == multiset(ids)[id := 0]
    decreases |ids|
  {
    if ids != [] {
      WithoutCounts(ids[1..], id);
      var head := if ids[0] != id then [ids[0]] else [];
      assert Without(ids, id) == head + Without(ids[1..], id);
      assert ids == [ids[0]] + ids[1..];
      assert multiset(ids) == multiset{ids[0]} + multiset(ids[1..]);
    }
  }

  /** Removal keeps the other entries, with their multiplicities and in their order. */
  lemma WithoutKeepsOthers(ids: seq<string>, id: string)
    ensures multiset(Without(ids, id)) == multiset(ids)[id := 0]
    ensures SubsequenceOf(Without(ids, id), ids)
  {
    WithoutCounts(ids, id);
    FilterIsSubsequence(ids, (x: string) => x != id);
  }

  /** Toggling an absent id twice gives back exactly the original list. */
  lemma ToggleTwiceRestoresAbsent(ids: seq<string>, id: string)
    requires id !in ids
    ensures ToggleFavorite(ToggleFavorite(ids, id), id) == ids
  {
    var p := (x: string) => x != id;
    FilterAppend(ids, [id], p);
    FilterKeepsAll(ids, p);
    assert Filter([id], p) == [];
  }

  /** Toggling any id twice gives back the original membership of every id. */
  lemma ToggleTwiceRestoresMembership(ids: seq<string>, id: string)
    ensures forall x :: x in ToggleFavorite(ToggleFavorite(ids, id), id) <==> x in ids
  {
  }

  /** Toggling a present id twice drops all its occurrences and appends it once at the end. */
  lemma ToggleTwiceMovesPresentToEnd(ids: seq<string>, id: string)
    requires id in ids
    ensures ToggleFavorite(ToggleFavorite(ids, id), id) == Without(ids, id) + [id]
  {
  }

  lemma ToggleKeepsDistinct(ids: seq<string>, id: string)
    requires NoDuplicates(ids)
    ensures NoDuplicates(ToggleFavorite(ids, id))
  {
    if id in ids {
      FilterNoDuplicates(ids, (x: string) => x != id);
    }
  }

  class ProfileProvider {
    /** The identity the provider last saw from the session store. */
    var user: Option<AuthStore.User>
    /** The loaded profile, `null` when none is loaded. */
    var profile: Option<Profile>
    var isLoading: bool
    /** Every `mockProfile-*` entry of durable storage. */
    var storage: Storage

    /** A loaded profile belongs to a present user and is already persisted under that user's key. */
    ghost predicate Valid()
      reads this
    {
      (profile.Some? ==> user.Some?) && storage == Saved(storage, user, profile)
    }

    /** Mounting the provider over whatever profiles the storage already holds. */
    constructor (stored: Storage)
      ensures Valid()
      ensures user == None && profile == None && isLoading && storage == stored
    {
      user := None;
      profile := None;
      isLoading := true;
      storage := stored;
    }

    /**
     * The load effect, run whenever the session's identity changes, followed
     * by the persist effect.
     */
    method OnUserChange(u: Option<AuthStore.User>)
      modifies this
      ensures Valid()
      ensures user == u && !isLoading
      ensures u.None? ==> profile == None && storage == old(storage)
      ensures u.Some? && ProfileKey(u.value.id) in old(storage) ==>
        profile == Some(old(storage)[ProfileKey(u.value.id)]) && storage == old(storage)
      ensures u.Some? && ProfileKey(u.value.id) !in old(storage) ==>
        profile == Some(NewProfile(u.value.id)) && storage == old(storage)[ProfileKey(u.value.id) := NewProfile(u.value.id)]
      ensures WellKeyed(old(storage)) ==> WellKeyed(storage) && (profile.Some? ==> profile.value.userId == u.value.id)
    {
      user := u;
      if u.Some? {
        var key := ProfileKey(u.value.id);
        if key in storage {
          profile := Some(storage[key]);
          ProfileKeyInjective(storage[key].userId, u.value.id);
        } else {
          var created := NewProfile(u.value.id);
          storage := storage[key := created];
          profile := Some(created);
        }
      } else {
        profile := None;
      }
      isLoading := false;
      storage := Saved(storage, user, profile);
    }

    method SetLanguage(language: Language)
      requires Valid()
      modifies this
      ensures Valid()
      ensures user == old(user) && isLoading == old(isLoading)
      ensures profile == if old(profile).Some? then Some(old(profile).value.(selectedLanguage := Some(language))) else None
      ensures storage == Saved(old(storage), user, profile)
      ensures old(WellKeyed(storage)) ==> WellKeyed(storage)
    {
      if profile.Some? {
        profile := Some(profile.value.(selectedLanguage := Some(language)));
        storage := Saved(storage, user, profile);
      }
    }

    method SetProficiencyLevel(level: Level)
      requires Valid()
      modifies this
      ensures Valid()
      ensures user == old(user) && isLoading == old(isLoading)
      ensures profile == if old(profile).Some? then Some(old(profile).value.(proficiencyLevel := Some(level))) else None
      ensures storage == Saved(old(storage), user, profile)
      ensures old(WellKeyed(storage)) ==> WellKeyed(storage)
    {
      if profile.Some? {
        profile := Some(profile.value.(proficiencyLevel := Some(level)));
        storage := Saved(storage, user, profile);
      }
    }

    method AddCompletedTopic(topicId: string)
      requires Valid()
      modifies this
      ensures Valid()
      ensures user == old(user) && isLoading == old(isLoading)
      ensures profile == if old(profile).Some? then
        Some(old(profile).value.(completedTopics := AddCompleted(old(profile).value.completedTopics, topicId)))
        else None
      ensures old(profile).Some? && topicId in old(profile).value.completedTopics ==> profile == old(profile)
      ensures storage == Saved(old(storage), user, profile)
      ensures old(WellKeyed(storage)) ==> WellKeyed(storage)
    {
      if profile.Some? {
        if topicId !in profile.value.completedTopics {
          profile := Some(profile.value.(completedTopics := profile.value.completedTopics + [topicId]));
          storage := Saved(storage, user, profile);
        }
      }
    }

    method ToggleFavoriteTopic(topicId: string)
      requires Valid()
      modifies this
      ensures Valid()
      ensures user == old(user) && isLoading == old(isLoading)
      ensures profile == if old(profile).Some? then
        Some(old(profile).value.(favoriteTopics := ToggleFavorite(old(profile).value.favoriteTopics, topicId)))
        else None
      ensures storage == Saved(old(storage), user, profile)
      ensures old(WellKeyed(storage)) ==> WellKeyed(storage)
    {
      if profile.Some? {
        var isFavorite := topicId in profile.value.favoriteTopics;
        var favorites := if isFavorite then Without(profile.value.favoriteTopics, topicId)
                         else profile.value.favoriteTopics + [topicId];
        profile := Some(profile.value.(favoriteTopics := favorites));
        storage := Saved(storage, user, profile);
      }
    }
  }
}

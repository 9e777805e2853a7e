# Heirloom: a verified model of the learning-app core

Heirloom is a heritage-language practice app. A learner signs in, picks a
language, sets a proficiency level (by a three-question quiz or by choosing
one), and practises scripted conversations on emotional topics. Completed and
favourite topics are recorded in the learner's profile. Around that core the
app has several views:

- a topic browser and a resource library, each with filters and a search box;
- a dashboard with short topic lists;
- a conversation history;
- a profile form;
- a route table that keeps signed-out visitors away from the learning pages.

This project models that core in Dafny:

- **Session store** (`AuthStore.AuthProvider`): the signed-in identity, with its
  durable `mockUser` mirror.
- **Profile store** (`ProfileStore.ProfileProvider`): one profile per identity,
  persisted under `mockProfile-<id>`, plus the list updates behind "completed"
  and "favourite".
- **Practice flow** (`Practice.PracticePage`): the step machine with its prompt
  cursor, and the level-based topic picker.
- **Proficiency quiz** (`Quiz`): the question table, the per-level tally, the
  argmax in which ties go to the lower level, and the answer handler.
- **Selection rules**, as pure functions:
  - topic browser (`TopicsPage`);
  - resource library (`ResourcesPage`);
  - history (`HistoryPage`);
  - dashboard (`DashboardPage`).
- **Profile form** (`ProfileForm.ProfileFormPage`).
- **Route guard** (`Routes.Route`).

Shared pieces:

- `Seqs`: order-preserving filter, first match, take, ordered de-duplication.
- `Text`: ASCII case folding and substring search.
- `Types`: the record shapes.
- `MockData`: the reference tables, the topics, scenarios and resources of
  `project/src/data/mockData.ts`.

Storage is modelled as values, not serialised text:

- the session mirror is an `Option<User>`;
- profile storage is a `map<string, Profile>` keyed by `mockProfile-` + user id.

React state updates and the effects they trigger are folded into one
sequential step per handler. Examples:

- selecting a topic also runs the reset and favourite effects;
- every profile change also runs the persist effect.

The pages under `project/src/pages` read the profile through a context module
with the same shape as `src/contexts/UserProfileContext.tsx`; they are modelled
against `ProfileStore.Profile`. The practice page reads its topic and scenario
tables from `src/data/mockData.ts`. That file is not part of this model; the
tables of `project/src/data/mockData.ts` stand in for it.

## Model

| member | source | states |
|---|---|---|
| Seqs.Filter | project/src/pages/ConversationHistoryPage.tsx:27-29 | `filter`: keeps exactly the elements that pass, and never lengthens the list |
| Seqs.Take | project/src/pages/DashboardPage.tsx:25 | `slice(0, n)`: a prefix of length min(n, length) |
| Seqs.Dedup | project/src/pages/ConversationHistoryPage.tsx:38 | `[...new Set(xs)]`: the same elements, with no repeats |
| ProfileStore.ProfileKeyInjective | src/contexts/UserProfileContext.tsx:50 | two users share the `mockProfile-` storage key exactly when their ids are equal |
| ProfileStore.NewProfile | src/contexts/UserProfileContext.tsx:55-61 | the profile of a first-time user: their id, no language, no level, no completed and no favourite topics |
| ProfileStore.Saved | src/contexts/UserProfileContext.tsx:72-76 | persist effect: with a user and a profile, the user's key holds the profile; every other key is untouched; no key appears except the user's |
| ProfileStore.AddCompleted | src/contexts/UserProfileContext.tsx:101-104 | membership is old membership plus the id; the old list is a prefix; length grows by one exactly when the id was absent |
| ProfileStore.AddCompletedIdempotent | src/contexts/UserProfileContext.tsx:99-108 | adding the same completed id twice equals adding it once |
| ProfileStore.AddCompletedKeepsDistinct | src/contexts/UserProfileContext.tsx:101-104 | a repeat-free completed list stays repeat-free |
| ProfileStore.Without | src/contexts/UserProfileContext.tsx:117 | `filter(id => id !== topicId)` keeps exactly the other ids |
| ProfileStore.WithoutKeepsOthers | src/contexts/UserProfileContext.tsx:117 | removal deletes every occurrence of the id, keeps every other id with its multiplicity, and keeps their order |
| ProfileStore.ToggleFavorite | src/contexts/UserProfileContext.tsx:113-118 | after the toggle the id is a favourite exactly when it was not before; every other id keeps its membership |
| ProfileStore.ToggleTwiceRestoresAbsent | src/contexts/UserProfileContext.tsx:113-118 | toggling an absent id twice gives back exactly the original list |
| ProfileStore.ToggleTwiceRestoresMembership | src/contexts/UserProfileContext.tsx:113-118 | toggling any id twice gives back the original membership of every id |
| ProfileStore.ToggleTwiceMovesPresentToEnd | src/contexts/UserProfileContext.tsx:113-118 | toggling a present id twice removes its occurrences and appends it once at the end |
| ProfileStore.ToggleKeepsDistinct | src/contexts/UserProfileContext.tsx:113-118 | a repeat-free favourites list stays repeat-free |
| ProfileStore.ProfileProvider.constructor | src/contexts/UserProfileContext.tsx:42-43 | starts with no user, no profile, loading on, and the given storage |
| ProfileStore.ProfileProvider.OnUserChange | src/contexts/UserProfileContext.tsx:46-69 | load effect, three cases, loading off in each: (1) no user gives no profile; (2) a stored profile is loaded as is; (3) a new user gets `{id, null, null, [], []}`, also written to storage; storage stays well keyed and the loaded profile is the user's |
| ProfileStore.ProfileProvider.SetLanguage | src/contexts/UserProfileContext.tsx:79-86 | only `selectedLanguage` changes; without a profile nothing changes; storage follows the persist effect |
| ProfileStore.ProfileProvider.SetProficiencyLevel | src/contexts/UserProfileContext.tsx:89-96 | only `proficiencyLevel` changes; without a profile nothing changes; storage follows the persist effect |
| ProfileStore.ProfileProvider.AddCompletedTopic | src/contexts/UserProfileContext.tsx:99-108 | only the completed list changes, via `AddCompleted`; an id already present leaves the profile unchanged; without a profile nothing changes |
| ProfileStore.ProfileProvider.ToggleFavoriteTopic | src/contexts/UserProfileContext.tsx:111-121 | only the favourites list changes, via `ToggleFavorite`; without a profile nothing changes |
| AuthStore.AuthProvider.constructor | src/contexts/AuthContext.tsx:34-35 | no identity, loading on, mirror as stored |
| AuthStore.AuthProvider.Restore | src/contexts/AuthContext.tsx:38-46 | the identity becomes the stored mirror (none if absent); loading ends; memory and mirror agree |
| AuthStore.AuthProvider.SignIn | src/contexts/AuthContext.tsx:49-60 | whatever the password, the identity is `{id "1", email, no name}`, replaces any previous one, and is mirrored |
| AuthStore.AuthProvider.SignUp | src/contexts/AuthContext.tsx:63-74 | the identity is `{id "1", email, name}`, replaces any previous one, and is mirrored |
| AuthStore.AuthProvider.SignOut | src/contexts/AuthContext.tsx:77-87 | the identity and the mirror are both removed, whether or not anyone was signed in |
| AuthStore.RestoreAfterSignOut | src/contexts/AuthContext.tsx:41-45 | a session mounted over the storage left by a sign-out restores nobody and finishes loading |
| AuthStore.SignOutIdempotent | src/contexts/AuthContext.tsx:77-82 | signing out twice leaves the state of signing out once: no identity, no mirror, loading flag as before |
| MockData.ScenarioFor | src/pages/ConversationPracticePage.tsx:40 | the found scenario belongs to the table, is for the topic, and has prompts; none means no scenario is for the topic |
| MockData.ScenarioCoverage | project/src/data/mockData.ts:79-138 | scenarios exist exactly for topics "1" (four prompts) and "2" (three prompts) |
| MockData.TopicsWithIds | project/src/pages/ConversationHistoryPage.tsx:27-29 | keeps exactly the table topics whose id is listed, in table order (a subsequence of the table), with no repeats |
| Practice.PickerTopics | src/pages/ConversationPracticePage.tsx:246-247 | a topic is offered iff it is in the table and no level is known or its difficulty is that level |
| Practice.PickerByLevel | src/pages/ConversationPracticePage.tsx:246-247 | without a level the picker is the whole table; with one, exactly that level's topics; always in table order |
| Practice.PracticePage.constructor | src/pages/ConversationPracticePage.tsx:18-36 | step is mode with a non-empty `topicId` parameter and topic otherwise; the selected topic is the parameter or ""; cursor 0; favourite flag read from the profile |
| Practice.PracticePage.SyncFavorite | src/pages/ConversationPracticePage.tsx:43-47 | with a profile and a selected topic, the flag is the topic's favourite membership; otherwise unchanged |
| Practice.PracticePage.HandleModeSelect | src/pages/ConversationPracticePage.tsx:59-66 | stores the mode; goes to conversation with a topic selected and to topic otherwise |
| Practice.PracticePage.HandleTopicSelect | src/pages/ConversationPracticePage.tsx:50-77 | selects the topic and goes to conversation; a new non-empty topic resets cursor, response and feedback and re-reads the favourite flag; an unchanged or empty one resets nothing; the cursor stays in range |
| Practice.PracticePage.HandleNext | src/pages/ConversationPracticePage.tsx:93-108 | before the last prompt: advance by one, clear response and feedback, profile and flag unchanged. Otherwise: cursor unchanged, step back to mode, a selected topic is added to the completed list, the flag is re-read only if the profile changed. Always: the store's user and loading flag are unchanged, and storage is the old storage after the persist effect, so other users' profiles are untouched |
| Practice.PracticePage.HandlePrevious | src/pages/ConversationPracticePage.tsx:111-117 | steps back only from a cursor above 0, clearing response and feedback; at 0 nothing changes |
| Practice.PracticePage.HandleToggleFavorite | src/pages/ConversationPracticePage.tsx:141-147 | with a topic selected, toggles it in the profile's favourites and flips the flag, which then agrees with the profile; with none, nothing changes. The store's user and loading flag are unchanged; storage is the old storage after the persist effect |
| Practice.PracticePage.BackToModes | src/pages/ConversationPracticePage.tsx:216 | "Back to Conversation Modes" returns to the mode step |
| Practice.PracticePage.BackToTopics | src/pages/ConversationPracticePage.tsx:303-317 | "Choose Another Topic" and "Back to Topics" return to the topic step |
| Practice.PracticeUntilComplete | src/pages/ConversationPracticePage.tsx:94-107 | from prompt 0 of an n-prompt scenario: n presses of Next; the first n−1 advance; the n-th completes, leaving the cursor at n−1 and the topic in a loaded profile's completed list |
| Quiz.Bump | src/pages/ProficiencyQuizPage.tsx:83-85 | adds one to the voted level's count and nothing to the others; no vote adds nothing |
| Quiz.QuestionIdsBound | src/pages/ProficiencyQuizPage.tsx:27-55 | a question table has at most as many ids as questions |
| Quiz.Vote | src/pages/ProficiencyQuizPage.tsx:81-86 | a vote comes only from an answer naming a known question |
| Quiz.VoteIsOptionLevel | src/pages/ProficiencyQuizPage.tsx:81-86 | for any table, a vote is the level of an option with the named id under a question with the named id |
| Quiz.VoteUnknownOption | src/pages/ProficiencyQuizPage.tsx:83-84 | for any table, an option id the (first) named question lacks casts no vote |
| Quiz.VoteUnknownOptionExample | src/pages/ProficiencyQuizPage.tsx:83-84 | q2-a or a made-up q1-z given for q1 casts no vote |
| Quiz.VoteTable | src/pages/ProficiencyQuizPage.tsx:27-55 | each question has three options; a, b and c vote beginner, intermediate and advanced |
| Quiz.VoteUnknownQuestion | src/pages/ProficiencyQuizPage.tsx:81-82 | an answer to an unknown question adds nothing |
| Quiz.MostCommon | src/pages/ProficiencyQuizPage.tsx:91-101 | the chosen level has a maximal count, and every lower level has a strictly smaller count, so ties go to the lower level |
| Quiz.VotersAdd | src/pages/ProficiencyQuizPage.tsx:80-88 | visiting one more answer adds it to a level's voters exactly when it votes for that level |
| Quiz.TallyOverAdd | src/pages/ProficiencyQuizPage.tsx:80-88 | visiting one more answer adds exactly one to the level it votes for and nothing otherwise |
| Quiz.TallyOverEmpty | src/pages/ProficiencyQuizPage.tsx:74-78 | visiting nothing leaves all three counts at zero |
| Quiz.EmptyTally | src/pages/ProficiencyQuizPage.tsx:74-101 | no answers give zero counts and the level beginner |
| Quiz.TallyInsert | src/pages/ProficiencyQuizPage.tsx:59-63 | recording an answer to an unanswered question changes the tally by exactly that answer's vote |
| Quiz.CountedSize | src/pages/ProficiencyQuizPage.tsx:80-88 | an answer votes for at most one level, so the counts add up to the number of answers that vote |
| Quiz.TallyBound | src/pages/ProficiencyQuizPage.tsx:27-88 | the counts add up to at most the number of answers and at most the number of questions |
| Quiz.CountOver | src/pages/ProficiencyQuizPage.tsx:80-88 | the `forEach` loop: visiting every key once, in any order, adds up to the per-level tally of their votes |
| Quiz.CountVotes | src/pages/ProficiencyQuizPage.tsx:74-88 | counting the recorded answers yields the tally, bounded by the answer and question counts |
| Quiz.CalculateProficiencyLevel | src/pages/ProficiencyQuizPage.tsx:72-101 | the running-maximum result is the most common level: advanced iff a > b and a > i; intermediate iff i > b and a ≤ i; beginner otherwise |
| Quiz.Recorded | src/pages/ProficiencyQuizPage.tsx:59-66 | answering in order, over a table with distinct question ids, records each choice under its question's id, and nothing else |
| Quiz.QuizPage.constructor | src/pages/ProficiencyQuizPage.tsx:22-24 | starts at question 0 with no answers and not skipping |
| Quiz.QuizPage.HandleAnswer | src/pages/ProficiencyQuizPage.tsx:59-70 | as written: records the option under the current question; advances before the last question; on the last one sets the level from the answers recorded before this one. The store's user and loading flag are unchanged; storage is the old storage after the persist effect |
| Quiz.QuizPage.HandleAnswerCountingLast | src/pages/ProficiencyQuizPage.tsx:59-70 | corrected: on the last question the level is the most common level of all the answers, including the one just given. The store's user and loading flag are unchanged; storage is the old storage after the persist effect |
| Quiz.QuizPage.SkipQuiz | src/pages/ProficiencyQuizPage.tsx:109-111 | turns on the skip view |
| Quiz.QuizPage.ConfirmSkip | src/pages/ProficiencyQuizPage.tsx:113-117 | sets exactly the chosen level in a loaded profile. The store's user and loading flag are unchanged; storage is the old storage after the persist effect |
| Quiz.QuizPage.BackToQuiz | src/pages/ProficiencyQuizPage.tsx:167 | "Back to Quiz" leaves the skip view |
| Quiz.TakeQuiz | src/pages/ProficiencyQuizPage.tsx:59-70 | answering all three questions with the corrected handler stores the most common level of all three answers |
| Quiz.StaleTallyExample | src/pages/ProficiencyQuizPage.tsx:59-70 | answers q1-a and q2-c without the final q3-c tally to beginner; with q3-c they tally to advanced |
| Quiz.RecordedExample | src/pages/ProficiencyQuizPage.tsx:59-63 | the answer maps after two and after three choices |
| Quiz.VoteExample | src/pages/ProficiencyQuizPage.tsx:27-55 | q1-a votes beginner; q2-c and q3-c vote advanced |
| Quiz.TallyExample | src/pages/ProficiencyQuizPage.tsx:80-88 | the two answer maps tally to (1, 0, 1) and (1, 0, 2) |
| Text.LowerChar | project/src/pages/ConversationTopicsPage.tsx:28 | ASCII case folding: upper-case letters map to their lower-case letter; every other character is unchanged |
| Text.Lower | project/src/pages/ConversationTopicsPage.tsx:28 | folds every character, keeps the length, and leaves no upper-case letter |
| Text.LowerIdempotent | project/src/pages/ConversationTopicsPage.tsx:28 | lowering twice is lowering once |
| Text.Includes | project/src/pages/ConversationTopicsPage.tsx:30-32 | a query found is no longer than the text; a prefix of the text is found |
| Text.IncludesIff | project/src/pages/ConversationTopicsPage.tsx:30-32 | `includes` holds exactly when the query occurs at some position |
| Text.ContainsIgnoringCase | project/src/pages/ConversationTopicsPage.tsx:27-32 | the empty query matches every text; a match is no longer than the text; lowering the query first changes nothing |
| TopicsPage.Keeps | project/src/pages/ConversationTopicsPage.tsx:15-37 | the filter callback: a kept topic has the chosen difficulty and category; with both filters at 'all' and no query every topic is kept |
| TopicsPage.FilteredTopics | project/src/pages/ConversationTopicsPage.tsx:15-37 | a topic is listed iff it is in the table and passes all three filters; a difficulty or category filter keeps only matching topics |
| TopicsPage.FilteredTopicsInOrder | project/src/pages/ConversationTopicsPage.tsx:15 | the listed topics are a subsequence of the table |
| TopicsPage.QueryKeepsIff | project/src/pages/ConversationTopicsPage.tsx:27-34 | a topic passing the other filters is kept iff the lowercased query occurs in its lowercased title, description or emotional context |
| TopicsPage.DefaultsShowAll | project/src/pages/ConversationTopicsPage.tsx:11-13 | with the default filters the whole table is listed |
| TopicsPage.Reset | project/src/pages/ConversationTopicsPage.tsx:163-167 | all three filters return to their defaults, and the whole table is listed again |
| TopicsPage.FamilyAt | project/src/pages/ConversationTopicsPage.tsx:28-32 | a text with "family" or "Family" at some position matches the search "Family" |
| TopicsPage.FamilySearch | project/src/pages/ConversationTopicsPage.tsx:27-34 | the search "Family" lists topics 1, 2 and 6 |
| ResourcesPage.Keeps | project/src/pages/ResourcesPage.tsx:12-29 | the filter callback: a kept resource has the chosen type; with type 'all' and no query every resource is kept |
| ResourcesPage.FilteredResources | project/src/pages/ResourcesPage.tsx:12-29 | a resource is listed iff it is in the table and passes both filters; a type filter keeps only that type |
| ResourcesPage.FilteredResourcesInOrder | project/src/pages/ResourcesPage.tsx:12 | the listed resources are a subsequence of the table |
| ResourcesPage.QueryKeepsIff | project/src/pages/ResourcesPage.tsx:19-26 | a resource of the selected type is kept iff the lowercased query occurs in its lowercased title, description or some tag |
| ResourcesPage.DefaultsShowAll | project/src/pages/ResourcesPage.tsx:9-10 | type 'all' with an empty query lists the whole table |
| ResourcesPage.Reset | project/src/pages/ResourcesPage.tsx:158-161 | type back to 'all', query emptied, whole table listed |
| ResourcesPage.PodcastFilter | project/src/pages/ResourcesPage.tsx:14-16 | the type filter "podcast" lists resource 2 and nothing else |
| HistoryPage.CompletedTopics | project/src/pages/ConversationHistoryPage.tsx:27-29 | exactly the table topics whose id is completed, in table order, without repeats |
| HistoryPage.FavoriteTopics | project/src/pages/ConversationHistoryPage.tsx:32-34 | exactly the table topics whose id is a favourite, in table order, without repeats |
| HistoryPage.Shown | project/src/pages/ConversationHistoryPage.tsx:37-41 | 'all' is the completed list followed by the favourites not already in it, with no repeats, and lists every topic that is either; 'completed' and 'favorites' are exactly the completed and favourite lists, in table order and without repeats |
| HistoryPage.HistoryView | project/src/pages/ConversationHistoryPage.tsx:14-41 | no profile gives the sign-in prompt. Otherwise: the selected list; the button counts are the filtered lengths; the statistics are the raw list lengths |
| HistoryPage.UnknownIdsDropped | project/src/pages/ConversationHistoryPage.tsx:27-29 | when no completed id is in the table, the completed list is empty |
| HistoryPage.UnknownIdsCountedInStats | project/src/pages/ConversationHistoryPage.tsx:134 | when no completed id is in the table, the statistic still counts them all while the list is empty and the "Completed" button shows 0 |
| HistoryPage.CustomTopicExample | project/src/pages/ConversationHistoryPage.tsx:134 | for example, a single custom completed topic: statistic 1, button 0 |
| DashboardPage.Recommended | project/src/pages/DashboardPage.tsx:23-25 | the first min(3, n) of the n table topics at the profile's level: a prefix of that filtered list, of that length |
| DashboardPage.NoLevelNoRecommendations | project/src/pages/DashboardPage.tsx:23-25 | without a level nothing is recommended |
| DashboardPage.FavoritesPreview | project/src/pages/DashboardPage.tsx:28-30 | the first min(3, n) of the n favourite table topics: a prefix of that list, of that length |
| DashboardPage.CompletedPreview | project/src/pages/DashboardPage.tsx:33-35 | the first min(3, n) of the n completed table topics: a prefix of that list, of that length |
| DashboardPage.DashboardView | project/src/pages/DashboardPage.tsx:10-68 | setup is required iff there is no profile or no language. Otherwise: the three lists, and the raw completed count |
| DashboardPage.PreviewsInTableOrder | project/src/pages/DashboardPage.tsx:23-35 | each list is a subsequence of the table |
| ProfileForm.DropAt | src/pages/ProfilePage.tsx:42 | drops exactly the entry at the index and shifts the rest down; an index past the end removes nothing |
| ProfileForm.DropAppended | src/pages/ProfilePage.tsx:34-47 | removing a goal just added gives back the list as it was |
| ProfileForm.ProfileFormPage.constructor | src/pages/ProfilePage.tsx:8-15 | empty name, email and language; 'beginner'; goals `[""]`; editing on |
| ProfileForm.ProfileFormPage.HandleInputChange | src/pages/ProfilePage.tsx:17-23 | only the named field changes |
| ProfileForm.ProfileFormPage.HandleGoalChange | src/pages/ProfilePage.tsx:25-32 | only goal i changes; the length stays |
| ProfileForm.ProfileFormPage.AddGoal | src/pages/ProfilePage.tsx:34-39 | appends an empty goal |
| ProfileForm.ProfileFormPage.RemoveGoal | src/pages/ProfilePage.tsx:41-47 | drops exactly goal i, keeping the rest in order; with the Remove buttons enabled, at least one goal remains |
| ProfileForm.ProfileFormPage.HandleSubmit | src/pages/ProfilePage.tsx:49-59 | editing off, other fields unchanged; the details card shows iff the name is non-empty |
| ProfileForm.ProfileFormPage.StartEditing | src/pages/ProfilePage.tsx:61-66 | editing on, so the form shows |
| Routes.ProtectedPage | src/App.tsx:44-49 | a protected path's page is never the sign-in or not-found page |
| Routes.Route | src/App.tsx:31-55 | see below |
| Routes.RedirectSettles | src/App.tsx:41-52 | following any redirect once lands on a rendered page |
| Routes.RootRedirects | src/App.tsx:52 | `/` sends a signed-in identity to `/dashboard` and anyone else to `/auth` |

`Routes.Route` states the following:

- While loading, every path shows the loading screen, and the loading screen
  appears only then.
- A protected path renders its page iff someone is signed in, and redirects
  to `/auth` otherwise.
- `/auth` renders the sign-in page iff nobody is signed in.
- `/auth` with someone signed in redirects to `/dashboard`.
- Other paths render the not-found page.
- A signed-in identity never sees the sign-in page, and a signed-out one never
  sees a protected page.

## Left out

- Markup, styling, icons, toasts, `alert` and `navigate`. Only the resulting
  step, view or redirect target is modelled.
- Browser storage and JSON. Storage is an abstract map, and the session mirror
  an optional identity.
- Promise wrappers and React effect scheduling. Each handler, with the effects
  its state change triggers, is one sequential step, so intermediate renders
  are not modelled. The `try`/`catch` blocks of the session store cannot throw
  once storage is a map.
- The simulated recording (`setTimeout`) and the canned feedback of
  `submitResponse`: a timer, and constant text.
- The topic-type choice, custom topics and the translation toggle of the
  practice page. They lead to a toast or a display flag, not to state that
  other operations use.
- Progress percentages: floating point.
- `Text.Lower` folds ASCII letters only, not full Unicode `toLowerCase`.
- Several pages and files are not part of this model. They are presentation
  or glue over operations already modelled:
  - the home, about, sign-in, not-found, language-selection and settings pages;
  - the navigation bar;
  - `project/src/main.tsx`.
- Image URLs, resource URLs, prompt audio, scenario descriptions, the text and
  translation of each prompt, and the wording of the quiz questions and
  options. They are only displayed. Prompts keep their id and position;
  questions and options keep their ids and levels.
- TopicsPage.FamilySearch proves that topics 1, 2 and 6 match the search
  "Family", but not that topics 3, 4 and 5 do not. That would mean ruling out
  every position of every text of those topics.
- ProfileForm.ProfileFormPage.HandleGoalChange requires an index inside the
  list. Assigning past the end of a JavaScript array would extend it with
  holes, and the page never does that.
- Routes.Route matches paths exactly. Trailing slashes, case-insensitive
  matching and query strings of the router are not modelled.
- Quiz.CountOver visits the answers in an unspecified order, not the key
  order of `Object.keys`. The tally does not depend on that order.

## Findings

| source | as written | input that shows it | evidently intended | confidence | as-written member | corrected member |
|---|---|---|---|---|---|---|
| src/pages/ProficiencyQuizPage.tsx:59-70 | on the last question, `calculateProficiencyLevel` tallies `answers` as captured before `setAnswers` records the final answer, so the last answer is never counted | choose q1-a, then q2-c, then q3-c: the tally of q1-a and q2-c is one beginner and one advanced, so the level set is beginner | the level of all three answers, one beginner and two advanced, which is advanced | not executed | Quiz.StaleTallyExample | Quiz.TakeQuiz |

/**
 * The profile form: free-text personal details, a list of learning goals
 * that grows and shrinks one entry at a time, and a flag switching between
 * editing and viewing. Saving keeps the details in the page only.
 */
module ProfileForm {

  /** The inputs `handleInputChange` dispatches on, by their `name` attribute. */
  datatype Field = Name | Email | TargetLanguageId | ProficiencyLevel

  /** `filter((_, i) => i !== index)`: the list without its entry at `index`; an index past the end removes nothing. */
  function DropAt<T>(s: seq<T>, index: nat): (r: seq<T>)
    ensures index < |s| ==> |r| == |s| - 1
    ensures index < |s| ==> forall k :: 0 <= k < index ==> r[k] == s[k]
    ensures index < |s| ==> forall k :: index <= k < |r| ==> r[k] == s[k + 1]
    ensures |s| <= index ==> r == s
    decreases |s|
  {
    if s == [] then []
    else if index == 0 then s[1..]
    else [s[0]] + DropAt(s[1..], index - 1)
  }

  /** Removing the entry just appended gives back the list as it was. */
  lemma DropAppended<T>(s: seq<T>, x: T)
    ensures DropAt(s + [x], |s|) == s
  {
    var r := DropAt(s + [x], |s|);
    assert |r| == |s|;
    forall k | 0 <= k < |s| ensures r[k] == s[k] {
      assert (s + [x])[k] == s[k];
    }
  }

  class ProfileFormPage {
    var name: string
    var email: string
    var targetLanguageId: string
    /** Set from a select box, so any string the box offers. */
    var proficiencyLevel: string
    var learningGoals: seq<string>
    var isEditing: bool

    constructor ()
      ensures name == "" && email == "" && targetLanguageId == ""
      ensures proficiencyLevel == "beginner" && learningGoals == [""] && isEditing
    {
      name := "";
      email := "";
      targetLanguageId := "";
      proficiencyLevel := "beginner";
      learningGoals := [""];
      isEditing := true;
    }

    /** The details card replaces the form once editing is off and a name is present. */
    predicate ShowsViewMode()
      reads this
    {
      !isEditing && name != ""
    }

    /** The "Remove" buttons are enabled only while more than one goal is listed. */
    predicate RemoveEnabled()
      reads this
    {
      |learningGoals| > 1
    }

    /** `handleInputChange`: the named field takes the value and nothing else changes. */
    method HandleInputChange(field: Field, value: string)
      modifies this
      ensures name == (if field == Name then value else old(name))
      ensures email == (if field == Email then value else old(email))
      ensures targetLanguageId == (if field == TargetLanguageId then value else old(targetLanguageId))
      ensures proficiencyLevel == (if field == ProficiencyLevel then value else old(proficiencyLevel))
      ensures learningGoals == old(learningGoals) && isEditing == old(isEditing)
    {
      match field
      case Name => name := value;
      case Email => email := value;
      case TargetLanguageId => targetLanguageId := value;
      case ProficiencyLevel => proficiencyLevel := value;
    }

    /** `handleGoalChange`: the goal at `index` takes the value; the others and the length stay. */
    method HandleGoalChange(index: nat, value: string)
      requires index < |learningGoals|
      modifies this`learningGoals
      ensures |learningGoals| == old(|learningGoals|)
      ensures learningGoals[index] == value
      ensures forall k :: 0 <= k < |learningGoals| && k != index ==> learningGoals[k] == old(learningGoals[k])
    {
      learningGoals := learningGoals[index := value];
    }

    /** `addGoal`: one more, empty, goal at the end. */
    method AddGoal()
      modifies this`learningGoals
      ensures learningGoals == old(learningGoals) + [""]
    {
      learningGoals := learningGoals + [""];
    }

    /** `removeGoal`: the goal at `index` is dropped, the others keep their order. */
    method RemoveGoal(index: nat)
      modifies this`learningGoals
      ensures learningGoals == DropAt(old(learningGoals), index)
      ensures old(RemoveEnabled()) ==> |learningGoals| >= 1
    {
      learningGoals := DropAt(learningGoals, index);
    }

    /** `handleSubmit`: leave editing; every field keeps its value. */
    method HandleSubmit()
      modifies this`isEditing
      ensures !isEditing
      ensures ShowsViewMode() <==> name != ""
    {
      isEditing := false;
    }

    /** `startEditing`: back to the form; every field keeps its value. */
    method StartEditing()
      modifies this`isEditing
      ensures isEditing && !ShowsViewMode()
    {
      isEditing := true;
    }
  }
}

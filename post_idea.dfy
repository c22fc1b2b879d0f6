/** The "post an idea" form: a title, a description and a list of
    required skills that behaves as a set, typed in or picked from a list
    of popular skills. */
module PostIdea {
  import opened Text
  import opened Lists

  const PredefinedSkills: seq<String> := [
    "React", "Node.js", "Python", "JavaScript", "TypeScript", "Go", "Rust",
    "UI/UX Design", "Product Management", "Marketing", "Sales", "Data Science",
    "Machine Learning", "DevOps", "Mobile Development", "Blockchain"]

  const MaxSuggestions: nat := 8

  /** The two text fields `handleInputChange` writes, by input name. */
  datatype Field = Title | Description

  /** The skill list as a set: no skill twice and no empty skill. */
  predicate SkillSet(skills: seq<String>) {
    NoDuplicates(skills) && [] !in skills
  }

  /** What `addSkill(skill)` does to the list: append a non-empty skill
      that is not there yet, otherwise nothing. */
  function WithSkill(skills: seq<String>, skill: String): (r: seq<String>)
    ensures skill != [] && skill !in skills ==> r == skills + [skill]
    ensures skill == [] || skill in skills ==> r == skills
    ensures SkillSet(skills) ==> SkillSet(r)
  {
    if skill != [] && skill !in skills then skills + [skill] else skills
  }

  /** Adding a new skill and then removing it gives the list back. */
  lemma AddThenRemove(skills: seq<String>, skill: String)
    requires skill != [] && skill !in skills
    ensures Remove(WithSkill(skills, skill), skill) == skills
  {
    RemoveAppended(skills, skill);
  }

  /** Removing keeps the list a set, drops the skill and keeps the order of
      the rest. */
  lemma RemoveKeepsSet(skills: seq<String>, skill: String)
    requires SkillSet(skills)
    ensures SkillSet(Remove(skills, skill)) && skill !in Remove(skills, skill)
    ensures IsSubsequence(Remove(skills, skill), skills)
    ensures forall i :: 0 <= i < |skills| && skills[i] != skill ==> skills[i] in Remove(skills, skill)
  {
    RemoveNoDuplicates(skills, skill);
    RemoveSpec(skills, skill);
  }

  /** The test `skill => !selected.includes(skill)`. */
  function NotIn(selected: seq<String>): String -> bool {
    (s: String) => s !in selected
  }

  /** The popular skills not selected yet, in their listed order, at most
      eight of them. */
  function Suggestions(selected: seq<String>): (r: seq<String>)
    ensures |r| <= MaxSuggestions
    ensures forall i :: 0 <= i < |r| ==> r[i] !in selected
    ensures var open := Filter(PredefinedSkills, NotIn(selected));
      |r| <= |open| && r == open[..|r|] && (|open| <= MaxSuggestions ==> r == open)
  {
    Take(Filter(PredefinedSkills, NotIn(selected)), MaxSuggestions)
  }

  /** The suggestions keep the order of the popular-skills list. */
  lemma SuggestionsInOrder(selected: seq<String>)
    ensures IsSubsequence(Suggestions(selected), PredefinedSkills)
  {
    var open := Filter(PredefinedSkills, NotIn(selected));
    FilterIsSubsequence(PredefinedSkills, NotIn(selected));
    PrefixIsSubsequence(open, |Suggestions(selected)|, PredefinedSkills);
  }

  /** A prefix of a subsequence is a subsequence. */
  lemma {:induction false} PrefixIsSubsequence(a: seq<String>, n: nat, b: seq<String>)
    requires n <= |a| && IsSubsequence(a, b)
    ensures IsSubsequence(a[..n], b)
    decreases |b|
  {
    if n > 0 {
      if a[0] == b[0] {
        assert a[..n][1..] == a[1..][..n - 1];
        PrefixIsSubsequence(a[1..], n - 1, b[1..]);
      } else {
        PrefixIsSubsequence(a, n, b[1..]);
      }
    }
  }

  class PostIdeaForm {
    var title: String
    var description: String
    var requiredSkills: seq<String>
    var skillInput: String
    var isSubmitting: bool

    ghost predicate Valid()
      reads this
    {
      SkillSet(requiredSkills)
    }

    constructor ()
      ensures Valid()
      ensures title == [] && description == [] && requiredSkills == []
      ensures skillInput == [] && !isSubmitting
    {
      title, description, requiredSkills := [], [], [];
      skillInput, isSubmitting := [], false;
    }

    /** `handleInputChange` for the title and description inputs. */
    method HandleInputChange(name: Field, value: String)
      modifies this
      ensures name == Title ==> title == value && description == old(description)
      ensures name == Description ==> description == value && title == old(title)
      ensures requiredSkills == old(requiredSkills) && skillInput == old(skillInput)
      ensures isSubmitting == old(isSubmitting)
    {
      if name == Title {
        title := value;
      } else {
        description := value;
      }
    }

    /** Typing in the skill box. */
    method SetSkillInput(value: String)
      modifies this
      ensures skillInput == value
      ensures title == old(title) && description == old(description)
      ensures requiredSkills == old(requiredSkills) && isSubmitting == old(isSubmitting)
    {
      skillInput := value;
    }

    /** `addSkill(skill)`: the input box is cleared whether or not the skill
        was added. */
    method AddSkill(skill: String)
      requires Valid()
      modifies this
      ensures Valid()
      ensures requiredSkills == WithSkill(old(requiredSkills), skill)
      ensures skillInput == []
      ensures title == old(title) && description == old(description)
      ensures isSubmitting == old(isSubmitting)
    {
      requiredSkills := WithSkill(requiredSkills, skill);
      skillInput := [];
    }

    /** `removeSkill(skill)`. */
    method RemoveSkill(skill: String)
      requires Valid()
      modifies this
      ensures Valid()
      ensures requiredSkills == Remove(old(requiredSkills), skill)
      ensures skillInput == old(skillInput)
      ensures title == old(title) && description == old(description)
      ensures isSubmitting == old(isSubmitting)
    {
      RemoveKeepsSet(requiredSkills, skill);
      requiredSkills := Remove(requiredSkills, skill);
    }

    /** `handleSkillKeyPress`: Enter adds the trimmed input; any other key
        changes nothing. */
    method HandleSkillKeyPress(key: String)
      requires Valid()
      modifies this
      ensures Valid()
      ensures key == "Enter" ==>
        requiredSkills == WithSkill(old(requiredSkills), Trim(old(skillInput))) && skillInput == []
      ensures key != "Enter" ==> requiredSkills == old(requiredSkills) && skillInput == old(skillInput)
      ensures title == old(title) && description == old(description)
      ensures isSubmitting == old(isSubmitting)
    {
      if key == "Enter" {
        AddSkill(Trim(skillInput));
      }
    }

    /** The add button is disabled while the trimmed input is empty. */
    function AddDisabled(): (d: bool)
      reads this
      ensures d <==> IsBlank(skillInput)
    {
      TrimEmptyIffBlank(skillInput);
      Trim(skillInput) == []
    }

    /** A click on the add button: it adds the trimmed input, and a
        disabled button does not fire. */
    method ClickAdd()
      requires Valid()
      modifies this
      ensures Valid()
      ensures !old(AddDisabled()) ==>
        requiredSkills == WithSkill(old(requiredSkills), Trim(old(skillInput))) && skillInput == []
      ensures old(AddDisabled()) ==> requiredSkills == old(requiredSkills) && skillInput == old(skillInput)
      ensures title == old(title) && description == old(description)
      ensures isSubmitting == old(isSubmitting)
    {
      if !AddDisabled() {
        AddSkill(Trim(skillInput));
      }
    }

    /** The submit button is disabled while submitting or while the title
        or the description is empty. */
    function SubmitDisabled(): (d: bool)
      reads this
      ensures !d <==> !isSubmitting && title != [] && description != []
    {
      isSubmitting || title == [] || description == []
    }

    /** `handleSubmit` up to its two-second wait. */
    method BeginSubmit()
      modifies this
      ensures isSubmitting
      ensures title == old(title) && description == old(description)
      ensures requiredSkills == old(requiredSkills) && skillInput == old(skillInput)
    {
      isSubmitting := true;
    }

    /** The rest of `handleSubmit`, when the wait is over: the form is
        cleared. */
    method FinishSubmit()
      modifies this
      ensures Valid()
      ensures title == [] && description == [] && requiredSkills == []
      ensures skillInput == [] && !isSubmitting
    {
      title, description, requiredSkills := [], [], [];
      skillInput := [];
      isSubmitting := false;
    }
  }
}

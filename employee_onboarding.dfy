/** The employee onboarding wizard. Step 1 saves the employee profile and
    keeps the id the backend returns; step 2 saves the skills under that id
    and goes to the dashboard. Submits are split into `Begin…` and
    `Complete…` as in the founder wizard. */
module EmployeeOnboarding {
  import opened Wrappers
  import opened Text

  /** `employeeData`, with the `id` step 1 adds. */
  datatype EmployeeData = EmployeeData(
    id: Option<String>, full_name: String, profile_photo: String,
    short_bio: String, current_position: String, career_goal: String,
    linkedin_url: String, github_url: String, portfolio_url: String,
    city: String, country: String)

  /** `skillsData`; the three lists are edited as comma-separated text. */
  datatype SkillsData = SkillsData(
    skill_tags: seq<String>, expertise_summary: String,
    years_of_experience: String, tech_stack: seq<String>,
    open_to_roles: seq<String>, availability: String)

  const EmptyEmployee := EmployeeData(None, "", "", "", "", "", "", "", "", "", "")
  const EmptySkills := SkillsData([], "", "", [], [], "")

  datatype EmployeeField =
    | FullName | ProfilePhoto | ShortBio | CurrentPosition | CareerGoal
    | LinkedinUrl | GithubUrl | PortfolioUrl | City | Country

  datatype SkillsField = ExpertiseSummary | YearsOfExperience | Availability

  datatype ListField = SkillTags | TechStack | OpenToRoles

  /** `{...employeeData, [field]: value}`. */
  function WithEmployeeField(d: EmployeeData, f: EmployeeField, v: String): EmployeeData {
    match f
    case FullName => d.(full_name := v)
    case ProfilePhoto => d.(profile_photo := v)
    case ShortBio => d.(short_bio := v)
    case CurrentPosition => d.(current_position := v)
    case CareerGoal => d.(career_goal := v)
    case LinkedinUrl => d.(linkedin_url := v)
    case GithubUrl => d.(github_url := v)
    case PortfolioUrl => d.(portfolio_url := v)
    case City => d.(city := v)
    case Country => d.(country := v)
  }

  function WithSkillsField(d: SkillsData, f: SkillsField, v: String): SkillsData {
    match f
    case ExpertiseSummary => d.(expertise_summary := v)
    case YearsOfExperience => d.(years_of_experience := v)
    case Availability => d.(availability := v)
  }

  function ListOf(d: SkillsData, f: ListField): seq<String> {
    match f
    case SkillTags => d.skill_tags
    case TechStack => d.tech_stack
    case OpenToRoles => d.open_to_roles
  }

  /** `{...skillsData, [field]: value.split(",")}`. */
  function WithList(d: SkillsData, f: ListField, text: String): (r: SkillsData)
    ensures ListOf(r, f) == Split(text, ',')
    ensures forall g :: g != f ==> ListOf(r, g) == ListOf(d, g)
    ensures r.expertise_summary == d.expertise_summary
    ensures r.years_of_experience == d.years_of_experience
    ensures r.availability == d.availability
  {
    match f
    case SkillTags => d.(skill_tags := Split(text, ','))
    case TechStack => d.(tech_stack := Split(text, ','))
    case OpenToRoles => d.(open_to_roles := Split(text, ','))
  }

  /** The text a comma-separated input shows: `list.join(",")`. */
  function ListText(d: SkillsData, f: ListField): String {
    Join(ListOf(d, f), ",")
  }

  /** Typing into a list input and reading it back gives the text typed. */
  lemma ListTextRoundTrip(d: SkillsData, f: ListField, text: String)
    ensures ListText(WithList(d, f, text), f) == text
  {
    JoinSplit(text, ',');
  }

  /** The inputs marked `required`: the browser submits a form only when
      every one of them shows non-empty text. */
  predicate EmployeeFormFilled(d: EmployeeData) {
    d.full_name != [] && d.short_bio != [] && d.current_position != [] && d.career_goal != []
  }

  predicate SkillsFormFilled(d: SkillsData) {
    ListText(d, SkillTags) != [] && d.expertise_summary != [] && d.availability != []
  }

  /** The backend write a submit starts. */
  datatype Upsert =
    | UpsertEmployee(profileId: String, employee: EmployeeData)
    | UpsertSkills(employeeProfileId: Option<String>, skills: SkillsData)

  const EmployeeError: String := "Failed to save employee profile."
  const SkillsError: String := "Failed to save skills."

  class EmployeeWizard {
    /** The signed-in user's profile id; the page waits while it is unknown. */
    var profileId: Option<String>
    var step: nat
    var employeeData: EmployeeData
    var skillsData: SkillsData
    var loading: bool
    var error: String
    var inFlight: Option<Upsert>
    /** Where the wizard has navigated to; `[]` while it stays. */
    var route: String

    ghost predicate Valid()
      reads this
    {
      && (step == 1 || step == 2)
      && (step == 2 ==> employeeData.id.Some?)
      && (loading <==> inFlight.Some?)
      && (inFlight.Some? ==> error == [])
      && (inFlight.Some? && inFlight.value.UpsertEmployee? ==> step == 1)
      && (inFlight.Some? && inFlight.value.UpsertSkills? ==> step == 2)
    }

    constructor (profileId: Option<String>)
      ensures Valid()
      ensures this.profileId == profileId && step == 1
      ensures employeeData == EmptyEmployee && skillsData == EmptySkills
      ensures !loading && error == [] && inFlight.None? && route == []
    {
      this.profileId := profileId;
      step := 1;
      employeeData, skillsData := EmptyEmployee, EmptySkills;
      loading, error, inFlight, route := false, [], None, [];
    }

    /** `useSupabaseUser` delivering the profile. */
    method ProfileLoaded(id: String)
      modifies this
      ensures profileId == Some(id)
      ensures step == old(step) && employeeData == old(employeeData) && skillsData == old(skillsData)
      ensures loading == old(loading) && error == old(error) && inFlight == old(inFlight)
      ensures route == old(route)
    {
      profileId := Some(id);
    }

    method EditEmployee(f: EmployeeField, v: String)
      modifies this
      ensures employeeData == WithEmployeeField(old(employeeData), f, v)
      ensures step == old(step) && skillsData == old(skillsData) && profileId == old(profileId)
      ensures loading == old(loading) && error == old(error) && inFlight == old(inFlight)
      ensures route == old(route)
    {
      employeeData := WithEmployeeField(employeeData, f, v);
    }

    method EditSkills(f: SkillsField, v: String)
      modifies this
      ensures skillsData == WithSkillsField(old(skillsData), f, v)
      ensures step == old(step) && employeeData == old(employeeData) && profileId == old(profileId)
      ensures loading == old(loading) && error == old(error) && inFlight == old(inFlight)
      ensures route == old(route)
    {
      skillsData := WithSkillsField(skillsData, f, v);
    }

    /** Typing in one of the comma-separated inputs; it then shows exactly
        the text typed. */
    method EditList(f: ListField, text: String)
      modifies this
      ensures skillsData == WithList(old(skillsData), f, text)
      ensures ListText(skillsData, f) == text
      ensures step == old(step) && employeeData == old(employeeData) && profileId == old(profileId)
      ensures loading == old(loading) && error == old(error) && inFlight == old(inFlight)
      ensures route == old(route)
    {
      skillsData := WithList(skillsData, f, text);
      ListTextRoundTrip(old(skillsData), f, text);
    }

    /** `handleEmployeeSubmit` up to its `await`. */
    method BeginEmployeeSubmit() returns (req: Upsert)
      requires Valid() && profileId.Some? && step == 1 && !loading
      requires EmployeeFormFilled(employeeData)
      modifies this
      ensures Valid() && profileId == old(profileId)
      ensures req == UpsertEmployee(profileId.value, employeeData)
      ensures loading && error == [] && inFlight == Some(req)
      ensures step == old(step) && employeeData == old(employeeData) && skillsData == old(skillsData)
      ensures route == old(route)
    {
      loading, error := true, [];
      req := UpsertEmployee(profileId.value, employeeData);
      inFlight := Some(req);
    }

    /** The rest of `handleEmployeeSubmit`: the form as submitted, with the
        returned id, and step 2 on success; step 1 and an error on failure. */
    method CompleteEmployeeSubmit(outcome: Option<String>)
      requires Valid() && inFlight.Some? && inFlight.value.UpsertEmployee?
      modifies this
      ensures Valid()
      ensures outcome.Some? ==>
        employeeData == old(inFlight.value.employee).(id := outcome) && step == 2 && error == []
      ensures outcome.None? ==>
        employeeData == old(employeeData) && step == 1 && error == EmployeeError
      ensures !loading && inFlight.None?
      ensures skillsData == old(skillsData) && profileId == old(profileId) && route == old(route)
    {
      var submitted := inFlight.value.employee;
      if outcome.Some? {
        employeeData := submitted.(id := outcome);
        step := 2;
      } else {
        error := EmployeeError;
      }
      loading, inFlight := false, None;
    }

    /** `handleSkillsSubmit` up to its `await`: the skills are upserted under
        the employee profile id step 1 obtained. */
    method BeginSkillsSubmit() returns (req: Upsert)
      requires Valid() && step == 2 && !loading
      requires SkillsFormFilled(skillsData)
      modifies this
      ensures Valid()
      ensures req == UpsertSkills(employeeData.id, skillsData) && employeeData.id.Some?
      ensures loading && error == [] && inFlight == Some(req)
      ensures step == old(step) && employeeData == old(employeeData) && skillsData == old(skillsData)
      ensures profileId == old(profileId) && route == old(route)
    {
      loading, error := true, [];
      req := UpsertSkills(employeeData.id, skillsData);
      inFlight := Some(req);
    }

    /** The rest of `handleSkillsSubmit`. */
    method CompleteSkillsSubmit(succeeded: bool)
      requires Valid() && inFlight.Some? && inFlight.value.UpsertSkills?
      modifies this
      ensures Valid()
      ensures succeeded ==> route == "/dashboard" && error == []
      ensures !succeeded ==> route == old(route) && error == SkillsError
      ensures !loading && inFlight.None? && step == 2
      ensures employeeData == old(employeeData) && skillsData == old(skillsData)
      ensures profileId == old(profileId)
    {
      if succeeded {
        route := "/dashboard";
      } else {
        error := SkillsError;
      }
      loading, inFlight := false, None;
    }
  }
}

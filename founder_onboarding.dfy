/** The founder onboarding wizard. Step 1 saves the founder profile and
    keeps the id the backend returns; step 2 saves the startup profile
    under that id and goes to the dashboard.

    A submit is two events: `Begin…` runs up to the `await` and returns the
    upsert it starts, and `Complete…` runs the rest once the upsert has
    settled, with its outcome. The handler's closure sees the form as it
    was at submit time, which `inFlight` keeps. */
module FounderOnboarding {
  import opened Wrappers
  import opened Text

  /** `founderData`, with the `id` step 1 adds. */
  datatype FounderData = FounderData(
    id: Option<String>, full_name: String, profile_photo: String,
    short_bio: String, experience_background: String, linkedin_url: String,
    city: String, country: String, looking_for: String)

  /** `startupData`; `tech_stack` is edited as comma-separated text. */
  datatype StartupData = StartupData(
    startup_name: String, one_line_pitch: String, description: String,
    industry: String, stage: String, tech_stack: seq<String>,
    website_url: String, problem_statement: String, target_market: String)

  const EmptyFounder := FounderData(None, "", "", "", "", "", "", "", "")
  const EmptyStartup := StartupData("", "", "", "", "", [], "", "", "")

  datatype FounderField =
    | FullName | ProfilePhoto | ShortBio | ExperienceBackground
    | LinkedinUrl | City | Country | LookingFor

  datatype StartupField =
    | StartupName | OneLinePitch | Description | Industry | Stage
    | WebsiteUrl | ProblemStatement | TargetMarket

  /** `{...founderData, [field]: value}`. */
  function WithFounderField(d: FounderData, f: FounderField, v: String): FounderData {
    match f
    case FullName => d.(full_name := v)
    case ProfilePhoto => d.(profile_photo := v)
    case ShortBio => d.(short_bio := v)
    case ExperienceBackground => d.(experience_background := v)
    case LinkedinUrl => d.(linkedin_url := v)
    case City => d.(city := v)
    case Country => d.(country := v)
    case LookingFor => d.(looking_for := v)
  }

  /** `{...startupData, [field]: value}`. */
  function WithStartupField(d: StartupData, f: StartupField, v: String): StartupData {
    match f
    case StartupName => d.(startup_name := v)
    case OneLinePitch => d.(one_line_pitch := v)
    case Description => d.(description := v)
    case Industry => d.(industry := v)
    case Stage => d.(stage := v)
    case WebsiteUrl => d.(website_url := v)
    case ProblemStatement => d.(problem_statement := v)
    case TargetMarket => d.(target_market := v)
  }

  /** The inputs marked `required`: the browser submits a form only when
      every one of them is non-empty. */
  predicate FounderFormFilled(d: FounderData) {
    d.full_name != [] && d.short_bio != []
  }

  predicate StartupFormFilled(d: StartupData) {
    d.startup_name != [] && d.one_line_pitch != [] && d.description != []
    && d.industry != [] && d.stage != []
  }

  /** The backend write a submit starts. */
  datatype Upsert =
    | UpsertFounder(profileId: String, founder: FounderData)
    | UpsertStartup(founderProfileId: Option<String>, startup: StartupData)

  const FounderError: String := "Failed to save founder profile."
  const StartupError: String := "Failed to save startup profile."

  class FounderWizard {
    /** The signed-in user's profile id; the page waits while it is unknown. */
    var profileId: Option<String>
    var step: nat
    var founderData: FounderData
    var startupData: StartupData
    var loading: bool
    var error: String
    var inFlight: Option<Upsert>
    /** Where the wizard has navigated to; `[]` while it stays. */
    var route: String

    ghost predicate Valid()
      reads this
    {
      && (step == 1 || step == 2)
      && (step == 2 ==> founderData.id.Some?)
      && (loading <==> inFlight.Some?)
      && (inFlight.Some? ==> error == [])
      && (inFlight.Some? && inFlight.value.UpsertFounder? ==> step == 1)
      && (inFlight.Some? && inFlight.value.UpsertStartup? ==> step == 2)
    }

    constructor (profileId: Option<String>)
      ensures Valid()
      ensures this.profileId == profileId && step == 1
      ensures founderData == EmptyFounder && startupData == EmptyStartup
      ensures !loading && error == [] && inFlight.None? && route == []
    {
      this.profileId := profileId;
      step := 1;
      founderData, startupData := EmptyFounder, EmptyStartup;
      loading, error, inFlight, route := false, [], None, [];
    }

    /** `useSupabaseUser` delivering the profile. */
    method ProfileLoaded(id: String)
      modifies this
      ensures profileId == Some(id)
      ensures step == old(step) && founderData == old(founderData) && startupData == old(startupData)
      ensures loading == old(loading) && error == old(error) && inFlight == old(inFlight)
      ensures route == old(route)
    {
      profileId := Some(id);
    }

    method EditFounder(f: FounderField, v: String)
      requires Valid()
      modifies this
      ensures Valid()
      ensures founderData == WithFounderField(old(founderData), f, v)
      ensures step == old(step) && startupData == old(startupData) && profileId == old(profileId)
      ensures loading == old(loading) && error == old(error) && inFlight == old(inFlight)
      ensures route == old(route)
    {
      founderData := WithFounderField(founderData, f, v);
    }

    method EditStartup(f: StartupField, v: String)
      modifies this
      ensures startupData == WithStartupField(old(startupData), f, v)
      ensures step == old(step) && founderData == old(founderData) && profileId == old(profileId)
      ensures loading == old(loading) && error == old(error) && inFlight == old(inFlight)
      ensures route == old(route)
    {
      startupData := WithStartupField(startupData, f, v);
    }

    /** The text the tech-stack input shows: `tech_stack.join(",")`. */
    function TechStackText(): (t: String)
      reads this
      ensures startupData.tech_stack == [] ==> t == []
    {
      Join(startupData.tech_stack, ",")
    }

    /** Typing in the tech-stack input: `value.split(",")`. The input then
        shows exactly the text typed. */
    method EditTechStack(text: String)
      modifies this
      ensures startupData == old(startupData).(tech_stack := Split(text, ','))
      ensures TechStackText() == text
      ensures step == old(step) && founderData == old(founderData) && profileId == old(profileId)
      ensures loading == old(loading) && error == old(error) && inFlight == old(inFlight)
      ensures route == old(route)
    {
      startupData := startupData.(tech_stack := Split(text, ','));
      JoinSplit(text, ',');
    }

    /** `handleFounderSubmit` up to its `await`: loading on, error cleared,
        and the founder profile upserted under the user's profile id. */
    method BeginFounderSubmit() returns (req: Upsert)
      requires Valid() && profileId.Some? && step == 1 && !loading
      requires FounderFormFilled(founderData)
      modifies this
      ensures Valid() && profileId == old(profileId)
      ensures req == UpsertFounder(profileId.value, founderData)
      ensures loading && error == [] && inFlight == Some(req)
      ensures step == old(step) && founderData == old(founderData) && startupData == old(startupData)
      ensures route == old(route)
    {
      loading, error := true, [];
      req := UpsertFounder(profileId.value, founderData);
      inFlight := Some(req);
    }

    /** The rest of `handleFounderSubmit`. On success the form as submitted,
        with the returned id, is kept and the wizard moves to step 2; on
        failure it stays on step 1 with an error. Loading ends either way. */
    method CompleteFounderSubmit(outcome: Option<String>)
      requires Valid() && inFlight.Some? && inFlight.value.UpsertFounder?
      modifies this
      ensures Valid()
      ensures outcome.Some? ==>
        founderData == old(inFlight.value.founder).(id := outcome) && step == 2 && error == []
      ensures outcome.None? ==>
        founderData == old(founderData) && step == 1 && error == FounderError
      ensures !loading && inFlight.None?
      ensures startupData == old(startupData) && profileId == old(profileId) && route == old(route)
    {
      var submitted := inFlight.value.founder;
      if outcome.Some? {
        founderData := submitted.(id := outcome);
        step := 2;
      } else {
        error := FounderError;
      }
      loading, inFlight := false, None;
    }

    /** `handleStartupSubmit` up to its `await`: the startup is upserted
        under the founder profile id step 1 obtained. */
    method BeginStartupSubmit() returns (req: Upsert)
      requires Valid() && step == 2 && !loading
      requires StartupFormFilled(startupData)
      modifies this
      ensures Valid()
      ensures req == UpsertStartup(founderData.id, startupData) && founderData.id.Some?
      ensures loading && error == [] && inFlight == Some(req)
      ensures step == old(step) && founderData == old(founderData) && startupData == old(startupData)
      ensures profileId == old(profileId) && route == old(route)
    {
      loading, error := true, [];
      req := UpsertStartup(founderData.id, startupData);
      inFlight := Some(req);
    }

    /** The rest of `handleStartupSubmit`: to the dashboard on success, an
        error on failure, and loading ends either way. */
    method CompleteStartupSubmit(succeeded: bool)
      requires Valid() && inFlight.Some? && inFlight.value.UpsertStartup?
      modifies this
      ensures Valid()
      ensures succeeded ==> route == "/dashboard" && error == []
      ensures !succeeded ==> route == old(route) && error == StartupError
      ensures !loading && inFlight.None? && step == 2
      ensures founderData == old(founderData) && startupData == old(startupData)
      ensures profileId == old(profileId)
    {
      if succeeded {
        route := "/dashboard";
      } else {
        error := StartupError;
      }
      loading, inFlight := false, None;
    }
  }
}

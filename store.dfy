/** The rows the application reads from its backend-as-a-service, the
    tables as sequences of rows, and the query shapes it uses on them.
    A query against a table listed in `down` comes back with an error. */
module Store {
  import opened Wrappers
  import opened Text
  import opened Lists

  /** JavaScript truthiness of a possibly missing string: present and not empty. */
  predicate Truthy(v: Option<String>) {
    v.Some? && v.value != ""
  }

  /** `v || fallback` for a possibly missing string. */
  function OrElse(v: Option<String>, fallback: String): (r: String)
    ensures Truthy(v) ==> r == v.value
    ensures !Truthy(v) ==> r == fallback
  {
    if Truthy(v) then v.value else fallback
  }

  /** A row of `profiles`: one per signed-in identity, with its role. */
  datatype Profile = Profile(id: String, auth_user_id: String, role: String)

  /** A row of `founder_profile` (the columns the application reads). */
  datatype FounderProfile = FounderProfile(
    id: String, profile_id: String, full_name: Option<String>,
    short_bio: Option<String>, experience_background: Option<String>,
    city: Option<String>, country: Option<String>, looking_for: Option<String>)

  /** A row of `startup_profile` (the columns the application reads). */
  datatype StartupProfile = StartupProfile(
    id: String, founder_profile_id: String, startup_name: Option<String>,
    one_line_pitch: Option<String>, description: Option<String>,
    industry: Option<String>, stage: Option<String>,
    tech_stack: Option<seq<String>>)

  /** A row of `employee_profile` (the columns the application reads). */
  datatype EmployeeProfile = EmployeeProfile(
    id: String, profile_id: String, full_name: Option<String>,
    short_bio: Option<String>, current_position: Option<String>,
    education: Option<String>, city: Option<String>, country: Option<String>)

  /** A row of `employee_skills` (the columns the application reads). */
  datatype EmployeeSkills = EmployeeSkills(
    id: String, employee_profile_id: String, skill_tags: Option<seq<String>>,
    previous_companies: Option<seq<String>>, tech_stack: Option<seq<String>>,
    open_to_roles: Option<seq<String>>)

  datatype Table =
    | ProfilesTable | FounderProfileTable | StartupProfileTable
    | EmployeeProfileTable | EmployeeSkillsTable | PostsTable

  /** The tables the matching pipeline reads. */
  datatype Db = Db(
    profiles: seq<Profile>, founders: seq<FounderProfile>,
    startups: seq<StartupProfile>, employees: seq<EmployeeProfile>,
    skills: seq<EmployeeSkills>, down: set<Table>)

  /** `.single()`: the one row a query matched, or an error (here `None`)
      when it matched none or several. */
  function Single<T>(rows: seq<T>): (r: Option<T>)
    ensures r.Some? <==> |rows| == 1
    ensures r.Some? ==> r.value == rows[0]
  {
    if |rows| == 1 then Some(rows[0]) else None
  }

  /** `from('profiles').select('*').eq('auth_user_id', uid).single()`. */
  function ProfileOfUser(db: Db, uid: String): (r: Option<Profile>)
    ensures r.Some? ==> r.value in db.profiles && r.value.auth_user_id == uid
    ensures r.Some? <==> ProfilesTable !in db.down && |Filter(db.profiles, (p: Profile) => p.auth_user_id == uid)| == 1
    ensures r.Some? ==> r.value == Filter(db.profiles, (p: Profile) => p.auth_user_id == uid)[0]
  {
    if ProfilesTable in db.down then None
    else Single(Filter(db.profiles, (p: Profile) => p.auth_user_id == uid))
  }

  /** `from('founder_profile').select('*').eq('profile_id', pid).single()`. */
  function FounderOfProfile(db: Db, pid: String): (r: Option<FounderProfile>)
    ensures r.Some? ==> r.value in db.founders && r.value.profile_id == pid
    ensures r.Some? <==> FounderProfileTable !in db.down && |Filter(db.founders, (f: FounderProfile) => f.profile_id == pid)| == 1
    ensures r.Some? ==> r.value == Filter(db.founders, (f: FounderProfile) => f.profile_id == pid)[0]
  {
    if FounderProfileTable in db.down then None
    else Single(Filter(db.founders, (f: FounderProfile) => f.profile_id == pid))
  }

  /** `from('startup_profile').select('*').eq('founder_profile_id', fid).single()`. */
  function StartupOfFounder(db: Db, fid: String): (r: Option<StartupProfile>)
    ensures r.Some? ==> r.value in db.startups && r.value.founder_profile_id == fid
    ensures r.Some? <==> StartupProfileTable !in db.down && |Filter(db.startups, (s: StartupProfile) => s.founder_profile_id == fid)| == 1
    ensures r.Some? ==> r.value == Filter(db.startups, (s: StartupProfile) => s.founder_profile_id == fid)[0]
  {
    if StartupProfileTable in db.down then None
    else Single(Filter(db.startups, (s: StartupProfile) => s.founder_profile_id == fid))
  }

  /** `from('employee_profile').select('*').eq('profile_id', pid).single()`. */
  function EmployeeOfProfile(db: Db, pid: String): (r: Option<EmployeeProfile>)
    ensures r.Some? ==> r.value in db.employees && r.value.profile_id == pid
    ensures r.Some? <==> EmployeeProfileTable !in db.down && |Filter(db.employees, (e: EmployeeProfile) => e.profile_id == pid)| == 1
    ensures r.Some? ==> r.value == Filter(db.employees, (e: EmployeeProfile) => e.profile_id == pid)[0]
  {
    if EmployeeProfileTable in db.down then None
    else Single(Filter(db.employees, (e: EmployeeProfile) => e.profile_id == pid))
  }

  /** `from('employee_skills').select('*').eq('employee_profile_id', eid).single()`. */
  function SkillsOfEmployee(db: Db, eid: String): (r: Option<EmployeeSkills>)
    ensures r.Some? ==> r.value in db.skills && r.value.employee_profile_id == eid
    ensures r.Some? <==> EmployeeSkillsTable !in db.down && |Filter(db.skills, (s: EmployeeSkills) => s.employee_profile_id == eid)| == 1
    ensures r.Some? ==> r.value == Filter(db.skills, (s: EmployeeSkills) => s.employee_profile_id == eid)[0]
  {
    if EmployeeSkillsTable in db.down then None
    else Single(Filter(db.skills, (s: EmployeeSkills) => s.employee_profile_id == eid))
  }
}

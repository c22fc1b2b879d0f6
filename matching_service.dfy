/** `findSimilarEmployeesForFounder` and `findSimilarStartupsForEmployee`:
    check the caller's role, gather the caller's own record and the pool of
    candidates, ask the language model to score every candidate, cut the
    JSON array out of its reply, parse it and sort it by fit, best first.
    Any failure on the way is caught and turned into an empty result.

    The backend is the `Db` value, the signed-in user is `session`, the
    language model is `generate` (payload to reply text, or an error
    message) and `JSON.parse` followed by the array check that `sort`
    performs is `parse`. */
module MatchingService {
  import opened Wrappers
  import opened Text
  import opened Lists
  import opened StableSort
  import opened Store
  import opened MatchCard

  /** The error each early exit throws; the catch logs it and returns `[]`. */
  datatype Failure =
    | NotAuthenticated | ProfileNotFound | NotFounder | NotEmployee
    | EmployeeNotFound | SkillsNotFound
    | CouldNotFetchEmployees | CouldNotFetchSkills
    | CouldNotFetchStartups | CouldNotFetchFounders
    | GeminiError(message: String) | ParseFailed(response: String)

  /** An outside call, in the order the orchestration makes them: a
      `.single()` lookup, a read of a whole table, or the model call. */
  datatype Call = Lookup(table: Table) | ReadAll(table: Table) | Generate

  /** `{...emp, skills: skill}`, where a missing skills row is `{}`. */
  datatype EmployeeWithSkills = EmployeeWithSkills(
    employee: EmployeeProfile, skills: Option<EmployeeSkills>)

  /** `{startup, founder}`, where a missing founder row is `{}`. */
  datatype StartupWithFounder = StartupWithFounder(
    startup: StartupProfile, founder: Option<FounderProfile>)

  /** The data object sent to the model; `None` stands for `{}`. */
  datatype Payload =
    | ForFounder(founder: Option<FounderProfile>, startup: Option<StartupProfile>,
                 employees: seq<EmployeeWithSkills>)
    | ForEmployee(profile: EmployeeProfile, skills: EmployeeSkills,
                  startups: seq<StartupWithFounder>)

  /** The sort key, `b.fitPercentage - a.fitPercentage` read as descending. */
  function Fit(m: MatchResult): int { m.fitPercentage }

  /** `employees.map(emp => ({...emp, skills: skills.find(...) || {}}))`:
      one entry per employee, in order, each with the first skills row that
      names it, or none. */
  function EmployeesWithSkills(employees: seq<EmployeeProfile>, skills: seq<EmployeeSkills>)
    : (r: seq<EmployeeWithSkills>)
    ensures |r| == |employees|
    ensures forall i :: 0 <= i < |r| ==> r[i].employee == employees[i]
    ensures forall i :: 0 <= i < |r| ==>
      (r[i].skills.None? <==>
        forall k :: 0 <= k < |skills| ==> skills[k].employee_profile_id != employees[i].id)
    ensures forall i :: 0 <= i < |r| && r[i].skills.Some? ==>
      exists k :: (0 <= k < |skills| && skills[k] == r[i].skills.value
        && skills[k].employee_profile_id == employees[i].id
        && forall j :: 0 <= j < k ==> skills[j].employee_profile_id != employees[i].id)
  {
    seq(|employees|, i requires 0 <= i < |employees| =>
      EmployeeWithSkills(employees[i],
        Find(skills, (s: EmployeeSkills) => s.employee_profile_id == employees[i].id)))
  }

  /** `startups.map(startup => ({startup, founder: founders.find(...) || {}}))`:
      one entry per startup, in order, each with the first founder row whose
      id is the startup's `founder_profile_id`, or none. */
  function StartupsWithFounders(startups: seq<StartupProfile>, founders: seq<FounderProfile>)
    : (r: seq<StartupWithFounder>)
    ensures |r| == |startups|
    ensures forall i :: 0 <= i < |r| ==> r[i].startup == startups[i]
    ensures forall i :: 0 <= i < |r| ==>
      (r[i].founder.None? <==>
        forall k :: 0 <= k < |founders| ==> founders[k].id != startups[i].founder_profile_id)
    ensures forall i :: 0 <= i < |r| && r[i].founder.Some? ==>
      exists k :: (0 <= k < |founders| && founders[k] == r[i].founder.value
        && founders[k].id == startups[i].founder_profile_id
        && forall j :: 0 <= j < k ==> founders[j].id != startups[i].founder_profile_id)
  {
    seq(|startups|, i requires 0 <= i < |startups| =>
      StartupWithFounder(startups[i],
        Find(founders, (f: FounderProfile) => f.id == startups[i].founder_profile_id)))
  }

  /** `reply.slice(reply.indexOf('['), reply.lastIndexOf(']') + 1)`. */
  function ExtractArray(reply: String): (r: String)
    ensures |r| <= |reply|
  {
    Slice(reply, IndexOf(reply, '['), LastIndexOf(reply, ']') + 1)
  }

  /** When the reply has a `[` before its last `]`, the text parsed is
      exactly the span from the first `[` to the last `]`, both included. */
  lemma ExtractArrayBracketed(reply: String)
    requires 0 <= IndexOf(reply, '[') <= LastIndexOf(reply, ']')
    ensures var a, b := IndexOf(reply, '['), LastIndexOf(reply, ']');
      ExtractArray(reply) == reply[a..b + 1]
      && ExtractArray(reply)[0] == '[' && ExtractArray(reply)[|ExtractArray(reply)| - 1] == ']'
  {
    var a, b := IndexOf(reply, '['), LastIndexOf(reply, ']');
    SliceSpan(reply, a, b);
  }

  /** The inclusive span from position `a` to position `b`. */
  lemma SliceSpan(s: String, a: nat, b: nat)
    requires a <= b < |s|
    ensures var r := Slice(s, a, b + 1);
      r == s[a..b + 1] && r[0] == s[a] && r[|r| - 1] == s[b]
  {
  }

  /** Otherwise the text parsed is empty, or (with no `[` at all and a `]`
      as the last character) the single character `]`. */
  lemma ExtractArrayUnbracketed(reply: String)
    requires !(0 <= IndexOf(reply, '[') <= LastIndexOf(reply, ']'))
    ensures ExtractArray(reply) == [] || ExtractArray(reply) == "]"
    ensures ']' !in reply ==> ExtractArray(reply) == []
  {
    var a, b := IndexOf(reply, '['), LastIndexOf(reply, ']');
    var from, to := SliceIndex(|reply|, a), SliceIndex(|reply|, b + 1);
    assert to == b + 1;
    assert ExtractArray(reply) == if from < to then reply[from..to] else [];
    if from < to {
      assert a == -1 && from == |reply| - 1 == b;
      assert reply[from..to] == [reply[b]];
    }
  }

  /** `supabase.auth.getUser()` followed by the profile lookup and the
      role check. */
  function Caller(db: Db, session: Option<String>, role: String, wrongRole: Failure)
    : (r: Result<Profile, Failure>)
    ensures r.Ok? <==>
      session.Some? && ProfileOfUser(db, session.value).Some?
      && ProfileOfUser(db, session.value).value.role == role
    ensures r.Ok? ==> r.value == ProfileOfUser(db, session.value).value
    ensures session.None? ==> r == Err(NotAuthenticated)
    ensures session.Some? && ProfileOfUser(db, session.value).None? ==> r == Err(ProfileNotFound)
    ensures (session.Some? && ProfileOfUser(db, session.value).Some?
      && ProfileOfUser(db, session.value).value.role != role) ==> r == Err(wrongRole)
  {
    if session.None? then Err(NotAuthenticated)
    else
      var p := ProfileOfUser(db, session.value);
      if p.None? then Err(ProfileNotFound)
      else if p.value.role != role then Err(wrongRole)
      else Ok(p.value)
  }

  /** The founder's own records, the founder's startup only when a founder
      row with an id exists, and the whole employee pool joined to skills.
      `None` means the lookup failed or found nothing, and is sent as `{}`. */
  function FounderPayload(db: Db, profile: Profile): (r: Payload)
    ensures r.ForFounder?
    ensures r.founder == FounderOfProfile(db, profile.id)
    ensures r.startup.Some? ==> r.founder.Some? && r.startup.value.founder_profile_id == r.founder.value.id
    ensures r.startup == if r.founder.Some? && r.founder.value.id != "" then StartupOfFounder(db, r.founder.value.id) else None
    ensures r.employees == EmployeesWithSkills(db.employees, db.skills)
  {
    var founder := FounderOfProfile(db, profile.id);
    var startup := if founder.Some? && founder.value.id != "" then StartupOfFounder(db, founder.value.id) else None;
    ForFounder(founder, startup, EmployeesWithSkills(db.employees, db.skills))
  }

  /** Everything up to the model call in the founder direction: the
      payload, or the error thrown on the way. */
  function FounderInput(db: Db, session: Option<String>): (r: Result<Payload, Failure>)
    ensures Caller(db, session, "founder", NotFounder).Err? ==>
      r == Err(Caller(db, session, "founder", NotFounder).error)
    ensures r.Ok? <==> (Caller(db, session, "founder", NotFounder).Ok?
      && EmployeeProfileTable !in db.down && EmployeeSkillsTable !in db.down)
    ensures r.Ok? ==> r.value == FounderPayload(db, Caller(db, session, "founder", NotFounder).value)
  {
    var caller := Caller(db, session, "founder", NotFounder);
    if caller.Err? then Err(caller.error)
    else if EmployeeProfileTable in db.down then Err(CouldNotFetchEmployees)
    else if EmployeeSkillsTable in db.down then Err(CouldNotFetchSkills)
    else Ok(FounderPayload(db, caller.value))
  }

  /** Everything up to the model call in the employee direction. The
      employee's own profile and skills rows are required; the startup pool
      and the founder pool must both be readable. */
  function EmployeeInput(db: Db, session: Option<String>): (r: Result<Payload, Failure>)
    ensures Caller(db, session, "employee", NotEmployee).Err? ==>
      r == Err(Caller(db, session, "employee", NotEmployee).error)
    ensures r.Ok? ==> (r.value.ForEmployee?
      && r.value.startups == StartupsWithFounders(db.startups, db.founders))
    ensures r.Ok? <==> (var c := Caller(db, session, "employee", NotEmployee);
      && c.Ok? && EmployeeOfProfile(db, c.value.id).Some?
      && SkillsOfEmployee(db, EmployeeOfProfile(db, c.value.id).value.id).Some?
      && StartupProfileTable !in db.down && FounderProfileTable !in db.down)
    ensures r.Ok? ==> (var c := Caller(db, session, "employee", NotEmployee);
      && r.value.profile == EmployeeOfProfile(db, c.value.id).value
      && r.value.skills == SkillsOfEmployee(db, r.value.profile.id).value)
  {
    var caller := Caller(db, session, "employee", NotEmployee);
    if caller.Err? then Err(caller.error)
    else
      var employee := EmployeeOfProfile(db, caller.value.id);
      if employee.None? then Err(EmployeeNotFound)
      else
        var skills := SkillsOfEmployee(db, employee.value.id);
        if skills.None? then Err(SkillsNotFound)
        else if StartupProfileTable in db.down then Err(CouldNotFetchStartups)
        else if FounderProfileTable in db.down then Err(CouldNotFetchFounders)
        else Ok(ForEmployee(employee.value, skills.value, StartupsWithFounders(db.startups, db.founders)))
  }

  /** The model call and the parse of the bracketed part of its reply. */
  function Scored(payload: Payload, generate: Payload -> Result<String, String>,
                  parse: String -> Option<seq<MatchResult>>): (r: Result<seq<MatchResult>, Failure>)
    ensures generate(payload).Err? ==> r == Err(GeminiError(generate(payload).error))
    ensures r.Ok? <==> generate(payload).Ok? && parse(ExtractArray(generate(payload).value)).Some?
    ensures r.Ok? ==> r.value == parse(ExtractArray(generate(payload).value)).value
    ensures generate(payload).Ok? && parse(ExtractArray(generate(payload).value)).None? ==>
      r == Err(ParseFailed(generate(payload).value))
  {
    match generate(payload)
    case Err(m) => Err(GeminiError(m))
    case Ok(text) =>
      match parse(ExtractArray(text))
      case None => Err(ParseFailed(text))
      case Some(p) => Ok(p)
  }

  /** `JSON.parse` rejects the empty text and a lone `]`, so a reply whose
      brackets are missing or out of order always ends in a parse failure,
      and a reply that was scored had a `[` before its last `]`. */
  lemma ScoredNeedsBrackets(payload: Payload, generate: Payload -> Result<String, String>,
                            parse: String -> Option<seq<MatchResult>>)
    requires parse([]) == None && parse("]") == None
    requires generate(payload).Ok?
    ensures var text := generate(payload).value;
      Scored(payload, generate, parse).Ok? ==>
        0 <= IndexOf(text, '[') <= LastIndexOf(text, ']')
        && Scored(payload, generate, parse).value
           == parse(text[IndexOf(text, '[')..LastIndexOf(text, ']') + 1]).value
    ensures ']' !in generate(payload).value ==>
      Scored(payload, generate, parse) == Err(ParseFailed(generate(payload).value))
  {
    var text := generate(payload).value;
    if 0 <= IndexOf(text, '[') <= LastIndexOf(text, ']') {
      ExtractArrayBracketed(text);
    } else {
      ExtractArrayUnbracketed(text);
    }
  }

  /** Copies the parsed array and sorts it in place with the comparator
      `(a, b) => b.fitPercentage - a.fitPercentage`. */
  method SortByFit(parsed: seq<MatchResult>) returns (r: seq<MatchResult>)
    ensures r == SortDesc(parsed, Fit)
    ensures multiset(r) == multiset(parsed) && NonIncreasing(r, Fit)
  {
    var a := new MatchResult[|parsed|](i requires 0 <= i < |parsed| => parsed[i]);
    assert a[..] == parsed;
    SortInPlace(a, Fit);
    r := a[..];
    SortDescPermutation(parsed, Fit);
    SortDescSorted(parsed, Fit);
  }

  /** `findSimilarEmployeesForFounder()`. `r` is what the call resolves to,
      `failure` the error it logged, and `calls` the outside calls made. */
  method FindSimilarEmployeesForFounder(
    db: Db, session: Option<String>,
    generate: Payload -> Result<String, String>,
    parse: String -> Option<seq<MatchResult>>)
    returns (r: seq<MatchResult>, failure: Option<Failure>, calls: seq<Call>)
    ensures FounderInput(db, session).Err? ==> failure == Some(FounderInput(db, session).error)
    ensures FounderInput(db, session).Ok? ==>
      var s := Scored(FounderInput(db, session).value, generate, parse);
      (s.Err? ==> failure == Some(s.error)) && (s.Ok? ==> failure.None? && r == SortDesc(s.value, Fit))
    ensures failure.Some? ==> r == []
    ensures Caller(db, session, "founder", NotFounder).Err? ==>
      forall i :: 0 <= i < |calls| ==> calls[i].Lookup?
    ensures ReadAll(EmployeeProfileTable) in calls <==> Caller(db, session, "founder", NotFounder).Ok?
    ensures Generate in calls <==> FounderInput(db, session).Ok?
  {
    r, failure, calls := [], None, [];
    if session.None? {
      failure := Some(NotAuthenticated);
      return;
    }
    calls := calls + [Lookup(ProfilesTable)];
    var profile := ProfileOfUser(db, session.value);
    if profile.None? {
      failure := Some(ProfileNotFound);
      return;
    }
    if profile.value.role != "founder" {
      failure := Some(NotFounder);
      return;
    }
    calls := calls + [Lookup(FounderProfileTable)];
    var founder := FounderOfProfile(db, profile.value.id);
    var startup: Option<StartupProfile> := None;
    if founder.Some? && founder.value.id != "" {
      calls := calls + [Lookup(StartupProfileTable)];
      startup := StartupOfFounder(db, founder.value.id);
    }
    calls := calls + [ReadAll(EmployeeProfileTable)];
    if EmployeeProfileTable in db.down {
      failure := Some(CouldNotFetchEmployees);
      return;
    }
    calls := calls + [ReadAll(EmployeeSkillsTable)];
    if EmployeeSkillsTable in db.down {
      failure := Some(CouldNotFetchSkills);
      return;
    }
    var input := ForFounder(founder, startup, EmployeesWithSkills(db.employees, db.skills));
    calls := calls + [Generate];
    var reply := generate(input);
    if reply.Err? {
      failure := Some(GeminiError(reply.error));
      return;
    }
    var parsed := parse(ExtractArray(reply.value));
    if parsed.None? {
      failure := Some(ParseFailed(reply.value));
      return;
    }
    r := SortByFit(parsed.value);
  }

  /** `findSimilarStartupsForEmployee()`, in the same terms. */
  method FindSimilarStartupsForEmployee(
    db: Db, session: Option<String>,
    generate: Payload -> Result<String, String>,
    parse: String -> Option<seq<MatchResult>>)
    returns (r: seq<MatchResult>, failure: Option<Failure>, calls: seq<Call>)
    ensures EmployeeInput(db, session).Err? ==> failure == Some(EmployeeInput(db, session).error)
    ensures EmployeeInput(db, session).Ok? ==>
      var s := Scored(EmployeeInput(db, session).value, generate, parse);
      (s.Err? ==> failure == Some(s.error)) && (s.Ok? ==> failure.None? && r == SortDesc(s.value, Fit))
    ensures failure.Some? ==> r == []
    ensures Caller(db, session, "employee", NotEmployee).Err? ==>
      forall i :: 0 <= i < |calls| ==> calls[i].Lookup?
    ensures ReadAll(StartupProfileTable) in calls ==> Caller(db, session, "employee", NotEmployee).Ok?
    ensures Generate in calls <==> EmployeeInput(db, session).Ok?
  {
    r, failure, calls := [], None, [];
    if session.None? {
      failure := Some(NotAuthenticated);
      return;
    }
    calls := calls + [Lookup(ProfilesTable)];
    var profile := ProfileOfUser(db, session.value);
    if profile.None? {
      failure := Some(ProfileNotFound);
      return;
    }
    if profile.value.role != "employee" {
      failure := Some(NotEmployee);
      return;
    }
    calls := calls + [Lookup(EmployeeProfileTable)];
    var employee := EmployeeOfProfile(db, profile.value.id);
    if employee.None? {
      failure := Some(EmployeeNotFound);
      return;
    }
    calls := calls + [Lookup(EmployeeSkillsTable)];
    var skills := SkillsOfEmployee(db, employee.value.id);
    if skills.None? {
      failure := Some(SkillsNotFound);
      return;
    }
    calls := calls + [ReadAll(StartupProfileTable)];
    if StartupProfileTable in db.down {
      failure := Some(CouldNotFetchStartups);
      return;
    }
    calls := calls + [ReadAll(FounderProfileTable)];
    if FounderProfileTable in db.down {
      failure := Some(CouldNotFetchFounders);
      return;
    }
    var input := ForEmployee(employee.value, skills.value, StartupsWithFounders(db.startups, db.founders));
    calls := calls + [Generate];
    var reply := generate(input);
    if reply.Err? {
      failure := Some(GeminiError(reply.error));
      return;
    }
    var parsed := parse(ExtractArray(reply.value));
    if parsed.None? {
      failure := Some(ParseFailed(reply.value));
      return;
    }
    r := SortByFit(parsed.value);
  }
}

/** `structureMatchOutput(aiResult, details)`: folds one record parsed from
    the model's reply, plus the detail rows looked up for it, into the single
    card shape the result pages render. */
module MatchCard {
  import opened Wrappers
  import opened Text
  import opened Lists
  import opened Store

  /** One element of the parsed reply. Employee matches carry `employeeId`
      and `recommendedRole`, startup matches `startupId` and `suggestedRole`;
      any field may be missing. */
  datatype MatchResult = MatchResult(
    employeeId: Option<String>, employeeName: Option<String>,
    startupId: Option<String>, startupName: Option<String>,
    founderId: Option<String>, fitPercentage: int,
    recommendedRole: Option<String>, suggestedRole: Option<String>,
    reasoning: Option<String>)

  /** The detail bundle looked up for one match: `{profile, skills}` for an
      employee, `{startup, founder}` for a startup; a lookup that failed
      leaves its field `null`. */
  datatype Details = Details(
    profile: Option<EmployeeProfile>, skills: Option<EmployeeSkills>,
    startup: Option<StartupProfile>, founder: Option<FounderProfile>)

  /** The normalised card. `name`, `bio` and `reasoning` are copied from
      fields that may be missing. */
  datatype Card = Card(
    id: String, name: Option<String>, role: String, matchPercentage: int,
    bio: Option<String>, skills: seq<String>, location: String,
    education: String, previousCompanies: seq<String>,
    interests: seq<String>, reasoning: Option<String>, verified: bool,
    avatar: String)

  /** The present, non-empty strings of `parts`, in order. */
  function Present(parts: seq<Option<String>>): (r: seq<String>)
    ensures |r| <= |parts|
    ensures forall i :: 0 <= i < |r| ==> r[i] != []
  {
    if parts == [] then []
    else (if Truthy(parts[0]) then [parts[0].value] else []) + Present(parts[1..])
  }

  /** `[city, country].filter(Boolean).join(', ')`. */
  function Location(city: Option<String>, country: Option<String>): String {
    Join(Present([city, country]), ", ")
  }

  /** The location is empty exactly when neither part is given, is one part
      alone when only that one is given, and is both joined by ", "
      otherwise. */
  lemma LocationSpec(city: Option<String>, country: Option<String>)
    ensures Location(city, country) == [] <==> !Truthy(city) && !Truthy(country)
    ensures Truthy(city) && !Truthy(country) ==> Location(city, country) == city.value
    ensures !Truthy(city) && Truthy(country) ==> Location(city, country) == country.value
    ensures Truthy(city) && Truthy(country) ==>
      Location(city, country) == city.value + ", " + country.value
  {
    assert [city, country][1..] == [country];
    assert Present([country]) == (if Truthy(country) then [country.value] else []) + Present([]);
    if Truthy(city) && Truthy(country) {
      assert Present([city, country]) == [city.value, country.value];
      assert [city.value, country.value][1..] == [country.value];
      assert Join([city.value, country.value], ", ")
        == city.value + ", " + Join([country.value], ", ");
    }
  }

  /** The first character of every non-empty token, in order:
      `tokens.map(x => x[0]).join('')`, where `x[0]` of an empty token is
      `undefined` and joins as nothing. */
  function Initials(tokens: seq<String>): (r: String)
    ensures |r| <= |tokens|
  {
    if tokens == [] then []
    else (if tokens[0] != [] then [tokens[0][0]] else []) + Initials(tokens[1..])
  }

  /** When no token is empty there is one initial per token. */
  lemma {:induction false} InitialsOfTokens(tokens: seq<String>)
    requires forall i :: 0 <= i < |tokens| ==> tokens[i] != []
    ensures |Initials(tokens)| == |tokens|
    ensures forall i :: 0 <= i < |tokens| ==> Initials(tokens)[i] == tokens[i][0]
  {
    if tokens != [] {
      InitialsOfTokens(tokens[1..]);
    }
  }

  /** The avatar text: up to two upper-cased initials of a non-empty name,
      `'??'` when the name is missing or empty. */
  function Avatar(name: Option<String>): (r: String)
    ensures |r| <= 2
    ensures !Truthy(name) ==> r == "??"
  {
    if Truthy(name) then Take(ToUpper(Initials(Split(name.value, ' '))), 2) else "??"
  }

  /** For a name made of words separated by single spaces, the avatar is
      the upper-cased first letters of its first two words. */
  lemma {:induction false} AvatarOfWords(words: seq<String>)
    requires |words| >= 1
    requires forall i :: 0 <= i < |words| ==> words[i] != [] && ' ' !in words[i]
    ensures Avatar(Some(Join(words, " "))) ==
      Take(ToUpper([words[0][0]] + if |words| > 1 then [words[1][0]] else []), 2)
  {
    SplitJoin(words, ' ');
    JoinNonEmpty(words, " ");
    InitialsOfTokens(words);
    var ini := Initials(words);
    if |words| == 1 {
      assert ini == [words[0][0]];
    } else {
      assert ini[..2] == [words[0][0], words[1][0]];
      assert ToUpper(ini)[..2] == ToUpper(ini[..2]);
    }
  }

  lemma {:induction false} JoinNonEmpty(parts: seq<String>, sep: String)
    requires |parts| >= 1 && parts[0] != []
    ensures Join(parts, sep) != []
  {
  }

  /** A name made only of spaces is truthy but has no initials, so its
      avatar is empty rather than `'??'`. */
  lemma {:induction false} AvatarOfSpaces(name: String)
    requires name != [] && forall i :: 0 <= i < |name| ==> name[i] == ' '
    ensures Avatar(Some(name)) == []
  {
    SpacesHaveNoInitials(name);
  }

  lemma {:induction false} SpacesHaveNoInitials(name: String)
    requires forall i :: 0 <= i < |name| ==> name[i] == ' '
    ensures Initials(Split(name, ' ')) == []
  {
    if name != [] {
      SpacesHaveNoInitials(name[1..]);
    }
  }

  /** A two-word name gives its two initials, upper-cased. */
  lemma AvatarTwoWords(first: String, last: String)
    requires first != [] && last != [] && ' ' !in first && ' ' !in last
    ensures Avatar(Some(first + " " + last)) == [UpperChar(first[0]), UpperChar(last[0])]
  {
    var w := [first, last];
    assert w[1..] == [last];
    assert Join(w, " ") == first + " " + last;
    AvatarOfWords(w);
    var u := ToUpper([first[0], last[0]]);
    assert u == [UpperChar(first[0]), UpperChar(last[0])];
  }

  /** A one-word name gives one initial, upper-cased. */
  lemma AvatarOneWord(word: String)
    requires word != [] && ' ' !in word
    ensures Avatar(Some(word)) == [UpperChar(word[0])]
  {
    AvatarOfWords([word]);
    assert ToUpper([word[0]]) == [UpperChar(word[0])];
  }

  /** `details?.profile` is present and the record names an employee. */
  predicate EmployeeBranch(ai: MatchResult, details: Option<Details>) {
    Truthy(ai.employeeId) && details.Some? && details.value.profile.Some?
  }

  /** `details?.startup` is present and the record names a startup. */
  predicate StartupBranch(ai: MatchResult, details: Option<Details>) {
    Truthy(ai.startupId) && details.Some? && details.value.startup.Some?
  }

  function EmployeeCard(ai: MatchResult, p: EmployeeProfile, skills: Option<EmployeeSkills>): Card
    requires Truthy(ai.employeeId)
  {
    Card(
      id := ai.employeeId.value,
      name := p.full_name,
      role := OrElse(ai.recommendedRole, OrElse(p.current_position, "employee")),
      matchPercentage := ai.fitPercentage,
      bio := p.short_bio,
      skills := if skills.Some? then skills.value.skill_tags.GetOr([]) else [],
      location := Location(p.city, p.country),
      education := OrElse(p.education, ""),
      previousCompanies := if skills.Some? then skills.value.previous_companies.GetOr([]) else [],
      interests := if skills.Some? then skills.value.open_to_roles.GetOr([]) else [],
      reasoning := ai.reasoning,
      verified := true,
      avatar := Avatar(p.full_name))
  }

  function StartupCard(ai: MatchResult, s: StartupProfile, f: Option<FounderProfile>): Card
    requires Truthy(ai.startupId)
  {
    Card(
      id := ai.startupId.value,
      name := s.startup_name,
      role := OrElse(ai.suggestedRole, "founder"),
      matchPercentage := ai.fitPercentage,
      bio := Some(OrElse(s.one_line_pitch, OrElse(s.description, ""))),
      skills := s.tech_stack.GetOr([]),
      location := if f.Some? then Location(f.value.city, f.value.country) else "",
      education := if f.Some? then OrElse(f.value.experience_background, "") else "",
      previousCompanies := [],
      interests := if Truthy(s.industry) then [s.industry.value] else [],
      reasoning := ai.reasoning,
      verified := true,
      avatar := Avatar(s.startup_name))
  }

  function FallbackCard(ai: MatchResult): Card {
    Card(
      id := OrElse(ai.employeeId, OrElse(ai.startupId, "")),
      name := Some(""), role := "", matchPercentage := ai.fitPercentage,
      bio := Some(""), skills := [], location := "", education := "",
      previousCompanies := [], interests := [],
      reasoning := Some(OrElse(ai.reasoning, "")), verified := false,
      avatar := "??")
  }

  /** `structureMatchOutput(aiResult, details)`. The employee branch is
      tried first, so it wins when the record names both an employee and a
      startup. `fitPercentage || 0` in the fallback is the percentage itself,
      since the percentage is an integer here. */
  function StructureMatchOutput(ai: MatchResult, details: Option<Details>): (r: Card)
    ensures r.verified <==> EmployeeBranch(ai, details) || StartupBranch(ai, details)
    ensures r.matchPercentage == ai.fitPercentage
    ensures |r.avatar| <= 2
    ensures EmployeeBranch(ai, details) ==> r.id == ai.employeeId.value
    ensures !EmployeeBranch(ai, details) && StartupBranch(ai, details) ==> r.id == ai.startupId.value
  {
    if EmployeeBranch(ai, details) then
      EmployeeCard(ai, details.value.profile.value, details.value.skills)
    else if StartupBranch(ai, details) then
      StartupCard(ai, details.value.startup.value, details.value.founder)
    else FallbackCard(ai)
  }

  /** The employee card: named after the profile, its role the recommended
      role, else the current position, else `'employee'`; its list fields
      default to `[]` when the skills row or the field is missing; its
      location, education and avatar come from the profile, the avatar
      being `'??'` when the profile has no name. */
  lemma EmployeeCardFields(ai: MatchResult, d: Details)
    requires EmployeeBranch(ai, Some(d))
    ensures var r, p := StructureMatchOutput(ai, Some(d)), d.profile.value;
      && r.name == p.full_name && r.bio == p.short_bio
      && r.role == (if Truthy(ai.recommendedRole) then ai.recommendedRole.value
                    else if Truthy(p.current_position) then p.current_position.value
                    else "employee")
      && (d.skills.None? ==> r.skills == [] && r.previousCompanies == [] && r.interests == [])
      && (d.skills.Some? && d.skills.value.skill_tags.None? ==> r.skills == [])
      && (d.skills.Some? && d.skills.value.skill_tags.Some? ==> r.skills == d.skills.value.skill_tags.value)
      && (d.skills.Some? && d.skills.value.open_to_roles.Some? ==> r.interests == d.skills.value.open_to_roles.value)
      && (d.skills.Some? ==> r.previousCompanies == d.skills.value.previous_companies.GetOr([])
                             && r.interests == d.skills.value.open_to_roles.GetOr([]))
      && r.location == Location(p.city, p.country)
      && (r.location == [] <==> !Truthy(p.city) && !Truthy(p.country))
      && r.education == OrElse(p.education, "")
      && r.avatar == Avatar(p.full_name)
      && (!Truthy(p.full_name) ==> r.avatar == "??")
      && r.reasoning == ai.reasoning
  {
    LocationSpec(d.profile.value.city, d.profile.value.country);
  }

  /** The startup card: at most one interest (the declared industry), no
      previous companies, the suggested role or else `'founder'`, the
      pitch, else the description, else `""` as its bio, the avatar of the
      startup's name, and the location and background of the founder, or
      `""` without one. */
  lemma StartupCardFields(ai: MatchResult, d: Details)
    requires !EmployeeBranch(ai, Some(d)) && StartupBranch(ai, Some(d))
    ensures var r, s := StructureMatchOutput(ai, Some(d)), d.startup.value;
      && |r.interests| <= 1
      && (r.interests == [] <==> !Truthy(s.industry))
      && (Truthy(s.industry) ==> r.interests == [s.industry.value])
      && r.previousCompanies == []
      && r.role == (if Truthy(ai.suggestedRole) then ai.suggestedRole.value else "founder")
      && r.bio == Some(if Truthy(s.one_line_pitch) then s.one_line_pitch.value
                       else if Truthy(s.description) then s.description.value else "")
      && r.skills == s.tech_stack.GetOr([])
      && r.name == s.startup_name
      && r.avatar == Avatar(s.startup_name)
      && (!Truthy(s.startup_name) ==> r.avatar == "??")
      && r.location == (if d.founder.Some? then Location(d.founder.value.city, d.founder.value.country) else "")
      && r.education == (if d.founder.Some? then OrElse(d.founder.value.experience_background, "") else "")
  {
  }

  /** The fallback card: unverified, `'??'` avatar, empty text and lists,
      and the employee id, else the startup id, else `""` as its id. */
  lemma FallbackCardFields(ai: MatchResult, details: Option<Details>)
    requires !EmployeeBranch(ai, details) && !StartupBranch(ai, details)
    ensures var r := StructureMatchOutput(ai, details);
      && !r.verified && r.avatar == "??"
      && r.id == (if Truthy(ai.employeeId) then ai.employeeId.value
                  else if Truthy(ai.startupId) then ai.startupId.value else "")
      && r.name == Some("") && r.role == "" && r.bio == Some("")
      && r.skills == [] && r.previousCompanies == [] && r.interests == []
      && r.location == "" && r.education == ""
      && r.reasoning == Some(OrElse(ai.reasoning, ""))
  {
  }
}

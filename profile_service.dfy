/** The signed-in user's profile and the two role predicates. */
module ProfileService {
  import opened Wrappers
  import opened Text
  import opened Lists
  import opened Store

  /** `getLoggedInUserProfile()`. `session` is what `auth.getUser()` yields:
      the signed-in user's id, or `None` on an authentication error or when
      nobody is signed in. Every failure, including a query that does not
      match exactly one row, gives `null` (here `None`). */
  function GetLoggedInUserProfile(db: Db, session: Option<String>): (r: Option<Profile>)
    ensures session.None? ==> r.None?
    ensures ProfilesTable in db.down ==> r.None?
    ensures r.Some? ==> r.value in db.profiles && r.value.auth_user_id == session.value
    ensures session.Some? && ProfilesTable !in db.down ==>
      (r.Some? <==> |Filter(db.profiles, (p: Profile) => p.auth_user_id == session.value)| == 1)
  {
    if session.None? then None else ProfileOfUser(db, session.value)
  }

  /** `isEmployee(profile)`: `profile?.role === 'employee'`. */
  predicate IsEmployee(p: Option<Profile>) {
    p.Some? && p.value.role == "employee"
  }

  /** `isFounder(profile)`: `profile?.role === 'founder'`. */
  predicate IsFounder(p: Option<Profile>) {
    p.Some? && p.value.role == "founder"
  }

  /** No profile is both an employee and a founder, a missing profile is
      neither, and a present one is an employee or founder exactly when its
      role says so. */
  lemma RolePredicates(p: Option<Profile>)
    ensures !(IsEmployee(p) && IsFounder(p))
    ensures p.None? ==> !IsEmployee(p) && !IsFounder(p)
    ensures p.Some? ==> (IsEmployee(p) <==> p.value.role == "employee")
    ensures p.Some? ==> (IsFounder(p) <==> p.value.role == "founder")
  {
  }
}

/** `getPostsWithUserDetails()`: the feed. Reads the posts newest first,
    looks up the profile of every distinct author, splits those profiles by
    role, reads the matching employee and founder detail rows, and attaches
    the author's profile, detail row and role to every post.

    Each backend read is an input: `Err` is a read that came back with an
    error, and the `.in(...)` filters of the queries are applied here. */
module PostFeed {
  import opened Wrappers
  import opened Lists
  import opened StableSort
  import opened Text
  import opened Store

  /** A row of `posts`; `user_id` may be null. `created_at` is the
      timestamp as a number. */
  datatype Post = Post(
    id: String, user_id: Option<String>, post_content: Option<String>,
    tags: seq<String>, funding_stage: seq<String>, location: Option<String>,
    created_at: int)

  /** The detail row attached to a post: the author's employee or founder
      profile. */
  datatype UserDetails = EmployeeDetails(employee: EmployeeProfile) | FounderDetails(founder: FounderProfile)

  /** `{...post, profile, userDetails, role}`. */
  datatype Entry = Entry(
    post: Post, profile: Option<Profile>, userDetails: Option<UserDetails>,
    role: Option<String>)

  /** The two shapes `data` takes: the posts as read (no authors to look
      up), or the posts with their author details. */
  datatype Feed = Plain(posts: seq<Post>) | Detailed(entries: seq<Entry>)

  /** `{data, error}`. */
  datatype FeedResult = FeedResult(data: Option<Feed>, error: Option<String>)

  function CreatedAt(p: Post): int { p.created_at }

  /** `.order('created_at', {ascending: false})`. Rows with equal
      timestamps keep their table order. */
  function NewestFirst(posts: seq<Post>): (r: seq<Post>)
    ensures multiset(r) == multiset(posts)
    ensures NonIncreasing(r, CreatedAt)
  {
    SortDescPermutation(posts, CreatedAt);
    SortDescSorted(posts, CreatedAt);
    SortDesc(posts, CreatedAt)
  }

  /** The truthy `user_id` of every post, in post order. */
  function AuthorIds(posts: seq<Post>): (r: seq<String>)
    ensures forall i :: 0 <= i < |r| ==> r[i] != []
    ensures forall i :: 0 <= i < |r| ==> exists k :: 0 <= k < |posts| && posts[k].user_id == Some(r[i])
    ensures forall k :: 0 <= k < |posts| && Truthy(posts[k].user_id) ==> posts[k].user_id.value in r
  {
    if posts == [] then []
    else
      var rest := AuthorIds(posts[1..]);
      assert forall i :: 0 <= i < |rest| ==> exists k :: 0 <= k < |posts| && posts[k].user_id == Some(rest[i]) by {
        forall i | 0 <= i < |rest| ensures exists k :: 0 <= k < |posts| && posts[k].user_id == Some(rest[i]) {
          var k :| 0 <= k < |posts| - 1 && posts[1..][k].user_id == Some(rest[i]);
          assert posts[k + 1].user_id == Some(rest[i]);
        }
      }
      assert forall k :: 1 <= k < |posts| ==> posts[k] == posts[1..][k - 1];
      (if Truthy(posts[0].user_id) then [posts[0].user_id.value] else []) + rest
  }

  /** `[...new Set(posts.map(p => p.user_id).filter(Boolean))]`. */
  function UserIds(posts: seq<Post>): (r: seq<String>)
    ensures NoDuplicates(r)
    ensures forall k :: 0 <= k < |posts| && Truthy(posts[k].user_id) ==> posts[k].user_id.value in r
    ensures forall i :: 0 <= i < |r| ==>
      r[i] != [] && exists k :: 0 <= k < |posts| && posts[k].user_id == Some(r[i])
  {
    var ids := AuthorIds(posts);
    var r := Dedupe(ids);
    assert forall i :: 0 <= i < |r| ==> r[i] in ids;
    r
  }

  /** The map a `forEach` builds with `map[key(row)] = row`, as a value. */
  function LastByKey<T>(rows: seq<T>, key: T -> String): map<String, T> {
    if rows == [] then map[]
    else LastByKey(rows[..|rows| - 1], key)[key(rows[|rows| - 1]) := rows[|rows| - 1]]
  }

  /** Its keys are exactly the keys of the rows. */
  lemma {:induction false} LastByKeyKeys<T>(rows: seq<T>, key: T -> String, k: String)
    ensures k in LastByKey(rows, key) <==> exists i :: 0 <= i < |rows| && key(rows[i]) == k
  {
    if rows != [] {
      var n := |rows| - 1;
      var init := rows[..n];
      LastByKeyKeys(init, key, k);
      assert LastByKey(rows, key) == LastByKey(init, key)[key(rows[n]) := rows[n]];
      assert forall i :: 0 <= i < n ==> init[i] == rows[i];
    }
  }

  /** Each key maps to the last row that has it. */
  lemma {:induction false} LastByKeyIsLast<T>(rows: seq<T>, key: T -> String, k: String)
    requires k in LastByKey(rows, key)
    ensures exists i :: (0 <= i < |rows| && rows[i] == LastByKey(rows, key)[k] && key(rows[i]) == k
      && forall j :: i < j < |rows| ==> key(rows[j]) != k)
  {
    var n := |rows| - 1;
    var init := rows[..n];
    var m0 := LastByKey(init, key);
    assert LastByKey(rows, key) == m0[key(rows[n]) := rows[n]];
    if key(rows[n]) == k {
      assert rows[n] == LastByKey(rows, key)[k];
    } else {
      assert k in m0 && m0[k] == LastByKey(rows, key)[k];
      LastByKeyIsLast(init, key, k);
      var i :| 0 <= i < |init| && init[i] == m0[k] && key(init[i]) == k
        && forall j :: i < j < |init| ==> key(init[j]) != k;
      assert rows[i] == init[i];
      assert forall j :: i < j < n ==> rows[j] == init[j];
    }
  }

  /** The `forEach` loop itself: the last row with a given key wins. */
  method IndexBy<T>(rows: seq<T>, key: T -> String) returns (m: map<String, T>)
    ensures m == LastByKey(rows, key)
  {
    m := map[];
    var i := 0;
    while i < |rows|
      invariant 0 <= i <= |rows|
      invariant m == LastByKey(rows[..i], key)
    {
      assert rows[..i + 1][..i] == rows[..i];
      m := m[key(rows[i]) := rows[i]];
      i := i + 1;
    }
    assert rows[..i] == rows;
  }

  /** The ids of the profiles with `role`, in order. */
  function IdsWithRole(profiles: seq<Profile>, role: String): (r: seq<String>)
    ensures forall x :: x in r <==> exists i :: 0 <= i < |profiles| && profiles[i].id == x && profiles[i].role == role
  {
    if profiles == [] then []
    else
      var rest := IdsWithRole(profiles[1..], role);
      assert forall i :: 1 <= i < |profiles| ==> profiles[i] == profiles[1..][i - 1];
      (if profiles[0].role == role then [profiles[0].id] else []) + rest
  }

  /** Profile ids are keys, so the employee ids and the founder ids are
      disjoint, and together they are the ids of exactly the profiles whose
      role is one of the two. */
  lemma RolePartition(profiles: seq<Profile>)
    requires forall i, j :: 0 <= i < j < |profiles| ==> profiles[i].id != profiles[j].id
    ensures forall x :: x in IdsWithRole(profiles, "employee") ==> x !in IdsWithRole(profiles, "founder")
    ensures forall x :: (x in IdsWithRole(profiles, "employee") || x in IdsWithRole(profiles, "founder")) <==>
      exists i :: 0 <= i < |profiles| && profiles[i].id == x
        && (profiles[i].role == "employee" || profiles[i].role == "founder")
  {
  }

  function ProfileId(e: EmployeeProfile): String { e.profile_id }
  function FounderProfileId(f: FounderProfile): String { f.profile_id }
  function AuthUserId(p: Profile): String { p.auth_user_id }

  /** `{...post, profile, userDetails, role: profile?.role || null}` for one
      post, given the three maps. */
  function Attach(post: Post, profileMap: map<String, Profile>,
                  employeeMap: map<String, EmployeeProfile>,
                  founderMap: map<String, FounderProfile>): (e: Entry)
    ensures e.post == post
    ensures e.profile.Some? <==> post.user_id.Some? && post.user_id.value in profileMap
    ensures e.profile.Some? ==> e.profile.value == profileMap[post.user_id.value]
    ensures e.role.Some? <==> e.profile.Some? && e.profile.value.role != ""
    ensures e.role.Some? ==> e.role.value == e.profile.value.role
    ensures e.userDetails.Some? ==> e.profile.Some?
    ensures e.userDetails.Some? && e.userDetails.value.EmployeeDetails? ==>
      e.profile.value.role == "employee" && e.profile.value.id in employeeMap
      && e.userDetails.value.employee == employeeMap[e.profile.value.id]
    ensures e.userDetails.Some? && e.userDetails.value.FounderDetails? ==>
      e.profile.value.role == "founder" && e.profile.value.id in founderMap
      && e.userDetails.value.founder == founderMap[e.profile.value.id]
    ensures e.profile.Some? && e.profile.value.role == "employee" && e.profile.value.id in employeeMap ==>
      e.userDetails.Some?
    ensures e.profile.Some? && e.profile.value.role == "founder" && e.profile.value.id in founderMap ==>
      e.userDetails.Some?
  {
    var profile := if post.user_id.Some? && post.user_id.value in profileMap
      then Some(profileMap[post.user_id.value]) else None;
    var details :=
      if profile.None? then None
      else if profile.value.role == "employee" then
        (if profile.value.id in employeeMap then Some(EmployeeDetails(employeeMap[profile.value.id])) else None)
      else if profile.value.role == "founder" then
        (if profile.value.id in founderMap then Some(FounderDetails(founderMap[profile.value.id])) else None)
      else None;
    Entry(post, profile, details, if profile.Some? && profile.value.role != "" then Some(profile.value.role) else None)
  }

  /** `posts.map(...)`: one entry per post, in order. */
  function AttachAll(posts: seq<Post>, profileMap: map<String, Profile>,
                     employeeMap: map<String, EmployeeProfile>,
                     founderMap: map<String, FounderProfile>): (r: seq<Entry>)
    ensures |r| == |posts|
    ensures forall i :: 0 <= i < |r| ==> r[i] == Attach(posts[i], profileMap, employeeMap, founderMap)
  {
    seq(|posts|, i requires 0 <= i < |posts| => Attach(posts[i], profileMap, employeeMap, founderMap))
  }

  /** `profileMap[post.user_id]` finds a profile exactly when the post's
      author id is truthy and some profile row has it as `auth_user_id`: the
      `.in(...)` filter drops no profile a post can ask for. */
  lemma {:induction false} AuthorProfileFound(posts: seq<Post>, table: seq<Profile>, k: nat)
    requires k < |posts|
    ensures var profiles := Filter(table, (p: Profile) => p.auth_user_id in UserIds(posts));
      var uid := posts[k].user_id;
      (uid.Some? && uid.value in LastByKey(profiles, AuthUserId)) <==>
      (Truthy(uid) && exists j :: 0 <= j < |table| && table[j].auth_user_id == uid.value)
  {
    var ids := UserIds(posts);
    var profiles := Filter(table, (p: Profile) => p.auth_user_id in ids);
    var uid := posts[k].user_id;
    if uid.Some? {
      LastByKeyKeys(profiles, AuthUserId, uid.value);
    }
    if uid.Some? && uid.value in LastByKey(profiles, AuthUserId) {
      var i :| 0 <= i < |profiles| && AuthUserId(profiles[i]) == uid.value;
      assert profiles[i] in table && profiles[i].auth_user_id in ids;
      var j :| 0 <= j < |table| && table[j] == profiles[i];
    }
    if Truthy(uid) && exists j :: 0 <= j < |table| && table[j].auth_user_id == uid.value {
      var j :| 0 <= j < |table| && table[j].auth_user_id == uid.value;
      assert uid.value in ids;
      assert table[j] in profiles;
      var i :| 0 <= i < |profiles| && profiles[i] == table[j];
      assert AuthUserId(profiles[i]) == uid.value;
    }
  }

  /** `getPostsWithUserDetails()` over the four reads: the posts table, the
      profiles table, and the employee and founder detail tables (`None`
      when their read failed, read as `|| []`). */
  method GetPostsWithUserDetails(
    postsTable: Result<seq<Post>, String>,
    profilesTable: Result<seq<Profile>, String>,
    employeeTable: Option<seq<EmployeeProfile>>,
    founderTable: Option<seq<FounderProfile>>)
    returns (r: FeedResult)
    ensures postsTable.Err? ==> r == FeedResult(None, Some(postsTable.error))
    ensures postsTable.Ok? && UserIds(NewestFirst(postsTable.value)) == [] ==>
      r == FeedResult(Some(Plain(NewestFirst(postsTable.value))), None)
    ensures postsTable.Ok? && UserIds(NewestFirst(postsTable.value)) != [] && profilesTable.Err? ==>
      r == FeedResult(None, Some(profilesTable.error))
    ensures r.data.Some? ==> r.error.None?
    ensures r.data.Some? && r.data.value.Detailed? ==>
      postsTable.Ok? && profilesTable.Ok?
      && |r.data.value.entries| == |postsTable.value|
      && forall i :: 0 <= i < |postsTable.value| ==>
        r.data.value.entries[i].post == NewestFirst(postsTable.value)[i]
    ensures postsTable.Ok? && UserIds(NewestFirst(postsTable.value)) != [] && profilesTable.Ok? ==>
      var posts := NewestFirst(postsTable.value);
      var profiles := Filter(profilesTable.value, (p: Profile) => p.auth_user_id in UserIds(NewestFirst(postsTable.value)));
      var employees := Filter(employeeTable.GetOr([]), (e: EmployeeProfile) => e.profile_id in IdsWithRole(profiles, "employee"));
      var founders := Filter(founderTable.GetOr([]), (f: FounderProfile) => f.profile_id in IdsWithRole(profiles, "founder"));
      r == FeedResult(Some(Detailed(AttachAll(posts,
        LastByKey(profiles, AuthUserId), LastByKey(employees, ProfileId), LastByKey(founders, FounderProfileId)))), None)
  {
    if postsTable.Err? {
      return FeedResult(None, Some(postsTable.error));
    }
    var posts := NewestFirst(postsTable.value);
    var userIds := UserIds(posts);
    if userIds == [] {
      return FeedResult(Some(Plain(posts)), None);
    }
    if profilesTable.Err? {
      return FeedResult(None, Some(profilesTable.error));
    }
    var profiles := Filter(profilesTable.value, (p: Profile) => p.auth_user_id in userIds);
    var profileMap := IndexBy(profiles, AuthUserId);
    var employeeIds := IdsWithRole(profiles, "employee");
    var founderIds := IdsWithRole(profiles, "founder");
    var employees := Filter(employeeTable.GetOr([]), (e: EmployeeProfile) => e.profile_id in employeeIds);
    var founders := Filter(founderTable.GetOr([]), (f: FounderProfile) => f.profile_id in founderIds);
    var employeeMap := IndexBy(employees, ProfileId);
    var founderMap := IndexBy(founders, FounderProfileId);
    r := FeedResult(Some(Detailed(AttachAll(posts, profileMap, employeeMap, founderMap))), None);
  }
}

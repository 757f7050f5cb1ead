/** The admin moderation dashboard: the pending-post list and the user list, the
    actions that change them, the ids of the rows being processed, and the derived counts. */
module AdminDashboard {
  import opened Common
  import AuthContext

  /** A pending post; the API may identify it by `_id`, by `id`, or by both. */
  datatype Post = Post(mongoId: Option<string>, id: Option<string>, title: string)

  /** A row of the user list. */
  datatype UserRow = UserRow(mongoId: string, email: string, role: string, isVerified: bool)

  /** `p._id === id || p.id === id`, where the clicked id is itself `post._id` and so may
      be `undefined` (`None`). */
  predicate HasId(p: Post, target: Option<string>) {
    p.mongoId == target || p.id == target
  }

  /** `prev.filter(p => p._id !== id && p.id !== id)` */
  function RemoveById(posts: seq<Post>, target: Option<string>): (r: seq<Post>)
    ensures |r| <= |posts|
    ensures forall p :: p in r <==> p in posts && !HasId(p, target)
    ensures IsSubsequence(r, posts)
  {
    if posts == [] then []
    else if HasId(posts[0], target) then
      var rest := RemoveById(posts[1..], target);
      SubsequenceSkip(rest, posts);
      rest
    else [posts[0]] + RemoveById(posts[1..], target)
  }

  function CountWithId(posts: seq<Post>, target: Option<string>): (n: nat)
    ensures n <= |posts|
  {
    if posts == [] then 0
    else (if HasId(posts[0], target) then 1 else 0) + CountWithId(posts[1..], target)
  }

  /** Exactly the matching posts are dropped: what is left and what was removed add up. */
  lemma {:induction false} RemoveByIdCount(posts: seq<Post>, target: Option<string>)
    ensures |RemoveById(posts, target)| + CountWithId(posts, target) == |posts|
  {
    if posts != [] {
      RemoveByIdCount(posts[1..], target);
    }
  }

  /** Removing twice removes nothing more. */
  lemma {:induction false} RemoveByIdIdempotent(posts: seq<Post>, target: Option<string>)
    ensures RemoveById(RemoveById(posts, target), target) == RemoveById(posts, target)
  {
    if posts != [] {
      RemoveByIdIdempotent(posts[1..], target);
    }
  }

  /** A list with no matching post is left as it was. */
  lemma {:induction false} RemoveByIdNoMatch(posts: seq<Post>, target: Option<string>)
    requires forall i :: 0 <= i < |posts| ==> !HasId(posts[i], target)
    ensures RemoveById(posts, target) == posts
  {
    if posts != [] {
      RemoveByIdNoMatch(posts[1..], target);
    }
  }

  // ----------------------------------------------------------------- roles

  /** `targetUser.role === "ADMIN" ? "USER" : "ADMIN"` */
  function ToggleRole(role: string): (r: string)
    ensures role == AuthContext.Admin <==> r == "USER"
    ensures r == AuthContext.Admin || r == "USER"
  {
    if role == AuthContext.Admin then "USER" else AuthContext.Admin
  }

  lemma ToggleRoleTwice(role: string)
    requires role == AuthContext.Admin || role == "USER"
    ensures ToggleRole(ToggleRole(role)) == role
  {
  }

  /** `prev.map(u => u._id === uid ? { ...u, role } : u)` */
  function SetRole(users: seq<UserRow>, uid: string, role: string): (r: seq<UserRow>)
    ensures |r| == |users|
    ensures forall i :: 0 <= i < |users| ==>
      r[i] == if users[i].mongoId == uid then users[i].(role := role) else users[i]
  {
    if users == [] then [] else
      [if users[0].mongoId == uid then users[0].(role := role) else users[0]]
      + SetRole(users[1..], uid, role)
  }

  /** `users.filter(u => u.role === "ADMIN").length` */
  function AdminCount(users: seq<UserRow>): (n: nat)
    ensures n <= |users|
  {
    if users == [] then 0
    else (if users[0].role == AuthContext.Admin then 1 else 0) + AdminCount(users[1..])
  }

  /** `users.filter(u => u.isVerified).length` */
  function VerifiedCount(users: seq<UserRow>): (n: nat)
    ensures n <= |users|
  {
    if users == [] then 0
    else (if users[0].isVerified then 1 else 0) + VerifiedCount(users[1..])
  }

  /** Both counts add up over a split of the list, so each counts rows independently of
      where they stand. */
  lemma {:induction false} CountsAppend(a: seq<UserRow>, b: seq<UserRow>)
    ensures AdminCount(a + b) == AdminCount(a) + AdminCount(b)
    ensures VerifiedCount(a + b) == VerifiedCount(a) + VerifiedCount(b)
    decreases |a|
  {
    if a != [] {
      assert (a + b)[0] == a[0] && (a + b)[1..] == a[1..] + b;
      CountsAppend(a[1..], b);
    } else {
      assert a + b == b;
    }
  }

  /** Users whose row has the given `_id` and is not yet an admin. */
  function CountPromotable(users: seq<UserRow>, uid: string): nat {
    if users == [] then 0
    else (if users[0].mongoId == uid && users[0].role != AuthContext.Admin then 1 else 0)
         + CountPromotable(users[1..], uid)
  }

  /** A promotion adds exactly the promoted rows to the admin count. */
  lemma {:induction false} PromoteCount(users: seq<UserRow>, uid: string)
    ensures AdminCount(SetRole(users, uid, AuthContext.Admin)) == AdminCount(users) + CountPromotable(users, uid)
  {
    if users != [] {
      assert SetRole(users, uid, AuthContext.Admin)[1..] == SetRole(users[1..], uid, AuthContext.Admin);
      PromoteCount(users[1..], uid);
    }
  }

  /** A role change never changes the verified count. */
  lemma {:induction false} SetRoleKeepsVerified(users: seq<UserRow>, uid: string, role: string)
    ensures VerifiedCount(SetRole(users, uid, role)) == VerifiedCount(users)
  {
    if users != [] {
      assert SetRole(users, uid, role)[1..] == SetRole(users[1..], uid, role);
      SetRoleKeepsVerified(users[1..], uid, role);
    }
  }

  // --------------------------------------------------- the role button guard

  /** Property access on the session user object `{ id, email, role }`: any other key,
      `_id` included, reads `undefined` (`None`). */
  function SessionUserProp(me: AuthContext.User, key: string): (r: Option<string>)
    ensures key == "id" ==> r == Some(me.id)
    ensures key == "_id" ==> r.None?
    ensures r.Some? <==> key in {"id", "email", "role"}
  {
    if key == "id" then Some(me.id)
    else if key == "email" then Some(me.email)
    else if key == "role" then Some(me.role)
    else None
  }

  /** The button as written: disabled while its row is updating, or when `u._id` equals
      `user._id` on the session user. */
  function RoleButtonDisabledAsWritten(u: UserRow, me: AuthContext.User, processingUserId: Option<string>): bool {
    processingUserId == Some(u.mongoId) || SessionUserProp(me, "_id") == Some(u.mongoId)
  }

  /** The self-demotion guard never fires as written: every row, the administrator's own
      included, is enabled whenever it is not being updated. */
  lemma SelfDemotionGuardIneffective(u: UserRow, me: AuthContext.User, processingUserId: Option<string>)
    requires processingUserId != Some(u.mongoId)
    ensures !RoleButtonDisabledAsWritten(u, me, processingUserId)
  {
  }

  /** Concretely: an administrator can click "Demote" on their own row. */
  lemma OwnRowEnabledAsWritten()
    ensures var me := AuthContext.User("u1", "admin@example.com", AuthContext.Admin);
      var own := UserRow("u1", "admin@example.com", AuthContext.Admin, true);
      !RoleButtonDisabledAsWritten(own, me, None) && ToggleRole(own.role) == "USER"
  {
  }

  /** The button as intended: disabled while its row is updating and on the signed-in
      administrator's own row. */
  function RoleButtonDisabled(u: UserRow, me: AuthContext.User, processingUserId: Option<string>): (d: bool)
    ensures processingUserId == Some(u.mongoId) ==> d
    ensures u.mongoId == me.id ==> d
    ensures d ==> processingUserId == Some(u.mongoId) || u.mongoId == me.id
  {
    processingUserId == Some(u.mongoId) || u.mongoId == me.id
  }

  /** `processingPostId`: `null` when idle, otherwise the clicked `post._id`, which is
      `undefined` for a post the API identifies by `id` only. */
  datatype Processing = Idle | Busy(target: Option<string>)

  /** A post's buttons compare `processingPostId === post._id`: they are disabled exactly
      while an action on a post with the same `_id` is in flight; while one post without
      `_id` is processed, every post without `_id` is disabled. */
  function PostButtonsDisabled(p: Post, processing: Processing): (d: bool)
    ensures processing == Idle ==> !d
    ensures d <==> processing.Busy? && processing.target == p.mongoId
  {
    match processing
    case Idle => false
    case Busy(t) => t == p.mongoId
  }

  /** The page itself sends anyone but an administrator home. */
  function PageRedirects(user: Option<AuthContext.User>): (r: bool)
    ensures !r <==> user.Some? && user.value.role == AuthContext.Admin
  {
    !(user.Some? && user.value.role == AuthContext.Admin)
  }

  /** A stat card shows "…" (`None`) while its list loads. */
  datatype Stats = Stats(pendingPosts: Option<nat>, totalUsers: Option<nat>, admins: Option<nat>, verified: Option<nat>)

  function StatCards(posts: seq<Post>, users: seq<UserRow>, loadingPosts: bool, loadingUsers: bool): (s: Stats)
    ensures s.pendingPosts.None? <==> loadingPosts
    ensures s.totalUsers.None? <==> loadingUsers
    ensures s.admins.None? <==> loadingUsers
    ensures s.verified.None? <==> loadingUsers
    ensures s.pendingPosts.Some? ==> s.pendingPosts.value == |posts|
    ensures s.totalUsers.Some? ==> s.totalUsers.value == |users|
    ensures s.admins.Some? ==> s.admins.value <= |users|
    ensures s.verified.Some? ==> s.verified.value <= |users|
    ensures !loadingUsers ==> s.admins == Some(AdminCount(users)) && s.verified == Some(VerifiedCount(users))
  {
    if loadingUsers then
      Stats(if loadingPosts then None else Some(|posts|), None, None, None)
    else
      Stats(if loadingPosts then None else Some(|posts|), Some(|users|), Some(AdminCount(users)), Some(VerifiedCount(users)))
  }

  /** After a confirmed role change succeeds, every row of that user shows the toggled
      role, and a promotion raises the admin count by the rows promoted. */
  lemma RoleChangeEffect(users: seq<UserRow>, target: UserRow, i: int)
    requires 0 <= i < |users| && users[i].mongoId == target.mongoId
    ensures SetRole(users, target.mongoId, ToggleRole(target.role))[i].role == ToggleRole(target.role)
    ensures VerifiedCount(SetRole(users, target.mongoId, ToggleRole(target.role))) == VerifiedCount(users)
  {
    SetRoleKeepsVerified(users, target.mongoId, ToggleRole(target.role));
  }

  // ----------------------------------------------------------- the page

  datatype PostAction = Approve | Reject | Delete

  class Dashboard {
    var pendingPosts: seq<Post>
    var users: seq<UserRow>
    var loadingPosts: bool
    var loadingUsers: bool
    var processingPostId: Processing
    var processingUserId: Option<string>

    constructor ()
      ensures pendingPosts == [] && users == [] && loadingPosts && loadingUsers
      ensures processingPostId == Idle && processingUserId.None?
    {
      pendingPosts, users := [], [];
      loadingPosts, loadingUsers := true, true;
      processingPostId, processingUserId := Idle, None;
    }

    /** The mount effect: both lists are fetched when a token is present, and each fetch
        starts by raising its loading flag. Returns whether the requests were sent. */
    method OnMount(token: Option<string>) returns (sent: bool)
      modifies this
      ensures sent <==> Truthy(token)
      ensures loadingPosts == (sent || old(loadingPosts)) && loadingUsers == (sent || old(loadingUsers))
      ensures pendingPosts == old(pendingPosts) && users == old(users)
      ensures processingPostId == old(processingPostId) && processingUserId == old(processingUserId)
    {
      sent := Truthy(token);
      if sent {
        loadingPosts := true;
        loadingUsers := true;
      }
    }

    /** The end of `fetchPendingPosts`: store the list on a 2xx, always stop loading. */
    method OnPendingPosts(outcome: Response<seq<Post>>)
      modifies this
      ensures pendingPosts == if outcome.Ok? then outcome.data else old(pendingPosts)
      ensures !loadingPosts
      ensures users == old(users) && loadingUsers == old(loadingUsers)
      ensures processingPostId == old(processingPostId) && processingUserId == old(processingUserId)
    {
      if outcome.Ok? {
        pendingPosts := outcome.data;
      }
      loadingPosts := false;
    }

    /** The end of `fetchUsers`. */
    method OnUsers(outcome: Response<seq<UserRow>>)
      modifies this
      ensures users == if outcome.Ok? then outcome.data else old(users)
      ensures !loadingUsers
      ensures pendingPosts == old(pendingPosts) && loadingPosts == old(loadingPosts)
      ensures processingPostId == old(processingPostId) && processingUserId == old(processingUserId)
    {
      if outcome.Ok? {
        users := outcome.data;
      }
      loadingUsers := false;
    }

    /** The start of `handleApprove`, `handleReject` or `handleDelete`; returns whether a
        request was sent. Delete asks for confirmation first; a decline changes nothing. */
    method StartPostAction(action: PostAction, post: Post, confirmed: bool) returns (sent: bool)
      modifies this
      ensures sent <==> action != Delete || confirmed
      ensures processingPostId == if sent then Busy(post.mongoId) else old(processingPostId)
      ensures pendingPosts == old(pendingPosts) && users == old(users)
      ensures processingUserId == old(processingUserId)
      ensures loadingPosts == old(loadingPosts) && loadingUsers == old(loadingUsers)
    {
      sent := action != Delete || confirmed;
      if sent {
        processingPostId := Busy(post.mongoId);
      }
    }

    /** The completion of a post action for `target`: remove it on success; clear the
        processing id whatever the outcome. */
    method FinishPostAction(target: Option<string>, outcome: Response<()>)
      modifies this
      ensures pendingPosts == if outcome.Ok? then RemoveById(old(pendingPosts), target) else old(pendingPosts)
      ensures processingPostId == Idle
      ensures users == old(users) && processingUserId == old(processingUserId)
      ensures loadingPosts == old(loadingPosts) && loadingUsers == old(loadingUsers)
    {
      if outcome.Ok? {
        pendingPosts := RemoveById(pendingPosts, target);
      }
      processingPostId := Idle;
    }

    /** The start of `handleRoleChange`: confirm, then mark the row as updating. */
    method StartRoleChange(target: UserRow, confirmed: bool) returns (sent: bool)
      modifies this
      ensures sent <==> confirmed
      ensures processingUserId == if sent then Some(target.mongoId) else old(processingUserId)
      ensures pendingPosts == old(pendingPosts) && users == old(users)
      ensures processingPostId == old(processingPostId)
      ensures loadingPosts == old(loadingPosts) && loadingUsers == old(loadingUsers)
    {
      sent := confirmed;
      if sent {
        processingUserId := Some(target.mongoId);
      }
    }

    /** The completion of a role change: the new role was fixed from the row as clicked. */
    method FinishRoleChange(target: UserRow, outcome: Response<()>)
      modifies this
      ensures users == if outcome.Ok? then SetRole(old(users), target.mongoId, ToggleRole(target.role)) else old(users)
      ensures processingUserId.None?
      ensures pendingPosts == old(pendingPosts) && processingPostId == old(processingPostId)
      ensures loadingPosts == old(loadingPosts) && loadingUsers == old(loadingUsers)
    {
      if outcome.Ok? {
        users := SetRole(users, target.mongoId, ToggleRole(target.role));
      }
      processingUserId := None;
    }
  }
}

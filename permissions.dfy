/**
 * The two permission classes of the backend: `IsTeacher`, checked on every
 * write endpoint, and the object-level `IsOwnerOrReadOnly`.
 */
module Permissions {
  import opened Wrappers
  import opened Models

  /** `request.user`: absent, Django's anonymous user, or a logged-in account. */
  datatype Principal = NoUser | Anonymous | LoggedIn(user: User)

  predicate IsAuthenticated(p: Principal) {
    p.LoggedIn?
  }

  /** `getattr(user, "role", None) == "teacher" or user.is_staff`, for an account. */
  predicate TeacherOrStaff(u: User) {
    u.role == Some("teacher") || u.isStaff
  }

  /** `IsTeacher.has_permission`. */
  function IsTeacher(p: Principal): (allowed: bool)
    ensures allowed ==> IsAuthenticated(p)
    ensures p.LoggedIn? ==> (allowed <==> TeacherOrStaff(p.user))
  {
    p != NoUser && IsAuthenticated(p) && TeacherOrStaff(p.user)
  }

  /** Without a `role` attribute (Django's own user model) only staff are teachers. */
  lemma WithoutRoleOnlyStaff(u: User)
    requires u.role.None?
    ensures IsTeacher(LoggedIn(u)) <==> u.isStaff
  {
  }

  /** The requests DRF treats as read-only. */
  const SafeMethods: set<string> := {"GET", "HEAD", "OPTIONS"}

  /**
   * `IsOwnerOrReadOnly.has_object_permission` for an object whose `created_by`
   * is `createdBy` (`None` when the object has no such field). An anonymous
   * user is never the owner and is not staff.
   */
  function IsOwnerOrReadOnly(verb: string, p: Principal, createdBy: Option<int>): (allowed: bool)
    requires p != NoUser
    ensures verb in SafeMethods ==> allowed
    ensures verb !in SafeMethods ==>
      (allowed <==> p.LoggedIn? && ((createdBy.Some? && createdBy.value == p.user.id) || p.user.isStaff))
  {
    if verb in SafeMethods then true
    else match p
      case Anonymous => false
      case LoggedIn(u) => (createdBy.Some? && createdBy.value == u.id) || u.isStaff
  }

  /** An anonymous request may read anything and change nothing. */
  lemma AnonymousOnlyReads(verb: string, createdBy: Option<int>)
    ensures IsOwnerOrReadOnly(verb, Anonymous, createdBy) <==> verb in SafeMethods
  {
  }

  /** Ownership does not depend on the method: an owner may do everything. */
  lemma OwnerMayWrite(verb: string, u: User, createdBy: Option<int>)
    requires createdBy == Some(u.id)
    ensures IsOwnerOrReadOnly(verb, LoggedIn(u), createdBy)
  {
  }
}

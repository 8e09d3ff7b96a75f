/**
 * The request payload sent to the policy service
 * (`{"input": {"auth": ..., "scope": ..., "resource": ..., "user": ...}}`)
 * and the request data it is built from. Database lookups made while
 * building it are inputs here.
 */
module Payloads {
  import opened Wrappers

  /** The organization held in the request's IAM context. */
  datatype Organization = Organization(id: int, ownerId: int)

  /** A membership record: the caller's role in an organization. */
  datatype Membership = Membership(role: string)

  /** `request.user` and `request.iam_context`. */
  datatype IamContext = IamContext(
    userId: int,
    privilege: string,  // privilege.name
    organization: Option<Organization>,
    membership: Option<Membership>)

  /** What the framework's view tells about the operation. */
  datatype View = View(basename: string, action: string, detail: bool)

  /** The target object, of the class the view serves. */
  datatype Obj =
    | UserObj(id: int)
    | OrganizationObj(id: int, ownerId: int)
    | MembershipObj(id: int, role: string, userId: int)

  /** Results of the database queries made while building a payload. */
  datatype Lookups = Lookups(
    ownedOrganizations: nat,           // organizations whose owner is the caller
    objectMembership: Option<Membership>) // the caller's membership in the target organization

  datatype UserInfo = UserInfo(id: int, privilege: string)
  datatype OrgInfo = OrgInfo(id: int, isOwner: bool, role: Option<string>)
  datatype Auth = Auth(user: UserInfo, organization: Option<OrgInfo>)

  datatype Resource =
    | UserResource(id: int)
    | OrganizationResource(id: int, isOwner: bool, ownerId: int, callerRole: Option<string>)  // JSON key 'role'
    | MembershipResource(role: string, userId: int)

  /** A JSON key that may be missing, present with `null`, or present with a value. */
  datatype Slot<+T> = Absent | Null | Present(value: T)

  datatype UserStats = UserStats(numResources: nat)

  datatype Input = Input(
    auth: Auth,
    scope: Option<string>,      // always present; None is JSON null
    resource: Slot<Resource>,
    user: Option<UserStats>)    // present only for organizations

  /** The `auth` object every evaluator sends. */
  function AuthOf(ctx: IamContext): (a: Auth)
    ensures a.user.id == ctx.userId && a.user.privilege == ctx.privilege
    ensures a.organization.None? <==> ctx.organization.None?
    ensures a.organization.Some? ==> a.organization.value.id == ctx.organization.value.id
    ensures a.organization.Some? ==>
      (a.organization.value.isOwner <==> ctx.organization.value.ownerId == ctx.userId)
    ensures a.organization.Some? && ctx.membership.None? ==> a.organization.value.role == None
    ensures a.organization.Some? && ctx.membership.Some? ==>
      a.organization.value.role == Some(ctx.membership.value.role)
  {
    Auth(
      UserInfo(ctx.userId, ctx.privilege),
      match ctx.organization
      case None => None
      case Some(org) =>
        Some(OrgInfo(
          org.id,
          org.ownerId == ctx.userId,
          match ctx.membership
          case None => None
          case Some(m) => Some(m.role))))
  }

  /** `OrganizationPermission.resource`. */
  function OrganizationResourceOf(obj: Option<Obj>, userId: int, membership: Option<Membership>): (r: Option<Resource>)
    requires obj.Some? ==> obj.value.OrganizationObj?
    ensures r.None? <==> obj.None?
    ensures r.Some? ==> r.value.OrganizationResource?
    ensures r.Some? ==> r.value.id == obj.value.id && r.value.ownerId == obj.value.ownerId
    ensures r.Some? ==> (r.value.isOwner <==> obj.value.ownerId == userId)
    ensures r.Some? && membership.None? ==> r.value.callerRole == None
    ensures r.Some? && membership.Some? ==> r.value.callerRole == Some(membership.value.role)
  {
    match obj
    case None => None
    case Some(o) =>
      Some(OrganizationResource(
        o.id,
        o.ownerId == userId,
        o.ownerId,
        if membership.Some? then Some(membership.value.role) else None))
  }

  /** `MembershipPermission.resource`. */
  function MembershipResourceOf(obj: Obj): (r: Resource)
    requires obj.MembershipObj?
    ensures r.MembershipResource? && r.role == obj.role && r.userId == obj.userId
  {
    MembershipResource(obj.role, obj.userId)
  }
}

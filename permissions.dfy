/**
 * The evaluators (the subclasses of `OpenPolicyAgentPermission`), their
 * creation for a view, and the enforcer that aggregates their decisions
 * (`PolicyEnforcer`). The policy service is an oracle: `decide` answers the
 * `allow` endpoint and `respond` the `filter` endpoint, each from the URL
 * posted to and the payload sent.
 */
module Permissions {
  import opened Wrappers
  import opened Predicates
  import opened Rpn
  import opened Urls
  import opened Payloads
  import opened Scopes

  /** The subclasses of `OpenPolicyAgentPermission`, in declaration order. */
  datatype Kind =
    | ServerPermission | UserPermission | LambdaPermission
    | OrganizationPermission | MembershipPermission
    | InvitationPermission | CloudStoragePermission | ProjectPermission
    | TaskPermission | JobPermission | CommentPermission | IssuePermission

  /** `OpenPolicyAgentPermission.__subclasses__()`. */
  const Registry: seq<Kind> := [
    ServerPermission, UserPermission, LambdaPermission,
    OrganizationPermission, MembershipPermission,
    InvitationPermission, CloudStoragePermission, ProjectPermission,
    TaskPermission, JobPermission, CommentPermission, IssuePermission]

  /** Kinds whose `create` can return an evaluator; the others return `[]`. */
  predicate Live(k: Kind)
  {
    k.ServerPermission? || k.UserPermission? || k.LambdaPermission? ||
    k.OrganizationPermission? || k.MembershipPermission?
  }

  /** The rule package of the kind in the policy service's data API: a
      non-empty path segment that cannot start an `allow` segment. */
  function Package(k: Kind): (name: string)
    ensures |name| > 0 && '/' !in name && name[0] != 'a'
  {
    match k
    case ServerPermission => "server"
    case UserPermission => "users"
    case LambdaPermission => "lambda"
    case OrganizationPermission => "organizations"
    case MembershipPermission => "memberships"
    case InvitationPermission => "invitations"
    case CloudStoragePermission => "cloudstorages"
    case ProjectPermission => "projects"
    case TaskPermission => "tasks"
    case JobPermission => "jobs"
    case CommentPermission => "comments"
    case IssuePermission => "issues"
  }

  /** `self.url`: the data URL prefix followed by the package's `allow` rule. */
  function AllowUrl(prefix: string, k: Kind): (url: string)
    ensures |url| == |prefix| + |Package(k)| + 7
    ensures url[..|prefix|] == prefix
    ensures url[|prefix|] == '/' && url[|prefix| + 1..|url| - 6] == Package(k)
    ensures url[|url| - 6..] == "/allow"
  {
    prefix + ("/" + Package(k) + "/allow")
  }

  /** Every class posts to its own rule package. */
  lemma PackagesDistinct(k1: Kind, k2: Kind)
    ensures Package(k1) == Package(k2) <==> k1 == k2
  {
    if k1 != k2 {
      assert Package(k1) != Package(k2) by {
        match k1
        case ServerPermission =>
        case UserPermission =>
        case LambdaPermission =>
        case OrganizationPermission =>
        case MembershipPermission =>
        case InvitationPermission =>
        case CloudStoragePermission =>
        case ProjectPermission =>
        case TaskPermission =>
        case JobPermission =>
        case CommentPermission =>
        case IssuePermission =>
      }
    }
  }

  /** The test each `create` makes on `view.basename`; the dead classes'
      `create` returns `[]` without looking at the view. */
  predicate Applies(k: Kind, basename: string): (ok: bool)
    ensures ok ==> Live(k)
    ensures ok ==> basename in {"server", "user", "function", "request", "organization", "membership"}
  {
    match k
    case ServerPermission => basename == "server"
    case UserPermission => basename == "user"
    case LambdaPermission => basename == "function" || basename == "request"
    case OrganizationPermission => basename == "organization"
    case MembershipPermission => basename == "membership"
    case _ => false
  }

  /** The one kind, if any, that applies to a basename. */
  function Governing(basename: string): (g: Option<Kind>)
    ensures forall k :: Applies(k, basename) <==> g == Some(k)
    ensures g.Some? <==> basename in {"server", "user", "function", "request", "organization", "membership"}
  {
    if basename == "server" then Some(ServerPermission)
    else if basename == "user" then Some(UserPermission)
    else if basename == "function" || basename == "request" then Some(LambdaPermission)
    else if basename == "organization" then Some(OrganizationPermission)
    else if basename == "membership" then Some(MembershipPermission)
    else None
  }

  /** The `scope` property of each live kind. */
  function Scope(k: Kind, view: View): Option<string>
    requires Live(k)
  {
    match k
    case ServerPermission => ServerScope(view.action)
    case UserPermission => UserScope(view.action)
    case LambdaPermission => LambdaScope(view.basename, view.action)
    case OrganizationPermission => OrganizationScope(view.action)
    case MembershipPermission => MembershipScope(view.action)
  }

  /** The target object is one the kind's constructor can read. For detail
      views the user constructor reads `obj.id` and so fails on `None`; the
      membership constructor also fails on an object that is not a membership;
      the organization constructor reads `obj` only when one is given (`None`
      gives a null resource) and then needs an organization. */
  predicate Fits(k: Kind, view: View, obj: Option<Obj>)
  {
    match k
    case UserPermission => view.detail ==> obj.Some?
    case OrganizationPermission => view.detail && obj.Some? ==> obj.value.OrganizationObj?
    case MembershipPermission => view.detail ==> obj.Some? && obj.value.MembershipObj?
    case _ => true
  }

  /** `Fits` for whichever kind governs the view. */
  predicate ObjectFits(view: View, obj: Option<Obj>)
  {
    match Governing(view.basename)
    case Some(k) => Fits(k, view, obj)
    case None => true
  }

  /** The payload each live kind's `__init__` assembles. */
  function Payload(k: Kind, ctx: IamContext, view: View, obj: Option<Obj>, db: Lookups): (p: Input)
    requires Live(k) && Fits(k, view, obj)
    ensures p.auth == AuthOf(ctx)
    ensures p.scope == Scope(k, view)
    ensures p.resource.Absent? <==>
      !(view.detail && (k.UserPermission? || k.OrganizationPermission? || k.MembershipPermission?))
    ensures p.resource.Null? <==> k.OrganizationPermission? && view.detail && obj.None?
    ensures k.UserPermission? && view.detail ==> p.resource == Present(UserResource(obj.value.id))
    ensures k.OrganizationPermission? && view.detail && obj.Some? ==>
      Some(p.resource.value) == OrganizationResourceOf(obj, ctx.userId, db.objectMembership)
    ensures k.MembershipPermission? && view.detail ==>
      p.resource == Present(MembershipResourceOf(obj.value))
    ensures p.user.Some? <==> k.OrganizationPermission?
    ensures p.user.Some? ==> p.user.value.numResources == db.ownedOrganizations
  {
    var auth := AuthOf(ctx);
    match k
    case ServerPermission => Input(auth, ServerScope(view.action), Absent, None)
    case UserPermission =>
      Input(auth, UserScope(view.action),
        if view.detail then Present(UserResource(obj.value.id)) else Absent, None)
    case LambdaPermission => Input(auth, LambdaScope(view.basename, view.action), Absent, None)
    case OrganizationPermission =>
      var resource :=
        if !view.detail then Absent
        else match OrganizationResourceOf(obj, ctx.userId, db.objectMembership)
          case None => Null
          case Some(r) => Present(r);
      Input(auth, OrganizationScope(view.action), resource, Some(UserStats(db.ownedOrganizations)))
    case MembershipPermission =>
      Input(auth, MembershipScope(view.action),
        if view.detail then Present(MembershipResourceOf(obj.value)) else Absent, None)
  }

  /** One created evaluator: where it posts and what it sends. */
  datatype Evaluator = Evaluator(kind: Kind, url: string, payload: Input)

  /** A kind's `create` classmethod. */
  function Create(k: Kind, prefix: string, ctx: IamContext, view: View, obj: Option<Obj>, db: Lookups): (r: seq<Evaluator>)
    requires Applies(k, view.basename) ==> Fits(k, view, obj)
    ensures |r| <= 1
    ensures r != [] <==> Applies(k, view.basename)
    ensures !Live(k) ==> r == []
    ensures r != [] ==> r[0].kind == k && r[0].url == AllowUrl(prefix, k)
    ensures r != [] ==> r[0].payload == Payload(k, ctx, view, obj, db)
  {
    if Applies(k, view.basename) then [Evaluator(k, AllowUrl(prefix, k), Payload(k, ctx, view, obj, db))]
    else []
  }

  /** The evaluators created by a sequence of kinds, in order. */
  function CreateAll(ks: seq<Kind>, prefix: string, ctx: IamContext, view: View, obj: Option<Obj>, db: Lookups): seq<Evaluator>
    requires ObjectFits(view, obj)
    decreases |ks|
  {
    if ks == [] then []
    else Create(ks[0], prefix, ctx, view, obj, db) + CreateAll(ks[1..], prefix, ctx, view, obj, db)
  }

  lemma FitsGoverned(k: Kind, view: View, obj: Option<Obj>)
    requires ObjectFits(view, obj)
    ensures Applies(k, view.basename) ==> Fits(k, view, obj)
  {
  }

  /** One turn of the loop in `check_permission` moves the next kind's
      evaluators from the pending part to `permissions`. */
  lemma ExtendKeeps(permissions: seq<Evaluator>, ks: seq<Kind>, i: nat, prefix: string, ctx: IamContext, view: View, obj: Option<Obj>, db: Lookups)
    requires ObjectFits(view, obj) && i < |ks|
    ensures Applies(ks[i], view.basename) ==> Fits(ks[i], view, obj)
    ensures (permissions + Create(ks[i], prefix, ctx, view, obj, db)) + CreateAll(ks[i + 1..], prefix, ctx, view, obj, db) ==
      permissions + CreateAll(ks[i..], prefix, ctx, view, obj, db)
  {
    FitsGoverned(ks[i], view, obj);
    assert ks[i..][0] == ks[i] && ks[i..][1..] == ks[i + 1..];
  }

  /** The `permissions` list `check_permission` collects. */
  function Evaluators(prefix: string, ctx: IamContext, view: View, obj: Option<Obj>, db: Lookups): seq<Evaluator>
    requires ObjectFits(view, obj)
  {
    CreateAll(Registry, prefix, ctx, view, obj, db)
  }

  /** Over kinds without repetition, only the governing kind contributes. */
  lemma {:induction false} CreateAllGoverned(ks: seq<Kind>, prefix: string, ctx: IamContext, view: View, obj: Option<Obj>, db: Lookups)
    requires ObjectFits(view, obj)
    requires forall i, j | 0 <= i < j < |ks| :: ks[i] != ks[j]
    ensures CreateAll(ks, prefix, ctx, view, obj, db) ==
      match Governing(view.basename)
      case Some(k) => if k in ks then Create(k, prefix, ctx, view, obj, db) else []
      case None => []
    decreases |ks|
  {
    if ks != [] {
      CreateAllGoverned(ks[1..], prefix, ctx, view, obj, db);
      var g := Governing(view.basename);
      if g.Some? && g.value == ks[0] {
        assert g.value !in ks[1..] by {
          forall j | 0 <= j < |ks[1..]| ensures ks[1..][j] != ks[0] {
            assert ks[1..][j] == ks[j + 1];
          }
        }
      }
    }
  }

  /** Every view is governed by at most one evaluator, and by none when its
      basename belongs to no live kind. */
  lemma SoleEvaluator(prefix: string, ctx: IamContext, view: View, obj: Option<Obj>, db: Lookups)
    requires ObjectFits(view, obj)
    ensures |Evaluators(prefix, ctx, view, obj, db)| <= 1
    ensures Evaluators(prefix, ctx, view, obj, db) ==
      match Governing(view.basename)
      case None => []
      case Some(k) => [Evaluator(k, AllowUrl(prefix, k), Payload(k, ctx, view, obj, db))]
  {
    CreateAllGoverned(Registry, prefix, ctx, view, obj, db);
  }

  /** The classes after `MembershipPermission` never contribute an evaluator. */
  lemma DeadKindsContributeNothing(prefix: string, ctx: IamContext, view: View, obj: Option<Obj>, db: Lookups)
    requires ObjectFits(view, obj)
    ensures forall e | e in Evaluators(prefix, ctx, view, obj, db) :: Live(e.kind)
  {
    SoleEvaluator(prefix, ctx, view, obj, db);
  }

  // ---------------------------------------------------------------------
  // Aggregation.

  /** The policy service's answer on the `allow` endpoint for a URL and payload. */
  type Oracle = (string, Input) -> bool

  /** `bool(evaluator)`: post the payload to the evaluator's URL. */
  predicate Decision(decide: Oracle, e: Evaluator)
  {
    decide(e.url, e.payload)
  }

  /** `all(permissions)`. */
  function AllAllow(decide: Oracle, evs: seq<Evaluator>): (ok: bool)
    ensures ok <==> forall i | 0 <= i < |evs| :: Decision(decide, evs[i])
    ensures ok <==> forall e | e in evs :: Decision(decide, e)
    ensures evs == [] ==> ok
    decreases |evs|
  {
    if evs == [] then true
    else Decision(decide, evs[0]) && AllAllow(decide, evs[1..])
  }

  /** The evaluators `all` asks, in order: it stops at the first denial. */
  function Consulted(decide: Oracle, evs: seq<Evaluator>): (c: seq<Evaluator>)
    ensures c <= evs
    ensures forall i | 0 <= i < |c| - 1 :: Decision(decide, c[i])
    ensures AllAllow(decide, evs) ==> c == evs
    ensures !AllAllow(decide, evs) ==> c != [] && !Decision(decide, c[|c| - 1])
    decreases |evs|
  {
    if evs == [] then []
    else if !Decision(decide, evs[0]) then [evs[0]]
    else [evs[0]] + Consulted(decide, evs[1..])
  }

  /** `check_permission` as a value: every created evaluator allows. */
  predicate Permitted(decide: Oracle, prefix: string, ctx: IamContext, view: View, obj: Option<Obj>, db: Lookups)
    requires ObjectFits(view, obj)
  {
    AllAllow(decide, Evaluators(prefix, ctx, view, obj, db))
  }

  /** `PolicyEnforcer.check_permission`: collect the evaluators of every kind,
      then ask them in turn until one denies. */
  method CheckPermission(decide: Oracle, prefix: string, ctx: IamContext, view: View, obj: Option<Obj>, db: Lookups)
    returns (allowed: bool, consulted: seq<Evaluator>)
    requires ObjectFits(view, obj)
    ensures allowed <==> forall e | e in Evaluators(prefix, ctx, view, obj, db) :: Decision(decide, e)
    ensures allowed == Permitted(decide, prefix, ctx, view, obj, db)
    ensures consulted == Consulted(decide, Evaluators(prefix, ctx, view, obj, db))
  {
    var permissions: seq<Evaluator> := [];
    var i := 0;
    while i < |Registry|
      invariant 0 <= i <= |Registry|
      invariant permissions + CreateAll(Registry[i..], prefix, ctx, view, obj, db) ==
        Evaluators(prefix, ctx, view, obj, db)
    {
      ExtendKeeps(permissions, Registry, i, prefix, ctx, view, obj, db);
      permissions := permissions + Create(Registry[i], prefix, ctx, view, obj, db);
      i := i + 1;
    }
    assert Registry[i..] == [];
    assert permissions == Evaluators(prefix, ctx, view, obj, db);
    allowed := AllAllow(decide, permissions);
    consulted := Consulted(decide, permissions);
  }

  /** `PolicyEnforcer.has_permission`: detail views are allowed here without
      asking anyone, since the object check follows; list views are checked
      without an object. */
  method HasPermission(decide: Oracle, prefix: string, ctx: IamContext, view: View, db: Lookups)
    returns (allowed: bool, consulted: seq<Evaluator>)
    ensures view.detail ==> allowed && consulted == []
    ensures !view.detail ==> allowed == Permitted(decide, prefix, ctx, view, None, db)
    ensures !view.detail ==> consulted == Consulted(decide, Evaluators(prefix, ctx, view, None, db))
  {
    if !view.detail {
      allowed, consulted := CheckPermission(decide, prefix, ctx, view, None, db);
    } else {
      allowed, consulted := true, [];
    }
  }

  /** `PolicyEnforcer.has_object_permission`. */
  method HasObjectPermission(decide: Oracle, prefix: string, ctx: IamContext, view: View, obj: Obj, db: Lookups)
    returns (allowed: bool, consulted: seq<Evaluator>)
    requires ObjectFits(view, Some(obj))
    ensures allowed == Permitted(decide, prefix, ctx, view, Some(obj), db)
    ensures consulted == Consulted(decide, Evaluators(prefix, ctx, view, Some(obj), db))
  {
    allowed, consulted := CheckPermission(decide, prefix, ctx, view, Some(obj), db);
  }

  /** An evaluator is consulted whatever its scope; a `None` scope is sent as
      null and its decision decides the outcome. */
  lemma ScopeNoneStillDecides(decide: Oracle, prefix: string, ctx: IamContext, view: View, obj: Option<Obj>, db: Lookups)
    requires ObjectFits(view, obj)
    requires Governing(view.basename).Some?
    ensures var k := Governing(view.basename).value;
      var e := Evaluator(k, AllowUrl(prefix, k), Payload(k, ctx, view, obj, db));
      Evaluators(prefix, ctx, view, obj, db) == [e] &&
      e.payload.scope == Scope(k, view) &&
      (Permitted(decide, prefix, ctx, view, obj, db) <==> decide(e.url, e.payload))
  {
    SoleEvaluator(prefix, ctx, view, obj, db);
    var k := Governing(view.basename).value;
    var e := Evaluator(k, AllowUrl(prefix, k), Payload(k, ctx, view, obj, db));
    var evs := Evaluators(prefix, ctx, view, obj, db);
    assert evs == [e];
    assert AllAllow(decide, evs) <==> Decision(decide, evs[0]);
  }

  /** A view no kind governs is allowed by vacuous truth, asking no one. */
  lemma UngovernedViewAllowed(decide: Oracle, prefix: string, ctx: IamContext, view: View, obj: Option<Obj>, db: Lookups)
    requires ObjectFits(view, obj)
    requires Governing(view.basename).None?
    ensures Permitted(decide, prefix, ctx, view, obj, db)
    ensures Consulted(decide, Evaluators(prefix, ctx, view, obj, db)) == []
  {
    SoleEvaluator(prefix, ctx, view, obj, db);
  }

  // ---------------------------------------------------------------------
  // Filtering.

  /** The policy service's answer on the `filter` endpoint. */
  type Responder = (string, Input) -> seq<Token>

  /** `OpenPolicyAgentPermission.filter(queryset)`: post the same payload to the
      filter URL, translate the answer, and select the matching records. */
  method Filter(e: Evaluator, respond: Responder, queryset: seq<Record>)
    returns (url: string, r: Result<seq<Record>, FilterError>)
    ensures url == ReplaceAll(e.url, "/allow", "/filter")
    ensures Translation(respond(url, e.payload)).Err? ==>
      r == Err(Translation(respond(url, e.payload)).error)
    ensures Translation(respond(url, e.payload)).Ok? ==>
      r == Ok(Select(Translation(respond(url, e.payload)).value, queryset))
  {
    url := ReplaceAll(e.url, "/allow", "/filter");
    var q := Translate(respond(url, e.payload));
    match q {
      case Err(err) => r := Err(err);
      case Ok(p) => r := Ok(Select(p, queryset));
    }
  }

  /** The filter URL of every kind is its package's `filter` rule. */
  lemma FilterEndpoint(prefix: string, k: Kind)
    requires Free(prefix, "/allow")
    ensures ReplaceAll(AllowUrl(prefix, k), "/allow", "/filter") == prefix + ("/" + Package(k) + "/filter")
  {
    var name := Package(k);
    assert |name| >= 5 ==> name[..5][0] == name[0];
    FilterUrl(prefix, name);
  }

  /** An empty answer leaves the query set unrestricted. */
  lemma EmptyFilterAnswer(queryset: seq<Record>)
    ensures Translation([]) == Ok(True) && Select(True, queryset) == queryset
  {
    SelectTrue(queryset);
  }

  // ---------------------------------------------------------------------
  // Scenarios.

  /** An admin outside any organization lists users: scope `LIST`, no
      resource, organization null. */
  lemma AdminListsUsers(prefix: string, userId: int, db: Lookups)
    ensures var ctx := IamContext(userId, "admin", None, None);
      var view := View("user", "list", false);
      var es := Evaluators(prefix, ctx, view, None, db);
      |es| == 1 && es[0].kind == UserPermission && es[0].url == AllowUrl(prefix, UserPermission) &&
      es[0].payload.scope == Some("LIST") && es[0].payload.resource == Absent &&
      es[0].payload.auth.organization == None && es[0].payload.auth.user == UserInfo(userId, "admin")
  {
    var ctx := IamContext(userId, "admin", None, None);
    var view := View("user", "list", false);
    SoleEvaluator(prefix, ctx, view, None, db);
    assert Governing(view.basename) == Some(UserPermission);
    var p := Payload(UserPermission, ctx, view, None, db);
    assert Evaluators(prefix, ctx, view, None, db) == [Evaluator(UserPermission, AllowUrl(prefix, UserPermission), p)];
    assert p.scope == Some("LIST");
  }

  /** The owner retrieves an organization: `is_owner` holds and the role comes
      from the membership lookup, null without one. */
  lemma OwnerRetrievesOrganization(prefix: string, ctx: IamContext, orgId: int, db: Lookups)
    ensures var view := View("organization", "retrieve", true);
      var obj := OrganizationObj(orgId, ctx.userId);
      var es := Evaluators(prefix, ctx, view, Some(obj), db);
      |es| == 1 && es[0].payload.scope == Some("VIEW") &&
      es[0].payload.resource.Present? &&
      es[0].payload.resource.value.OrganizationResource? &&
      es[0].payload.resource.value.isOwner &&
      (db.objectMembership.None? ==> es[0].payload.resource.value.callerRole == None) &&
      (db.objectMembership.Some? ==> es[0].payload.resource.value.callerRole == Some(db.objectMembership.value.role)) &&
      es[0].payload.user == Some(UserStats(db.ownedOrganizations))
  {
    var obj := OrganizationObj(orgId, ctx.userId);
    var view := View("organization", "retrieve", true);
    SoleEvaluator(prefix, ctx, view, Some(obj), db);
    assert Governing(view.basename) == Some(OrganizationPermission);
    assert OrganizationScope("retrieve") == Some("VIEW");
  }

  /** `[{"owner_id": 7}, {"shared": true}, "|"]` keeps exactly the records owned
      by user 7 or shared. */
  lemma OwnedOrSharedFilter(rs: seq<Record>)
    ensures var ts := [Fields(map["owner_id" := Int(7)]), Fields(map["shared" := Bool(true)]), Operator("|")];
      Translation(ts).Ok? &&
      forall x :: x in Select(Translation(ts).value, rs) <==>
        x in rs && (("owner_id" in x && x["owner_id"] == Int(7)) || ("shared" in x && x["shared"] == Bool(true)))
  {
    var a, b := map["owner_id" := Int(7)], map["shared" := Bool(true)];
    var ts := [Fields(a), Fields(b), Operator("|")];
    assert "owner_id" in a && "shared" in b;
    OrOfTwoLeaves(a, b, map[]);
    forall x: Record ensures Eval(Translation(ts).value, x) <==>
      (("owner_id" in x && x["owner_id"] == Int(7)) || ("shared" in x && x["shared"] == Bool(true)))
    {
      OrOfTwoLeaves(a, b, x);
      assert Matches(a, x) <==> "owner_id" in x && x["owner_id"] == Int(7);
      assert Matches(b, x) <==> "shared" in x && x["shared"] == Bool(true);
    }
  }
}

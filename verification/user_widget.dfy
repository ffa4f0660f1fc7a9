/**
 * The user widget's decision logic: the three lookups gated on the cached
 * authentication flag, the organization status classifier, the navigation target of
 * the "manage organization" button, and the all-or-nothing render decision.
 */
module UserWidget {
  import opened Wrappers
  import opened AuthFlag

  /** The three remote lookups the widget issues. */
  datatype Query = PermissionsQuery | OrganizationQuery | CostCenterQuery

  const AllQueries: set<Query> := {PermissionsQuery, OrganizationQuery, CostCenterQuery}

  /** The payloads each lookup's `data` carries, reduced to the fields the widget reads. */
  datatype Role = Role(name: Option<string>)
  datatype Permission = Permission(role: Option<Role>)
  datatype PermissionsData = PermissionsData(checkUserPermission: Option<Permission>)

  datatype Organization = Organization(name: Option<string>, status: Option<string>)
  datatype OrganizationData = OrganizationData(getOrganizationByIdStorefront: Option<Organization>)

  datatype CostCenter = CostCenter(name: Option<string>)
  datatype CostCenterData = CostCenterData(getCostCenterByIdStorefront: Option<CostCenter>)

  /** The lookups are skipped exactly when the flag says "not authenticated". */
  function Skip(isAuthenticated: bool): (skip: bool)
    ensures skip != isAuthenticated
  {
    !isAuthenticated
  }

  /** The lookups issued for a flag value. */
  function IssuedQueries(isAuthenticated: bool): (issued: set<Query>)
    ensures issued == {} <==> Skip(isAuthenticated)
    ensures !Skip(isAuthenticated) ==> issued == AllQueries
  {
    if Skip(isAuthenticated) then {} else AllQueries
  }

  /**
   * A lookup's `data`: nothing when skipped, otherwise whatever the transport
   * delivers (`None` while in flight or after a failure).
   */
  function Lookup<D>(skip: bool, delivered: Option<D>): (data: Option<D>)
    ensures data.Some? <==> !skip && delivered.Some?
    ensures data.Some? ==> data == delivered
  {
    if skip then None else delivered
  }

  /** The styleguide tag types the classifier chooses between. */
  datatype TagKind = Success | Warning | Error

  /** The status indicator: a tag with a message id, or the empty string (no tag). */
  datatype StatusTag = NoTag | Tag(kind: TagKind, messageId: string)

  const StatusMessagePrefix: string := "store/b2b-organizations.user-widget.status."

  const KnownStatuses: set<string> := {"active", "on-hold", "inactive"}

  /** `handleStatusMessage`: the organization status switch. Total over all strings. */
  function ClassifyStatus(status: string): (t: StatusTag)
    ensures t.Tag? <==> status in KnownStatuses
    ensures t.Tag? ==> t.messageId == StatusMessagePrefix + status
    ensures t.Tag? && t.kind == Success <==> status == "active"
    ensures t.Tag? && t.kind == Warning <==> status == "on-hold"
    ensures t.Tag? && t.kind == Error <==> status == "inactive"
  {
    match status
    case "active" => Tag(Success, StatusMessagePrefix + "active")
    case "on-hold" => Tag(Warning, StatusMessagePrefix + "on-hold")
    case "inactive" => Tag(Error, StatusMessagePrefix + "inactive")
    case _ => NoTag
  }

  /** The suffix the navigation target always ends with. */
  const AccountOrganizationPath: string := "/account#/organization"

  /** `${rootPath ?? ''}/account#/organization`. */
  function NavTarget(rootPath: Option<string>): (target: string)
    ensures |target| == |rootPath.GetOr("")| + |AccountOrganizationPath|
    ensures target[..|rootPath.GetOr("")|] == rootPath.GetOr("")
    ensures target[|rootPath.GetOr("")|..] == AccountOrganizationPath
  {
    rootPath.GetOr("") + AccountOrganizationPath
  }

  /** What the widget renders: nothing, or the composed widget. */
  datatype RenderResult =
    | Hidden
    | Shown(organizationName: Option<string>, status: StatusTag,
            costCenterName: Option<string>, roleName: Option<string>, target: string)

  /** `organizationData?.getOrganizationByIdStorefront?.status ?? ''`. */
  function OrganizationStatus(org: OrganizationData): (status: string)
    ensures org.getOrganizationByIdStorefront.None? ==> status == ""
    ensures org.getOrganizationByIdStorefront.Some? ==>
              status == org.getOrganizationByIdStorefront.value.status.GetOr("")
  {
    match org.getOrganizationByIdStorefront
    case None => ""
    case Some(o) => o.status.GetOr("")
  }

  /** `organizationData?.getOrganizationByIdStorefront?.name`. */
  function OrganizationName(org: OrganizationData): (name: Option<string>)
    ensures name.Some? <==>
              org.getOrganizationByIdStorefront.Some? && org.getOrganizationByIdStorefront.value.name.Some?
    ensures name.Some? ==> name == org.getOrganizationByIdStorefront.value.name
  {
    match org.getOrganizationByIdStorefront
    case None => None
    case Some(o) => o.name
  }

  /** `costCenterData?.getCostCenterByIdStorefront?.name`. */
  function CostCenterName(cc: CostCenterData): (name: Option<string>)
    ensures name.Some? <==>
              cc.getCostCenterByIdStorefront.Some? && cc.getCostCenterByIdStorefront.value.name.Some?
    ensures name.Some? ==> name == cc.getCostCenterByIdStorefront.value.name
  {
    match cc.getCostCenterByIdStorefront
    case None => None
    case Some(c) => c.name
  }

  /** `permissionsData?.checkUserPermission?.role?.name`. */
  function RoleName(perm: PermissionsData): (name: Option<string>)
    ensures name.Some? <==>
              && perm.checkUserPermission.Some?
              && perm.checkUserPermission.value.role.Some?
              && perm.checkUserPermission.value.role.value.name.Some?
    ensures name.Some? ==> name == perm.checkUserPermission.value.role.value.name
  {
    match perm.checkUserPermission
    case None => None
    case Some(p) =>
      match p.role
      case None => None
      case Some(r) => r.name
  }

  /**
   * The render-or-null decision: hidden unless the flag is set and all three
   * lookups returned data; otherwise the widget composed from that data.
   */
  function Decide(isAuthenticated: bool, perm: Option<PermissionsData>,
                  org: Option<OrganizationData>, cc: Option<CostCenterData>,
                  rootPath: Option<string>): (r: RenderResult)
    ensures r.Shown? <==> isAuthenticated && perm.Some? && org.Some? && cc.Some?
    ensures r.Shown? ==> r.status == ClassifyStatus(OrganizationStatus(org.value))
    ensures r.Shown? ==> r.target == NavTarget(rootPath)
    ensures r.Shown? ==> r.organizationName == OrganizationName(org.value)
    ensures r.Shown? ==> r.costCenterName == CostCenterName(cc.value)
    ensures r.Shown? ==> r.roleName == RoleName(perm.value)
  {
    if !isAuthenticated || perm.None? || org.None? || cc.None? then Hidden
    else
      Shown(OrganizationName(org.value),
            ClassifyStatus(OrganizationStatus(org.value)),
            CostCenterName(cc.value),
            RoleName(perm.value),
            NavTarget(rootPath))
  }

  /** The outcome of one render: the updated flag/storage, the lookups issued, the output. */
  datatype Cycle = Cycle(state: AuthState, issued: set<Query>, output: RenderResult)

  /**
   * One evaluation of the component. `perm`, `org` and `cc` are what the transport
   * would deliver for each lookup if it were issued.
   */
  function Render(s: AuthState, response: Option<SessionResponse>,
                  perm: Option<PermissionsData>, org: Option<OrganizationData>,
                  cc: Option<CostCenterData>, rootPath: Option<string>): (c: Cycle)
    ensures c.state == Observe(s, response)
    ensures c.issued == {} <==> !c.state.isAuthenticated
    ensures c.issued != {} ==> c.issued == AllQueries
    ensures c.output.Shown? <==>
              c.state.isAuthenticated && perm.Some? && org.Some? && cc.Some?
    ensures c.output == Decide(c.state.isAuthenticated, perm, org, cc, rootPath)
  {
    var s' := Observe(s, response);
    var skip := Skip(s'.isAuthenticated);
    Cycle(s', IssuedQueries(s'.isAuthenticated),
          Decide(s'.isAuthenticated, Lookup(skip, perm), Lookup(skip, org), Lookup(skip, cc), rootPath))
  }

  /** The four things the widget needs before it shows. */
  datatype Requirement = Authenticated | PermissionsLoaded | OrganizationLoaded | CostCenterLoaded

  /** The requirements a render is still missing: an independent reading of the guard. */
  function Missing(isAuthenticated: bool, perm: Option<PermissionsData>,
                   org: Option<OrganizationData>, cc: Option<CostCenterData>): set<Requirement>
  {
    (if isAuthenticated then {} else {Authenticated})
    + (if perm.Some? then {} else {PermissionsLoaded})
    + (if org.Some? then {} else {OrganizationLoaded})
    + (if cc.Some? then {} else {CostCenterLoaded})
  }

  /**
   * The widget hides exactly when some requirement is missing, and when it shows, the
   * status tag appears exactly when the organization carries a recognised status.
   */
  lemma HiddenIffRequirementMissing(isAuthenticated: bool, perm: Option<PermissionsData>,
                                    org: Option<OrganizationData>, cc: Option<CostCenterData>,
                                    rootPath: Option<string>)
    ensures Decide(isAuthenticated, perm, org, cc, rootPath) == Hidden <==>
              Missing(isAuthenticated, perm, org, cc) != {}
    ensures Decide(isAuthenticated, perm, org, cc, rootPath).Shown? ==>
              (Decide(isAuthenticated, perm, org, cc, rootPath).status.Tag? <==>
                 && org.value.getOrganizationByIdStorefront.Some?
                 && org.value.getOrganizationByIdStorefront.value.status.Some?
                 && org.value.getOrganizationByIdStorefront.value.status.value in KnownStatuses)
  {
    var missing := Missing(isAuthenticated, perm, org, cc);
    if !isAuthenticated { assert Authenticated in missing; }
    if perm.None? { assert PermissionsLoaded in missing; }
    if org.None? { assert OrganizationLoaded in missing; }
    if cc.None? { assert CostCenterLoaded in missing; }
  }

  /** Only the combination "flag set, all three present" of the sixteen renders. */
  lemma OnlyCompleteCombinationRenders(isAuthenticated: bool, hasPerm: bool, hasOrg: bool,
                                       hasCostCenter: bool, perm: PermissionsData,
                                       org: OrganizationData, cc: CostCenterData,
                                       rootPath: Option<string>)
    ensures Decide(isAuthenticated,
                   if hasPerm then Some(perm) else None,
                   if hasOrg then Some(org) else None,
                   if hasCostCenter then Some(cc) else None,
                   rootPath).Shown?
            <==> isAuthenticated && hasPerm && hasOrg && hasCostCenter
  {
  }

  /** An unauthenticated flag hides the widget whatever the lookups hold. */
  lemma UnauthenticatedIsHidden(perm: Option<PermissionsData>, org: Option<OrganizationData>,
                                cc: Option<CostCenterData>, rootPath: Option<string>)
    ensures Decide(false, perm, org, cc, rootPath) == Hidden
  {
  }

  /** An organization without a status still shows the widget, with no status tag. */
  lemma MissingStatusShowsNoTag(perm: PermissionsData, name: Option<string>,
                                cc: CostCenterData, rootPath: Option<string>)
    ensures Decide(true, Some(perm), Some(OrganizationData(Some(Organization(name, None)))),
                   Some(cc), rootPath).Shown?
    ensures Decide(true, Some(perm), Some(OrganizationData(Some(Organization(name, None)))),
                   Some(cc), rootPath).status == NoTag
  {
  }

  /** Distinct recognised statuses give distinct tags. */
  lemma ClassifyStatusInjective(a: string, b: string)
    requires ClassifyStatus(a).Tag?
    ensures ClassifyStatus(a) == ClassifyStatus(b) ==> a == b
  {
    if ClassifyStatus(a) == ClassifyStatus(b) {
      var p := |StatusMessagePrefix|;
      assert a == ClassifyStatus(a).messageId[p..];
      assert b == ClassifyStatus(b).messageId[p..];
    }
  }

  /** The navigation target gives back its root path, and an absent root acts as the empty one. */
  lemma NavTargetDeterminesRoot(a: string, b: string)
    ensures NavTarget(Some(a)) == NavTarget(Some(b)) ==> a == b
    ensures NavTarget(None) == NavTarget(Some(""))
  {
    if NavTarget(Some(a)) == NavTarget(Some(b)) {
      assert |a| == |b|;
      assert a == NavTarget(Some(a))[..|a|];
    }
  }

  lemma NavTargetExamples()
    ensures NavTarget(Some("/store")) == "/store/account#/organization"
    ensures NavTarget(None) == "/account#/organization"
  {
  }

  /**
   * The flag is updated before the gate in the same render: a response that
   * authenticates issues all three lookups even if the cached flag was false, and one
   * that does not authenticate issues none and hides the widget.
   */
  lemma GateUsesUpdatedFlag(s: AuthState, response: SessionResponse,
                            perm: Option<PermissionsData>, org: Option<OrganizationData>,
                            cc: Option<CostCenterData>, rootPath: Option<string>)
    ensures ClaimsAuthenticated(response) ==>
              Render(s, Some(response), perm, org, cc, rootPath).issued == AllQueries
    ensures !ClaimsAuthenticated(response) ==>
              Render(s, Some(response), perm, org, cc, rootPath).issued == {} &&
              Render(s, Some(response), perm, org, cc, rootPath).output == Hidden
  {
  }

  /** A render without a session response is gated by the cached flag, unchanged. */
  lemma AbsentResponseUsesCachedFlag(s: AuthState, perm: Option<PermissionsData>,
                                     org: Option<OrganizationData>, cc: Option<CostCenterData>,
                                     rootPath: Option<string>)
    ensures Render(s, None, perm, org, cc, rootPath).state == s
    ensures Render(s, None, perm, org, cc, rootPath).issued ==
              (if s.isAuthenticated then AllQueries else {})
  {
  }

  const BuyerPermission: PermissionsData := PermissionsData(Some(Permission(Some(Role(Some("Buyer"))))))
  const HeadquartersCostCenter: CostCenterData := CostCenterData(Some(CostCenter(Some("HQ"))))

  /** An authenticated shopper of an active organization sees the full widget with a success tag. */
  lemma ScenarioActiveOrganization()
    ensures Decide(true, Some(BuyerPermission),
                   Some(OrganizationData(Some(Organization(Some("Acme"), Some("active"))))),
                   Some(HeadquartersCostCenter), Some("/store")) ==
            Shown(Some("Acme"), Tag(Success, StatusMessagePrefix + "active"),
                  Some("HQ"), Some("Buyer"), "/store/account#/organization")
  {
    NavTargetExamples();
  }

  /** An unrecognised status still shows the widget, without a tag. */
  lemma ScenarioUnknownStatus()
    ensures Decide(true, Some(BuyerPermission),
                   Some(OrganizationData(Some(Organization(Some("Acme"), Some("bogus"))))),
                   Some(HeadquartersCostCenter), None) ==
            Shown(Some("Acme"), NoTag, Some("HQ"), Some("Buyer"), "/account#/organization")
  {
    NavTargetExamples();
  }

  /** A cost center still loading hides the widget. */
  lemma ScenarioCostCenterLoading()
    ensures Decide(true, Some(BuyerPermission),
                   Some(OrganizationData(Some(Organization(Some("Acme"), Some("active"))))),
                   None, None) == Hidden
  {
  }
}

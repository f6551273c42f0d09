/**
 The policy check of governance/access_control.py. The roles file is read
 afresh by every check; the model takes what `load_roles` would return as a
 parameter: `None` when the file does not exist, otherwise the parsed
 document, in which the top-level `roles` key and each role's
 `allowed_tools` key may themselves be absent.
 */
module AccessControl {
  import opened Common

  datatype RoleInfo = RoleInfo(allowedTools: Option<seq<string>>)

  datatype RolesDoc = RolesDoc(roles: Option<map<string, RoleInfo>>)

  /** What `load_roles` yields: `None` stands for a missing roles file. */
  type RolesFile = Option<RolesDoc>

  /** Reference reading of the policy: the document names the role, the role
      has an `allowed_tools` list, and the tool is in it. Nothing else grants. */
  ghost predicate Grants(doc: RolesDoc, role: string, tool: string)
  {
    && doc.roles.Some?
    && role in doc.roles.value
    && doc.roles.value[role].allowedTools.Some?
    && tool in doc.roles.value[role].allowedTools.value
  }

  /** The list the membership test runs against, after the `.get` defaults
      (`{}` for a missing `roles` or role, `[]` for a missing `allowed_tools`). */
  function AllowedTools(doc: RolesDoc, role: string): (tools: seq<string>)
    ensures forall t :: t in tools <==> Grants(doc, role, t)
    ensures doc.roles.None? || role !in doc.roles.value ==> tools == []
  {
    var roles := if doc.roles.Some? then doc.roles.value else map[];
    var info := if role in roles then roles[role] else RoleInfo(None);
    if info.allowedTools.Some? then info.allowedTools.value else []
  }

  /** `is_tool_allowed`: fails closed on every missing piece of the document. */
  function IsToolAllowed(file: RolesFile, role: string, tool: string): (r: Result<bool>)
    ensures file.None? <==> r == Failure(RolesFileMissing)
    ensures file.Some? ==> r.Success?
    ensures r.Success? ==> (r.value <==> Grants(file.value, role, tool))
    ensures file.Some? && file.value.roles.None? ==> r == Success(false)
    ensures file.Some? && file.value.roles.Some? && role !in file.value.roles.value ==> r == Success(false)
  {
    match file
    case None => Failure(RolesFileMissing)
    case Some(doc) => Success(tool in AllowedTools(doc, role))
  }

  /** `require_tool_allowed`: returns normally exactly when the check allows,
      raises PermissionError for a denial, and lets a missing file's error out. */
  function RequireToolAllowed(file: RolesFile, role: string, tool: string): (r: Outcome)
    ensures r == Pass <==> file.Some? && Grants(file.value, role, tool)
    ensures file.None? ==> r == Fail(RolesFileMissing)
    ensures file.Some? && !Grants(file.value, role, tool) ==> r == Fail(PermissionDenied(role, tool))
  {
    match IsToolAllowed(file, role, tool)
    case Failure(e) => Fail(e)
    case Success(allowed) => if allowed then Pass else Fail(PermissionDenied(role, tool))
  }

  /** The document with one role's entry replaced (or added). */
  function WithRole(doc: RolesDoc, role: string, info: RoleInfo): (d: RolesDoc)
    ensures d.roles.Some? && role in d.roles.value && d.roles.value[role] == info
  {
    var roles := if doc.roles.Some? then doc.roles.value else map[];
    RolesDoc(Some(roles[role := info]))
  }

  /** The decision for a role depends on that role's entry only: rewriting
      any other role's entry never changes it. */
  lemma DecisionIsLocal(doc: RolesDoc, role: string, other: string, info: RoleInfo, tool: string)
    requires other != role
    ensures IsToolAllowed(Some(WithRole(doc, other, info)), role, tool) == IsToolAllowed(Some(doc), role, tool)
  {
    var d := WithRole(doc, other, info);
    assert AllowedTools(d, role) == AllowedTools(doc, role);
  }
}

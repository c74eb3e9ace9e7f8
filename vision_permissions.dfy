/**
 * The object-level access checks of auth_backend/visions/permissions.py. The
 * project and proposal models they read are records with the fields the
 * checks use: a project's creator and collaborators, a proposal's proposer
 * and project.
 */
module VisionPermissions {
  import opened Options

  type UserId = nat

  /** An OpenSourceVisionRequest, as far as the checks read it. */
  datatype Project = Project(creator: UserId, collaborators: set<UserId>)

  /** A CodeChangeProposal, as far as the checks read it. */
  datatype Proposal = Proposal(proposer: UserId, project: Project)

  /**
   * The object a view checks: a project itself, or another object reached
   * through its `project` attribute (None when it has no such attribute).
   */
  datatype Checked =
    | ProjectObject(p: Project)
    | RelatedObject(project: Option<Project>)

  /** The people a project admits: its creator and its collaborators. */
  function Members(p: Project): set<UserId> {
    {p.creator} + p.collaborators
  }

  /** The project whose membership decides access to `obj`, if it can be determined. */
  function GoverningProject(obj: Checked): Option<Project> {
    match obj
    case ProjectObject(p) => Some(p)
    case RelatedObject(project) => project
  }

  /**
   * `IsProjectCollaboratorOrOwner.has_object_permission`: find the project
   * (deny when the object has none), then admit its creator, then its
   * collaborators, and nobody else.
   */
  function HasObjectPermission(user: UserId, obj: Checked): (granted: bool)
    ensures granted <==> GoverningProject(obj).Some? && user in Members(GoverningProject(obj).value)
  {
    var project := GoverningProject(obj);
    if project.None? then false
    else if project.value.creator == user then true
    else if user in project.value.collaborators then true
    else false
  }

  /** The creator of a project is always admitted, to the project and to anything linked to it. */
  lemma CreatorAlwaysGranted(p: Project)
    ensures HasObjectPermission(p.creator, ProjectObject(p))
    ensures HasObjectPermission(p.creator, RelatedObject(Some(p)))
  {
  }

  /** Every collaborator is admitted. */
  lemma CollaboratorGranted(p: Project, user: UserId)
    requires user in p.collaborators
    ensures HasObjectPermission(user, ProjectObject(p))
    ensures HasObjectPermission(user, RelatedObject(Some(p)))
  {
  }

  /** Anyone neither creator nor collaborator is denied. */
  lemma OutsiderDenied(p: Project, user: UserId)
    requires user != p.creator && user !in p.collaborators
    ensures !HasObjectPermission(user, ProjectObject(p))
    ensures !HasObjectPermission(user, RelatedObject(Some(p)))
  {
  }

  /** An object linked to a project is judged exactly as that project is; one without a project is denied to all. */
  lemma RelatedObjectFollowsProject(p: Project, user: UserId)
    ensures HasObjectPermission(user, RelatedObject(Some(p))) == HasObjectPermission(user, ProjectObject(p))
    ensures !HasObjectPermission(user, RelatedObject(None))
  {
  }

  /** `IsProposalOwner.has_object_permission`: the proposer and nobody else. */
  predicate IsProposalOwner(user: UserId, prop: Proposal) {
    prop.proposer == user
  }

  /** `IsProjectOwnerForProposal.has_object_permission`: the creator of the proposal's project. */
  predicate IsProjectOwnerForProposal(user: UserId, prop: Proposal) {
    prop.project.creator == user
  }

  /**
   * The proposer passes the proposer check, at most one user passes each
   * proposal check, and the owner of the proposal's project also passes the
   * project check on that project.
   */
  lemma ProposalChecks(prop: Proposal, user: UserId, other: UserId)
    ensures IsProposalOwner(prop.proposer, prop)
    ensures IsProposalOwner(user, prop) && IsProposalOwner(other, prop) ==> user == other
    ensures IsProjectOwnerForProposal(user, prop) && IsProjectOwnerForProposal(other, prop) ==> user == other
    ensures IsProjectOwnerForProposal(user, prop) ==> HasObjectPermission(user, ProjectObject(prop.project))
  {
  }

  /**
   * The two proposal checks are independent: a proposer who is a
   * collaborator, not the creator, passes IsProposalOwner and the project
   * check but not IsProjectOwnerForProposal.
   */
  lemma ProposerIsNotProjectOwner()
    ensures var prop := Proposal(2, Project(1, {2}));
      && IsProposalOwner(2, prop) && !IsProjectOwnerForProposal(2, prop)
      && HasObjectPermission(2, ProjectObject(prop.project))
  {
  }
}

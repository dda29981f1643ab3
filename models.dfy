/**
 * The records the stores hold, reduced to the fields the stores read.
 * Enumerated fields (status, type, environment, priority, role) are strings:
 * the stores compare them as strings, and some stores compare against values
 * the type declarations do not list (`'success'`, `'queue'`, `'dev'`).
 * A `null`-able field is an `Option`.
 */
module Models {
  import opened Wrappers

  /** `PaginatedResponse<T>` */
  datatype Paginated<T> = Paginated(items: seq<T>, total: int, page: int, size: int, pages: int)

  datatype User = User(
    id: int,
    authentikId: string,
    email: string,
    username: string,
    fullName: Option<string>,
    phone: Option<string>,
    isActive: bool,
    isAdmin: bool,
    isSuperuser: Option<bool>,
    avatarUrl: Option<string>,
    createdAt: string,
    updatedAt: string)

  datatype Issue = Issue(
    id: int,
    title: string,
    description: Option<string>,
    projectId: int,
    sprintId: Option<int>,
    issueType: string,
    status: string,
    priority: string,
    assigneeId: Option<int>)

  datatype Deployment = Deployment(
    id: int,
    serviceId: int,
    version: string,
    branch: Option<string>,
    tag: Option<string>,
    notes: Option<string>,
    environment: string,
    deploymentType: string,
    status: string)

  datatype Service = Service(
    id: int,
    name: string,
    description: Option<string>,
    url: Option<string>,
    serverId: int,
    serviceType: string,
    status: string)

  datatype Server = Server(
    id: int,
    name: string,
    hostname: string,
    ipAddress: string,
    environment: string,
    serverType: string,
    status: string)

  datatype Sprint = Sprint(
    id: int,
    name: string,
    goal: Option<string>,
    projectId: int,
    status: string)

  datatype Project = Project(
    id: int,
    name: string,
    description: Option<string>,
    teamId: int,
    status: string)

  datatype Team = Team(id: int, name: string, description: Option<string>)

  datatype TeamMember = TeamMember(id: int, teamId: int, userId: int, role: string)

  datatype TeamStats = TeamStats(memberCount: int, projectCount: int, activeSprintCount: int, totalIssues: int)

  function UserId(u: User): int { u.id }
  function IssueId(x: Issue): int { x.id }
  function DeploymentId(x: Deployment): int { x.id }
  function ServiceId(x: Service): int { x.id }
  function ServerId(x: Server): int { x.id }
  function SprintId(x: Sprint): int { x.id }
  function ProjectId(x: Project): int { x.id }
  function TeamId(x: Team): int { x.id }
  function MemberId(x: TeamMember): int { x.id }
}

/** The four record kinds the store holds (Client, Task, Post, Protocol), their
    closed string unions as enumerations, and `Partial<T>` as an explicit patch
    whose `Some` fields override the record's (`{ ...record, ...patch }`). */
module Entities {
  import opened Optional

  datatype ClientStatus = Active | Onboarding | Paused | Churned
  datatype Health = Good | Neutral | AtRisk
  datatype TaskStatus = Todo | InProgress | Review | Done
  datatype Priority = Low | Medium | High | Critical
  datatype Platform = Instagram | LinkedIn | Twitter | YouTube
  datatype PostStatus = Draft | Scheduled | Published

  datatype Category = SOPs | AIPrompts | ClientAssets | Legal | Strategy {
    /** The string the record stores and the vault's search matches against. */
    function Label(): string {
      match this
      case SOPs => "SOPs"
      case AIPrompts => "AI Prompts"
      case ClientAssets => "Client Assets"
      case Legal => "Legal"
      case Strategy => "Strategy"
    }
  }

  /** Money amounts (`revenueGate`, `ltv`, `contractValue`) are whole numbers here. */
  datatype Client = Client(
    id: string,
    name: string,
    status: ClientStatus,
    revenueGate: int,
    tier: string,
    ltv: int,
    contractValue: int,
    phone: string,
    email: string,
    contactName: string,
    niche: string,
    startDate: string,
    shadowAvatar: string,
    bleedingNeck: string,
    contentPillars: seq<string>,
    relationshipHealth: Health,
    onboardingStatus: int,
    notes: string)

  datatype Task = Task(
    id: string,
    clientId: string,
    name: string,
    phase: string,
    currentStage: string,
    assignedRole: string,
    status: TaskStatus,
    deadline: string,
    priority: Priority,
    assetLinks: seq<string>,
    sopReference: Option<string>,
    notes: string,
    createdAt: string,
    completedAt: Option<string>)

  datatype Post = Post(
    id: string,
    clientId: string,
    platform: Platform,
    postType: string,
    hook: string,
    scheduledDate: string,
    status: PostStatus,
    pillar: string)

  datatype Protocol = Protocol(
    id: string,
    title: string,
    category: Category,
    pillar: string,
    updatedAt: string,
    content: string)

  function ClientId(c: Client): string { c.id }
  function TaskId(t: Task): string { t.id }
  function PostId(p: Post): string { p.id }
  function ProtocolId(p: Protocol): string { p.id }

  /** `Partial<Client>`: each `Some` field replaces the record's field. */
  datatype ClientPatch = ClientPatch(
    id: Option<string>,
    name: Option<string>,
    status: Option<ClientStatus>,
    revenueGate: Option<int>,
    tier: Option<string>,
    ltv: Option<int>,
    contractValue: Option<int>,
    phone: Option<string>,
    email: Option<string>,
    contactName: Option<string>,
    niche: Option<string>,
    startDate: Option<string>,
    shadowAvatar: Option<string>,
    bleedingNeck: Option<string>,
    contentPillars: Option<seq<string>>,
    relationshipHealth: Option<Health>,
    onboardingStatus: Option<int>,
    notes: Option<string>)

  /** `Partial<Task>`; an optional field is patched with `Some(None)` to clear it. */
  datatype TaskPatch = TaskPatch(
    id: Option<string>,
    clientId: Option<string>,
    name: Option<string>,
    phase: Option<string>,
    currentStage: Option<string>,
    assignedRole: Option<string>,
    status: Option<TaskStatus>,
    deadline: Option<string>,
    priority: Option<Priority>,
    assetLinks: Option<seq<string>>,
    sopReference: Option<Option<string>>,
    notes: Option<string>,
    createdAt: Option<string>,
    completedAt: Option<Option<string>>)

  /** `Partial<Post>`. */
  datatype PostPatch = PostPatch(
    id: Option<string>,
    clientId: Option<string>,
    platform: Option<Platform>,
    postType: Option<string>,
    hook: Option<string>,
    scheduledDate: Option<string>,
    status: Option<PostStatus>,
    pillar: Option<string>)

  /** The empty patch `{}`. */
  const NoClientChange := ClientPatch(None, None, None, None, None, None, None, None, None,
                                      None, None, None, None, None, None, None, None, None)
  const NoTaskChange := TaskPatch(None, None, None, None, None, None, None, None, None,
                                  None, None, None, None, None)
  const NoPostChange := PostPatch(None, None, None, None, None, None, None, None)

  /** `{ ...c, ...p }`. */
  function MergeClient(c: Client, p: ClientPatch): (r: Client)
    ensures p.id == None ==> r.id == c.id
  {
    Client(p.id.Or(c.id), p.name.Or(c.name), p.status.Or(c.status),
           p.revenueGate.Or(c.revenueGate), p.tier.Or(c.tier), p.ltv.Or(c.ltv),
           p.contractValue.Or(c.contractValue), p.phone.Or(c.phone), p.email.Or(c.email),
           p.contactName.Or(c.contactName), p.niche.Or(c.niche), p.startDate.Or(c.startDate),
           p.shadowAvatar.Or(c.shadowAvatar), p.bleedingNeck.Or(c.bleedingNeck),
           p.contentPillars.Or(c.contentPillars), p.relationshipHealth.Or(c.relationshipHealth),
           p.onboardingStatus.Or(c.onboardingStatus), p.notes.Or(c.notes))
  }

  /** `{ ...t, ...p }`. */
  function MergeTask(t: Task, p: TaskPatch): (r: Task)
    ensures p.id == None ==> r.id == t.id
  {
    Task(p.id.Or(t.id), p.clientId.Or(t.clientId), p.name.Or(t.name), p.phase.Or(t.phase),
         p.currentStage.Or(t.currentStage), p.assignedRole.Or(t.assignedRole),
         p.status.Or(t.status), p.deadline.Or(t.deadline), p.priority.Or(t.priority),
         p.assetLinks.Or(t.assetLinks), p.sopReference.Or(t.sopReference), p.notes.Or(t.notes),
         p.createdAt.Or(t.createdAt), p.completedAt.Or(t.completedAt))
  }

  /** `{ ...x, ...p }`. */
  function MergePost(x: Post, p: PostPatch): (r: Post)
    ensures p.id == None ==> r.id == x.id
  {
    Post(p.id.Or(x.id), p.clientId.Or(x.clientId), p.platform.Or(x.platform),
         p.postType.Or(x.postType), p.hook.Or(x.hook), p.scheduledDate.Or(x.scheduledDate),
         p.status.Or(x.status), p.pillar.Or(x.pillar))
  }

  /** Merging the empty patch leaves a client as it is, and merging the same patch
      twice is merging it once. */
  lemma MergeClientLaws(c: Client, p: ClientPatch)
    ensures MergeClient(c, NoClientChange) == c
    ensures MergeClient(MergeClient(c, p), p) == MergeClient(c, p)
  {
  }

  /** The same two laws for tasks. */
  lemma MergeTaskLaws(t: Task, p: TaskPatch)
    ensures MergeTask(t, NoTaskChange) == t
    ensures MergeTask(MergeTask(t, p), p) == MergeTask(t, p)
  {
  }

  /** The same two laws for posts. */
  lemma MergePostLaws(x: Post, p: PostPatch)
    ensures MergePost(x, NoPostChange) == x
    ensures MergePost(MergePost(x, p), p) == MergePost(x, p)
  {
  }

  /** A patch that names only `status` changes the task's status and nothing else. */
  lemma StatusPatchTouchesOnlyStatus(t: Task, s: TaskStatus)
    ensures MergeTask(t, NoTaskChange.(status := Some(s))) == t.(status := s)
  {
  }
}

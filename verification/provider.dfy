/** The data provider's life cycle (`context/data-context.tsx`): the mount effect
    that loads the saved blob or seeds example data, the write-back effect gated on
    `isLoaded`, and the mutations in between. Each effect and each state setter is
    one sequential step. The `localStorage` slot under `nerozarb-os-v2` is modelled
    by what `JSON.parse` makes of it. */
module Provider {
  import opened Optional
  import opened Entities
  import opened Store
  import opened Text

  /** A parsed blob: each array is `None` when the property is missing (or falsy),
      which the loader reads as `[]`. */
  datatype Blob = Blob(
    clients: Option<seq<Client>>,
    tasks: Option<seq<Task>>,
    posts: Option<seq<Post>>,
    protocols: Option<seq<Protocol>>)

  /** The storage slot: nothing (or the empty string), text `JSON.parse` rejects (or
      whose `.clients` lookup throws, as for `null`), or a parsed object. */
  datatype Saved = Absent | Corrupt | Stored(blob: Blob)

  /** The provider's React state. */
  datatype State = State(data: Snapshot, isLoaded: bool)

  /** The provider's state together with the storage slot. */
  datatype World = World(state: State, saved: Saved)

  /** State before the mount effect has run. */
  const Initial := State(Empty, false)

  /** `JSON.stringify({ clients, tasks, posts, protocols })`, as parsed back. */
  function Serialize(s: Snapshot): (b: Blob)
    ensures b.clients.Some? && b.tasks.Some? && b.posts.Some? && b.protocols.Some?
  {
    Blob(Some(s.clients), Some(s.tasks), Some(s.posts), Some(s.protocols))
  }

  /** `parsed.clients || []` and likewise for the other three arrays. */
  function Hydrate(b: Blob): (s: Snapshot)
    ensures b.clients.None? ==> s.clients == []
    ensures b.tasks.None? ==> s.tasks == []
    ensures b.posts.None? ==> s.posts == []
    ensures b.protocols.None? ==> s.protocols == []
    ensures b.clients.Some? ==> s.clients == b.clients.value
    ensures b.tasks.Some? ==> s.tasks == b.tasks.value
    ensures b.posts.Some? ==> s.posts == b.posts.value
    ensures b.protocols.Some? ==> s.protocols == b.protocols.value
  {
    Snapshot(b.clients.Or([]), b.tasks.Or([]), b.posts.Or([]), b.protocols.Or([]))
  }

  /** What is written is what is read back. */
  lemma HydrateSerialize(s: Snapshot)
    ensures Hydrate(Serialize(s)) == s
  {
  }

  // --------------------------------------------------------------- seed data

  /** The example client seeded on first launch; `startDate` is the launch time. */
  function SeedClients(now: string): seq<Client> {
    [Client("1", "Quantum Growth", Active, 5000, "Platinum", 25000, 5000, "+123456789",
            "ceo@quantum.com", "John Doe", "SaaS", now, "Tech Founder", "High churn",
            ["Efficiency", "Scaling"], Good, 100, "Key client.")]
  }

  /** The two example protocols, stamped with the launch date. */
  function SeedProtocols(now: string): seq<Protocol> {
    [Protocol("1", "Client Onboarding Flow", SOPs, "Ops", DatePart(now),
              "Step 1: Welcome email\nStep 2: Slack channel setup"),
     Protocol("2", "Viral Reel Script Structure", AIPrompts, "Content", DatePart(now),
              "Act as an expert copywriter. Write a reel script exploring the bleeding neck of [Audience].")]
  }

  /** The example post, scheduled at the launch time. */
  function SeedPosts(now: string): seq<Post> {
    [Post("1", "1", Instagram, "Reel", "How we scaled to $10k/mo", now, Scheduled, "Scaling")]
  }

  // ---------------------------------------------------------------- effects

  /** The mount effect. With no saved blob it seeds clients, protocols and posts
      (tasks are not touched) and writes the seed, tasks as `[]`; with a parsed blob it
      takes each array from it; with a blob that fails to parse it changes no
      collection. In every case `isLoaded` becomes true. */
  function Load(st: State, saved: Saved, now: string): (w: World)
    ensures w.state.isLoaded
    ensures saved.Stored? ==> w.state.data == Hydrate(saved.blob) && w.saved == saved
    ensures saved.Corrupt? ==> w.state.data == st.data && w.saved == Corrupt
    ensures saved.Absent? ==>
      && w.state.data.tasks == st.data.tasks
      && |w.state.data.clients| == 1 && w.state.data.clients[0].name == "Quantum Growth"
      && |w.state.data.posts| == 1
      && |w.state.data.protocols| == 2
      && w.state.data.protocols[0].id == "1" && w.state.data.protocols[1].id == "2"
      && w.saved == Stored(Serialize(w.state.data.(tasks := [])))
  {
    match saved
    case Absent =>
      var seeded := st.data.(clients := SeedClients(now), protocols := SeedProtocols(now),
                             posts := SeedPosts(now));
      World(State(seeded, true), Stored(Serialize(seeded.(tasks := []))))
    case Corrupt => World(st.(isLoaded := true), Corrupt)
    case Stored(b) => World(State(Hydrate(b), true), saved)
  }

  /** The blob mirrors the collections. */
  predicate Synced(w: World) {
    w.saved == Stored(Serialize(w.state.data))
  }

  /** The write-back effect: once loaded, store all four collections; before, write nothing. */
  function WriteBack(w: World): (r: World)
    ensures r.state == w.state
    ensures !w.state.isLoaded ==> r.saved == w.saved
    ensures w.state.isLoaded ==> Synced(r)
  {
    if w.state.isLoaded then w.(saved := Stored(Serialize(w.state.data))) else w
  }

  /** Mounting the provider over a storage slot: the load effect, then the
      write-back effect that runs once the new state has rendered. (The write-back
      effect of the very first render sees `isLoaded` false and writes nothing.) */
  function Mount(saved: Saved, now: string): World {
    WriteBack(Load(Initial, saved, now))
  }

  // -------------------------------------------------------------- mutations

  /** A call of one of the ten mutations the provider exposes. */
  datatype Op =
    | AddClientOp(client: Client, clientId: string, clientNow: string)
    | UpdateClientOp(updClient: string, clientPatch: ClientPatch)
    | DeleteClientOp(delClient: string)
    | AddTaskOp(task: Task, taskId: string, taskNow: string)
    | UpdateTaskOp(updTask: string, taskPatch: TaskPatch)
    | DeleteTaskOp(delTask: string)
    | AddPostOp(post: Post, postId: string)
    | UpdatePostOp(updPost: string, postPatch: PostPatch)
    | DeletePostOp(delPost: string)
    | AddProtocolOp(protocol: Protocol, protocolId: string, protocolNow: string)

  function Apply(s: Snapshot, op: Op): Snapshot {
    match op
    case AddClientOp(c, id, now) => AddClient(s, c, id, now)
    case UpdateClientOp(id, p) => UpdateClient(s, id, p)
    case DeleteClientOp(id) => DeleteClient(s, id)
    case AddTaskOp(t, id, now) => AddTask(s, t, id, now)
    case UpdateTaskOp(id, p) => UpdateTask(s, id, p)
    case DeleteTaskOp(id) => DeleteTask(s, id)
    case AddPostOp(x, id) => AddPost(s, x, id)
    case UpdatePostOp(id, p) => UpdatePost(s, id, p)
    case DeletePostOp(id) => DeletePost(s, id)
    case AddProtocolOp(x, id, now) => AddProtocol(s, x, id, now)
  }

  /** One mutation followed by the write-back effect it triggers. */
  function Dispatch(w: World, op: Op): (r: World)
    ensures r.state.isLoaded == w.state.isLoaded
    ensures r.state.data == Apply(w.state.data, op)
    ensures !w.state.isLoaded ==> r.saved == w.saved
    ensures w.state.isLoaded ==> Synced(r)
  {
    WriteBack(w.(state := w.state.(data := Apply(w.state.data, op))))
  }

  /** A sequence of mutations, in order. */
  function Run(w: World, ops: seq<Op>): World
    decreases |ops|
  {
    if ops == [] then w else Run(Dispatch(w, ops[0]), ops[1..])
  }

  // ------------------------------------------------------------------- laws

  /** After mounting, whatever mutations follow, the provider is loaded and the blob
      mirrors the four collections. */
  lemma {:induction false} LoadedStaysSynced(w: World, ops: seq<Op>)
    requires w.state.isLoaded && Synced(w)
    ensures Run(w, ops).state.isLoaded && Synced(Run(w, ops))
    decreases |ops|
  {
    if ops != [] {
      LoadedStaysSynced(Dispatch(w, ops[0]), ops[1..]);
    }
  }

  /** Mounting always ends loaded and in sync, on every kind of storage slot. */
  lemma MountSynced(saved: Saved, now: string)
    ensures Mount(saved, now).state.isLoaded && Synced(Mount(saved, now))
  {
  }

  /** Before loading, mutations never write to storage. */
  lemma {:induction false} NoWriteBeforeLoad(w: World, ops: seq<Op>)
    requires !w.state.isLoaded
    ensures Run(w, ops).saved == w.saved
    ensures !Run(w, ops).state.isLoaded
    decreases |ops|
  {
    if ops != [] {
      NoWriteBeforeLoad(Dispatch(w, ops[0]), ops[1..]);
    }
  }

  /** Reloading the page after any session of mutations restores exactly the
      collections the session ended with. */
  lemma ReloadRestores(saved: Saved, now: string, ops: seq<Op>, later: string)
    ensures var before := Run(Mount(saved, now), ops);
            Mount(before.saved, later).state.data == before.state.data
  {
    MountSynced(saved, now);
    LoadedStaysSynced(Mount(saved, now), ops);
    HydrateSerialize(Run(Mount(saved, now), ops).state.data);
  }

  /** First launch: one client 'Quantum Growth', no tasks, one post, protocols '1'
      and '2', and the blob holds exactly those four collections. */
  lemma FirstLaunchSeeds(now: string)
    ensures var w := Mount(Absent, now);
      && w.state.isLoaded
      && w.state.data == Snapshot(SeedClients(now), [], SeedPosts(now), SeedProtocols(now))
      && w.saved == Stored(Blob(Some(SeedClients(now)), Some([]), Some(SeedPosts(now)),
                                Some(SeedProtocols(now))))
  {
  }

  /** A blob that fails to parse is not recovered from: nothing is seeded, the
      collections stay empty, `isLoaded` still becomes true, and the empty
      collections are written over the blob. */
  lemma CorruptBlobIsOverwritten(now: string)
    ensures Mount(Corrupt, now) == World(State(Empty, true), Stored(Blob(Some([]), Some([]), Some([]), Some([]))))
  {
  }
}

/** The data provider's four collections and the ten mutations it exposes
    (`context/data-context.tsx`). Each mutation touches one collection only.
    `Math.random()` identifiers and `new Date()` timestamps are parameters:
    `freshId` is whatever the generator produced, `now` the ISO time of the call. */
module Store {
  import opened Optional
  import opened Seqs
  import opened Collection
  import opened Entities
  import opened Text

  datatype Snapshot = Snapshot(
    clients: seq<Client>,
    tasks: seq<Task>,
    posts: seq<Post>,
    protocols: seq<Protocol>)

  /** The provider's state before anything is loaded: four empty arrays. */
  const Empty := Snapshot([], [], [], [])

  /** Identifiers are unique within each collection. */
  predicate WellKeyed(s: Snapshot) {
    && UniqueIds(s.clients, ClientId)
    && UniqueIds(s.tasks, TaskId)
    && UniqueIds(s.posts, PostId)
    && UniqueIds(s.protocols, ProtocolId)
  }

  // ---------------------------------------------------------------- clients

  /** `addClient`: appends the caller's record with `id` and `startDate` set by the
      store, whatever the caller put in those two fields. */
  function AddClient(s: Snapshot, input: Client, freshId: string, now: string): (r: Snapshot)
    ensures r.tasks == s.tasks && r.posts == s.posts && r.protocols == s.protocols
    ensures |r.clients| == |s.clients| + 1 && r.clients[..|s.clients|] == s.clients
    ensures r.clients[|s.clients|].id == freshId && r.clients[|s.clients|].startDate == now
    ensures r.clients[|s.clients|].(id := input.id, startDate := input.startDate) == input
  {
    s.(clients := Append(s.clients, input.(id := freshId, startDate := now)))
  }

  /** `updateClient`: every client carrying `id` becomes the patch merged over it;
      the others, and the order, stay as they were. */
  function UpdateClient(s: Snapshot, id: string, patch: ClientPatch): (r: Snapshot)
    ensures r.tasks == s.tasks && r.posts == s.posts && r.protocols == s.protocols
    ensures |r.clients| == |s.clients|
    ensures forall i :: 0 <= i < |s.clients| && s.clients[i].id == id ==>
      r.clients[i] == MergeClient(s.clients[i], patch)
    ensures forall i :: 0 <= i < |s.clients| && s.clients[i].id != id ==> r.clients[i] == s.clients[i]
  {
    s.(clients := UpdateById(s.clients, ClientId, id, (c: Client) => MergeClient(c, patch)))
  }

  /** `deleteClient`: keeps exactly the clients whose id differs, in order. */
  function DeleteClient(s: Snapshot, id: string): (r: Snapshot)
    ensures r.tasks == s.tasks && r.posts == s.posts && r.protocols == s.protocols
    ensures forall i :: 0 <= i < |r.clients| ==> r.clients[i].id != id
    ensures forall i :: 0 <= i < |s.clients| && s.clients[i].id != id ==> s.clients[i] in r.clients
    ensures IsSubseq(r.clients, s.clients)
  {
    RemoveKeepsOthers(s.clients, ClientId, id);
    s.(clients := RemoveById(s.clients, ClientId, id))
  }

  // ------------------------------------------------------------------ tasks

  /** `addTask`: appends the caller's record with `id` and `createdAt` set by the store.
      The task's `clientId` is not checked against the clients. */
  function AddTask(s: Snapshot, input: Task, freshId: string, now: string): (r: Snapshot)
    ensures r.clients == s.clients && r.posts == s.posts && r.protocols == s.protocols
    ensures |r.tasks| == |s.tasks| + 1 && r.tasks[..|s.tasks|] == s.tasks
    ensures r.tasks[|s.tasks|].id == freshId && r.tasks[|s.tasks|].createdAt == now
    ensures r.tasks[|s.tasks|].(id := input.id, createdAt := input.createdAt) == input
  {
    s.(tasks := Append(s.tasks, input.(id := freshId, createdAt := now)))
  }

  /** `updateTask`: shallow merge on the tasks carrying `id`. */
  function UpdateTask(s: Snapshot, id: string, patch: TaskPatch): (r: Snapshot)
    ensures r.clients == s.clients && r.posts == s.posts && r.protocols == s.protocols
    ensures |r.tasks| == |s.tasks|
    ensures forall i :: 0 <= i < |s.tasks| && s.tasks[i].id == id ==>
      r.tasks[i] == MergeTask(s.tasks[i], patch)
    ensures forall i :: 0 <= i < |s.tasks| && s.tasks[i].id != id ==> r.tasks[i] == s.tasks[i]
  {
    s.(tasks := UpdateById(s.tasks, TaskId, id, (t: Task) => MergeTask(t, patch)))
  }

  /** `deleteTask`: keeps exactly the tasks whose id differs, in order. */
  function DeleteTask(s: Snapshot, id: string): (r: Snapshot)
    ensures r.clients == s.clients && r.posts == s.posts && r.protocols == s.protocols
    ensures forall i :: 0 <= i < |r.tasks| ==> r.tasks[i].id != id
    ensures forall i :: 0 <= i < |s.tasks| && s.tasks[i].id != id ==> s.tasks[i] in r.tasks
    ensures IsSubseq(r.tasks, s.tasks)
  {
    RemoveKeepsOthers(s.tasks, TaskId, id);
    s.(tasks := RemoveById(s.tasks, TaskId, id))
  }

  // ------------------------------------------------------------------ posts

  /** `addPost`: appends the caller's record with `id` set by the store. */
  function AddPost(s: Snapshot, input: Post, freshId: string): (r: Snapshot)
    ensures r.clients == s.clients && r.tasks == s.tasks && r.protocols == s.protocols
    ensures |r.posts| == |s.posts| + 1 && r.posts[..|s.posts|] == s.posts
    ensures r.posts[|s.posts|].id == freshId
    ensures r.posts[|s.posts|].(id := input.id) == input
  {
    s.(posts := Append(s.posts, input.(id := freshId)))
  }

  /** `updatePost`: shallow merge on the posts carrying `id`. */
  function UpdatePost(s: Snapshot, id: string, patch: PostPatch): (r: Snapshot)
    ensures r.clients == s.clients && r.tasks == s.tasks && r.protocols == s.protocols
    ensures |r.posts| == |s.posts|
    ensures forall i :: 0 <= i < |s.posts| && s.posts[i].id == id ==>
      r.posts[i] == MergePost(s.posts[i], patch)
    ensures forall i :: 0 <= i < |s.posts| && s.posts[i].id != id ==> r.posts[i] == s.posts[i]
  {
    s.(posts := UpdateById(s.posts, PostId, id, (x: Post) => MergePost(x, patch)))
  }

  /** `deletePost`: keeps exactly the posts whose id differs, in order. */
  function DeletePost(s: Snapshot, id: string): (r: Snapshot)
    ensures r.clients == s.clients && r.tasks == s.tasks && r.protocols == s.protocols
    ensures forall i :: 0 <= i < |r.posts| ==> r.posts[i].id != id
    ensures forall i :: 0 <= i < |s.posts| && s.posts[i].id != id ==> s.posts[i] in r.posts
    ensures IsSubseq(r.posts, s.posts)
  {
    RemoveKeepsOthers(s.posts, PostId, id);
    s.(posts := RemoveById(s.posts, PostId, id))
  }

  // -------------------------------------------------------------- protocols

  /** `addProtocol`: appends the caller's record with `id` set by the store and
      `updatedAt` set to the date part of the store's clock. Protocols have no
      update or delete. */
  function AddProtocol(s: Snapshot, input: Protocol, freshId: string, now: string): (r: Snapshot)
    ensures r.clients == s.clients && r.tasks == s.tasks && r.posts == s.posts
    ensures |r.protocols| == |s.protocols| + 1 && r.protocols[..|s.protocols|] == s.protocols
    ensures r.protocols[|s.protocols|].id == freshId
    ensures r.protocols[|s.protocols|].updatedAt == DatePart(now)
    ensures r.protocols[|s.protocols|].updatedAt <= now && 'T' !in r.protocols[|s.protocols|].updatedAt
    ensures r.protocols[|s.protocols|].(id := input.id, updatedAt := input.updatedAt) == input
  {
    s.(protocols := Append(s.protocols, input.(id := freshId, updatedAt := DatePart(now))))
  }

  // ------------------------------------------------------------------- laws

  /** A delete keeps each record with another id exactly as often as it occurred,
      and no record with the id. */
  lemma DeleteCounts(s: Snapshot, id: string)
    ensures forall c :: multiset(DeleteClient(s, id).clients)[c] == if c.id != id then multiset(s.clients)[c] else 0
    ensures forall t :: multiset(DeleteTask(s, id).tasks)[t] == if t.id != id then multiset(s.tasks)[t] else 0
    ensures forall x :: multiset(DeletePost(s, id).posts)[x] == if x.id != id then multiset(s.posts)[x] else 0
  {
    RemoveCounts(s.clients, ClientId, id);
    RemoveCounts(s.tasks, TaskId, id);
    RemoveCounts(s.posts, PostId, id);
  }

  /** Identifier uniqueness survives every add whose generated id is fresh in the
      collection it joins. */
  lemma AddsKeepWellKeyed(s: Snapshot, freshId: string, now: string,
                          c: Client, t: Task, x: Post, pr: Protocol)
    requires WellKeyed(s)
    ensures FreshId(s.clients, ClientId, freshId) ==> WellKeyed(AddClient(s, c, freshId, now))
    ensures FreshId(s.tasks, TaskId, freshId) ==> WellKeyed(AddTask(s, t, freshId, now))
    ensures FreshId(s.posts, PostId, freshId) ==> WellKeyed(AddPost(s, x, freshId))
    ensures FreshId(s.protocols, ProtocolId, freshId) ==> WellKeyed(AddProtocol(s, pr, freshId, now))
  {
    if FreshId(s.clients, ClientId, freshId) { AppendKeepsUnique(s.clients, ClientId, c.(id := freshId, startDate := now)); }
    if FreshId(s.tasks, TaskId, freshId) { AppendKeepsUnique(s.tasks, TaskId, t.(id := freshId, createdAt := now)); }
    if FreshId(s.posts, PostId, freshId) { AppendKeepsUnique(s.posts, PostId, x.(id := freshId)); }
    if FreshId(s.protocols, ProtocolId, freshId) { AppendKeepsUnique(s.protocols, ProtocolId, pr.(id := freshId, updatedAt := DatePart(now))); }
  }

  /** Identifier uniqueness survives every update, of any id, whose patch leaves `id`
      alone, and every delete of any id. */
  lemma EditsKeepWellKeyed(s: Snapshot, id: string, cp: ClientPatch, tp: TaskPatch, pp: PostPatch)
    requires WellKeyed(s)
    ensures cp.id == None ==> WellKeyed(UpdateClient(s, id, cp))
    ensures tp.id == None ==> WellKeyed(UpdateTask(s, id, tp))
    ensures pp.id == None ==> WellKeyed(UpdatePost(s, id, pp))
    ensures WellKeyed(DeleteClient(s, id)) && WellKeyed(DeleteTask(s, id)) && WellKeyed(DeletePost(s, id))
  {
    if cp.id == None { UpdateKeepsUnique(s.clients, ClientId, id, (r: Client) => MergeClient(r, cp)); }
    if tp.id == None { UpdateKeepsUnique(s.tasks, TaskId, id, (r: Task) => MergeTask(r, tp)); }
    if pp.id == None { UpdateKeepsUnique(s.posts, PostId, id, (r: Post) => MergePost(r, pp)); }
    RemoveKeepsUnique(s.clients, ClientId, id);
    RemoveKeepsUnique(s.tasks, TaskId, id);
    RemoveKeepsUnique(s.posts, PostId, id);
  }

  /** A patch that carries `id` is merged like any other field, so it can give a
      client the identifier of another: two clients then share one id. */
  lemma PatchedIdCanCollide()
    ensures var a := SampleClient("a");
            var b := SampleClient("b");
            var s := Empty.(clients := [a, b]);
            WellKeyed(s) && !WellKeyed(UpdateClient(s, "a", NoClientChange.(id := Some("b"))))
  {
    var a := SampleClient("a");
    var b := SampleClient("b");
    var s := Empty.(clients := [a, b]);
    var r := UpdateClient(s, "a", NoClientChange.(id := Some("b")));
    assert r.clients[0].id == "b" && r.clients[1].id == "b";
  }

  /** A client record with every field but the identifier left blank. */
  function SampleClient(id: string): (c: Client)
    ensures c.id == id
  {
    Client(id, "", Onboarding, 0, "", 0, 0, "", "", "", "", "", "", "", [], Neutral, 0, "")
  }

  /** Deleting an id nobody carries changes nothing, and deleting twice is deleting once. */
  lemma DeleteLaws(s: Snapshot, id: string)
    ensures FreshId(s.clients, ClientId, id) ==> DeleteClient(s, id) == s
    ensures FreshId(s.tasks, TaskId, id) ==> DeleteTask(s, id) == s
    ensures FreshId(s.posts, PostId, id) ==> DeletePost(s, id) == s
    ensures DeleteClient(DeleteClient(s, id), id) == DeleteClient(s, id)
    ensures DeleteTask(DeleteTask(s, id), id) == DeleteTask(s, id)
    ensures DeletePost(DeletePost(s, id), id) == DeletePost(s, id)
  {
    if FreshId(s.clients, ClientId, id) { RemoveAbsent(s.clients, ClientId, id); }
    if FreshId(s.tasks, TaskId, id) { RemoveAbsent(s.tasks, TaskId, id); }
    if FreshId(s.posts, PostId, id) { RemoveAbsent(s.posts, PostId, id); }
    RemoveIdempotent(s.clients, ClientId, id);
    RemoveIdempotent(s.tasks, TaskId, id);
    RemoveIdempotent(s.posts, PostId, id);
  }

  /** Updating an id nobody carries changes nothing; in particular an update after the
      delete of its id is a no-op. */
  lemma UpdateAbsentLaws(s: Snapshot, id: string, cp: ClientPatch, tp: TaskPatch, pp: PostPatch)
    ensures FreshId(s.clients, ClientId, id) ==> UpdateClient(s, id, cp) == s
    ensures FreshId(s.tasks, TaskId, id) ==> UpdateTask(s, id, tp) == s
    ensures FreshId(s.posts, PostId, id) ==> UpdatePost(s, id, pp) == s
    ensures UpdateClient(DeleteClient(s, id), id, cp) == DeleteClient(s, id)
    ensures UpdateTask(DeleteTask(s, id), id, tp) == DeleteTask(s, id)
    ensures UpdatePost(DeletePost(s, id), id, pp) == DeletePost(s, id)
  {
    UpdateAfterRemove(s.clients, ClientId, id, (c: Client) => MergeClient(c, cp));
    UpdateAfterRemove(s.tasks, TaskId, id, (t: Task) => MergeTask(t, tp));
    UpdateAfterRemove(s.posts, PostId, id, (x: Post) => MergePost(x, pp));
  }

  /** Repeating an update changes nothing further, whatever the patch: the merge is
      idempotent, and a patch that renames the records leaves none for the repeat
      to find. */
  lemma UpdateRepeatLaws(s: Snapshot, id: string, cp: ClientPatch, tp: TaskPatch, pp: PostPatch)
    ensures UpdateClient(UpdateClient(s, id, cp), id, cp) == UpdateClient(s, id, cp)
    ensures UpdateTask(UpdateTask(s, id, tp), id, tp) == UpdateTask(s, id, tp)
    ensures UpdatePost(UpdatePost(s, id, pp), id, pp) == UpdatePost(s, id, pp)
  {
    forall c: Client ensures MergeClient(MergeClient(c, cp), cp) == MergeClient(c, cp) { MergeClientLaws(c, cp); }
    forall t: Task ensures MergeTask(MergeTask(t, tp), tp) == MergeTask(t, tp) { MergeTaskLaws(t, tp); }
    forall x: Post ensures MergePost(MergePost(x, pp), pp) == MergePost(x, pp) { MergePostLaws(x, pp); }
  }

  /** Adding a client with a fresh id and then deleting that id restores the snapshot. */
  lemma DeleteUndoesAddClient(s: Snapshot, id: string, now: string, c: Client)
    requires FreshId(s.clients, ClientId, id)
    ensures DeleteClient(AddClient(s, c, id, now), id) == s
  {
    RemoveUndoesAppend(s.clients, ClientId, c.(id := id, startDate := now));
  }

  /** The same for tasks. */
  lemma DeleteUndoesAddTask(s: Snapshot, id: string, now: string, t: Task)
    requires FreshId(s.tasks, TaskId, id)
    ensures DeleteTask(AddTask(s, t, id, now), id) == s
  {
    RemoveUndoesAppend(s.tasks, TaskId, t.(id := id, createdAt := now));
  }

  /** The same for posts. */
  lemma DeleteUndoesAddPost(s: Snapshot, id: string, x: Post)
    requires FreshId(s.posts, PostId, id)
    ensures DeletePost(AddPost(s, x, id), id) == s
  {
    RemoveUndoesAppend(s.posts, PostId, x.(id := id));
  }

  /** Deleting an id erases any earlier update of it whose patch leaves `id` alone. */
  lemma DeleteErasesUpdate(s: Snapshot, id: string, cp: ClientPatch, tp: TaskPatch, pp: PostPatch)
    ensures cp.id == None ==> DeleteClient(UpdateClient(s, id, cp), id) == DeleteClient(s, id)
    ensures tp.id == None ==> DeleteTask(UpdateTask(s, id, tp), id) == DeleteTask(s, id)
    ensures pp.id == None ==> DeletePost(UpdatePost(s, id, pp), id) == DeletePost(s, id)
  {
    if cp.id == None { RemoveAfterUpdate(s.clients, ClientId, id, (c: Client) => MergeClient(c, cp)); }
    if tp.id == None { RemoveAfterUpdate(s.tasks, TaskId, id, (t: Task) => MergeTask(t, tp)); }
    if pp.id == None { RemoveAfterUpdate(s.posts, PostId, id, (x: Post) => MergePost(x, pp)); }
  }

  /** Creating a client with a fresh id and immediately updating that id: the new
      record is the patch merged over the stamped input, and nothing else changes. */
  lemma UpdateAfterAdd(s: Snapshot, c: Client, id: string, now: string, patch: ClientPatch)
    requires FreshId(s.clients, ClientId, id)
    ensures UpdateClient(AddClient(s, c, id, now), id, patch)
         == s.(clients := s.clients + [MergeClient(c.(id := id, startDate := now), patch)])
  {
    var r := UpdateClient(AddClient(s, c, id, now), id, patch);
    assert r.clients == s.clients + [MergeClient(c.(id := id, startDate := now), patch)];
  }
}

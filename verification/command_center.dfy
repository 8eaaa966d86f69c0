/** The dashboard's derived numbers and lists (`components/command-center.tsx`):
    the four stat cards, the CEO-only revenue card, and the two five-row lists. */
module CommandCenter {
  import opened Optional
  import opened Seqs
  import opened Collection
  import opened Entities
  import opened Auth
  import opened Store

  predicate IsActive(c: Client) { c.status == Active }
  predicate IsPending(t: Task) { t.status != Done }
  predicate IsCriticalPending(t: Task) { t.priority == Critical && t.status != Done }

  /** 'Active Clients': clients whose status is Active. */
  function ActiveClients(clients: seq<Client>): nat {
    |Filter(clients, IsActive)|
  }

  /** 'Pending Tasks': tasks not yet Done. */
  function PendingTasks(tasks: seq<Task>): nat {
    |Filter(tasks, IsPending)|
  }

  /** 'Critical Alerts': Critical tasks not yet Done. */
  function CriticalTasks(tasks: seq<Task>): nat {
    |Filter(tasks, IsCriticalPending)|
  }

  function ContractValue(c: Client): int { c.contractValue }

  /** 'Monthly Revenue': the sum of every client's contract value. */
  function Mrr(clients: seq<Client>): int {
    SumBy(clients, ContractValue)
  }

  datatype Stat = ActiveClientsCard | PendingTasksCard | CriticalAlertsCard | MonthlyRevenueCard

  /** The stat cards rendered, in order: the revenue card is `ceoOnly`. */
  function VisibleStats(role: Option<string>): (r: seq<Stat>)
    ensures IsCeo(role) ==> r == [ActiveClientsCard, PendingTasksCard, CriticalAlertsCard, MonthlyRevenueCard]
    ensures !IsCeo(role) ==> r == [ActiveClientsCard, PendingTasksCard, CriticalAlertsCard]
  {
    var all := [ActiveClientsCard, PendingTasksCard, CriticalAlertsCard, MonthlyRevenueCard];
    var ceoOnly := [false, false, false, true];
    Visible(all, ceoOnly, IsCeo(role))
  }

  /** `stats.map(stat => stat.ceoOnly && !ceo ? null : stat)`, nulls dropped. */
  function Visible(cards: seq<Stat>, ceoOnly: seq<bool>, ceo: bool): (r: seq<Stat>)
    requires |cards| == |ceoOnly|
    ensures forall x :: x in r <==> exists i :: 0 <= i < |cards| && cards[i] == x && (ceo || !ceoOnly[i])
    ensures ceo ==> r == cards
  {
    if cards == [] then []
    else
      var rest := Visible(cards[1..], ceoOnly[1..], ceo);
      assert forall i :: 0 < i < |cards| ==> cards[i] == cards[1..][i - 1] && ceoOnly[i] == ceoOnly[1..][i - 1];
      if ceo || !ceoOnly[0] then [cards[0]] + rest else rest
  }

  /** `slice(0, 5)`: both dashboard lists, 'Active Sprints' over the tasks and
      'Client Health' over the clients, show the first five records in store order. */
  function FirstFive<T>(xs: seq<T>): (r: seq<T>)
    ensures |r| == if |xs| < 5 then |xs| else 5
    ensures r <= xs
  {
    Take(xs, 5)
  }

  /** The counts are ordered: critical alerts are among the pending tasks, which are
      among all tasks; active clients are among all clients. Pending and Done tasks
      together are all tasks. */
  lemma StatBounds(clients: seq<Client>, tasks: seq<Task>)
    ensures ActiveClients(clients) <= |clients|
    ensures CriticalTasks(tasks) <= PendingTasks(tasks) <= |tasks|
    ensures PendingTasks(tasks) + |Filter(tasks, (t: Task) => t.status == Done)| == |tasks|
  {
    FilterMonotone(tasks, IsCriticalPending, IsPending);
    FilterComplement(tasks, IsPending, (t: Task) => t.status == Done);
  }

  /** An update whose patch leaves `contractValue` alone leaves monthly revenue
      unchanged. */
  lemma {:induction false} MrrIgnoresPatch(clients: seq<Client>, id: string, patch: ClientPatch)
    requires patch.contractValue == None
    ensures Mrr(UpdateById(clients, ClientId, id, (c: Client) => MergeClient(c, patch))) == Mrr(clients)
  {
    if clients != [] {
      var merge := (c: Client) => MergeClient(c, patch);
      assert UpdateById(clients, ClientId, id, merge)[1..] == UpdateById(clients[1..], ClientId, id, merge);
      MrrIgnoresPatch(clients[1..], id, patch);
    }
  }

  /** Monthly revenue counts every client whatever its status: pausing, churning or
      re-activating a client leaves it unchanged. */
  lemma MrrIgnoresStatusChange(s: Snapshot, id: string, status: ClientStatus)
    ensures Mrr(UpdateClient(s, id, NoClientChange.(status := Some(status))).clients) == Mrr(s.clients)
  {
    MrrIgnoresPatch(s.clients, id, NoClientChange.(status := Some(status)));
  }

  /** Adding a client raises monthly revenue by exactly its contract value. */
  lemma MrrAfterAdd(s: Snapshot, c: Client, id: string, now: string)
    ensures Mrr(AddClient(s, c, id, now).clients) == Mrr(s.clients) + c.contractValue
  {
    var r := AddClient(s, c, id, now);
    assert r.clients == s.clients + [c.(id := id, startDate := now)];
    SumByConcat(s.clients, [c.(id := id, startDate := now)], ContractValue);
  }
}

/** The client desk (`components/client-os.tsx`): the search box, the record the
    'Onboard Client' form hands to `addClient`, and what a non-CEO does not see. */
module ClientOS {
  import opened Optional
  import opened Seqs
  import opened Text
  import opened Entities
  import opened Auth
  import opened Store

  /** A client is kept when its name or its contact's name contains the query,
      ignoring letter case. */
  predicate ClientMatches(c: Client, query: string) {
    MatchesQuery(c.name, query) || MatchesQuery(c.contactName, query)
  }

  /** `filteredClients`: the matching clients, in store order. */
  function FilteredClients(clients: seq<Client>, query: string): (r: seq<Client>)
    ensures forall i :: 0 <= i < |r| ==> r[i] in clients && ClientMatches(r[i], query)
    ensures forall i :: 0 <= i < |clients| && ClientMatches(clients[i], query) ==> clients[i] in r
    ensures IsSubseq(r, clients)
  {
    var keep := (c: Client) => ClientMatches(c, query);
    FilterIsSubseq(clients, keep);
    Filter(clients, keep)
  }

  /** The search keeps each matching client exactly as often as it occurs. */
  lemma SearchCounts(clients: seq<Client>, query: string)
    ensures forall c :: multiset(FilteredClients(clients, query))[c]
                     == if ClientMatches(c, query) then multiset(clients)[c] else 0
  {
    FilterCounts(clients, (c: Client) => ClientMatches(c, query));
  }

  /** The empty query keeps every client. */
  lemma EmptySearchKeepsAll(clients: seq<Client>)
    ensures FilteredClients(clients, "") == clients
  {
    forall i | 0 <= i < |clients| ensures ClientMatches(clients[i], "") {
      MatchesQueryLaws(clients[i].name, "");
    }
    FilterKeepsAll(clients, (c: Client) => ClientMatches(c, ""));
  }

  /** The query's letter case never matters. */
  lemma SearchIgnoresCase(clients: seq<Client>, query: string)
    ensures FilteredClients(clients, query) == FilteredClients(clients, Lower(query))
  {
    forall i | 0 <= i < |clients|
      ensures ClientMatches(clients[i], query) == ClientMatches(clients[i], Lower(query))
    {
      MatchesQueryLaws(clients[i].name, query);
      MatchesQueryLaws(clients[i].contactName, query);
    }
    FilterExt(clients, (c: Client) => ClientMatches(c, query), (c: Client) => ClientMatches(c, Lower(query)));
  }

  /** Each comma-separated piece, trimmed. */
  function TrimmedPieces(text: string): (r: seq<string>)
    ensures |r| == |Split(text, ',')|
    ensures forall i :: 0 <= i < |r| ==> r[i] == Trim(Split(text, ',')[i])
  {
    var pieces := Split(text, ',');
    seq(|pieces|, i requires 0 <= i < |pieces| => Trim(pieces[i]))
  }

  /** Every trimmed piece is comma-free, and a non-empty one has no surrounding
      whitespace. */
  lemma TrimmedPiecesClean(text: string)
    ensures forall k :: 0 <= k < |TrimmedPieces(text)| ==> PillarShaped(TrimmedPieces(text)[k])
  {
    var pieces := Split(text, ',');
    var trimmed := TrimmedPieces(text);
    forall k | 0 <= k < |trimmed| ensures PillarShaped(trimmed[k]) {
      assert trimmed[k] == Trim(pieces[k]);
      assert ',' !in pieces[k];
    }
  }

  /** Comma-free, and without surrounding whitespace unless empty. */
  predicate PillarShaped(p: string) {
    ',' !in p && (p != "" ==> !IsSpace(p[0]) && !IsSpace(p[|p| - 1]))
  }

  predicate NonEmpty(s: string) { s != "" }

  /** `text.split(',').map(s => s.trim()).filter(Boolean)`: the content pillars. */
  function ParsePillars(text: string): (r: seq<string>)
    ensures forall i :: 0 <= i < |r| ==> r[i] != "" && ',' !in r[i]
    ensures forall i :: 0 <= i < |r| ==> !IsSpace(r[i][0]) && !IsSpace(r[i][|r[i]| - 1])
    ensures IsSubseq(r, TrimmedPieces(text))
    ensures forall i :: 0 <= i < |Split(text, ',')| && Trim(Split(text, ',')[i]) != "" ==>
      Trim(Split(text, ',')[i]) in r
  {
    var trimmed := TrimmedPieces(text);
    var r := Filter(trimmed, NonEmpty);
    assert forall i :: 0 <= i < |r| ==> PillarShaped(r[i]) by { TrimmedPiecesClean(text); }
    assert IsSubseq(r, trimmed) by { FilterIsSubseq(trimmed, NonEmpty); }
    r
  }

  /** Parsing keeps every non-blank piece as often as it occurs: `"a, a"` gives two
      pillars 'a', and blank pieces give none. */
  lemma PillarCounts(text: string)
    ensures forall p :: multiset(ParsePillars(text))[p] == if p != "" then multiset(TrimmedPieces(text))[p] else 0
  {
    FilterCounts(TrimmedPieces(text), NonEmpty);
  }

  /** What the 'Onboard Client' form collects (numbers already converted). */
  datatype ClientForm = ClientForm(
    name: string,
    revenueGate: int,
    tier: string,
    ltv: int,
    contractValue: int,
    phone: string,
    email: string,
    contactName: string,
    niche: string,
    shadowAvatar: string,
    bleedingNeck: string,
    contentPillars: string)

  /** `handleAddClient`'s record: the form's fields, pillars parsed, a new client's
      defaults, and the form's own start date (`now`'s date part). It carries no id:
      the empty `id` is a placeholder the store replaces. */
  function ClientFromForm(f: ClientForm, now: string): (c: Client)
    ensures c.status == Onboarding && c.relationshipHealth == Neutral
    ensures c.onboardingStatus == 0 && c.notes == ""
    ensures c.contentPillars == ParsePillars(f.contentPillars)
    ensures c.startDate == DatePart(now)
    ensures c.name == f.name && c.contactName == f.contactName && c.email == f.email
    ensures c.revenueGate == f.revenueGate && c.ltv == f.ltv && c.contractValue == f.contractValue
    ensures c.tier == f.tier && c.phone == f.phone && c.niche == f.niche
    ensures c.shadowAvatar == f.shadowAvatar && c.bleedingNeck == f.bleedingNeck
  {
    Client("", f.name, Onboarding, f.revenueGate, f.tier, f.ltv, f.contractValue, f.phone,
           f.email, f.contactName, f.niche, DatePart(now), f.shadowAvatar, f.bleedingNeck,
           ParsePillars(f.contentPillars), Neutral, 0, "")
  }

  /** Submitting the form: the appended client has the store's full timestamp as its
      start date (the form's date-only value is overwritten) and the new-client
      defaults. */
  lemma SubmitClientForm(s: Snapshot, f: ClientForm, formNow: string, freshId: string, storeNow: string)
    ensures var r := AddClient(s, ClientFromForm(f, formNow), freshId, storeNow);
      && |r.clients| == |s.clients| + 1
      && r.clients[|s.clients|].id == freshId
      && r.clients[|s.clients|].startDate == storeNow
      && r.clients[|s.clients|].status == Onboarding
      && r.clients[|s.clients|].relationshipHealth == Neutral
      && r.clients[|s.clients|].onboardingStatus == 0
      && r.clients[|s.clients|].notes == ""
      && r.clients[|s.clients|].contentPillars == ParsePillars(f.contentPillars)
  {
  }

  /** A client as the table and the detail panel show it to `role`: financial figures,
      e-mail and phone are present, and 'Terminate Contract' offered, only for the CEO. */
  datatype ClientView = ClientView(
    name: string,
    contactName: string,
    status: ClientStatus,
    niche: string,
    health: Health,
    contentPillars: seq<string>,
    revenueGate: Option<int>,
    ltv: Option<int>,
    contractValue: Option<int>,
    email: Option<string>,
    phone: Option<string>,
    canTerminate: bool)

  function ViewClient(role: Option<string>, c: Client): (v: ClientView)
    ensures v.canTerminate <==> IsCeo(role)
    ensures IsCeo(role) ==> (v.revenueGate == Some(c.revenueGate) && v.ltv == Some(c.ltv)
      && v.contractValue == Some(c.contractValue) && v.email == Some(c.email) && v.phone == Some(c.phone))
    ensures !IsCeo(role) ==> (v.revenueGate == None && v.ltv == None && v.contractValue == None
      && v.email == None && v.phone == None)
    ensures v.name == c.name && v.contactName == c.contactName && v.status == c.status
  {
    var ceo := IsCeo(role);
    ClientView(c.name, c.contactName, c.status, c.niche, c.relationshipHealth, c.contentPillars,
               if ceo then Some(c.revenueGate) else None,
               if ceo then Some(c.ltv) else None,
               if ceo then Some(c.contractValue) else None,
               if ceo then Some(c.email) else None,
               if ceo then Some(c.phone) else None,
               ceo)
  }

  /** A TEAM login, and any restored role other than exactly 'CEO', sees no figure,
      no contact detail and no delete action. */
  lemma NonCeoSeesNoFinancials(c: Client, saved: string)
    requires saved != "" && saved != CeoRole
    ensures var v := ViewClient(Login(Fresh(None), TeamPassphrase).gate.role, c);
            && v.revenueGate == None && v.ltv == None && v.contractValue == None
            && v.email == None && v.phone == None && !v.canTerminate
    ensures var v := ViewClient(Init(Fresh(Some(saved))).role, c);
            && v.revenueGate == None && v.ltv == None && v.contractValue == None
            && v.email == None && v.phone == None && !v.canTerminate
  {
  }
}

/** The knowledge vault (`components/knowledge-vault.tsx`): protocol search, the
    document count, and the record the 'New Protocol' form hands to `addProtocol`. */
module KnowledgeVault {
  import opened Seqs
  import opened Text
  import opened Entities
  import opened Store

  /** A protocol is kept when its title or its category's label contains the query,
      ignoring letter case. */
  predicate ProtocolMatches(p: Protocol, query: string) {
    MatchesQuery(p.title, query) || MatchesQuery(p.category.Label(), query)
  }

  /** `filteredProtocols`: the matching protocols, in store order. */
  function FilteredProtocols(protocols: seq<Protocol>, query: string): (r: seq<Protocol>)
    ensures forall i :: 0 <= i < |r| ==> r[i] in protocols && ProtocolMatches(r[i], query)
    ensures forall i :: 0 <= i < |protocols| && ProtocolMatches(protocols[i], query) ==> protocols[i] in r
    ensures IsSubseq(r, protocols)
  {
    var keep := (p: Protocol) => ProtocolMatches(p, query);
    FilterIsSubseq(protocols, keep);
    Filter(protocols, keep)
  }

  /** The search keeps each matching protocol exactly as often as it occurs. */
  lemma VaultSearchCounts(protocols: seq<Protocol>, query: string)
    ensures forall p :: multiset(FilteredProtocols(protocols, query))[p]
                     == if ProtocolMatches(p, query) then multiset(protocols)[p] else 0
  {
    FilterCounts(protocols, (p: Protocol) => ProtocolMatches(p, query));
  }

  /** The header's 'N Documents': the number of protocols the search keeps. */
  function DocumentCount(protocols: seq<Protocol>, query: string): (n: nat)
    ensures n <= |protocols|
  {
    |FilteredProtocols(protocols, query)|
  }

  /** The empty query keeps every protocol, so the count is the number of protocols. */
  lemma VaultEmptySearch(protocols: seq<Protocol>)
    ensures FilteredProtocols(protocols, "") == protocols
    ensures DocumentCount(protocols, "") == |protocols|
  {
    forall i | 0 <= i < |protocols| ensures ProtocolMatches(protocols[i], "") {
      MatchesQueryLaws(protocols[i].title, "");
    }
    FilterKeepsAll(protocols, (p: Protocol) => ProtocolMatches(p, ""));
  }

  /** The query's letter case never matters. */
  lemma VaultSearchIgnoresCase(protocols: seq<Protocol>, query: string)
    ensures FilteredProtocols(protocols, query) == FilteredProtocols(protocols, Lower(query))
  {
    forall i | 0 <= i < |protocols|
      ensures ProtocolMatches(protocols[i], query) == ProtocolMatches(protocols[i], Lower(query))
    {
      MatchesQueryLaws(protocols[i].title, query);
      MatchesQueryLaws(protocols[i].category.Label(), query);
    }
    FilterExt(protocols, (p: Protocol) => ProtocolMatches(p, query), (p: Protocol) => ProtocolMatches(p, Lower(query)));
  }

  /** A category search finds every protocol of that category: a query spelling a
      category's label, in any letter case (say 'legal'), keeps every protocol of it. */
  lemma CategorySearchFindsCategory(protocols: seq<Protocol>, c: Category, query: string)
    ensures Lower(query) == Lower(c.Label()) ==>
      forall i :: 0 <= i < |protocols| && protocols[i].category == c ==>
        protocols[i] in FilteredProtocols(protocols, query)
  {
    if Lower(query) == Lower(c.Label()) {
      var name := Lower(c.Label());
      assert Includes(name, name) by { assert name[..|name|] == name; }
      forall i | 0 <= i < |protocols| && protocols[i].category == c
        ensures ProtocolMatches(protocols[i], query)
      {
        assert MatchesQuery(protocols[i].category.Label(), query);
      }
    }
  }

  /** What the 'New Protocol' form collects. */
  datatype ProtocolForm = ProtocolForm(title: string, category: Category, pillar: string, content: string)

  /** `handleAddProtocol`'s record, dated with the form's own clock; the empty id is a
      placeholder the store replaces. */
  function ProtocolFromForm(f: ProtocolForm, now: string): (p: Protocol)
    ensures p.title == f.title && p.category == f.category && p.pillar == f.pillar && p.content == f.content
    ensures p.updatedAt == DatePart(now)
  {
    Protocol("", f.title, f.category, f.pillar, DatePart(now), f.content)
  }

  /** Submitting the form: the form's date is overridden by the store's, and the
      form's fields are kept. */
  lemma SubmitProtocolForm(s: Snapshot, f: ProtocolForm, formNow: string, freshId: string, storeNow: string)
    ensures var r := AddProtocol(s, ProtocolFromForm(f, formNow), freshId, storeNow);
      && r.protocols[|s.protocols|].updatedAt == DatePart(storeNow)
      && r.protocols[|s.protocols|].id == freshId
      && r.protocols[|s.protocols|].title == f.title
      && r.protocols[|s.protocols|].category == f.category
  {
  }
}

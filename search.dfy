/** The search filter and the counts a folder card shows. */
module Search {
  import opened Records
  import opened Seqs
  import opened Text

  /** The search predicate: the lowercased query occurs in the lowercased business
      name, contact details or problem description. */
  function Matches(query: string): Client -> bool {
    var q := Lower(query);
    (c: Client) =>
      || Contains(Lower(c.businessName), q)
      || Contains(Lower(c.contactDetails), q)
      || Contains(Lower(c.problemDescription), q)
  }

  /** filterClients: an empty query returns the list itself; otherwise the clients
      that match, every copy of each, in their original order. */
  function FilterClients(cs: seq<Client>, query: string): (r: seq<Client>)
    ensures query == "" ==> r == cs
    ensures IsSubsequence(r, cs)
    ensures forall c :: c in r <==> c in cs && Matches(query)(c)
    ensures forall c :: multiset(r)[c] == if Matches(query)(c) then multiset(cs)[c] else 0
  {
    if query == "" then
      assert Lower(query) == "";
      forall c | c in cs ensures Matches(query)(c) {
        ContainsEmpty(Lower(c.businessName));
      }
      IsSubsequenceRefl(cs);
      cs
    else
      FilterIsSubsequence(Matches(query), cs);
      forall c ensures c in Filter(Matches(query), cs) <==> c in cs && Matches(query)(c) {
        FilterMember(Matches(query), cs, c);
      }
      forall c ensures multiset(Filter(Matches(query), cs))[c] == if Matches(query)(c) then multiset(cs)[c] else 0 {
        FilterCount(Matches(query), cs, c);
      }
      Filter(Matches(query), cs)
  }

  lemma {:induction false} IsSubsequenceRefl<T>(s: seq<T>)
    ensures IsSubsequence(s, s)
  {
    if s != [] {
      IsSubsequenceRefl(s[1..]);
    }
  }

  /** The early return for an empty query agrees with the filter it skips. */
  lemma EmptyQueryKeepsEverything(cs: seq<Client>)
    ensures Filter(Matches(""), cs) == cs
  {
    forall k | 0 <= k < |cs| ensures Matches("")(cs[k]) {
      ContainsEmpty(Lower(cs[k].businessName));
    }
    FilterKeepsAll(Matches(""), cs);
  }

  /** Searching again with the same query changes nothing. */
  lemma FilterClientsIdempotent(cs: seq<Client>, query: string)
    ensures FilterClients(FilterClients(cs, query), query) == FilterClients(cs, query)
  {
    if query != "" {
      FilterIdempotent(Matches(query), cs);
    }
  }

  /** The search is case-insensitive in the query: a query and its lowercase form
      select the same clients. */
  lemma QueryCaseIrrelevant(cs: seq<Client>, query: string)
    ensures FilterClients(cs, Lower(query)) == FilterClients(cs, query)
  {
    LowerIdempotent(query);
    if query != "" {
      assert Lower(query) != "";
      forall k | 0 <= k < |cs| ensures Matches(Lower(query))(cs[k]) == Matches(query)(cs[k]) {
      }
      FilterAgrees(Matches(Lower(query)), Matches(query), cs);
    }
  }

  /** The result never lists more clients than the input. */
  lemma FilterClientsShrinks(cs: seq<Client>, query: string)
    ensures |FilterClients(cs, query)| <= |cs|
  {
  }

  /** A query in another case still finds a business by name: "acme" finds "Acme Corp". */
  lemma AcmeFound()
    ensures var acme := Client("1", "Acme Corp", "x", "y", 0);
      FilterClients([acme], "acme") == [acme]
  {
    var acme := Client("1", "Acme Corp", "x", "y", 0);
    assert Lower("Acme Corp")[..4] == "acme";
    assert Matches("acme")(acme);
    FilterKeepsAll(Matches("acme"), [acme]);
  }

  /** What a folder card derives from its folder and the search query. */
  datatype FolderView = FolderView(
    activeCount: nat,
    potentialCount: nat,
    total: nat,
    shownActive: seq<Client>,
    shownPotential: seq<Client>)

  /** FolderCard: the header counts and the total use the unfiltered lists, each
      section shows its own list filtered with the same query, so the section
      counts never exceed the header counts. */
  function ViewOf(f: Folder, query: string): (v: FolderView)
    ensures v.activeCount == |f.activeClients| && v.potentialCount == |f.potentialClients|
    ensures v.total == v.activeCount + v.potentialCount
    ensures v.shownActive == FilterClients(f.activeClients, query)
    ensures v.shownPotential == FilterClients(f.potentialClients, query)
    ensures |v.shownActive| <= v.activeCount && |v.shownPotential| <= v.potentialCount
    ensures query == "" ==> v.shownActive == f.activeClients && v.shownPotential == f.potentialClients
  {
    FolderView(|f.activeClients|, |f.potentialClients|, ClientCount(f),
      FilterClients(f.activeClients, query), FilterClients(f.potentialClients, query))
  }

  /** The two sections are filtered independently: what the active section shows
      depends on the active list and the query alone, whatever the other list holds,
      and the same holds for the potential section. */
  lemma SectionsIndependent(f: Folder, other: seq<Client>, query: string)
    ensures ViewOf(f.(potentialClients := other), query).shownActive == ViewOf(f, query).shownActive
    ensures ViewOf(f.(activeClients := other), query).shownPotential == ViewOf(f, query).shownPotential
  {
  }
}

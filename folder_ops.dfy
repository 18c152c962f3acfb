/** The pure folder-collection transformations that the App handlers hand to
    `setFolders`, and the store invariants they keep. */
module FolderOps {
  import opened Records
  import opened Seqs
  import opened Text

  // ------------------------------------------------------------------
  // The predicates the handlers pass to `find` and `filter`
  // ------------------------------------------------------------------

  function FolderIdIs(id: string): Folder -> bool {
    (f: Folder) => f.id == id
  }

  function FolderIdIsNot(id: string): Folder -> bool {
    (f: Folder) => f.id != id
  }

  function ClientIdIs(id: string): Client -> bool {
    (c: Client) => c.id == id
  }

  function ClientIdIsNot(id: string): Client -> bool {
    (c: Client) => c.id != id
  }

  function Unselected(sel: set<string>): Client -> bool {
    (c: Client) => c.id !in sel
  }

  // ------------------------------------------------------------------
  // Lookup
  // ------------------------------------------------------------------

  /** `folders.find((f) => f.id === id)`: the first folder with the id, if any. */
  function FindFolder(fs: seq<Folder>, id: string): (r: Option<Folder>)
    ensures r.None? <==> forall k :: 0 <= k < |fs| ==> fs[k].id != id
    ensures r.Some? ==> exists k ::
      && 0 <= k < |fs| && fs[k] == r.value && r.value.id == id
      && forall j :: 0 <= j < k ==> fs[j].id != id
  {
    match FirstIndex(FolderIdIs(id), fs)
    case None => None
    case Some(k) => Some(fs[k])
  }

  // ------------------------------------------------------------------
  // Folders
  // ------------------------------------------------------------------

  function NewFolder(id: string, name: string, now: int): Folder {
    Folder(id, name, [], [], now)
  }

  /** handleCreateFolder: one fresh, empty folder is appended. */
  function CreateFolder(fs: seq<Folder>, id: string, name: string, now: int): (r: seq<Folder>)
    ensures |r| == |fs| + 1 && r[..|fs|] == fs
    ensures r[|fs|].id == id && r[|fs|].name == name && r[|fs|].createdAt == now
    ensures r[|fs|].activeClients == [] && r[|fs|].potentialClients == []
  {
    fs + [NewFolder(id, name, now)]
  }

  /** Whether handleDeleteFolder goes on to remove anything: a folder with the id
      exists, and it is empty or the user confirmed. */
  predicate DeleteProceeds(fs: seq<Folder>, id: string, confirmed: bool) {
    match FindFolder(fs, id)
    case None => false
    case Some(f) => ClientCount(f) == 0 || confirmed
  }

  /** handleDeleteFolder; `confirmed` is the answer `window.confirm` would give,
      consulted only when the folder holds clients. */
  function DeleteFolder(fs: seq<Folder>, id: string, confirmed: bool): (r: seq<Folder>)
    ensures (forall k :: 0 <= k < |fs| ==> fs[k].id != id) ==> r == fs
    ensures !DeleteProceeds(fs, id, confirmed) ==> r == fs
    ensures DeleteProceeds(fs, id, confirmed) ==>
      && (forall k :: 0 <= k < |r| ==> r[k].id != id)
      && (forall g :: g in fs && g.id != id ==> g in r)
      && (forall g :: multiset(r)[g] == if g.id != id then multiset(fs)[g] else 0)
      && IsSubsequence(r, fs)
  {
    if DeleteProceeds(fs, id, confirmed) then
      var p := FolderIdIsNot(id);
      FilterIsSubsequence(p, fs);
      forall g | g in fs && g.id != id ensures g in Filter(p, fs) {
        FilterMember(p, fs, g);
      }
      forall g ensures multiset(Filter(p, fs))[g] == if g.id != id then multiset(fs)[g] else 0 {
        FilterCount(p, fs, g);
      }
      Filter(p, fs)
    else fs
  }

  // ------------------------------------------------------------------
  // Clients
  // ------------------------------------------------------------------

  /** `folders.map((folder) => folder.id === fid ? g(folder) : folder)`. */
  function UpdateFolders(fs: seq<Folder>, fid: string, g: Folder -> Folder): (r: seq<Folder>)
    ensures |r| == |fs|
  {
    seq(|fs|, k requires 0 <= k < |fs| => if fs[k].id == fid then g(fs[k]) else fs[k])
  }

  /** Same id, name and creation time. */
  predicate SameHeader(a: Folder, b: Folder) {
    a.id == b.id && a.name == b.name && a.createdAt == b.createdAt
  }

  /** The folder update of handleSubmitClient: `c` goes last in the list `t` names. */
  function AppendClient(f: Folder, t: ClientType, c: Client): (r: Folder)
    ensures SameHeader(r, f)
    ensures ClientsOf(r, t) == ClientsOf(f, t) + [c]
    ensures ClientsOf(r, Other(t)) == ClientsOf(f, Other(t))
  {
    WithClients(f, t, ClientsOf(f, t) + [c])
  }

  /** The body of handleSubmitClient once a folder and a list are chosen:
      `c` becomes the last element of the chosen list of every folder with that id. */
  function AddClient(fs: seq<Folder>, fid: string, t: ClientType, c: Client): (r: seq<Folder>)
    ensures |r| == |fs|
    ensures forall k :: 0 <= k < |fs| && fs[k].id != fid ==> r[k] == fs[k]
    ensures forall k :: 0 <= k < |fs| && fs[k].id == fid ==>
      && SameHeader(r[k], fs[k])
      && ClientsOf(r[k], t) == ClientsOf(fs[k], t) + [c]
      && ClientsOf(r[k], Other(t)) == ClientsOf(fs[k], Other(t))
  {
    UpdateFolders(fs, fid, (f: Folder) => AppendClient(f, t, c))
  }

  /** handleSubmitClient: a no-op unless a folder (a non-empty id string, as the
      source tests truthiness) and a list type are pending. */
  function SubmitClient(fs: seq<Folder>, pendingFolder: Option<string>, pendingType: Option<ClientType>,
                        data: ClientInput, id: string, now: int): (r: seq<Folder>)
    ensures pendingFolder.None? || pendingFolder == Some("") || pendingType.None? ==> r == fs
    ensures pendingFolder.Some? && pendingFolder.value != "" && pendingType.Some? ==>
      var c := Client(id, data.businessName, data.contactDetails, data.problemDescription, now);
      && |r| == |fs|
      && (forall k :: 0 <= k < |fs| && fs[k].id != pendingFolder.value ==> r[k] == fs[k])
      && (forall k :: 0 <= k < |fs| && fs[k].id == pendingFolder.value ==>
            && SameHeader(r[k], fs[k])
            && ClientsOf(r[k], pendingType.value) == ClientsOf(fs[k], pendingType.value) + [c]
            && ClientsOf(r[k], Other(pendingType.value)) == ClientsOf(fs[k], Other(pendingType.value)))
  {
    if pendingFolder.None? || pendingFolder.value == "" || pendingType.None? then fs
    else
      var c := Client(id, data.businessName, data.contactDetails, data.problemDescription, now);
      AddClient(fs, pendingFolder.value, pendingType.value, c)
  }

  /** `clients.filter((c) => c.id !== clientId)`. */
  function WithoutId(cs: seq<Client>, clientId: string): (r: seq<Client>)
    ensures forall j :: 0 <= j < |r| ==> r[j].id != clientId
    ensures forall c :: c in cs && c.id != clientId ==> c in r
    ensures forall c :: multiset(r)[c] == if c.id != clientId then multiset(cs)[c] else 0
    ensures IsSubsequence(r, cs)
  {
    var p := ClientIdIsNot(clientId);
    FilterIsSubsequence(p, cs);
    forall c | c in cs && c.id != clientId ensures c in Filter(p, cs) {
      FilterMember(p, cs, c);
    }
    forall c ensures multiset(Filter(p, cs))[c] == if c.id != clientId then multiset(cs)[c] else 0 {
      FilterCount(p, cs, c);
    }
    Filter(p, cs)
  }

  /** handleDeleteClient, folder part: only the named list of the named folder loses
      the entries with that id. */
  function DeleteClient(fs: seq<Folder>, fid: string, clientId: string, t: ClientType): (r: seq<Folder>)
    ensures |r| == |fs|
    ensures forall k :: 0 <= k < |fs| && fs[k].id != fid ==> r[k] == fs[k]
    ensures forall k :: 0 <= k < |fs| && fs[k].id == fid ==>
      && SameHeader(r[k], fs[k])
      && ClientsOf(r[k], Other(t)) == ClientsOf(fs[k], Other(t))
      && ClientsOf(r[k], t) == WithoutId(ClientsOf(fs[k], t), clientId)
  {
    UpdateFolders(fs, fid, (f: Folder) => WithClients(f, t, WithoutId(ClientsOf(f, t), clientId)))
  }

  /** The per-folder body of handlePromoteClient. */
  function PromoteIn(f: Folder, clientId: string): (r: Folder)
    ensures SameHeader(r, f)
    ensures (forall j :: 0 <= j < |f.potentialClients| ==> f.potentialClients[j].id != clientId) ==> r == f
  {
    match FirstIndex(ClientIdIs(clientId), f.potentialClients)
    case None => f
    case Some(k) =>
      f.(potentialClients := WithoutId(f.potentialClients, clientId),
         activeClients := f.activeClients + [f.potentialClients[k]])
  }

  /** Promotion appends the first potential client with the id, unchanged, to the
      active list, and drops every potential entry with that id. */
  lemma PromoteMovesFirstMatch(f: Folder, clientId: string, k: nat)
    requires k < |f.potentialClients| && f.potentialClients[k].id == clientId
    requires forall j :: 0 <= j < k ==> f.potentialClients[j].id != clientId
    ensures PromoteIn(f, clientId).activeClients == f.activeClients + [f.potentialClients[k]]
    ensures PromoteIn(f, clientId).potentialClients == WithoutId(f.potentialClients, clientId)
  {
  }

  /** handlePromoteClient. */
  function Promote(fs: seq<Folder>, fid: string, clientId: string): (r: seq<Folder>)
    ensures |r| == |fs|
    ensures forall k :: 0 <= k < |fs| && fs[k].id != fid ==> r[k] == fs[k]
    ensures forall k :: 0 <= k < |fs| && fs[k].id == fid ==> r[k] == PromoteIn(fs[k], clientId)
  {
    UpdateFolders(fs, fid, (f: Folder) => PromoteIn(f, clientId))
  }

  // ------------------------------------------------------------------
  // Selection
  // ------------------------------------------------------------------

  /** handleToggleClientSelection. */
  function Toggle(sel: set<string>, id: string): (r: set<string>)
    ensures id in r <==> id !in sel
    ensures forall x :: x != id ==> (x in r <==> x in sel)
  {
    if id in sel then sel - {id} else sel + {id}
  }

  lemma ToggleTwice(sel: set<string>, id: string)
    ensures Toggle(Toggle(sel, id), id) == sel
  {
  }

  /** Removal of the selected ids from one list, as bulk delete performs it: no
      selected id remains, every unselected client remains with all its copies,
      and the survivors keep their order. */
  lemma WithoutSelectedList(cs: seq<Client>, sel: set<string>)
    ensures var r := Filter(Unselected(sel), cs);
      && (forall j :: 0 <= j < |r| ==> r[j].id !in sel)
      && (forall c :: c in cs && c.id !in sel ==> c in r)
      && (forall c :: multiset(r)[c] == if c.id !in sel then multiset(cs)[c] else 0)
      && IsSubsequence(r, cs)
  {
    var p := Unselected(sel);
    FilterIsSubsequence(p, cs);
    forall c | c in cs && c.id !in sel ensures c in Filter(p, cs) {
      FilterMember(p, cs, c);
    }
    forall c ensures multiset(Filter(p, cs))[c] == if c.id !in sel then multiset(cs)[c] else 0 {
      FilterCount(p, cs, c);
    }
  }

  /** Both lists of `f` without the selected ids: the header is kept, and each list
      keeps exactly its unselected clients, every copy, in order. */
  function WithoutSelected(f: Folder, sel: set<string>): (r: Folder)
    ensures SameHeader(r, f)
    ensures forall j :: 0 <= j < |r.activeClients| ==> r.activeClients[j].id !in sel
    ensures forall j :: 0 <= j < |r.potentialClients| ==> r.potentialClients[j].id !in sel
    ensures forall c :: multiset(r.activeClients)[c] == if c.id !in sel then multiset(f.activeClients)[c] else 0
    ensures forall c :: multiset(r.potentialClients)[c] == if c.id !in sel then multiset(f.potentialClients)[c] else 0
    ensures IsSubsequence(r.activeClients, f.activeClients)
    ensures IsSubsequence(r.potentialClients, f.potentialClients)
  {
    var p := Unselected(sel);
    WithoutSelectedList(f.activeClients, sel);
    WithoutSelectedList(f.potentialClients, sel);
    f.(activeClients := Filter(p, f.activeClients), potentialClients := Filter(p, f.potentialClients))
  }

  /** handleDeleteSelected, folder part: nothing happens for an empty selection or a
      declined confirmation; otherwise every folder keeps its header and loses exactly
      the selected clients from both lists, the survivors keeping their order. */
  function DeleteSelected(fs: seq<Folder>, sel: set<string>, confirmed: bool): (r: seq<Folder>)
    ensures sel == {} || !confirmed ==> r == fs
    ensures |r| == |fs|
    ensures forall k :: 0 <= k < |fs| ==> SameHeader(r[k], fs[k])
    ensures sel != {} && confirmed ==> forall k :: 0 <= k < |fs| ==>
      && (forall j :: 0 <= j < |r[k].activeClients| ==> r[k].activeClients[j].id !in sel)
      && (forall j :: 0 <= j < |r[k].potentialClients| ==> r[k].potentialClients[j].id !in sel)
      && (forall c :: multiset(r[k].activeClients)[c] == if c.id !in sel then multiset(fs[k].activeClients)[c] else 0)
      && (forall c :: multiset(r[k].potentialClients)[c] == if c.id !in sel then multiset(fs[k].potentialClients)[c] else 0)
      && IsSubsequence(r[k].activeClients, fs[k].activeClients)
      && IsSubsequence(r[k].potentialClients, fs[k].potentialClients)
  {
    if sel == {} || !confirmed then fs
    else seq(|fs|, k requires 0 <= k < |fs| => WithoutSelected(fs[k], sel))
  }

  // ------------------------------------------------------------------
  // A session end to end
  // ------------------------------------------------------------------

  /** Create a folder, add A as active and B as potential, promote B, then select
      A and bulk-delete: A and B are active after the promotion, and B alone is
      left at the end. */
  lemma PromoteThenBulkDelete(a: ClientInput, b: ClientInput)
    ensures var fs0 := CreateFolder([], "f", "Leads", 0);
      var fs1 := SubmitClient(fs0, Some("f"), Some(Active), a, "A", 1);
      var fs2 := SubmitClient(fs1, Some("f"), Some(Potential), b, "B", 2);
      var fs3 := Promote(fs2, "f", "B");
      var fs4 := DeleteSelected(fs3, {"A"}, true);
      var ca := Client("A", a.businessName, a.contactDetails, a.problemDescription, 1);
      var cb := Client("B", b.businessName, b.contactDetails, b.problemDescription, 2);
      && fs3 == [Folder("f", "Leads", [ca, cb], [], 0)]
      && fs4 == [Folder("f", "Leads", [cb], [], 0)]
  {
    var ca := Client("A", a.businessName, a.contactDetails, a.problemDescription, 1);
    var cb := Client("B", b.businessName, b.contactDetails, b.problemDescription, 2);
    var fs0 := CreateFolder([], "f", "Leads", 0);
    assert fs0 == [Folder("f", "Leads", [], [], 0)];
    var fs1 := SubmitClient(fs0, Some("f"), Some(Active), a, "A", 1);
    assert |fs1| == 1 && fs1[0] == Folder("f", "Leads", [ca], [], 0);
    var fs2 := SubmitClient(fs1, Some("f"), Some(Potential), b, "B", 2);
    assert |fs2| == 1 && fs2[0] == Folder("f", "Leads", [ca], [cb], 0);
    assert fs2 == [Folder("f", "Leads", [ca], [cb], 0)];
    assert FirstIndex(ClientIdIs("B"), [cb]) == Some(0);
    assert WithoutId([cb], "B") == [];
    var fs3 := Promote(fs2, "f", "B");
    assert fs3[0] == PromoteIn(fs2[0], "B");
    assert [ca] + [cb] == [ca, cb];
    assert PromoteIn(fs2[0], "B") == Folder("f", "Leads", [ca, cb], [], 0);
    assert fs3 == [Folder("f", "Leads", [ca, cb], [], 0)];
    assert Filter(Unselected({"A"}), [ca, cb]) == [cb];
    assert Filter(Unselected({"A"}), []) == [];
  }
}

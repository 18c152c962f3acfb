/** The store invariants of the data model: folder ids are unique, every client id
    occurs once in the whole collection, and every name and text field is a
    trimmed non-empty string. The handlers do not check any of this; each lemma
    below says what a handler needs from its caller to keep them. */
module Invariants {
  import opened Records
  import opened Seqs
  import opened Text
  import opened FolderOps

  // ------------------------------------------------------------------
  // Definitions
  // ------------------------------------------------------------------

  ghost predicate UniqueFolderIds(fs: seq<Folder>) {
    forall i, j :: 0 <= i < j < |fs| ==> fs[i].id != fs[j].id
  }

  /** No folder carries the id `id` yet. */
  predicate FolderIdUnused(fs: seq<Folder>, id: string) {
    forall k :: 0 <= k < |fs| ==> fs[k].id != id
  }

  /** How many entries of a list carry the id `x`. */
  function ListCount(cs: seq<Client>, x: string): nat {
    if cs == [] then 0 else (if cs[0].id == x then 1 else 0) + ListCount(cs[1..], x)
  }

  function FolderCount(f: Folder, x: string): nat {
    ListCount(f.activeClients, x) + ListCount(f.potentialClients, x)
  }

  /** How many clients of the whole collection carry the id `x`. */
  function StoreCount(fs: seq<Folder>, x: string): nat {
    if fs == [] then 0 else FolderCount(fs[0], x) + StoreCount(fs[1..], x)
  }

  /** No client id occurs twice, in one list, across the two lists or across folders. */
  ghost predicate UniqueClientIds(fs: seq<Folder>) {
    forall x :: StoreCount(fs, x) <= 1
  }

  /** The three text fields are trimmed and non-empty, as the add-client dialog hands them on. */
  predicate InputValidated(d: ClientInput) {
    IsTrimmedNonEmpty(d.businessName) && IsTrimmedNonEmpty(d.contactDetails) && IsTrimmedNonEmpty(d.problemDescription)
  }

  predicate ClientValidated(c: Client) {
    InputValidated(ClientInput(c.businessName, c.contactDetails, c.problemDescription))
  }

  predicate ListValidated(cs: seq<Client>) {
    forall j :: 0 <= j < |cs| ==> ClientValidated(cs[j])
  }

  predicate FolderValidated(f: Folder) {
    IsTrimmedNonEmpty(f.name) && ListValidated(f.activeClients) && ListValidated(f.potentialClients)
  }

  predicate Validated(fs: seq<Folder>) {
    forall k :: 0 <= k < |fs| ==> FolderValidated(fs[k])
  }

  ghost predicate Consistent(fs: seq<Folder>) {
    UniqueFolderIds(fs) && UniqueClientIds(fs) && Validated(fs)
  }

  // ------------------------------------------------------------------
  // Counting ids
  // ------------------------------------------------------------------

  lemma {:induction false} ListCountConcat(a: seq<Client>, b: seq<Client>, x: string)
    ensures ListCount(a + b, x) == ListCount(a, x) + ListCount(b, x)
  {
    if a == [] {
      assert a + b == b;
    } else {
      assert (a + b)[1..] == a[1..] + b;
      ListCountConcat(a[1..], b, x);
    }
  }

  /** An id with count zero belongs to no entry of the list. */
  lemma {:induction false} ListCountAbsent(cs: seq<Client>, x: string)
    requires ListCount(cs, x) == 0
    ensures forall j :: 0 <= j < |cs| ==> cs[j].id != x
  {
    if cs != [] {
      ListCountAbsent(cs[1..], x);
      forall j | 0 <= j < |cs| ensures cs[j].id != x {
        if j > 0 {
          assert cs[j] == cs[1..][j - 1];
        }
      }
    }
  }

  /** An id with a positive count belongs to some entry; the first such is returned. */
  lemma {:induction false} FirstWithId(cs: seq<Client>, x: string) returns (k: nat)
    requires ListCount(cs, x) > 0
    ensures k < |cs| && cs[k].id == x
    ensures forall j :: 0 <= j < k ==> cs[j].id != x
  {
    if cs[0].id == x {
      k := 0;
    } else {
      var k' := FirstWithId(cs[1..], x);
      k := k' + 1;
      forall j | 0 <= j < k ensures cs[j].id != x {
        if j > 0 {
          assert cs[j] == cs[1..][j - 1];
        }
      }
    }
  }

  /** An entry's id is counted. */
  lemma {:induction false} ListCountPresent(cs: seq<Client>, j: nat)
    requires j < |cs|
    ensures ListCount(cs, cs[j].id) >= 1
  {
    if j > 0 {
      ListCountPresent(cs[1..], j - 1);
      assert cs[1..][j - 1] == cs[j];
    }
  }

  /** An id counted once is carried by exactly one entry. */
  lemma {:induction false} UniqueIdAt(cs: seq<Client>, j: nat)
    requires j < |cs| && ListCount(cs, cs[j].id) == 1
    ensures forall i :: 0 <= i < |cs| && i != j ==> cs[i].id != cs[j].id
  {
    var x := cs[j].id;
    if j == 0 {
      ListCountAbsent(cs[1..], x);
      assert forall i :: 0 < i < |cs| ==> cs[i] == cs[1..][i - 1];
    } else {
      assert cs[1..][j - 1] == cs[j];
      ListCountPresent(cs[1..], j - 1);
      UniqueIdAt(cs[1..], j - 1);
      assert forall i :: 0 < i < |cs| ==> cs[i] == cs[1..][i - 1];
    }
  }

  /** Removing every entry with id `id` zeroes its count and leaves the others alone. */
  lemma {:induction false} ListCountWithout(cs: seq<Client>, id: string, x: string)
    ensures ListCount(WithoutId(cs, id), x) == if x == id then 0 else ListCount(cs, x)
  {
    if cs != [] {
      ListCountWithout(cs[1..], id, x);
    }
  }

  lemma {:induction false} ListCountFilter(p: Client -> bool, cs: seq<Client>, x: string)
    ensures ListCount(Filter(p, cs), x) <= ListCount(cs, x)
  {
    if cs != [] {
      ListCountFilter(p, cs[1..], x);
    }
  }

  /** Under a unique occurrence, removing by id shortens the list by exactly one. */
  lemma {:induction false} WithoutUniqueId(cs: seq<Client>, x: string)
    requires ListCount(cs, x) == 1
    ensures |WithoutId(cs, x)| == |cs| - 1
  {
    if cs[0].id == x {
      ListCountAbsent(cs[1..], x);
      FilterKeepsAll(ClientIdIsNot(x), cs[1..]);
    } else {
      WithoutUniqueId(cs[1..], x);
    }
  }

  lemma {:induction false} StoreCountCoverFolder(fs: seq<Folder>, k: nat, x: string)
    requires k < |fs|
    ensures FolderCount(fs[k], x) <= StoreCount(fs, x)
  {
    if k > 0 {
      StoreCountCoverFolder(fs[1..], k - 1, x);
    }
  }

  /** Replacing folder `k` changes the collection's count by what folder `k`'s count changed. */
  lemma {:induction false} StoreCountReplace(fs: seq<Folder>, r: seq<Folder>, k: nat, x: string)
    requires |r| == |fs| && k < |fs|
    requires forall i :: 0 <= i < |fs| && i != k ==> r[i] == fs[i]
    ensures StoreCount(r, x) + FolderCount(fs[k], x) == StoreCount(fs, x) + FolderCount(r[k], x)
  {
    if k == 0 {
      assert r[1..] == fs[1..];
    } else {
      var fs', r' := fs[1..], r[1..];
      assert r[0] == fs[0];
      forall i | 0 <= i < |fs'| && i != k - 1 ensures r'[i] == fs'[i] {
        assert r[i + 1] == fs[i + 1];
      }
      StoreCountReplace(fs', r', k - 1, x);
    }
  }

  /** Dropping folder `k` takes exactly its clients out of the count. */
  lemma {:induction false} StoreCountRemoveAt(fs: seq<Folder>, k: nat, x: string)
    requires k < |fs|
    ensures StoreCount(fs[..k] + fs[k + 1..], x) + FolderCount(fs[k], x) == StoreCount(fs, x)
  {
    if k == 0 {
      assert fs[..0] + fs[1..] == fs[1..];
    } else {
      var fs' := fs[1..];
      assert fs[..k] + fs[k + 1..] == [fs[0]] + (fs'[..k - 1] + fs'[k..]);
      StoreCountRemoveAt(fs', k - 1, x);
    }
  }

  /** If no folder's count of `x` grows, the collection's does not. */
  lemma {:induction false} StoreCountShrink(fs: seq<Folder>, r: seq<Folder>, x: string)
    requires |r| == |fs|
    requires forall k :: 0 <= k < |fs| ==> FolderCount(r[k], x) <= FolderCount(fs[k], x)
    ensures StoreCount(r, x) <= StoreCount(fs, x)
  {
    if fs != [] {
      StoreCountShrink(fs[1..], r[1..], x);
    }
  }

  /** A client id occurring once in the collection occurs at most once in each list. */
  lemma UniqueInList(fs: seq<Folder>, k: nat, x: string)
    requires UniqueClientIds(fs) && k < |fs|
    ensures ListCount(fs[k].potentialClients, x) <= 1 && ListCount(fs[k].activeClients, x) <= 1
  {
    StoreCountCoverFolder(fs, k, x);
  }

  // ------------------------------------------------------------------
  // Pointwise arguments
  // ------------------------------------------------------------------

  lemma SameIdsKeepUnique(fs: seq<Folder>, r: seq<Folder>)
    requires UniqueFolderIds(fs) && |r| == |fs|
    requires forall k :: 0 <= k < |fs| ==> r[k].id == fs[k].id
    ensures UniqueFolderIds(r)
  {
  }

  lemma CountsShrinkKeepUnique(fs: seq<Folder>, r: seq<Folder>)
    requires UniqueClientIds(fs) && |r| == |fs|
    requires forall k, x :: 0 <= k < |fs| ==> FolderCount(r[k], x) <= FolderCount(fs[k], x)
    ensures UniqueClientIds(r)
  {
    forall x ensures StoreCount(r, x) <= 1 {
      StoreCountShrink(fs, r, x);
    }
  }

  lemma ListValidatedFilter(p: Client -> bool, cs: seq<Client>)
    requires ListValidated(cs)
    ensures ListValidated(Filter(p, cs))
  {
    FilterPreserves(p, ClientValidated, cs);
  }

  // ------------------------------------------------------------------
  // Per-folder facts
  // ------------------------------------------------------------------

  /** Promotion never adds a client id: the entry appended to the active list is
      one of those dropped from the potential list. */
  lemma PromoteCountShrinks(f: Folder, clientId: string, x: string)
    ensures FolderCount(PromoteIn(f, clientId), x) <= FolderCount(f, x)
  {
    match FirstIndex(ClientIdIs(clientId), f.potentialClients)
    case None =>
    case Some(k) =>
      var p := f.potentialClients;
      ListCountConcat(f.activeClients, [p[k]], x);
      ListCountWithout(p, clientId, x);
      ListCountPresent(p, k);
  }

  lemma PromoteKeepsValidated(f: Folder, clientId: string)
    requires FolderValidated(f)
    ensures FolderValidated(PromoteIn(f, clientId))
  {
    match FirstIndex(ClientIdIs(clientId), f.potentialClients)
    case None =>
    case Some(k) =>
      ListValidatedFilter(ClientIdIsNot(clientId), f.potentialClients);
      assert ClientValidated(f.potentialClients[k]);
  }

  /** With a unique id, promotion moves exactly one client: the potential list
      shrinks by one, the active list grows by one, and no id is lost or gained. */
  lemma PromoteMovesOne(f: Folder, clientId: string)
    requires ListCount(f.potentialClients, clientId) == 1
    ensures |PromoteIn(f, clientId).potentialClients| == |f.potentialClients| - 1
    ensures |PromoteIn(f, clientId).activeClients| == |f.activeClients| + 1
    ensures forall x :: FolderCount(PromoteIn(f, clientId), x) == FolderCount(f, x)
  {
    var p := f.potentialClients;
    var k := FirstWithId(p, clientId);
    assert FirstIndex(ClientIdIs(clientId), p) == Some(k);
    WithoutUniqueId(p, clientId);
    forall x ensures FolderCount(PromoteIn(f, clientId), x) == FolderCount(f, x) {
      ListCountConcat(f.activeClients, [p[k]], x);
      ListCountWithout(p, clientId, x);
    }
  }

  // ------------------------------------------------------------------
  // Preservation, one lemma per handler
  // ------------------------------------------------------------------

  /** Creating a folder keeps the invariants when its id is fresh and its name is
      what the create-folder dialog passes on. */
  lemma CreateFolderKeepsConsistent(fs: seq<Folder>, id: string, name: string, now: int)
    requires Consistent(fs)
    requires FolderIdUnused(fs, id)
    requires IsTrimmedNonEmpty(name)
    ensures Consistent(CreateFolder(fs, id, name, now))
  {
    var nf := NewFolder(id, name, now);
    var r := fs + [nf];
    assert forall i :: 0 <= i < |fs| ==> r[i] == fs[i];
    forall x ensures StoreCount(r, x) <= 1 {
      StoreCountRemoveAt(r, |fs|, x);
      assert r[..|fs|] + r[|fs| + 1..] == fs;
    }
    ValidatedAppend(fs, nf);
  }

  lemma ValidatedAppend(fs: seq<Folder>, f: Folder)
    requires Validated(fs) && FolderValidated(f)
    ensures Validated(fs + [f])
  {
    var r := fs + [f];
    forall k | 0 <= k < |r| ensures FolderValidated(r[k]) {
      if k < |fs| {
        assert r[k] == fs[k];
      }
    }
  }

  /** Under unique folder ids, filtering out the id of folder `k` removes folder `k` alone. */
  lemma {:induction false} FilterRemovesAt(fs: seq<Folder>, k: nat)
    requires UniqueFolderIds(fs) && k < |fs|
    ensures Filter(FolderIdIsNot(fs[k].id), fs) == fs[..k] + fs[k + 1..]
  {
    var p := FolderIdIsNot(fs[k].id);
    var tail := fs[1..];
    if k == 0 {
      assert forall i :: 0 <= i < |tail| ==> tail[i] == fs[i + 1];
      FilterKeepsAll(p, tail);
      assert fs[..0] + fs[1..] == tail;
    } else {
      assert tail[k - 1] == fs[k];
      FilterRemovesAt(tail, k - 1);
      assert fs[..k] + fs[k + 1..] == [fs[0]] + (tail[..k - 1] + tail[k..]);
    }
  }

  lemma RemoveAtKeepsConsistent(fs: seq<Folder>, k: nat)
    requires Consistent(fs) && k < |fs|
    ensures Consistent(fs[..k] + fs[k + 1..])
  {
    var r := fs[..k] + fs[k + 1..];
    assert forall i :: 0 <= i < |r| ==> r[i] == fs[if i < k then i else i + 1];
    forall x ensures StoreCount(r, x) <= 1 {
      StoreCountRemoveAt(fs, k, x);
    }
  }

  lemma DeleteFolderKeepsConsistent(fs: seq<Folder>, id: string, confirmed: bool)
    requires Consistent(fs)
    ensures Consistent(DeleteFolder(fs, id, confirmed))
  {
    if DeleteProceeds(fs, id, confirmed) {
      var k := FirstIndex(FolderIdIs(id), fs).value;
      FilterRemovesAt(fs, k);
      RemoveAtKeepsConsistent(fs, k);
    }
  }

  /** Deleting a folder under unique folder ids removes that folder alone, and with
      it exactly the clients it held. */
  lemma DeleteFolderRemovesItsClients(fs: seq<Folder>, k: nat, confirmed: bool, x: string)
    requires UniqueFolderIds(fs) && k < |fs|
    requires ClientCount(fs[k]) == 0 || confirmed
    ensures DeleteFolder(fs, fs[k].id, confirmed) == fs[..k] + fs[k + 1..]
    ensures StoreCount(DeleteFolder(fs, fs[k].id, confirmed), x) + FolderCount(fs[k], x) == StoreCount(fs, x)
  {
    assert FirstIndex(FolderIdIs(fs[k].id), fs) == Some(k);
    FilterRemovesAt(fs, k);
    StoreCountRemoveAt(fs, k, x);
  }

  /** Appending `c` to one list of folder `k` adds one entry with `c`'s id and
      nothing else. */
  lemma AppendAtCounts(fs: seq<Folder>, r: seq<Folder>, k: nat, t: ClientType, c: Client, x: string)
    requires |r| == |fs| && k < |fs|
    requires forall i :: 0 <= i < |fs| && i != k ==> r[i] == fs[i]
    requires r[k] == AppendClient(fs[k], t, c)
    ensures StoreCount(r, x) == StoreCount(fs, x) + (if x == c.id then 1 else 0)
  {
    StoreCountReplace(fs, r, k, x);
    ListCountConcat(ClientsOf(fs[k], t), [c], x);
    match t
    case Active =>
    case Potential =>
  }

  /** Appending a validated client to one list of folder `k` keeps every folder validated. */
  lemma AppendAtValidated(fs: seq<Folder>, r: seq<Folder>, k: nat, t: ClientType, c: Client)
    requires Validated(fs) && ClientValidated(c)
    requires |r| == |fs| && k < |fs|
    requires forall i :: 0 <= i < |fs| && i != k ==> r[i] == fs[i]
    requires r[k] == AppendClient(fs[k], t, c)
    ensures Validated(r)
  {
    assert ListValidated(ClientsOf(fs[k], t) + [c]) by {
      assert ListValidated(ClientsOf(fs[k], t)) by {
        match t
        case Active =>
        case Potential =>
      }
    }
    assert FolderValidated(r[k]) by {
      match t
      case Active =>
      case Potential =>
    }
    forall i | 0 <= i < |r| ensures FolderValidated(r[i]) {
      if i != k {
        assert r[i] == fs[i];
      }
    }
  }

  /** Submitting a client keeps the invariants when its id is fresh and its fields
      are what the add-client dialog passes on. */
  lemma SubmitClientKeepsConsistent(fs: seq<Folder>, pendingFolder: Option<string>, pendingType: Option<ClientType>,
                                    data: ClientInput, id: string, now: int)
    requires Consistent(fs)
    requires StoreCount(fs, id) == 0
    requires InputValidated(data)
    ensures Consistent(SubmitClient(fs, pendingFolder, pendingType, data, id, now))
  {
    var r := SubmitClient(fs, pendingFolder, pendingType, data, id, now);
    if pendingFolder.Some? && pendingFolder.value != "" && pendingType.Some? {
      var fid, t := pendingFolder.value, pendingType.value;
      var c := Client(id, data.businessName, data.contactDetails, data.problemDescription, now);
      assert r == AddClient(fs, fid, t, c);
      if k :| 0 <= k < |fs| && fs[k].id == fid {
        forall i | 0 <= i < |fs| && i != k ensures r[i] == fs[i] {
          assert fs[i].id != fid;
        }
        assert r[k] == AppendClient(fs[k], t, c) by {
          match t
          case Active =>
          case Potential =>
        }
        forall x ensures StoreCount(r, x) <= 1 {
          AppendAtCounts(fs, r, k, t, c, x);
        }
        AppendAtValidated(fs, r, k, t, c);
      } else {
        assert r == fs;
      }
    }
  }


  lemma DeleteClientKeepsConsistent(fs: seq<Folder>, fid: string, clientId: string, t: ClientType)
    requires Consistent(fs)
    ensures Consistent(DeleteClient(fs, fid, clientId, t))
  {
    var r := DeleteClient(fs, fid, clientId, t);
    forall k, x | 0 <= k < |fs| ensures FolderCount(r[k], x) <= FolderCount(fs[k], x) {
      if fs[k].id == fid {
        ListCountFilter(ClientIdIsNot(clientId), ClientsOf(fs[k], t), x);
        match t
        case Active =>
        case Potential =>
      }
    }
    forall k | 0 <= k < |fs| ensures FolderValidated(r[k]) {
      if fs[k].id == fid {
        ListValidatedFilter(ClientIdIsNot(clientId), ClientsOf(fs[k], t));
        match t
        case Active =>
        case Potential =>
      }
    }
    SameIdsKeepUnique(fs, r);
    CountsShrinkKeepUnique(fs, r);
  }

  lemma PromoteKeepsConsistent(fs: seq<Folder>, fid: string, clientId: string)
    requires Consistent(fs)
    ensures Consistent(Promote(fs, fid, clientId))
  {
    var r := Promote(fs, fid, clientId);
    forall k, x | 0 <= k < |fs| ensures FolderCount(r[k], x) <= FolderCount(fs[k], x) {
      if fs[k].id == fid {
        PromoteCountShrinks(fs[k], clientId, x);
      }
    }
    forall k | 0 <= k < |fs| ensures FolderValidated(r[k]) {
      if fs[k].id == fid {
        PromoteKeepsValidated(fs[k], clientId);
      }
    }
    SameIdsKeepUnique(fs, r);
    CountsShrinkKeepUnique(fs, r);
  }

  /** With unique ids, promoting a client that is in the named folder's potential
      list moves it from one list to the other and leaves every id count as it was. */
  lemma PromoteKeepsClients(fs: seq<Folder>, k: nat, j: nat)
    requires Consistent(fs) && k < |fs| && j < |fs[k].potentialClients|
    ensures var r := Promote(fs, fs[k].id, fs[k].potentialClients[j].id);
      && |r[k].potentialClients| == |fs[k].potentialClients| - 1
      && |r[k].activeClients| == |fs[k].activeClients| + 1
      && r[k].activeClients[|fs[k].activeClients|] == fs[k].potentialClients[j]
      && forall x :: StoreCount(r, x) == StoreCount(fs, x)
  {
    var pot := fs[k].potentialClients;
    var clientId := pot[j].id;
    var r := Promote(fs, fs[k].id, clientId);
    ListCountPresent(pot, j);
    UniqueInList(fs, k, clientId);
    PromoteMovesOne(fs[k], clientId);
    UniqueIdAt(pot, j);
    assert FirstIndex(ClientIdIs(clientId), pot) == Some(j);
    forall i | 0 <= i < |fs| && i != k ensures r[i] == fs[i] {
      assert fs[i].id != fs[k].id;
    }
    forall x ensures StoreCount(r, x) == StoreCount(fs, x) {
      StoreCountReplace(fs, r, k, x);
    }
  }

  lemma DeleteSelectedKeepsConsistent(fs: seq<Folder>, sel: set<string>, confirmed: bool)
    requires Consistent(fs)
    ensures Consistent(DeleteSelected(fs, sel, confirmed))
  {
    var r := DeleteSelected(fs, sel, confirmed);
    if sel != {} && confirmed {
      var p := Unselected(sel);
      forall k, x | 0 <= k < |fs| ensures FolderCount(r[k], x) <= FolderCount(fs[k], x) {
        ListCountFilter(p, fs[k].activeClients, x);
        ListCountFilter(p, fs[k].potentialClients, x);
      }
      forall k | 0 <= k < |fs| ensures FolderValidated(r[k]) {
        ListValidatedFilter(p, fs[k].activeClients);
        ListValidatedFilter(p, fs[k].potentialClients);
      }
      SameIdsKeepUnique(fs, r);
      CountsShrinkKeepUnique(fs, r);
    }
  }
}

/** The figures the analytics dashboard derives from the folder list. */
module Analytics {
  import opened Records
  import opened Seqs

  /** `folders.flatMap(f => f.activeClients)`. */
  function AllActive(fs: seq<Folder>): seq<Client> {
    if fs == [] then [] else fs[0].activeClients + AllActive(fs[1..])
  }

  /** `folders.flatMap(f => f.potentialClients)`. */
  function AllPotential(fs: seq<Folder>): seq<Client> {
    if fs == [] then [] else fs[0].potentialClients + AllPotential(fs[1..])
  }

  /** The number of clients in every folder together, counted folder by folder. */
  function SumOfCounts(fs: seq<Folder>): nat {
    if fs == [] then 0 else ClientCount(fs[0]) + SumOfCounts(fs[1..])
  }

  /** The "Total Clients" card. */
  function TotalClients(fs: seq<Folder>): nat {
    |AllActive(fs)| + |AllPotential(fs)|
  }

  /** The total on the dashboard is the sum of the counts the folder cards show. */
  lemma {:induction false} TotalIsSumOfCounts(fs: seq<Folder>)
    ensures TotalClients(fs) == SumOfCounts(fs)
  {
    if fs != [] {
      TotalIsSumOfCounts(fs[1..]);
    }
  }

  /** The sizes of the folders' active lists, added up folder by folder. */
  function SumOfActive(fs: seq<Folder>): nat {
    if fs == [] then 0 else |fs[0].activeClients| + SumOfActive(fs[1..])
  }

  /** The sizes of the folders' potential lists, added up folder by folder. */
  function SumOfPotential(fs: seq<Folder>): nat {
    if fs == [] then 0 else |fs[0].potentialClients| + SumOfPotential(fs[1..])
  }

  /** There are as many active clients as the folders' active lists hold together. */
  lemma {:induction false} ActiveIsSumOfLists(fs: seq<Folder>)
    ensures |AllActive(fs)| == SumOfActive(fs)
  {
    if fs != [] {
      ActiveIsSumOfLists(fs[1..]);
    }
  }

  /** There are as many potential clients as the folders' potential lists hold together. */
  lemma {:induction false} PotentialIsSumOfLists(fs: seq<Folder>)
    ensures |AllPotential(fs)| == SumOfPotential(fs)
  {
    if fs != [] {
      PotentialIsSumOfLists(fs[1..]);
    }
  }

  /** A client is among all active clients exactly when some folder lists it as active. */
  lemma {:induction false} AllActiveMember(fs: seq<Folder>, c: Client)
    ensures c in AllActive(fs) <==> exists k :: 0 <= k < |fs| && c in fs[k].activeClients
  {
    if fs != [] {
      AllActiveMember(fs[1..], c);
      if c in AllActive(fs[1..]) {
        var k :| 0 <= k < |fs[1..]| && c in fs[1..][k].activeClients;
        assert fs[k + 1] == fs[1..][k];
      }
      if exists k :: 0 <= k < |fs| && c in fs[k].activeClients {
        var k :| 0 <= k < |fs| && c in fs[k].activeClients;
        if k > 0 {
          assert fs[1..][k - 1] == fs[k];
        }
      }
    }
  }

  /** A client is among all potential clients exactly when some folder lists it as potential. */
  lemma {:induction false} AllPotentialMember(fs: seq<Folder>, c: Client)
    ensures c in AllPotential(fs) <==> exists k :: 0 <= k < |fs| && c in fs[k].potentialClients
  {
    if fs != [] {
      AllPotentialMember(fs[1..], c);
      if c in AllPotential(fs[1..]) {
        var k :| 0 <= k < |fs[1..]| && c in fs[1..][k].potentialClients;
        assert fs[k + 1] == fs[1..][k];
      }
      if exists k :: 0 <= k < |fs| && c in fs[k].potentialClients {
        var k :| 0 <= k < |fs| && c in fs[k].potentialClients;
        if k > 0 {
          assert fs[1..][k - 1] == fs[k];
        }
      }
    }
  }

  /** One bar of a chart: its label and the number of clients it stands for. */
  datatype Bar = Bar(name: string, clients: nat)

  /** The client-distribution chart: an "Active" bar for the active clients of all
      folders and a "Potential" bar for the potential ones, which together account
      for every client. */
  function Distribution(fs: seq<Folder>): (r: seq<Bar>)
    ensures |r| == 2 && r[0].name == "Active" && r[1].name == "Potential"
    ensures r[0].clients == |AllActive(fs)| == SumOfActive(fs)
    ensures r[1].clients == |AllPotential(fs)| == SumOfPotential(fs)
    ensures r[0].clients + r[1].clients == TotalClients(fs)
  {
    ActiveIsSumOfLists(fs);
    PotentialIsSumOfLists(fs);
    [Bar("Active", |AllActive(fs)|), Bar("Potential", |AllPotential(fs)|)]
  }

  /** The folder-breakdown chart label: a name longer than 15 characters keeps its
      first 15 and gets "..." appended; shorter names are shown unchanged. */
  function ChartLabel(name: string): (r: string)
    ensures |r| <= 18
    ensures |name| <= 15 ==> r == name
    ensures |name| > 15 ==> |r| == 18 && r[..15] == name[..15] && r[15..] == "..."
  {
    if |name| > 15 then name[..15] + "..." else name
  }

  /** A label is its own label: shortening an already shortened name keeps it. */
  lemma ChartLabelIdempotent(name: string)
    ensures ChartLabel(ChartLabel(name)) == ChartLabel(name)
  {
    if |name| > 15 {
      var r := ChartLabel(name);
      assert r[..15] == name[..15];
      assert ChartLabel(r) == r[..15] + "...";
    }
  }

  /** One row of the folder-breakdown chart. */
  datatype FolderRow = FolderRow(name: string, active: nat, potential: nat)

  /** The folder-breakdown chart: one row per folder, in folder order, with the
      folder's label and the sizes of its two lists. */
  function Breakdown(fs: seq<Folder>): (r: seq<FolderRow>)
    ensures |r| == |fs|
    ensures forall k :: 0 <= k < |fs| ==>
      r[k] == FolderRow(ChartLabel(fs[k].name), |fs[k].activeClients|, |fs[k].potentialClients|)
  {
    seq(|fs|, k requires 0 <= k < |fs| =>
      FolderRow(ChartLabel(fs[k].name), |fs[k].activeClients|, |fs[k].potentialClients|))
  }

  /** Active plus potential over all the rows of a breakdown. */
  function RowsTotal(rows: seq<FolderRow>): nat {
    if rows == [] then 0 else rows[0].active + rows[0].potential + RowsTotal(rows[1..])
  }

  /** The breakdown chart accounts for every client exactly once. */
  lemma {:induction false} BreakdownAccountsForAll(fs: seq<Folder>)
    ensures RowsTotal(Breakdown(fs)) == TotalClients(fs)
  {
    if fs != [] {
      BreakdownAccountsForAll(fs[1..]);
      assert Breakdown(fs)[1..] == Breakdown(fs[1..]);
    }
  }

  /** `Math.round(a / b)` for non-negative integers: the nearest integer, halves
      rounded up. */
  function RoundedQuotient(a: nat, b: nat): (r: nat)
    requires b > 0
    ensures 2 * b * r <= 2 * a + b < 2 * b * (r + 1)
  {
    var q := (2 * a + b) / (2 * b);
    assert 2 * a + b == 2 * b * q + (2 * a + b) % (2 * b);
    q
  }

  /** Rounding keeps a quotient within a bound the exact quotient respects. */
  lemma QuotientAtMost(a: nat, b: nat, m: nat)
    requires b > 0 && a <= m * b
    ensures RoundedQuotient(a, b) <= m
  {
    var r := RoundedQuotient(a, b);
    assert 2 * b * r < 2 * b * (m + 1) by {
      assert 2 * a + b <= 2 * (m * b) + b;
      assert 2 * (m * b) + b < 2 * b * (m + 1);
    }
    if r > m {
      assert r >= m + 1;
      MonotoneProduct(2 * b, m + 1, r);
    }
  }

  lemma MonotoneProduct(x: nat, y: nat, z: nat)
    requires y <= z
    ensures x * y <= x * z
  {
  }

  /** The "Conversion Rate" figure: the share of active clients as a whole
      percentage, and 0 when there are no clients at all. */
  function ConversionRate(fs: seq<Folder>): (r: nat)
    ensures TotalClients(fs) == 0 ==> r == 0
    ensures TotalClients(fs) > 0 ==>
      2 * TotalClients(fs) * r <= 200 * |AllActive(fs)| + TotalClients(fs) < 2 * TotalClients(fs) * (r + 1)
    ensures r <= 100
  {
    var total := TotalClients(fs);
    if total > 0 then
      QuotientAtMost(100 * |AllActive(fs)|, total, 100);
      RoundedQuotient(100 * |AllActive(fs)|, total)
    else
      0
  }

  /** The "Avg Clients per Folder" figure: clients per folder rounded to the
      nearest integer, and 0 when there are no folders. */
  function AveragePerFolder(fs: seq<Folder>): (r: nat)
    ensures fs == [] ==> r == 0
    ensures fs != [] ==> 2 * |fs| * r <= 2 * TotalClients(fs) + |fs| < 2 * |fs| * (r + 1)
  {
    if |fs| > 0 then RoundedQuotient(TotalClients(fs), |fs|) else 0
  }

  /** The reduce behind "Most Populated Folder", over indices: `best` is the
      accumulator and the folders from `i` on are still to be visited. A folder
      replaces the accumulator only when it holds strictly more clients. */
  function LargestFrom(fs: seq<Folder>, best: nat, i: nat): (r: nat)
    requires best < i <= |fs|
    ensures best <= r < |fs| && (r == best || i <= r)
    ensures ClientCount(fs[best]) <= ClientCount(fs[r])
    ensures forall j :: i <= j < |fs| ==> ClientCount(fs[j]) <= ClientCount(fs[r])
    ensures forall j :: i <= j < r ==> ClientCount(fs[j]) < ClientCount(fs[r])
    ensures r != best ==> ClientCount(fs[best]) < ClientCount(fs[r])
    decreases |fs| - i
  {
    if i == |fs| then best
    else if ClientCount(fs[i]) > ClientCount(fs[best]) then LargestFrom(fs, i, i + 1)
    else LargestFrom(fs, best, i + 1)
  }

  /** The folder the dashboard names as most populated: the first folder holding
      the largest number of clients, or none when there are no folders. */
  function MostPopulated(fs: seq<Folder>): (r: Option<nat>)
    ensures r == None <==> fs == []
    ensures r.Some? ==> r.value < |fs|
    ensures r.Some? ==> forall j :: 0 <= j < |fs| ==> ClientCount(fs[j]) <= ClientCount(fs[r.value])
    ensures r.Some? ==> forall j :: 0 <= j < r.value ==> ClientCount(fs[j]) < ClientCount(fs[r.value])
  {
    if fs == [] then None else Some(LargestFrom(fs, 0, 1))
  }

  /** The text of the "Most Populated Folder" card. */
  function MostPopulatedName(fs: seq<Folder>): (r: string)
    ensures fs == [] ==> r == "N/A"
    ensures fs != [] ==> exists k :: 0 <= k < |fs| && r == fs[k].name
  {
    match MostPopulated(fs)
    case None => "N/A"
    case Some(k) => fs[k].name
  }

  /** On a tie the earlier folder wins: with 3, 5 and 5 clients the second folder
      is named. */
  lemma TieGoesToFirst(a: Client)
    ensures var f1 := Folder("1", "One", [a, a, a], [], 0);
      var f2 := Folder("2", "Two", [a, a, a, a, a], [], 0);
      var f3 := Folder("3", "Three", [a, a], [a, a, a], 0);
      MostPopulatedName([f1, f2, f3]) == "Two"
  {
    var f1 := Folder("1", "One", [a, a, a], [], 0);
    var f2 := Folder("2", "Two", [a, a, a, a, a], [], 0);
    var f3 := Folder("3", "Three", [a, a], [a, a, a], 0);
    var fs := [f1, f2, f3];
    assert LargestFrom(fs, 1, 3) == 1;
    assert LargestFrom(fs, 1, 2) == 1;
    assert LargestFrom(fs, 0, 1) == 1;
  }

  /** Newest first: no client is followed by a newer one. */
  ghost predicate NewestFirst(s: seq<Client>) {
    forall i, j :: 0 <= i < j < |s| ==> s[i].addedAt >= s[j].addedAt
  }

  /** The clients added at timestamp `t`. */
  function AddedAtIs(t: int): Client -> bool {
    (c: Client) => c.addedAt == t
  }

  /** Inserts `c` before the first client that is not newer than it. */
  function InsertNewest(c: Client, s: seq<Client>): seq<Client> {
    if s == [] || s[0].addedAt <= c.addedAt then [c] + s
    else [s[0]] + InsertNewest(c, s[1..])
  }

  /** `sort((a, b) => b.addedAt - a.addedAt)`, which is stable: an insertion sort
      that keeps clients with equal timestamps in their original order. */
  function SortNewest(s: seq<Client>): seq<Client> {
    if s == [] then [] else InsertNewest(s[0], SortNewest(s[1..]))
  }

  /** An insertion adds exactly the one client. */
  lemma {:induction false} InsertNewestAddsOne(c: Client, s: seq<Client>)
    ensures multiset(InsertNewest(c, s)) == multiset(s) + multiset{c}
  {
    if s != [] && s[0].addedAt > c.addedAt {
      InsertNewestAddsOne(c, s[1..]);
      assert s == [s[0]] + s[1..];
    }
  }

  /** Every client of `s`, and `c`, is no newer than `bound`; then so is every
      client of the insertion. */
  lemma InsertNewestBounded(c: Client, s: seq<Client>, bound: int, x: Client)
    requires c.addedAt <= bound
    requires forall k :: 0 <= k < |s| ==> s[k].addedAt <= bound
    requires x in InsertNewest(c, s)
    ensures x.addedAt <= bound
  {
    InsertNewestAddsOne(c, s);
    assert x in multiset(InsertNewest(c, s));
    if x != c {
      assert x in multiset(s);
      var k :| 0 <= k < |s| && s[k] == x;
    }
  }

  /** Inserting into a newest-first list keeps it newest first. */
  lemma {:induction false} InsertNewestKeepsOrder(c: Client, s: seq<Client>)
    requires NewestFirst(s)
    ensures NewestFirst(InsertNewest(c, s))
  {
    if s != [] && s[0].addedAt > c.addedAt {
      var tail := s[1..];
      assert NewestFirst(tail) by {
        forall i, j | 0 <= i < j < |tail| ensures tail[i].addedAt >= tail[j].addedAt {
          assert tail[i] == s[i + 1] && tail[j] == s[j + 1];
        }
      }
      InsertNewestKeepsOrder(c, tail);
      var r := InsertNewest(c, tail);
      var t := [s[0]] + r;
      forall i, j | 0 <= i < j < |t| ensures t[i].addedAt >= t[j].addedAt {
        assert t[j] == r[j - 1];
        if i == 0 {
          forall k | 0 <= k < |tail| ensures tail[k].addedAt <= s[0].addedAt {
            assert tail[k] == s[k + 1];
          }
          InsertNewestBounded(c, tail, s[0].addedAt, r[j - 1]);
        } else {
          assert t[i] == r[i - 1];
        }
      }
    }
  }

  /** Equal timestamps keep their relative order through an insertion. */
  lemma {:induction false} InsertNewestStable(c: Client, s: seq<Client>, t: int)
    ensures Filter(AddedAtIs(t), InsertNewest(c, s)) == Filter(AddedAtIs(t), [c] + s)
  {
    if s != [] && s[0].addedAt > c.addedAt {
      InsertNewestStable(c, s[1..], t);
      assert ([s[0]] + InsertNewest(c, s[1..]))[1..] == InsertNewest(c, s[1..]);
      assert ([c] + s[1..])[1..] == s[1..];
      assert ([c] + s)[1..] == s;
      assert s[1..] == s[1..];
    }
  }

  /** The three parts of SortNewestCorrect, each by induction over the insertions. */
  lemma {:induction false} SortNewestSorted(s: seq<Client>)
    ensures NewestFirst(SortNewest(s))
  {
    if s != [] {
      SortNewestSorted(s[1..]);
      InsertNewestKeepsOrder(s[0], SortNewest(s[1..]));
    }
  }

  lemma {:induction false} SortNewestPermutes(s: seq<Client>)
    ensures multiset(SortNewest(s)) == multiset(s)
  {
    if s != [] {
      SortNewestPermutes(s[1..]);
      InsertNewestAddsOne(s[0], SortNewest(s[1..]));
      assert s == [s[0]] + s[1..];
    }
  }

  lemma {:induction false} SortNewestStable(s: seq<Client>, t: int)
    ensures Filter(AddedAtIs(t), SortNewest(s)) == Filter(AddedAtIs(t), s)
  {
    if s != [] {
      SortNewestStable(s[1..], t);
      var rest := SortNewest(s[1..]);
      InsertNewestStable(s[0], rest, t);
      assert ([s[0]] + rest)[1..] == rest;
      assert ([s[0]] + s[1..])[1..] == s[1..];
      assert s == [s[0]] + s[1..];
    }
  }

  /** The sort orders newest first, loses and invents nothing, and is stable. */
  lemma SortNewestCorrect(s: seq<Client>)
    ensures NewestFirst(SortNewest(s))
    ensures multiset(SortNewest(s)) == multiset(s)
    ensures forall t :: Filter(AddedAtIs(t), SortNewest(s)) == Filter(AddedAtIs(t), s)
  {
    SortNewestSorted(s);
    SortNewestPermutes(s);
    forall t ensures Filter(AddedAtIs(t), SortNewest(s)) == Filter(AddedAtIs(t), s) {
      SortNewestStable(s, t);
    }
  }

  /** `[...allActiveClients, ...allPotentialClients]`. */
  function AllClients(fs: seq<Folder>): seq<Client> {
    AllActive(fs) + AllPotential(fs)
  }

  /** The first `n` clients of a newest-first arrangement of `all`. */
  lemma NewestPrefix(all: seq<Client>, sorted: seq<Client>, n: nat)
    requires NewestFirst(sorted) && multiset(sorted) == multiset(all) && n <= |sorted|
    ensures multiset(sorted[..n]) <= multiset(all)
    ensures forall i, c :: 0 <= i < n && c in all && c !in sorted[..n] ==> sorted[..n][i].addedAt >= c.addedAt
  {
    var r := sorted[..n];
    assert sorted == r + sorted[n..];
    assert multiset(sorted) == multiset(r) + multiset(sorted[n..]);
    forall i, c | 0 <= i < n && c in all && c !in r ensures r[i].addedAt >= c.addedAt {
      assert c in multiset(sorted);
      var j :| 0 <= j < |sorted| && sorted[j] == c;
      assert j >= n;
      assert r[i] == sorted[i];
    }
  }

  /** A client with fewer copies among the first `n` than in `all` has a copy left
      out, and no listed client is older than that copy. */
  lemma NewestPrefixCopies(all: seq<Client>, sorted: seq<Client>, n: nat)
    requires NewestFirst(sorted) && multiset(sorted) == multiset(all) && n <= |sorted|
    ensures forall i, x :: 0 <= i < n && multiset(sorted[..n])[x] < multiset(all)[x] ==>
      sorted[..n][i].addedAt >= x.addedAt
  {
    var r := sorted[..n];
    assert sorted == r + sorted[n..];
    assert multiset(sorted) == multiset(r) + multiset(sorted[n..]);
    forall i, x | 0 <= i < n && multiset(r)[x] < multiset(all)[x] ensures r[i].addedAt >= x.addedAt {
      assert x in multiset(sorted[n..]);
      var j :| 0 <= j < |sorted[n..]| && sorted[n..][j] == x;
      assert sorted[n + j] == x;
      assert r[i] == sorted[i];
    }
  }

  /** The "Recent Clients" list: the five newest clients across all folders, newest
      first; among equal timestamps, active before potential and otherwise in
      folder order. */
  function Recent(fs: seq<Folder>): (r: seq<Client>)
    ensures |r| == if TotalClients(fs) < 5 then TotalClients(fs) else 5
    ensures NewestFirst(r)
    ensures multiset(r) <= multiset(AllClients(fs))
    ensures forall i, c :: 0 <= i < |r| && c in AllClients(fs) && c !in r ==> r[i].addedAt >= c.addedAt
    ensures forall i, x :: 0 <= i < |r| && multiset(r)[x] < multiset(AllClients(fs))[x] ==> r[i].addedAt >= x.addedAt
    ensures forall t :: Filter(AddedAtIs(t), r) <= Filter(AddedAtIs(t), AllClients(fs))
  {
    var all := AllClients(fs);
    var sorted := SortNewest(all);
    SortNewestCorrect(all);
    assert |sorted| == |multiset(sorted)| == |all|;
    var n := if |sorted| < 5 then |sorted| else 5;
    NewestPrefix(all, sorted, n);
    NewestPrefixCopies(all, sorted, n);
    forall t ensures Filter(AddedAtIs(t), sorted[..n]) <= Filter(AddedAtIs(t), all) {
      FilterOfPrefix(AddedAtIs(t), sorted, n);
    }
    sorted[..n]
  }
}

/** Re-computing a ledger's chain, and what an anchor recorded outside it adds.

    A table maps a row's number to the row.  The verifier follows prev_hash to a real
    row_hash and never number adjacency, and it lists forks apart from breaks: a fork
    is a break only when every claimant is above the recorded boundary.
 */
module LedgerVerify {
  import opened Basics
  import opened Options
  import opened Chain
  import LedgerProtocol

  type Table = map<int, Row>

  datatype Kind = Link | Content | LinkContent | Fork | Genesis | NoGenesis
                | AnchorMissing | AnchorRewritten | AnchorMoved
  datatype Break = Break(number: int, kind: Kind)
  datatype Anchor = Anchor(number: int, hash: Digest)
  datatype AnchorStatus = Held | Missing | Rewritten | Moved

  // ---- The report ----

  /** prev_hash names no row. */
  predicate LinkBroken(t: Table, k: int)
    requires k in t
  {
    t[k].prevHash.Some? && forall j :: j in t ==> t[j].rowHash != t[k].prevHash.value
  }

  /** Another row claims the same predecessor. */
  predicate ForkedRow(t: Table, k: int)
    requires k in t
  {
    t[k].prevHash.Some? && exists j :: j in t && j != k && t[j].prevHash == t[k].prevHash
  }

  /** ... and every claimant is above the boundary. */
  predicate FreshFork(t: Table, k: int, boundary: Option<int>)
    requires k in t
  {
    ForkedRow(t, k) && boundary.Some? &&
    forall j :: j in t && t[j].prevHash == t[k].prevHash ==> j > boundary.value
  }

  function Firsts(t: Table): set<int> {
    set k | k in t && t[k].prevHash.None?
  }

  /** The rows a run reports on: all of them, or the most recent `limit`. */
  predicate Reported(t: Table, limit: Option<nat>, k: int) {
    k in t && (limit.Some? ==> |set j | j in t && j > k| < limit.value)
  }

  function StatusOf(t: Table, a: Anchor): AnchorStatus {
    if a.number in t && t[a.number].rowHash == a.hash then Held
    else if exists k :: k in t && t[k].rowHash == a.hash then Moved
    else if a.number in t then Rewritten
    else Missing
  }

  function GenesisBreaks(t: Table): set<Break> {
    if t != map[] && Firsts(t) == {} then {Break(0, NoGenesis)}
    else if |Firsts(t)| > 1 then set k | k in Firsts(t) :: Break(k, Genesis)
    else {}
  }

  function RowBreaks(t: Table, limit: Option<nat>): set<Break> {
    set k | k in t.Keys && Reported(t, limit, k) && (LinkBroken(t, k) || !ContentOk(t[k])) ::
      Break(k, if ContentOk(t[k]) then Link else if LinkBroken(t, k) then LinkContent else Content)
  }

  function ForkBreaks(t: Table, boundary: Option<int>, limit: Option<nat>): set<Break> {
    set k | k in t.Keys && Reported(t, limit, k) && FreshFork(t, k, boundary) :: Break(k, Fork)
  }

  function AnchorBreaks(t: Table, anchor: Option<Anchor>): set<Break> {
    if anchor.None? then {}
    else
      match StatusOf(t, anchor.value)
      case Held => {}
      case Missing => {Break(anchor.value.number, AnchorMissing)}
      case Rewritten => {Break(anchor.value.number, AnchorRewritten)}
      case Moved => {Break(anchor.value.number, AnchorMoved)}
  }

  function Breaks(t: Table, boundary: Option<int>, limit: Option<nat>, anchor: Option<Anchor>): set<Break> {
    GenesisBreaks(t) + RowBreaks(t, limit) + ForkBreaks(t, boundary, limit) + AnchorBreaks(t, anchor)
  }

  /** Every row sharing a predecessor with another, old forks included. */
  function Forks(t: Table): set<int> {
    set k | k in t && ForkedRow(t, k)
  }

  predicate Intact(t: Table, boundary: Option<int>, limit: Option<nat>, anchor: Option<Anchor>) {
    Breaks(t, boundary, limit, anchor) == {}
  }

  // ---- What an intact report says ----

  ghost predicate CleanTable(t: Table) {
    forall k :: k in t ==> Clean(t[k].payload)
  }

  ghost predicate OneFirst(t: Table) {
    (t != map[] ==> exists k :: k in t && t[k].prevHash.None?) &&
    forall j, k :: j in t && k in t && t[j].prevHash.None? && t[k].prevHash.None? ==> j == k
  }

  /** Link by link, with one first row: what the whole-table checks establish. */
  ghost predicate Sound(t: Table) {
    OneFirst(t) && forall k :: k in t ==> ContentOk(t[k]) && !LinkBroken(t, k)
  }

  lemma AtMostOne(s: set<int>)
    ensures |s| <= 1 <==> forall j, k :: j in s && k in s ==> j == k
  {
    forall j, k | j in s && k in s && j != k ensures |s| > 1 {
      SubsetSize({j, k}, s);
    }
    if |s| > 1 {
      assert s != {};
      var j := Member(s);
      assert |s - {j}| == |s| - 1 > 0;
      assert s - {j} != {};
      var k := Member(s - {j});
    }
  }

  lemma SubsetSize(a: set<int>, b: set<int>)
    requires a <= b
    ensures |a| <= |b|
    ensures a != b ==> |a| < |b|
  {
    assert b == a + (b - a);
    assert |b| == |a| + |b - a|;
  }

  lemma NoGenesisBreaks(t: Table)
    ensures GenesisBreaks(t) == {} <==> OneFirst(t)
  {
    hide HashOf;
    var firsts := Firsts(t);
    AtMostOne(firsts);
    if firsts != {} {
      var k := Member(firsts);
      assert |firsts| > 1 ==> Break(k, Genesis) in GenesisBreaks(t);
      assert k in t && t[k].prevHash.None?;
    } else {
      assert forall k :: k in t ==> k !in firsts;
      assert t != map[] ==> Break(0, NoGenesis) in GenesisBreaks(t);
    }
    if OneFirst(t) {
      forall j, k | j in firsts && k in firsts ensures j == k {
      }
    } else if t != map[] && exists k :: k in t && t[k].prevHash.None? {
      var j, k :| j in t && k in t && t[j].prevHash.None? && t[k].prevHash.None? && j != k;
      assert j in firsts && k in firsts;
    }
  }

  /** A whole-table run is intact exactly when the table is sound, no fork is above the
      boundary and the anchor, when given, is held. */
  lemma IntactMeans(t: Table, boundary: Option<int>, anchor: Option<Anchor>)
    ensures Intact(t, boundary, None, anchor) <==>
            && Sound(t)
            && (forall k :: k in t ==> !FreshFork(t, k, boundary))
            && (anchor.Some? ==> StatusOf(t, anchor.value).Held?)
  {
    hide HashOf;
    NoGenesisBreaks(t);
    if Intact(t, boundary, None, anchor) {
      forall k | k in t ensures ContentOk(t[k]) && !LinkBroken(t, k) && !FreshFork(t, k, boundary) {
        assert Reported(t, None, k);
        var kind := if ContentOk(t[k]) then Link else if LinkBroken(t, k) then LinkContent else Content;
        assert Break(k, kind) !in RowBreaks(t, None);
        assert Break(k, Fork) !in ForkBreaks(t, boundary, None);
      }
    }
  }

  // ---- What a run examines ----

  /** The table's numbers, lowest first. */
  ghost predicate Listing(t: Table, order: seq<int>) {
    && (forall i, j :: 0 <= i < j < |order| ==> order[i] < order[j])
    && (forall k :: k in t <==> k in order)
  }

  /** All of them, or the last `limit`. */
  function Newest(limit: Option<nat>, order: seq<int>): seq<int> {
    if limit.None? then order else order[|order| - Least(limit.value, |order|)..]
  }

  /** One row's hash is that of its columns and its predecessor's hash, its predecessor is in the table, and
      if another row names the same one, some row that names it is not above the boundary. */
  ghost predicate RowVerifies(t: Table, k: int, boundary: Option<int>)
    requires k in t
  {
    var r := t[k];
    && r.rowHash == HashOf(r.prevHash, r.payload)
    && (r.prevHash.Some? ==>
          && (exists j :: j in t && t[j].rowHash == r.prevHash.value)
          && (boundary.Some? && (exists j :: j in t && j != k && t[j].prevHash == r.prevHash) ==>
                exists j :: j in t && t[j].prevHash == r.prevHash && j <= boundary.value))
  }

  ghost predicate AnchorStands(t: Table, anchor: Option<Anchor>) {
    anchor.Some? ==> anchor.value.number in t && t[anchor.value.number].rowHash == anchor.value.hash
  }

  /** What a run over the newest rows establishes: one first row in the whole table, the anchored row in its
      place, and each of those rows verified against the whole table. */
  ghost predicate Establishes(t: Table, boundary: Option<int>, limit: Option<nat>, anchor: Option<Anchor>, order: seq<int>)
    requires Listing(t, order)
  {
    && OneFirst(t) && AnchorStands(t, anchor)
    && forall i :: 0 <= i < |Newest(limit, order)| ==> RowVerifies(t, Newest(limit, order)[i], boundary)
  }

  lemma {:induction false} ListingSize(order: seq<int>)
    requires forall i, j :: 0 <= i < j < |order| ==> order[i] < order[j]
    ensures |set k | k in order| == |order|
  {
    if order != [] {
      var rest := order[1..];
      ListingSize(rest);
      assert (set k | k in order) == {order[0]} + (set k | k in rest);
    }
  }

  lemma AboveSize(t: Table, order: seq<int>, i: nat)
    requires Listing(t, order) && i < |order|
    ensures |set j | j in t && j > order[i]| == |order| - 1 - i
  {
    var above := order[i + 1..];
    ListingSize(above);
    assert (set j | j in t && j > order[i]) == (set j | j in above) by { AboveIsRest(t, order, i); }
  }

  lemma NewestFrom(t: Table, limit: Option<nat>, order: seq<int>, i: nat)
    requires Listing(t, order) && i < |order|
    ensures order[i] in Newest(limit, order) <==> limit.None? || |order| - i <= limit.value
  {
    if limit.Some? {
      var first := |order| - Least(limit.value, |order|);
      if i >= first {
        assert Newest(limit, order)[i - first] == order[i];
      } else {
        forall j | 0 <= j < |order| - first ensures Newest(limit, order)[j] != order[i] {
          assert Newest(limit, order)[j] == order[first + j];
        }
      }
    }
  }

  /** The newest rows are the last ones of the listing. */
  lemma ReportedIsNewest(t: Table, limit: Option<nat>, order: seq<int>, k: int)
    requires Listing(t, order)
    ensures Reported(t, limit, k) <==> k in Newest(limit, order)
  {
    hide Newest;
    if k in t {
      var i :| 0 <= i < |order| && order[i] == k;
      AboveSize(t, order, i);
      NewestFrom(t, limit, order, i);
    } else if k in Newest(limit, order) {
      NewestAreRows(t, limit, order, k);
    }
  }

  lemma AboveIsRest(t: Table, order: seq<int>, i: nat)
    requires Listing(t, order) && i < |order|
    ensures forall j :: j in t && j > order[i] <==> j in order[i + 1..]
  {
    forall j | j in t && j > order[i] ensures j in order[i + 1..] {
      var m :| 0 <= m < |order| && order[m] == j;
      assert m > i;
      assert order[i + 1..][m - i - 1] == j;
    }
    forall j | j in order[i + 1..] ensures j in t && j > order[i] {
      var m :| 0 <= m < |order[i + 1..]| && order[i + 1..][m] == j;
      assert order[i + 1 + m] == j;
    }
  }

  lemma VerifiesMeans(t: Table, k: int, boundary: Option<int>)
    requires k in t
    ensures RowVerifies(t, k, boundary) <==> ContentOk(t[k]) && !LinkBroken(t, k) && !FreshFork(t, k, boundary)
  {
    hide HashOf;
  }

  /** Row by row, what the two row checks list. */
  lemma RowsExactly(t: Table, boundary: Option<int>, limit: Option<nat>)
    ensures RowBreaks(t, limit) == {} && ForkBreaks(t, boundary, limit) == {} <==>
      forall k :: Reported(t, limit, k) ==> ContentOk(t[k]) && !LinkBroken(t, k) && !FreshFork(t, k, boundary)
  {
    hide HashOf, ContentOk, LinkBroken, FreshFork;
    if RowBreaks(t, limit) == {} && ForkBreaks(t, boundary, limit) == {} {
      forall k | Reported(t, limit, k) ensures ContentOk(t[k]) && !LinkBroken(t, k) && !FreshFork(t, k, boundary) {
        assert k in t.Keys;
        var kind := if ContentOk(t[k]) then Link else if LinkBroken(t, k) then LinkContent else Content;
        assert Break(k, kind) !in RowBreaks(t, limit);
        assert Break(k, Fork) !in ForkBreaks(t, boundary, limit);
      }
    }
  }

  lemma AnchorExactly(t: Table, anchor: Option<Anchor>)
    ensures AnchorBreaks(t, anchor) == {} <==> AnchorStands(t, anchor)
  {
  }

  /** A run of any window is intact exactly when it establishes that. */
  lemma IntactExactly(t: Table, boundary: Option<int>, limit: Option<nat>, anchor: Option<Anchor>, order: seq<int>)
    requires Listing(t, order)
    ensures Intact(t, boundary, limit, anchor) <==> Establishes(t, boundary, limit, anchor, order)
  {
    hide HashOf, ContentOk, LinkBroken, FreshFork, RowVerifies, GenesisBreaks, RowBreaks, ForkBreaks, AnchorBreaks, AnchorStands, OneFirst, Reported;
    NoGenesisBreaks(t);
    RowsExactly(t, boundary, limit);
    AnchorExactly(t, anchor);
    assert Intact(t, boundary, limit, anchor) <==>
      GenesisBreaks(t) == {} && RowBreaks(t, limit) == {} && ForkBreaks(t, boundary, limit) == {} && AnchorBreaks(t, anchor) == {};
    forall k ensures Reported(t, limit, k) <==> k in Newest(limit, order) {
      ReportedIsNewest(t, limit, order, k);
    }
    forall k | k in t ensures RowVerifies(t, k, boundary) <==> ContentOk(t[k]) && !LinkBroken(t, k) && !FreshFork(t, k, boundary) {
      VerifiesMeans(t, k, boundary);
    }
    forall k | k in Newest(limit, order) ensures k in t {
      NewestAreRows(t, limit, order, k);
    }
  }

  lemma NewestAreRows(t: Table, limit: Option<nat>, order: seq<int>, k: int)
    requires Listing(t, order) && k in Newest(limit, order)
    ensures k in t
  {
    assert k in order;
  }

  lemma RowBreaksAt(t: Table, limit: Option<nat>, k: int, kind: Kind)
    requires k in t && Reported(t, limit, k)
    ensures Break(k, kind) in RowBreaks(t, limit) <==>
      if ContentOk(t[k]) then LinkBroken(t, k) && kind == Link else kind == (if LinkBroken(t, k) then LinkContent else Content)
  {
    hide LinkBroken, ContentOk, Reported;
  }

  lemma ForkBreaksAt(t: Table, boundary: Option<int>, limit: Option<nat>, k: int)
    requires k in t && Reported(t, limit, k)
    ensures Break(k, Fork) in ForkBreaks(t, boundary, limit) <==> FreshFork(t, k, boundary)
  {
    hide FreshFork, Reported;
  }

  /** Only its own checks give a row's number one of these kinds. */
  lemma KindsApart(t: Table, boundary: Option<int>, limit: Option<nat>, anchor: Option<Anchor>, k: int, kind: Kind)
    requires kind in {Link, Content, LinkContent, Fork}
    ensures Break(k, kind) in Breaks(t, boundary, limit, anchor) <==>
      if kind.Fork? then Break(k, kind) in ForkBreaks(t, boundary, limit) else Break(k, kind) in RowBreaks(t, limit)
  {
    hide LinkBroken, ContentOk, FreshFork, Reported, StatusOf, Firsts;
  }

  /** A row that is first or names a row of the table. */
  ghost predicate NamesARow(t: Table, k: int)
    requires k in t
  {
    t[k].prevHash.None? || exists j :: j in t && t[j].rowHash == t[k].prevHash.value
  }

  ghost predicate Recomputes(r: Row) {
    r.rowHash == HashOf(r.prevHash, r.payload)
  }

  lemma RowMeans(t: Table, k: int)
    requires k in t
    ensures LinkBroken(t, k) <==> !NamesARow(t, k)
    ensures ContentOk(t[k]) <==> Recomputes(t[k])
  {
    hide HashOf;
  }

  /** Under which kind a row of the run is listed. */
  lemma KindsExactly(t: Table, boundary: Option<int>, limit: Option<nat>, anchor: Option<Anchor>, order: seq<int>, k: int)
    requires Listing(t, order) && k in Newest(limit, order)
    ensures k in t
    ensures Break(k, Link) in Breaks(t, boundary, limit, anchor) <==> !NamesARow(t, k) && Recomputes(t[k])
    ensures Break(k, Content) in Breaks(t, boundary, limit, anchor) <==> NamesARow(t, k) && !Recomputes(t[k])
    ensures Break(k, LinkContent) in Breaks(t, boundary, limit, anchor) <==> !NamesARow(t, k) && !Recomputes(t[k])
    ensures Break(k, Fork) in Breaks(t, boundary, limit, anchor) <==> FreshFork(t, k, boundary)
  {
    hide FreshFork, Reported, Breaks, RowBreaks, ForkBreaks, LinkBroken, ContentOk, NamesARow, Recomputes;
    NewestAreRows(t, limit, order, k);
    RowMeans(t, k);
    ReportedIsNewest(t, limit, order, k);
    KindsApart(t, boundary, limit, anchor, k, Link);
    KindsApart(t, boundary, limit, anchor, k, Content);
    KindsApart(t, boundary, limit, anchor, k, LinkContent);
    KindsApart(t, boundary, limit, anchor, k, Fork);
    RowBreaksAt(t, limit, k, Link);
    RowBreaksAt(t, limit, k, Content);
    RowBreaksAt(t, limit, k, LinkContent);
    ForkBreaksAt(t, boundary, limit, k);
  }

  ghost predicate HashStands(t: Table, d: Digest) {
    exists k :: k in t && t[k].rowHash == d
  }

  /** What became of a recorded anchor that does not stand. */
  lemma AnchorKindsExactly(t: Table, a: Anchor)
    ensures Break(a.number, AnchorMissing) in AnchorBreaks(t, Some(a)) <==> a.number !in t && !HashStands(t, a.hash)
    ensures Break(a.number, AnchorRewritten) in AnchorBreaks(t, Some(a)) <==> a.number in t && !HashStands(t, a.hash)
    ensures Break(a.number, AnchorMoved) in AnchorBreaks(t, Some(a)) <==> HashStands(t, a.hash) && !AnchorStands(t, Some(a))
  {
  }

  lemma ManyFirsts(t: Table, k: int)
    requires k in Firsts(t)
    ensures |Firsts(t)| > 1 <==> exists j :: j in Firsts(t) && j != k
  {
    var others := Firsts(t) - {k};
    assert |others| == |Firsts(t)| - 1;
    if |others| > 0 {
      var j := Member(others);
      assert j in Firsts(t) && j != k;
    }
    if j :| j in Firsts(t) && j != k {
      assert j in others;
    }
  }

  /** Where a chain is said to have no first row, or more than one. */
  lemma GenesisKindsExactly(t: Table, k: int)
    ensures Break(k, NoGenesis) in GenesisBreaks(t) <==> k == 0 && t != map[] && forall j :: j in t ==> t[j].prevHash.Some?
    ensures Break(k, Genesis) in GenesisBreaks(t) <==>
      k in t && t[k].prevHash.None? && exists j :: j in t && j != k && t[j].prevHash.None?
  {
    if k in Firsts(t) {
      ManyFirsts(t, k);
    }
    assert forall j :: j in Firsts(t) <==> j in t && t[j].prevHash.None?;
    hide Firsts;
    if Firsts(t) != {} {
      var j := Member(Firsts(t));
    }
  }

  // ---- From a row back to the first ----

  lemma SoundAt(t: Table, k: int)
    requires Sound(t) && k in t
    ensures ContentOk(t[k])
    ensures Depth(t[k].rowHash) == if t[k].prevHash.None? then 1 else 1 + Depth(t[k].prevHash.value)
    ensures t[k].prevHash.Some? ==> exists j :: j in t && t[j].rowHash == t[k].prevHash.value
  {
    hide HashOf;
    assert ContentOk(t[k]) && !LinkBroken(t, k);
    DepthOf(t[k].prevHash, t[k].payload);
  }

  lemma Links(t: Table, k: int, j: int)
    requires k in t && j in t && t[k].prevHash == Some(t[j].rowHash)
    ensures !LinkBroken(t, k)
  {
  }

  ghost predicate Unforked(t: Table) {
    forall j, k :: j in t && k in t && t[j].prevHash.Some? && t[j].prevHash == t[k].prevHash ==> j == k
  }

  lemma NoForks(t: Table)
    ensures Forks(t) == {} <==> Unforked(t)
  {
    if Forks(t) == {} {
      forall j, k | j in t && k in t && t[j].prevHash.Some? && t[j].prevHash == t[k].prevHash ensures j == k {
        assert k !in Forks(t);
      }
    }
  }

  /** A row that row k names as its predecessor. */
  ghost function Prior(t: Table, k: int): (j: int)
    requires Sound(t) && k in t && t[k].prevHash.Some?
    ensures j in t && t[k].prevHash == Some(t[j].rowHash)
    ensures Depth(t[k].rowHash) == 1 + Depth(t[j].rowHash)
  {
    hide HashOf, LinkBroken, Sound, Depth, ContentOk;
    SoundAt(t, k);
    var j :| j in t && t[j].rowHash == t[k].prevHash.value;
    j
  }

  /** The numbers from the chain's first row to row k, following prev_hash. */
  ghost function Path(t: Table, k: int): (p: seq<int>)
    requires Sound(t) && k in t
    ensures |p| == Depth(t[k].rowHash) && p[|p| - 1] == k
    decreases Depth(t[k].rowHash)
  {
    hide HashOf, LinkBroken, Sound, Depth, ContentOk;
    SoundAt(t, k);
    if t[k].prevHash.None? then [k] else Path(t, Prior(t, k)) + [k]
  }

  /** The row before k on its path. */
  lemma PathPrefix(t: Table, k: int) returns (j: int)
    requires Sound(t) && k in t && t[k].prevHash.Some?
    ensures j in t && t[k].prevHash == Some(t[j].rowHash)
    ensures Path(t, k) == Path(t, j) + [k]
  {
    hide HashOf, LinkBroken;
    j := Path(t, k)[|Path(t, k)| - 2];
  }

  /** What stands at one place on a path. */
  lemma {:induction false} PathAt(t: Table, k: int, i: nat)
    requires Sound(t) && k in t && i < |Path(t, k)|
    ensures var p := Path(t, k);
            && p[i] in t && Depth(t[p[i]].rowHash) == i + 1
            && (i == 0 ==> t[p[i]].prevHash.None?)
            && (i > 0 ==> p[i - 1] in t && t[p[i]].prevHash == Some(t[p[i - 1]].rowHash))
    decreases Depth(t[k].rowHash)
  {
    hide HashOf, LinkBroken;
    if t[k].prevHash.Some? {
      var j := PathPrefix(t, k);
      if i < |Path(t, j)| {
        PathAt(t, j, i);
      }
    } else {
      SoundAt(t, k);
    }
  }

  /** Tamper evidence: where two tables verify link by link, one equal row hash makes the
      whole history before it equal in every hashed column. */
  lemma {:induction false} EqualHashEqualHistory(t: Table, a: int, u: Table, b: int)
    requires CleanTable(t) && CleanTable(u) && Sound(t) && Sound(u)
    requires a in t && b in u && t[a].rowHash == u[b].rowHash
    ensures |Path(t, a)| == |Path(u, b)|
    ensures forall i :: 0 <= i < |Path(t, a)| ==>
              Path(t, a)[i] in t && Path(u, b)[i] in u && t[Path(t, a)[i]] == u[Path(u, b)[i]]
    decreases Depth(t[a].rowHash)
  {
    hide HashOf, LinkBroken;
    SoundAt(t, a);
    SoundAt(u, b);
    HashInjective(t[a].prevHash, t[a].payload, u[b].prevHash, u[b].payload);
    if t[a].prevHash.Some? {
      var c := PathPrefix(t, a);
      var d := PathPrefix(u, b);
      EqualHashEqualHistory(t, c, u, d);
    }
  }

  /** In an unforked table a depth names one row. */
  lemma {:induction false} DepthNamesRow(t: Table, j: int, k: int)
    requires Sound(t) && Unforked(t) && j in t && k in t
    requires Depth(t[j].rowHash) == Depth(t[k].rowHash)
    ensures j == k
    decreases Depth(t[j].rowHash)
  {
    hide HashOf, LinkBroken;
    if t[j].prevHash.Some? && t[k].prevHash.Some? {
      var c := PathPrefix(t, j);
      var d := PathPrefix(t, k);
      DepthNamesRow(t, c, d);
    } else {
      SoundAt(t, j);
      SoundAt(t, k);
    }
  }

  // ---- One chain ----

  /** Row `order[i]` names the row before it in `order`; the first row names none. */
  ghost predicate ChainLink(t: Table, order: seq<int>, i: nat)
    requires i < |order|
  {
    && order[i] in t
    && ContentOk(t[order[i]])
    && (i == 0 ==> t[order[0]].prevHash.None?)
    && (i > 0 ==> order[i - 1] in t && t[order[i]].prevHash == Some(t[order[i - 1]].rowHash))
  }

  /** `order` lists every row, from the first row on, each naming the one before. */
  ghost predicate SingleChain(t: Table, order: seq<int>) {
    && (forall k :: k in t ==> k in order)
    && (forall i :: 0 <= i < |order| ==> ChainLink(t, order, i))
  }

  /** No row claims row `k` as its predecessor. */
  ghost predicate Unclaimed(t: Table, k: int)
    requires k in t
  {
    forall j :: j in t ==> t[j].prevHash != Some(t[k].rowHash)
  }

  lemma DeepestExists(t: Table) returns (k: int)
    requires t != map[]
    ensures k in t && forall j :: j in t ==> Depth(t[j].rowHash) <= Depth(t[k].rowHash)
  {
    var rest := t.Keys;
    assert rest != {};
    k := Member(rest);
    rest := rest - {k};
    while rest != {}
      invariant k in t && rest <= t.Keys
      invariant forall j :: j in t && j !in rest ==> Depth(t[j].rowHash) <= Depth(t[k].rowHash)
      decreases rest
    {
      var j := Member(rest);
      if Depth(t[j].rowHash) > Depth(t[k].rowHash) {
        k := j;
      }
      rest := rest - {j};
    }
  }

  /** A row below another on some path is claimed there. */
  lemma DeeperClaims(t: Table, k: int, j: int)
    requires Sound(t) && Unforked(t) && k in t && j in t
    requires Depth(t[j].rowHash) > Depth(t[k].rowHash)
    ensures !Unclaimed(t, k)
  {
    hide HashOf, LinkBroken;
    var d, q := Depth(t[k].rowHash), Path(t, j);
    PathAt(t, j, d);
    PathAt(t, j, d - 1);
    DepthNamesRow(t, q[d - 1], k);
    Claims(t, q[d], k);
  }

  lemma Claims(t: Table, j: int, k: int)
    requires j in t && k in t && t[j].prevHash == Some(t[k].rowHash)
    ensures !Unclaimed(t, k)
  {
  }

  /** In an unforked sound table, the path to an unclaimed row holds every row. */
  lemma EndOfChain(t: Table, k: int, j: int)
    requires Sound(t) && Unforked(t) && k in t && Unclaimed(t, k) && j in t
    ensures Depth(t[j].rowHash) <= |Path(t, k)| && j == Path(t, k)[Depth(t[j].rowHash) - 1]
  {
    hide HashOf, LinkBroken;
    var d := Depth(t[j].rowHash);
    if d > |Path(t, k)| {
      DeeperClaims(t, k, j);
    }
    PathAt(t, k, d - 1);
    DepthNamesRow(t, j, Path(t, k)[d - 1]);
  }

  lemma PathIsChain(t: Table, k: int)
    requires Sound(t) && Unforked(t) && k in t && Unclaimed(t, k)
    ensures SingleChain(t, Path(t, k))
  {
    hide HashOf, LinkBroken;
    var p := Path(t, k);
    forall j | j in t ensures j in p {
      EndOfChain(t, k, j);
    }
    forall i | 0 <= i < |p| ensures ChainLink(t, p, i) {
      PathAt(t, k, i);
      SoundAt(t, p[i]);
    }
  }

  lemma DeepestUnclaimed(t: Table, k: int)
    requires Sound(t) && k in t && forall j :: j in t ==> Depth(t[j].rowHash) <= Depth(t[k].rowHash)
    ensures Unclaimed(t, k)
  {
    hide HashOf, LinkBroken;
    forall j | j in t ensures t[j].prevHash != Some(t[k].rowHash) {
      SoundAt(t, j);
    }
  }

  lemma {:induction false} ChainDepth(t: Table, order: seq<int>, i: nat)
    requires SingleChain(t, order) && i < |order|
    ensures order[i] in t && Depth(t[order[i]].rowHash) == i + 1
  {
    hide HashOf;
    assert ChainLink(t, order, i);
    DepthOf(t[order[i]].prevHash, t[order[i]].payload);
    if i > 0 {
      ChainDepth(t, order, i - 1);
    }
  }

  lemma ChainLinksHold(t: Table, order: seq<int>, k: int)
    requires SingleChain(t, order) && k in t
    ensures ContentOk(t[k]) && !LinkBroken(t, k)
  {
    hide HashOf;
    var i :| 0 <= i < |order| && order[i] == k;
    assert ChainLink(t, order, i);
    if i > 0 {
      Links(t, k, order[i - 1]);
    }
  }

  lemma ChainUnforked(t: Table, order: seq<int>, j: int, k: int)
    requires SingleChain(t, order) && j in t && k in t && t[j].prevHash == t[k].prevHash
    ensures j == k
  {
    hide HashOf;
    var a :| 0 <= a < |order| && order[a] == j;
    var b :| 0 <= b < |order| && order[b] == k;
    assert ChainLink(t, order, a) && ChainLink(t, order, b);
    ChainDepth(t, order, a);
    ChainDepth(t, order, b);
    DepthOf(t[j].prevHash, t[j].payload);
    DepthOf(t[k].prevHash, t[k].payload);
  }

  lemma ChainIsSound(t: Table, order: seq<int>)
    requires SingleChain(t, order)
    ensures Sound(t) && Unforked(t)
  {
    hide HashOf;
    forall k | k in t ensures ContentOk(t[k]) && !LinkBroken(t, k) {
      ChainLinksHold(t, order, k);
    }
    forall j, k | j in t && k in t && t[j].prevHash == t[k].prevHash ensures j == k {
      ChainUnforked(t, order, j, k);
    }
    assert OneFirst(t) by {
      if t != map[] {
        var k := Member(t.Keys);
        assert ChainLink(t, order, 0);
      }
    }
  }

  /** A whole-table run that finds no break and no fork has found exactly one chain. */
  lemma IntactIsOneChain(t: Table, boundary: Option<int>)
    ensures Intact(t, boundary, None, None) && Forks(t) == {} <==> exists order :: SingleChain(t, order)
  {
    hide HashOf, LinkBroken;
    IntactMeans(t, boundary, None);
    NoForks(t);
    if Intact(t, boundary, None, None) && Forks(t) == {} {
      if t == map[] {
        assert SingleChain(t, []);
      } else {
        var k := DeepestExists(t);
        DeepestUnclaimed(t, k);
        PathIsChain(t, k);
      }
    }
    if order :| SingleChain(t, order) {
      ChainIsSound(t, order);
      forall k | k in t ensures !FreshFork(t, k, boundary) {
        assert !ForkedRow(t, k);
      }
    }
  }

  /** Two chains with the same last hash are the same history, row for row. */
  lemma SameTailSameLedger(t: Table, p: seq<int>, u: Table, q: seq<int>)
    requires CleanTable(t) && CleanTable(u) && SingleChain(t, p) && SingleChain(u, q)
    requires p != [] && q != [] && p[|p| - 1] in t && q[|q| - 1] in u
    requires t[p[|p| - 1]].rowHash == u[q[|q| - 1]].rowHash
    ensures |p| == |q| && forall i :: 0 <= i < |p| ==> p[i] in t && q[i] in u && t[p[i]] == u[q[i]]
  {
    hide HashOf, LinkBroken;
    var a, b := p[|p| - 1], q[|q| - 1];
    ChainIsSound(t, p);
    ChainIsSound(u, q);
    EqualHashEqualHistory(t, a, u, b);
    ChainIsPath(t, p);
    ChainIsPath(u, q);
  }

  lemma ChainIsPath(t: Table, order: seq<int>)
    requires SingleChain(t, order) && order != []
    ensures Sound(t) && order[|order| - 1] in t && Path(t, order[|order| - 1]) == order
  {
    hide HashOf, LinkBroken;
    var k := order[|order| - 1];
    ChainIsSound(t, order);
    ChainDepth(t, order, |order| - 1);
    forall i | 0 <= i < |order| ensures Path(t, k)[i] == order[i] {
      ChainDepth(t, order, i);
      PathAt(t, k, i);
      DepthNamesRow(t, Path(t, k)[i], order[i]);
    }
  }

  // ---- What a held anchor vouches for ----

  /** Every row of t is in u, each at a number of its own, equal in every hashed column. */
  ghost predicate Covers(t: Table, u: Table) {
    exists f: map<int, int> :: Embeds(t, u, f)
  }

  ghost predicate Embeds(t: Table, u: Table, f: map<int, int>) {
    && f.Keys == t.Keys
    && (forall k :: k in t ==> f[k] in u && u[f[k]] == t[k])
    && (forall j, k :: j in t && k in t && f[j] == f[k] ==> j == k)
  }

  lemma EmbedsAt(t: Table, u: Table, f: map<int, int>, k: int)
    requires Embeds(t, u, f) && k in t
    ensures f[k] in u && u[f[k]] == t[k]
  {
  }

  lemma CoversTransitive(t: Table, u: Table, v: Table)
    requires Covers(t, u) && Covers(u, v)
    ensures Covers(t, v)
  {
    var f: map<int, int> :| Embeds(t, u, f);
    var g: map<int, int> :| Embeds(u, v, g);
    var h := map k | k in t.Keys :: g[f[k]];
    forall k | k in t ensures h[k] in v && v[h[k]] == t[k] {
      EmbedsAt(t, u, f, k);
      EmbedsAt(u, v, g, f[k]);
    }
    forall j, k | j in t && k in t && h[j] == h[k] ensures j == k {
      EmbedsAt(t, u, f, j);
      EmbedsAt(t, u, f, k);
    }
    assert Embeds(t, v, h);
  }

  lemma {:induction false} CoversNeedsRoom(t: Table, u: Table, f: map<int, int>)
    requires Embeds(t, u, f)
    ensures |t| <= |u|
    decreases |t|
  {
    if t != map[] {
      assert t.Keys != {};
      var k := Member(t.Keys);
      var t', u', f' := t - {k}, u - {f[k]}, f - {k};
      assert t'.Keys == t.Keys - {k} && u'.Keys == u.Keys - {f[k]};
      assert |t'.Keys| == |t.Keys| - 1 && |u'.Keys| == |u.Keys| - 1;
      assert |t'| == |t'.Keys| && |u'| == |u'.Keys|;
      assert Embeds(t', u', f');
      CoversNeedsRoom(t', u', f');
    }
  }

  /** The row a run records: the highest number of the whole table. */
  ghost predicate IsTail(t: Table, k: int) {
    k in t && forall j :: j in t ==> j <= k
  }

  ghost function TailAnchor(t: Table, k: int): Anchor
    requires k in t
  {
    Anchor(k, t[k].rowHash)
  }

  /** Every later table that verifies in full and still holds this anchor has every row of t. */
  ghost predicate Vouches(t: Table, k: int, boundary: Option<int>)
    requires k in t
  {
    forall u: Table :: CleanTable(u) && Intact(u, boundary, None, Some(TailAnchor(t, k))) ==> Covers(t, u)
  }

  /** A chain whose end is anchored is covered by any sound table that holds the anchor. */
  lemma HeldAnchorCovers(t: Table, k: int, u: Table)
    requires CleanTable(t) && CleanTable(u) && Sound(t) && Sound(u) && Unforked(t)
    requires k in t && Unclaimed(t, k) && StatusOf(u, TailAnchor(t, k)).Held?
    ensures Covers(t, u)
  {
    hide HashOf, LinkBroken, Path, AtDepth;
    forall j | j in t
      ensures AtDepth(u, k, Depth(t[j].rowHash)) in u && u[AtDepth(u, k, Depth(t[j].rowHash))] == t[j]
    {
      Counterpart(t, k, u, j);
    }
    var f := map j | j in t.Keys :: AtDepth(u, k, Depth(t[j].rowHash));
    forall i, j | i in t && j in t && f[i] == f[j] ensures i == j {
      DepthNamesRow(t, i, j);
    }
    assert Embeds(t, u, f);
  }

  /** The row at a depth on k's path. */
  ghost function AtDepth(u: Table, k: int, d: nat): int
    requires Sound(u) && k in u
  {
    if 1 <= d <= |Path(u, k)| then Path(u, k)[d - 1] else k
  }

  lemma Counterpart(t: Table, k: int, u: Table, j: int)
    requires CleanTable(t) && CleanTable(u) && Sound(t) && Sound(u) && Unforked(t)
    requires k in t && Unclaimed(t, k) && k in u && u[k].rowHash == t[k].rowHash && j in t
    ensures var p := AtDepth(u, k, Depth(t[j].rowHash)); p in u && u[p] == t[j]
  {
    hide HashOf, LinkBroken, Path;
    EndOfChain(t, k, j);
    EqualHashEqualHistory(t, k, u, k);
  }

  /** The rows on the path to k, every other row removed. */
  ghost function CutTo(t: Table, k: int): Table
    requires Sound(t) && k in t
  {
    map j | j in t.Keys && j in Path(t, k) :: t[j]
  }

  /** Cutting a table back to one row's history leaves a table that verifies link by link:
      without an anchor, rows removed from the end are not seen. */
  lemma CutIsChain(t: Table, k: int)
    requires Sound(t) && k in t
    ensures SingleChain(CutTo(t, k), Path(t, k))
  {
    hide HashOf, LinkBroken;
    var p, u := Path(t, k), CutTo(t, k);
    forall i | 0 <= i < |p| ensures ChainLink(u, p, i) {
      PathAt(t, k, i);
      SoundAt(t, p[i]);
      assert p[i] in p;
      if i > 0 {
        PathAt(t, k, i - 1);
        assert p[i - 1] in p;
      }
    }
  }

  lemma CutVerifies(t: Table, boundary: Option<int>, k: int)
    requires Sound(t) && k in t
    ensures Intact(CutTo(t, k), boundary, None, None) && Forks(CutTo(t, k)) == {}
    ensures Intact(CutTo(t, k), boundary, None, Some(TailAnchor(t, k)))
  {
    hide HashOf, LinkBroken;
    var u := CutTo(t, k);
    CutIsChain(t, k);
    assert SingleChain(u, Path(t, k));
    IntactIsOneChain(u, boundary);
    IntactMeans(u, boundary, None);
    IntactMeans(u, boundary, Some(TailAnchor(t, k)));
    assert k == Path(t, k)[|Path(t, k)| - 1];
  }

  /** Exactly when a recorded tail vouches for the whole table: no fork is listed, and no
      row names the recorded row as its predecessor.  (The number is not hashed, so the
      row with the highest number need not be the end of the chain.) */
  lemma AnchorVouchesExactly(t: Table, k: int, boundary: Option<int>)
    requires CleanTable(t) && Intact(t, boundary, None, None) && IsTail(t, k)
    ensures Vouches(t, k, boundary) <==> Forks(t) == {} && Unclaimed(t, k)
  {
    hide HashOf, LinkBroken;
    IntactMeans(t, boundary, None);
    NoForks(t);
    if Unforked(t) && Unclaimed(t, k) {
      forall u: Table | CleanTable(u) && Intact(u, boundary, None, Some(TailAnchor(t, k)))
        ensures Covers(t, u)
      {
        IntactMeans(u, boundary, Some(TailAnchor(t, k)));
        HeldAnchorCovers(t, k, u);
      }
    } else {
      CutDoesNotCover(t, k, boundary);
    }
  }

  /** The cut at a tail some row is not before: it verifies, holds the anchor and lacks that row. */
  lemma CutDoesNotCover(t: Table, k: int, boundary: Option<int>)
    requires CleanTable(t) && Intact(t, boundary, None, None) && IsTail(t, k)
    requires !(Forks(t) == {} && Unclaimed(t, k))
    ensures !Vouches(t, k, boundary)
  {
    hide HashOf, LinkBroken, Embeds;
    IntactMeans(t, boundary, None);
    NoForks(t);
    var lost := OffPath(t, k);
    var u := CutTo(t, k);
    CutVerifies(t, boundary, k);
    assert u.Keys <= t.Keys && lost !in u.Keys;
    SubsetSize(u.Keys, t.Keys);
    assert |u| == |u.Keys| && |t| == |t.Keys|;
    if Covers(t, u) {
      var f: map<int, int> :| Embeds(t, u, f);
      CoversNeedsRoom(t, u, f);
    }
    assert CleanTable(u);
  }

  /** A fork or a claim on row k puts some row off k's path. */
  lemma OffPath(t: Table, k: int) returns (lost: int)
    requires Sound(t) && k in t && !(Unforked(t) && Unclaimed(t, k))
    ensures lost in t && lost !in Path(t, k)
  {
    hide HashOf, LinkBroken;
    if !Unclaimed(t, k) {
      lost :| lost in t && t[lost].prevHash == Some(t[k].rowHash);
      SoundAt(t, lost);
      OnPathDepth(t, k, lost);
    } else {
      var i, j :| i in t && j in t && t[i].prevHash.Some? && t[i].prevHash == t[j].prevHash && i != j;
      SoundAt(t, i);
      SoundAt(t, j);
      OnPathDepth(t, k, i);
      OnPathDepth(t, k, j);
      lost := if i in Path(t, k) then j else i;
    }
  }

  /** A row on a path stands at its depth. */
  lemma OnPathDepth(t: Table, k: int, j: int)
    requires Sound(t) && k in t && j in t
    ensures j in Path(t, k) ==> Depth(t[j].rowHash) <= |Path(t, k)| && Path(t, k)[Depth(t[j].rowHash) - 1] == j
  {
    hide HashOf, LinkBroken;
    if j in Path(t, k) {
      var i :| 0 <= i < |Path(t, k)| && Path(t, k)[i] == j;
      PathAt(t, k, i);
    }
  }

  // ---- Where the condition fails, and where it always holds ----

  /** A two-row table whose first row carries the higher number verifies in full, and its
      recorded tail does not vouch for the second row. */
  lemma RenumberedTailDoesNotVouch(p: Payload, q: Payload, boundary: Option<int>)
    requires Clean(p) && Clean(q)
    ensures var first := RowAfter(None, p);
            var t := map[2 := first, 1 := RowAfter(Some(first.rowHash), q)];
            Intact(t, boundary, None, None) && Forks(t) == {} && IsTail(t, 2) && !Vouches(t, 2, boundary)
  {
    hide HashOf;
    var first := RowAfter(None, p);
    var t := map[2 := first, 1 := RowAfter(Some(first.rowHash), q)];
    assert ChainLink(t, [2, 1], 0) && ChainLink(t, [2, 1], 1);
    assert forall k :: k in t ==> k == [2, 1][0] || k == [2, 1][1];
    assert SingleChain(t, [2, 1]);
    IntactIsOneChain(t, boundary);
    Claims(t, 1, 2);
    AnchorVouchesExactly(t, 2, boundary);
  }

  /** A ledger's rows, as a table by number. */
  function TableOf(rows: seq<LedgerProtocol.Entry>): Table {
    if rows == [] then map[]
    else
      var last := rows[|rows| - 1];
      TableOf(rows[..|rows| - 1])[last.number := last.row]
  }

  ghost predicate Rising(rows: seq<LedgerProtocol.Entry>) {
    forall i, j :: 0 <= i < j < |rows| ==> rows[i].number < rows[j].number
  }

  lemma {:induction false} TableOfAt(rows: seq<LedgerProtocol.Entry>, i: nat)
    requires Rising(rows) && i < |rows|
    ensures rows[i].number in TableOf(rows) && TableOf(rows)[rows[i].number] == rows[i].row
  {
    if i < |rows| - 1 {
      TableOfAt(rows[..|rows| - 1], i);
    }
  }

  lemma {:induction false} TableOfFrom(rows: seq<LedgerProtocol.Entry>, k: int) returns (i: nat)
    requires Rising(rows) && k in TableOf(rows)
    ensures i < |rows| && rows[i].number == k && TableOf(rows)[k] == rows[i].row
  {
    if k == rows[|rows| - 1].number {
      i := |rows| - 1;
    } else {
      i := TableOfFrom(rows[..|rows| - 1], k);
    }
  }

  lemma ChainedRising(rows: seq<LedgerProtocol.Entry>)
    requires LedgerProtocol.Chained(rows)
    ensures Rising(rows)
  {
    forall i, j | 0 <= i < j < |rows| ensures rows[i].number < rows[j].number {
      LedgerProtocol.Increasing(rows, i, j);
    }
  }

  lemma ChainedTable(rows: seq<LedgerProtocol.Entry>)
    requires LedgerProtocol.Chained(rows)
    ensures SingleChain(TableOf(rows), seq(|rows|, i requires 0 <= i < |rows| => rows[i].number))
  {
    hide HashOf, TableOf;
    ChainedRising(rows);
    var t := TableOf(rows);
    var order := seq(|rows|, i requires 0 <= i < |rows| => rows[i].number);
    forall i | 0 <= i < |order| ensures ChainLink(t, order, i) {
      assert LedgerProtocol.LinkedAt(rows, i);
      TableOfAt(rows, i);
      if i > 0 {
        TableOfAt(rows, i - 1);
      }
    }
    forall k | k in t ensures k in order {
      var i := TableOfFrom(rows, k);
      assert order[i] == k;
    }
  }

  lemma NotAfterLast(rows: seq<LedgerProtocol.Entry>, i: nat)
    requires LedgerProtocol.Chained(rows) && i < |rows|
    ensures rows[i].row.prevHash != Some(rows[|rows| - 1].row.rowHash)
  {
    hide HashOf;
    LedgerProtocol.DepthAlong(rows, |rows| - 1);
    assert LedgerProtocol.LinkedAt(rows, i);
    if i > 0 {
      LedgerProtocol.DepthAlong(rows, i - 1);
    }
  }

  lemma ChainedTail(rows: seq<LedgerProtocol.Entry>)
    requires LedgerProtocol.Chained(rows) && rows != []
    ensures var t, tail := TableOf(rows), rows[|rows| - 1].number;
            IsTail(t, tail) && Unclaimed(t, tail)
  {
    hide HashOf, TableOf, LedgerProtocol.Chained;
    ChainedRising(rows);
    TableOfAt(rows, |rows| - 1);
    var t, tail := TableOf(rows), rows[|rows| - 1].number;
    forall j | j in t ensures j <= tail && t[j].prevHash != Some(t[tail].rowHash) {
      var i := TableOfFrom(rows, j);
      NotAfterLast(rows, i);
    }
  }

  /** Every ledger the trigger at head can write verifies in full with no fork, and its
      recorded tail vouches for all of it. */
  lemma HonestLedgerVouches(s: LedgerProtocol.State, boundary: Option<int>)
    requires LedgerProtocol.Reachable(LedgerProtocol.UNDER_LOCK, s) && s.committed != []
    requires CleanTable(TableOf(s.committed))
    ensures var t := TableOf(s.committed);
            var tail := s.committed[|s.committed| - 1].number;
            Intact(t, boundary, None, None) && Forks(t) == {} && IsTail(t, tail) && Vouches(t, tail, boundary)
  {
    LedgerProtocol.ReachableInv(s);
    ChainedTable(s.committed);
    ChainedTail(s.committed);
    IntactIsOneChain(TableOf(s.committed), boundary);
    AnchorVouchesExactly(TableOf(s.committed), s.committed[|s.committed| - 1].number, boundary);
  }

  /** A history of payloads, numbered from 1 and chained afresh. */
  function Rechained(payloads: seq<Payload>): seq<LedgerProtocol.Entry> {
    if payloads == [] then []
    else
      var before := Rechained(payloads[..|payloads| - 1]);
      var prev := if before == [] then None else Some(before[|before| - 1].row.rowHash);
      before + [LedgerProtocol.Entry(|payloads|, RowAfter(prev, payloads[|payloads| - 1]))]
  }

  lemma {:induction false} RechainedLinks(payloads: seq<Payload>)
    ensures var rows := Rechained(payloads);
            && LedgerProtocol.Chained(rows)
            && |rows| == |payloads|
            && forall i :: 0 <= i < |rows| ==> rows[i].number == i + 1 && rows[i].row.payload == payloads[i]
  {
    hide HashOf;
    if payloads != [] {
      var init := payloads[..|payloads| - 1];
      RechainedLinks(init);
      var before, rows := Rechained(init), Rechained(payloads);
      LedgerProtocol.ChainedAppend(before, rows[|rows| - 1]);
    }
  }

  ghost predicate Stands(t: Table, n: int, p: Payload) {
    n in t && t[n].payload == p
  }

  /** Any history at all, chained afresh, verifies: without an anchor, rows edited and
      re-chained are not seen. */
  lemma RechainedVerifies(payloads: seq<Payload>, boundary: Option<int>)
    ensures var t := TableOf(Rechained(payloads));
            && Intact(t, boundary, None, None) && Forks(t) == {}
            && forall i :: 0 <= i < |payloads| ==> Stands(t, i + 1, payloads[i])
  {
    hide HashOf, Intact, Forks, Rechained, TableOf, Stands;
    RechainedIsIntact(payloads, boundary);
    forall i | 0 <= i < |payloads| ensures Stands(TableOf(Rechained(payloads)), i + 1, payloads[i]) {
      RechainedAt(payloads, i);
    }
  }

  lemma RechainedIsIntact(payloads: seq<Payload>, boundary: Option<int>)
    ensures var t := TableOf(Rechained(payloads)); Intact(t, boundary, None, None) && Forks(t) == {}
  {
    hide HashOf, LinkBroken, Breaks, Forks, Rechained, TableOf, LedgerProtocol.Chained;
    RechainedLinks(payloads);
    ChainedTable(Rechained(payloads));
    IntactIsOneChain(TableOf(Rechained(payloads)), boundary);
  }

  lemma RechainedAt(payloads: seq<Payload>, i: nat)
    requires i < |payloads|
    ensures Stands(TableOf(Rechained(payloads)), i + 1, payloads[i])
  {
    hide HashOf, Rechained, TableOf;
    var rows := Rechained(payloads);
    RechainedLinks(payloads);
    ChainedRising(rows);
    TableOfAt(rows, i);
  }
}

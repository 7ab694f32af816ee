/** Keyset pagination over (updated_at, id) descending, with a cursor that keeps only the
    milliseconds of a microsecond timestamp, and the DLQ listing built on it. */
module Paging {
  import opened Rows
  import Protocol
  import Fencing
  import Arith

  /** A listed delivery; `at` is updated_at in microseconds. */
  datatype Item = Item(id: nat, at: nat, status: Status, endpoint: nat, created: nat)

  /** No status means any status. */
  datatype Filter = Filter(statuses: set<Status>, endpoint: Option<nat>, from: Option<nat>, to: Option<nat>)

  predicate Matches(f: Filter, x: Item) {
    && (f.statuses != {} ==> x.status in f.statuses)
    && (f.endpoint.Some? ==> x.endpoint == f.endpoint.value)
    && (f.from.Some? ==> f.from.value <= x.created)
    && (f.to.Some? ==> x.created <= f.to.value)
  }

  /** Listed earlier means larger. */
  predicate Less(at: nat, id: nat, at': nat, id': nat) {
    at < at' || (at == at' && id < id')
  }

  predicate Before(x: Item, y: Item) {
    Less(y.at, y.id, x.at, x.id)
  }

  datatype Cursor = Cursor(ms: nat, id: nat)

  /** `toISOString` drops what is below the millisecond. */
  function CursorOf(x: Item): Cursor {
    Cursor(x.at / 1000, x.id)
  }

  predicate Below(x: Item, c: Option<Cursor>) {
    c.Some? ==> Less(x.at, x.id, c.value.ms * 1000, c.value.id)
  }

  function Eligible(table: set<Item>, f: Filter, c: Option<Cursor>): set<Item> {
    set x | x in table && Matches(f, x) && Below(x, c)
  }

  // ----- one page -----

  ghost predicate Descending(page: seq<Item>) {
    forall i, j | 0 <= i < j < |page| :: Before(page[i], page[j])
  }

  /** The first `limit` eligible rows in order, and whether there are more. */
  ghost predicate IsPage(eligible: set<Item>, limit: nat, page: seq<Item>, hasMore: bool) {
    && Descending(page) && |page| <= limit
    && (forall i | 0 <= i < |page| :: page[i] in eligible)
    && (forall x | x in eligible && x !in page :: |page| == limit && forall i | 0 <= i < |page| :: Before(page[i], x))
    && (hasMore <==> exists x :: x in eligible && x !in page)
  }

  /** What the query with LIMIT limit + 1 and the slice return, given the whole answer. */
  function Slice(sorted: seq<Item>, limit: nat): (seq<Item>, bool) {
    var rows := if |sorted| > limit + 1 then sorted[..limit + 1] else sorted;
    (if |rows| > limit then rows[..limit] else rows, |rows| > limit)
  }

  lemma SliceIsPage(eligible: set<Item>, sorted: seq<Item>, limit: nat)
    requires Descending(sorted) && forall x :: x in eligible <==> x in sorted
    ensures var (page, hasMore) := Slice(sorted, limit); IsPage(eligible, limit, page, hasMore)
  {
    var (page, hasMore) := Slice(sorted, limit);
    assert forall i | 0 <= i < |page| :: page[i] == sorted[i] && page[i] in page;
    forall x | x in eligible && x !in page
      ensures |page| == limit && forall i | 0 <= i < |page| :: Before(page[i], x)
    {
      var k :| 0 <= k < |sorted| && sorted[k] == x;
    }
    if hasMore {
      assert sorted[limit] in eligible && sorted[limit] !in page;
    }
  }

  // ----- a walk over a changing table -----

  /** Page `i` was read from `tables[i]`, each from the cursor of the page before. */
  datatype Walk = Walk(f: Filter, limit: nat, tables: seq<set<Item>>, pages: seq<seq<Item>>, more: seq<bool>)

  function CursorAt(w: Walk, i: nat): Option<Cursor>
    requires i < |w.pages| && (i > 0 ==> w.pages[i - 1] != [])
  {
    if i == 0 then None else Some(CursorOf(w.pages[i - 1][|w.pages[i - 1]| - 1]))
  }

  ghost predicate PageAt(w: Walk, i: nat)
    requires i < |w.pages| && |w.tables| == |w.pages| == |w.more| && (i > 0 ==> w.pages[i - 1] != [])
  {
    IsPage(Eligible(w.tables[i], w.f, CursorAt(w, i)), w.limit, w.pages[i], w.more[i])
  }

  /** Nothing is said about what is written between the pages. */
  ghost predicate Valid(w: Walk) {
    && w.limit >= 1 && |w.tables| == |w.pages| == |w.more| && |w.pages| >= 1
    && (forall i | 0 <= i < |w.pages| - 1 :: w.more[i] && w.pages[i] != [])
    && (forall i | 0 <= i < |w.pages| :: PageAt(w, i))
  }

  /** The walk ended because the last page reported nothing more. */
  ghost predicate Complete(w: Walk) {
    Valid(w) && !w.more[|w.more| - 1]
  }

  function Last(w: Walk, i: nat): Item
    requires i < |w.pages| && w.pages[i] != []
  {
    w.pages[i][|w.pages[i]| - 1]
  }

  lemma PageBelow(w: Walk, i: nat, x: Item)
    requires Valid(w) && i < |w.pages| && x in w.pages[i]
    ensures x in w.tables[i] && Matches(w.f, x) && Below(x, CursorAt(w, i))
  {
    assert PageAt(w, i);
    var a :| 0 <= a < |w.pages[i]| && w.pages[i][a] == x;
    assert w.pages[i][a] in Eligible(w.tables[i], w.f, CursorAt(w, i));
  }

  /** A row below a truncated cursor comes after the row the cursor was made from. */
  lemma BelowIsAfter(x: Item, last: Item)
    requires Below(x, Some(CursorOf(last)))
    ensures Before(last, x)
  {
  }

  lemma LastIsLast(w: Walk, i: nat, x: Item)
    requires Valid(w) && i < |w.pages| && x in w.pages[i]
    ensures x == Last(w, i) || Before(x, Last(w, i))
  {
    assert PageAt(w, i);
  }

  /** Everything on a later page comes after the last row of an earlier page. */
  lemma {:induction false} PagesDescend(w: Walk, i: nat, j: nat, y: Item)
    requires Valid(w) && i < j < |w.pages| && y in w.pages[j]
    ensures Before(Last(w, i), y)
    decreases j - i
  {
    PageBelow(w, j, y);
    BelowIsAfter(y, Last(w, j - 1));
    if i < j - 1 {
      PagesDescend(w, i, j - 1, Last(w, j - 1));
    }
  }

  /** A walk lists rows in strictly descending order, whatever is written meanwhile and
      however fine the timestamps; so a delivery returned twice has an older stamp the
      second time. */
  lemma WalkDescends(w: Walk, i: nat, j: nat, x: Item, y: Item)
    requires Valid(w) && i < j < |w.pages| && x in w.pages[i] && y in w.pages[j]
    ensures x.at > y.at || (x.at == y.at && x.id > y.id)
    ensures Before(x, y) && x != y && (x.id == y.id ==> y.at < x.at)
  {
    PagesDescend(w, i, j, y);
    LastIsLast(w, i, x);
  }

  /** The stamp of this delivery never falls from one page's table to a later one. */
  ghost predicate StampRises(w: Walk, id: nat) {
    forall i, j, x, y | 0 <= i < j < |w.tables| && x in w.tables[i] && y in w.tables[j] && x.id == id && y.id == id ::
      x.at <= y.at
  }

  /** A delivery whose own stamp never falls is returned at most once. */
  lemma WalkNeverRepeats(w: Walk, i: nat, j: nat, x: Item, y: Item)
    requires Valid(w) && i < j < |w.pages| && x in w.pages[i] && y in w.pages[j] && StampRises(w, x.id)
    ensures Before(x, y) && x.id != y.id
  {
    WalkDescends(w, i, j, x, y);
    PageBelow(w, i, x);
    PageBelow(w, j, y);
  }

  /** The stamp is the start of the writing transaction, so it can fall; a fallen stamp below
      the cursor's millisecond makes a one-row page return the delivery again. */
  lemma FallenStampRepeats(x: Item, y: Item) returns (w: Walk)
    requires x.id == y.id && 0 < y.at < x.at / 1000 * 1000
    ensures Valid(w) && w.pages == [[x], [y]]
    ensures forall i, z | 0 <= i < |w.tables| && z in w.tables[i] && z.id != x.id :: UnmodifiedFrom(w, z, 0)
  {
    var z := Item(x.id + 1, 0, x.status, x.endpoint, x.created);
    w := Walk(Filter({}, None, None, None), 1, [{x, z}, {y, z}], [[x], [y]], [true, true]);
    assert Eligible(w.tables[0], w.f, CursorAt(w, 0)) == {x, z};
    assert z !in w.pages[0];
    assert PageAt(w, 0);
    assert Eligible(w.tables[1], w.f, CursorAt(w, 1)) == {y, z};
    assert z !in w.pages[1];
    assert PageAt(w, 1);
  }

  // ----- completeness -----

  /** Page `i`'s cursor, cut down to its millisecond, passes over `r`. */
  ghost predicate SkippedAt(w: Walk, i: nat, r: Item)
    requires i < |w.pages| && w.pages[i] != []
  {
    Before(Last(w, i), r) && !Below(r, Some(CursorOf(Last(w, i))))
  }

  /** The row matches and stands unchanged from page `i`'s table on. */
  ghost predicate UnmodifiedFrom(w: Walk, r: Item, i: nat) {
    Matches(w.f, r) && forall k | i <= k < |w.tables| :: r in w.tables[k]
  }

  ghost predicate Unmodified(w: Walk, r: Item) {
    UnmodifiedFrom(w, r, 0)
  }

  /** From page `i` on: a row still ahead is returned unless a boundary skips it. */
  lemma {:induction false} AheadIsReturned(w: Walk, r: Item, i: nat) returns (j: nat)
    requires Complete(w) && i < |w.pages| && UnmodifiedFrom(w, r, i) && Below(r, CursorAt(w, i))
    requires forall k | i <= k < |w.pages| - 1 :: !SkippedAt(w, k, r)
    ensures i <= j < |w.pages| && r in w.pages[j]
    decreases |w.pages| - i
  {
    assert PageAt(w, i);
    assert r in Eligible(w.tables[i], w.f, CursorAt(w, i));
    if r in w.pages[i] {
      j := i;
    } else {
      assert w.more[i];
      assert !SkippedAt(w, i, r);
      j := AheadIsReturned(w, r, i + 1);
    }
  }

  /** A returned row was skipped by no boundary. */
  lemma ReturnedNotSkipped(w: Walk, r: Item, j: nat, i: nat)
    requires Complete(w) && j < |w.pages| && r in w.pages[j] && i < |w.pages| - 1
    ensures !SkippedAt(w, i, r)
  {
    PageBelow(w, j, r);
    if i >= j {
      LastIsLast(w, j, r);
      if i > j {
        PagesDescend(w, j, i, Last(w, i));
      }
    } else if i < j - 1 {
      CursorsFall(w, i, j - 1);
    }
  }

  /** Later cursors are lower. */
  lemma {:induction false} CursorsFall(w: Walk, i: nat, j: nat)
    requires Valid(w) && i < j < |w.pages| - 1
    ensures forall r: Item | Below(r, Some(CursorOf(Last(w, j)))) :: Below(r, Some(CursorOf(Last(w, i))))
    decreases j
  {
    PageBelow(w, j, Last(w, j));
    forall r: Item | Below(r, Some(CursorOf(Last(w, j))))
      ensures Below(r, Some(CursorOf(Last(w, j - 1))))
    {
      BelowIsAfter(r, Last(w, j));
    }
    if i < j - 1 {
      CursorsFall(w, i, j - 1);
    }
  }

  /** A row written before page `i` and left alone since is returned from page `i` on if and
      only if it is still ahead of the cursor and no page boundary skips it. */
  lemma ReturnedFromIff(w: Walk, r: Item, i: nat)
    requires Complete(w) && i < |w.pages| && UnmodifiedFrom(w, r, i)
    ensures (exists j :: i <= j < |w.pages| && r in w.pages[j])
            <==> Below(r, CursorAt(w, i)) && forall k | i <= k < |w.pages| - 1 :: !SkippedAt(w, k, r)
  {
    if j :| i <= j < |w.pages| && r in w.pages[j] {
      forall k | i <= k < |w.pages| - 1
        ensures !SkippedAt(w, k, r)
      {
        ReturnedNotSkipped(w, r, j, k);
      }
      AheadBefore(w, r, i, j);
    } else if Below(r, CursorAt(w, i)) && forall k | i <= k < |w.pages| - 1 :: !SkippedAt(w, k, r) {
      var j := AheadIsReturned(w, r, i);
    }
  }

  /** A row returned on page `j` was ahead of every earlier cursor. */
  lemma AheadBefore(w: Walk, r: Item, i: nat, j: nat)
    requires Valid(w) && i <= j < |w.pages| && r in w.pages[j]
    ensures Below(r, CursorAt(w, i))
  {
    PageBelow(w, j, r);
    if 0 < i < j {
      CursorsFall(w, i - 1, j - 1);
      assert Below(r, Some(CursorOf(Last(w, j - 1))));
    }
  }

  /** A row left alone during a complete walk is returned if and only if no page boundary
      skips it, whatever happens to other rows. */
  lemma ReturnedIffNotSkipped(w: Walk, r: Item)
    requires Complete(w) && Unmodified(w, r)
    ensures (exists j :: 0 <= j < |w.pages| && r in w.pages[j])
            <==> (forall i | 0 <= i < |w.pages| - 1 :: !SkippedAt(w, i, r))
  {
    ReturnedFromIff(w, r, 0);
  }

  /** Every row of a page has one of the statuses asked for, if any are, the endpoint asked
      for, if one is, and was created within the bounds given. */
  lemma PageRespectsFilter(w: Walk, i: nat, x: Item)
    requires Valid(w) && i < |w.pages| && x in w.pages[i]
    ensures w.f.statuses == {} || x.status in w.f.statuses
    ensures w.f.endpoint.None? || w.f.endpoint == Some(x.endpoint)
    ensures w.f.from.Some? ==> x.created >= w.f.from.value
    ensures w.f.to.Some? ==> x.created <= w.f.to.value
  {
    PageBelow(w, i, x);
  }

  /** Conversely a row with these properties, left alone during a complete walk and skipped
      by no page boundary, is returned. */
  lemma FilteredIsReturned(w: Walk, r: Item) returns (j: nat)
    requires Complete(w) && forall k | 0 <= k < |w.tables| :: r in w.tables[k]
    requires w.f.statuses == {} || r.status in w.f.statuses
    requires w.f.endpoint.None? || w.f.endpoint == Some(r.endpoint)
    requires w.f.from.Some? ==> r.created >= w.f.from.value
    requires w.f.to.Some? ==> r.created <= w.f.to.value
    requires forall i | 0 <= i < |w.pages| - 1 :: !SkippedAt(w, i, r)
    ensures j < |w.pages| && r in w.pages[j]
  {
    j := AheadIsReturned(w, r, 0);
  }

  /** The only skipped rows share the millisecond of a page boundary. */
  lemma SkippedSharesMillisecond(w: Walk, i: nat, r: Item)
    requires i < |w.pages| && w.pages[i] != [] && SkippedAt(w, i, r)
    ensures r.at / 1000 == Last(w, i).at / 1000 && (r.at % 1000 != 0 || Last(w, i).at % 1000 != 0)
  {
    var a := Last(w, i).at;
    assert a / 1000 * 1000 <= r.at <= a;
  }

  /** With millisecond timestamps a complete walk returns every row left alone. */
  lemma MillisecondWalkComplete(w: Walk, r: Item) returns (j: nat)
    requires Complete(w) && Unmodified(w, r)
    requires forall i, x | 0 <= i < |w.tables| && x in w.tables[i] :: x.at % 1000 == 0
    ensures j < |w.pages| && r in w.pages[j]
  {
    forall i | 0 <= i < |w.pages| - 1
      ensures !SkippedAt(w, i, r)
    {
      PageBelow(w, i, Last(w, i));
      var a := Last(w, i).at;
      assert a / 1000 * 1000 == a;
    }
    j := AheadIsReturned(w, r, 0);
  }

  /** Any two rows of one millisecond, the later one not on the millisecond or the other one
      with the larger id, make a one-row page lose the other: the walk ends at once. */
  lemma WalkLosesRow(x: Item, y: Item) returns (w: Walk)
    requires x.id != y.id && Before(x, y) && !Below(y, Some(CursorOf(x)))
    ensures Complete(w) && w.limit == 1 && Unmodified(w, x) && Unmodified(w, y)
    ensures w.tables == [{x, y}, {x, y}] && w.pages == [[x], []]
    ensures forall j | 0 <= j < |w.pages| :: y !in w.pages[j]
  {
    w := Walk(Filter({}, None, None, None), 1, [{x, y}, {x, y}], [[x], []], [true, false]);
    assert y in Eligible(w.tables[0], w.f, None) && y !in w.pages[0];
    assert PageAt(w, 0);
    assert Eligible(w.tables[1], w.f, CursorAt(w, 1)) == {};
    assert PageAt(w, 1);
  }

  /** So the listing does lose rows: 1.5 ms and 1.2 ms, one row per page. */
  lemma MicrosecondWalkLosesRow() returns (w: Walk, r: Item)
    ensures Complete(w) && Unmodified(w, r) && r.id == 2 && r.at == 1200
    ensures !exists j :: 0 <= j < |w.pages| && r in w.pages[j]
  {
    r := Item(2, 1200, Dlq, 0, 0);
    w := WalkLosesRow(Item(1, 1500, Dlq, 0, 0), r);
  }

  // ----- termination -----

  function Items(page: seq<Item>): set<Item> {
    set x | x in page
  }

  /** The rows of the first `n` pages. */
  ghost function Seen(w: Walk, n: nat): set<Item>
    requires n <= |w.pages|
  {
    if n == 0 then {} else Seen(w, n - 1) + Items(w.pages[n - 1])
  }

  lemma {:induction false} SeenIn(w: Walk, n: nat, x: Item)
    requires n <= |w.pages|
    ensures x in Seen(w, n) <==> exists i :: 0 <= i < n && x in w.pages[i]
  {
    if n > 0 {
      SeenIn(w, n - 1, x);
    }
  }

  lemma {:induction false} DescendingSize(page: seq<Item>)
    requires Descending(page)
    ensures |Items(page)| == |page|
  {
    if page != [] {
      var front := page[..|page| - 1];
      DescendingSize(front);
      var last := page[|page| - 1];
      assert Items(page) == Items(front) + {last};
      assert last !in front;
    }
  }

  lemma NewRow(w: Walk, n: nat, x: Item)
    requires Valid(w) && n < |w.pages| && x in w.pages[n] && w.pages[n] != []
    ensures x !in Seen(w, n)
  {
    SeenIn(w, n, x);
    if i :| 0 <= i < n && x in w.pages[i] {
      WalkDescends(w, i, n, x, x);
    }
  }

  lemma FullPage(w: Walk, n: nat)
    requires Valid(w) && n < |w.pages| - 1
    ensures |Items(w.pages[n])| == w.limit
  {
    assert PageAt(w, n) && w.more[n];
    DescendingSize(w.pages[n]);
  }

  lemma DisjointSizes(a: set<Item>, b: set<Item>)
    requires a !! b
    ensures |a + b| == |a| + |b|
  {
  }

  /** n times k, by addition. */
  function Total(n: nat, k: nat): nat {
    if n == 0 then 0 else Total(n - 1, k) + k
  }

  lemma {:induction false} TotalIsProduct(n: nat, k: nat)
    ensures Total(n, k) == n * k
  {
    if n > 0 {
      TotalIsProduct(n - 1, k);
      Arith.OneMore(n, k);
    }
  }

  /** Page `n` is full of rows of `all` that no earlier page had. */
  ghost predicate NewFullPage(w: Walk, n: nat, all: set<Item>)
    requires n < |w.pages|
  {
    |Items(w.pages[n])| == w.limit && Items(w.pages[n]) !! Seen(w, n) && Items(w.pages[n]) <= all
  }

  /** Full pages of pairwise different rows add up. */
  lemma {:induction false} SeenCounts(w: Walk, n: nat, all: set<Item>)
    requires n <= |w.pages| && forall i | 0 <= i < n :: NewFullPage(w, i, all)
    ensures |Seen(w, n)| == Total(n, w.limit) && Seen(w, n) <= all
  {
    if n > 0 {
      SeenCounts(w, n - 1, all);
      assert NewFullPage(w, n - 1, all);
      DisjointSizes(Seen(w, n - 1), Items(w.pages[n - 1]));
    }
  }

  lemma SeenFits(w: Walk, n: nat, all: set<Item>)
    requires n <= |w.pages| && forall i | 0 <= i < n :: NewFullPage(w, i, all)
    ensures Total(n, w.limit) <= |all|
  {
    SeenCounts(w, n, all);
    SetSubsetSize(Seen(w, n), all);
  }

  /** All pages but the last are full of different rows, so their number is bounded by the
      rows they are drawn from. */
  lemma WalkWithin(w: Walk, all: set<Item>)
    requires Valid(w) && forall n, x | 0 <= n < |w.pages| - 1 && x in w.pages[n] :: x in all
    ensures |w.pages| <= |all| / w.limit + 1
  {
    forall n | 0 <= n < |w.pages| - 1
      ensures NewFullPage(w, n, all)
    {
      FullPage(w, n);
      forall x | x in Items(w.pages[n])
        ensures x !in Seen(w, n)
      {
        NewRow(w, n, x);
      }
    }
    SeenFits(w, |w.pages| - 1, all);
    TotalIsProduct(|w.pages| - 1, w.limit);
    Arith.FitsQuotient(|w.pages| - 1, |all|, w.limit);
  }

  /** Every row that some page's table held. */
  ghost function AllRows(w: Walk, n: nat): set<Item>
    requires n <= |w.tables|
  {
    if n == 0 then {} else AllRows(w, n - 1) + w.tables[n - 1]
  }

  lemma {:induction false} InAllRows(w: Walk, n: nat, i: nat, x: Item)
    requires i < n <= |w.tables| && x in w.tables[i]
    ensures x in AllRows(w, n)
  {
    if i < n - 1 {
      InAllRows(w, n - 1, i, x);
    }
  }

  /** A walk ends: it has at most one page more than its limit fits into the rows that were
      there at any time during the walk. */
  lemma WalkTerminates(w: Walk)
    requires Valid(w)
    ensures |w.pages| <= |AllRows(w, |w.tables|)| / w.limit + 1
  {
    forall n, x | 0 <= n < |w.pages| - 1 && x in w.pages[n]
      ensures x in AllRows(w, |w.tables|)
    {
      PageBelow(w, n, x);
      InAllRows(w, |w.tables|, n, x);
    }
    WalkWithin(w, AllRows(w, |w.tables|));
  }

  /** What a later table has and the first one has not is listed before the first page's end. */
  ghost predicate LaterStamped(w: Walk)
    requires |w.pages| >= 1 && (|w.pages| > 1 ==> w.pages[0] != [])
  {
    forall i, x | 0 < i < |w.tables| && |w.pages| > 1 && x in w.tables[i] && x !in w.tables[0] ::
      Before(x, Last(w, 0))
  }

  /** If what is written meanwhile is stamped later than the first page, the first table
      bounds the walk. */
  lemma WalkEndsInFirstTable(w: Walk)
    requires Valid(w) && LaterStamped(w)
    ensures |w.pages| <= |w.tables[0]| / w.limit + 1
  {
    forall n, x | 0 <= n < |w.pages| - 1 && x in w.pages[n]
      ensures x in w.tables[0]
    {
      PageBelow(w, n, x);
      if n > 0 {
        PagesDescend(w, 0, n, x);
      }
    }
    WalkWithin(w, w.tables[0]);
  }

  lemma SetSubsetSize(a: set<Item>, b: set<Item>)
    requires a <= b
    ensures |a| <= |b|
  {
    assert b == a + (b - a);
  }

  // ----- the DLQ listing -----

  /** A delivery as the listing joins it. */
  datatype Entry = Entry(row: Row, endpoint: nat, created: nat)

  function ItemOf(id: nat, e: Entry): Item {
    Item(id, e.row.updatedAt, e.row.status, e.endpoint, e.created)
  }

  function Table(db: map<nat, Entry>): set<Item> {
    set id | id in db :: ItemOf(id, db[id])
  }

  /** The lateral join: the time of the latest row into the DLQ. */
  function EnteredAt(ts: seq<Transition>): Option<nat> {
    if ts == [] then None
    else if ts[|ts| - 1].to.Dlq? then Some(ts[|ts| - 1].at)
    else EnteredAt(ts[..|ts| - 1])
  }

  /** What `listDlq` selects: an inner join drops a row without a match. */
  function DlqEligible(db: map<nat, Entry>, c: Option<Cursor>): set<Item> {
    set id | id in db && db[id].row.status.Dlq? && EnteredAt(db[id].row.transitions).Some?
             && Below(ItemOf(id, db[id]), c) :: ItemOf(id, db[id])
  }

  /** The listed item carries the delivery's own columns. */
  predicate Lists(x: Item, e: Entry) {
    x.at == e.row.updatedAt && x.status == e.row.status && x.endpoint == e.endpoint && x.created == e.created
  }

  lemma JoinLosesNothing(db: map<nat, Entry>, c: Option<Cursor>)
    requires forall id | id in db :: Current(db[id].row)
    ensures DlqEligible(db, c) == Eligible(Table(db), Filter({Dlq}, None, None, None), c)
    ensures forall id | id in db && db[id].row.status.Dlq? ::
              var ts := db[id].row.transitions; ts != [] && EnteredAt(ts) == Some(ts[|ts| - 1].at)
    ensures forall x | x in DlqEligible(db, c) :: x.id in db && Lists(x, db[x.id])
  {
  }

  /** In every reachable database the join loses nothing: `listDlq` selects what `list`
      selects for status DLQ, and dlq_entered_at is the time of the last transition. */
  lemma DlqListingLosesNothing(cfgs: map<nat, Protocol.Config>, runs: map<nat, Protocol.Run>, db: map<nat, Entry>,
                               c: Option<Cursor>)
    requires db.Keys == runs.Keys == cfgs.Keys
    requires forall id | id in db :: db[id].row == Protocol.After(cfgs[id], runs[id]).row
    ensures DlqEligible(db, c) == Eligible(Table(db), Filter({Dlq}, None, None, None), c)
    ensures forall id | id in db && db[id].row.status.Dlq? ::
              var ts := db[id].row.transitions; ts != [] && EnteredAt(ts) == Some(ts[|ts| - 1].at)
    ensures forall x | x in DlqEligible(db, c) :: x.id in db && Lists(x, db[x.id])
  {
    forall id | id in db
      ensures Current(db[id].row)
    {
      Fencing.Reachable(cfgs[id], runs[id]);
    }
    JoinLosesNothing(db, c);
  }
}

/** The trace exporter: pages of the usage listing are read newest first until the cursor is met, and the
    oldest rows above the cursor are exported. New rows may arrive at the head between two page reads. */
module TraceExporter {
  import opened Options

  // A usage row; `exportable` is what the skip filters decide about it.
  datatype Row = Row(id: int, exportable: bool)

  // ---------- one scan ----------

  predicate AtCursor(row: Row, lastId: int) {
    0 < row.id <= lastId
  }

  /** A page that ends the scan: short, or reaching down to the cursor. */
  predicate Ends(page: seq<Row>, lastId: int, size: nat) {
    |page| == 0 || |page| < size || exists i :: 0 <= i < |page| && AtCursor(page[i], lastId)
  }

  /** How many pages are read. */
  function Read(pages: seq<seq<Row>>, lastId: int, size: nat): (n: nat)
    ensures n <= |pages| && (n < |pages| ==> n > 0 && Ends(pages[n - 1], lastId, size))
    ensures forall k :: 0 <= k < n - 1 ==> !Ends(pages[k], lastId, size)
  {
    if pages == [] then 0
    else if Ends(pages[0], lastId, size) then 1
    else
      var n := Read(pages[1..], lastId, size);
      assert forall k :: 0 < k < |pages| ==> pages[k] == pages[1..][k - 1];
      n + 1
  }

  predicate Reached(pages: seq<seq<Row>>, lastId: int, size: nat) {
    var n := Read(pages, lastId, size);
    n > 0 && Ends(pages[n - 1], lastId, size)
  }

  // Some row of the first n pages carries this id above the cursor.
  predicate Above(pages: seq<seq<Row>>, n: nat, lastId: int, id: int)
    requires n <= |pages|
  {
    id > lastId && id > 0 && exists k, i :: 0 <= k < n && 0 <= i < |pages[k]| && pages[k][i].id == id
  }

  ghost predicate Increasing(rows: seq<Row>) {
    forall i, j :: 0 <= i < j < |rows| ==> rows[i].id < rows[j].id
  }

  datatype Fetch = Logs(rows: seq<Row>, reached: bool) | Capped

  ghost predicate CandidateIds(pages: seq<seq<Row>>, lastId: int, size: nat, ids: set<int>) {
    forall id :: id in ids <==> Above(pages, Read(pages, lastId, size), lastId, id)
  }

  // The batch: the lowest candidates in increasing order, at most `batch` of them.
  ghost predicate Lowest(rows: seq<Row>, ids: set<int>, batch: nat) {
    && Increasing(rows) && |rows| == (if |ids| <= batch then |ids| else batch)
    && (forall i :: 0 <= i < |rows| ==> rows[i].id in ids)
    && (forall id, i :: id in ids && 0 <= i < |rows| && id <= rows[i].id ==> exists j ::
      0 <= j < |rows| && rows[j].id == id)
  }

  /** Everything the first n pages list, in the order in which it is read. */
  function Scanned(pages: seq<seq<Row>>, n: nat): seq<Row>
    requires n <= |pages|
  {
    if n == 0 then [] else Scanned(pages, n - 1) + pages[n - 1]
  }

  // The row as it was read last under its id.
  predicate LastIn(rows: seq<Row>, row: Row) {
    exists i :: 0 <= i < |rows| && rows[i] == row && forall j :: i < j < |rows| ==> rows[j].id != row.id
  }

  lemma LastOfMore(rows: seq<Row>, next: Row, row: Row)
    ensures row == next ==> LastIn(rows + [next], row)
    ensures LastIn(rows, row) && next.id != row.id ==> LastIn(rows + [next], row)
  {
    if row == next {
      assert (rows + [next])[|rows|] == row;
    } else if LastIn(rows, row) && next.id != row.id {
      var i :| 0 <= i < |rows| && rows[i] == row && forall j :: i < j < |rows| ==> rows[j].id != row.id;
      assert (rows + [next])[i] == row;
    }
  }

  /** The rows of a map of candidates in increasing id order. */
  method SortById(byId: map<int, Row>) returns (rows: seq<Row>)
    requires forall id :: id in byId ==> byId[id].id == id
    ensures Increasing(rows) && |rows| == |byId.Keys|
    ensures forall id :: id in byId <==> exists i :: 0 <= i < |rows| && rows[i].id == id
    ensures forall i :: 0 <= i < |rows| ==> rows[i].id in byId && rows[i] == byId[rows[i].id]
  {
    rows := [];
    var left := byId.Keys;
    while |left| > 0
      invariant left <= byId.Keys && |rows| + |left| == |byId.Keys|
      invariant Increasing(rows) && forall i, id :: 0 <= i < |rows| && id in left ==> rows[i].id < id
      invariant forall i :: 0 <= i < |rows| ==> rows[i].id in byId && rows[i] == byId[rows[i].id]
      invariant forall id :: id in byId ==> id in left || exists i :: 0 <= i < |rows| && rows[i].id == id
      decreases |left|
    {
      var least := Least(left);
      ghost var before := rows;
      rows := rows + [byId[least]];
      left := left - {least};
      assert rows[|rows| - 1].id == least;
      assert forall i :: 0 <= i < |before| ==> rows[i] == before[i];
    }
  }

  lemma NotEmpty(ids: set<int>)
    requires |ids| > 0
    ensures exists id :: id in ids
  {
    assert (forall id :: id !in ids) ==> ids == {};
  }

  method Least(ids: set<int>) returns (least: int)
    requires |ids| > 0
    ensures least in ids && forall id :: id in ids ==> least <= id
  {
    NotEmpty(ids);
    least :| least in ids;
    var left := ids - {least};
    while |left| > 0
      invariant left <= ids && least in ids && forall id :: id in ids && id !in left ==> least <= id
      decreases |left|
    {
      NotEmpty(left);
      var id :| id in left;
      left := left - {id};
      if id < least {
        least := id;
      }
    }
  }

  method TakePage(pages: seq<seq<Row>>, page: nat, lastId: int, before: map<int, Row>)
    returns (byId: map<int, Row>, met: bool)
    requires page < |pages| && Collected(pages, page, lastId, before) && lastId >= 0
    requires AsListed(Scanned(pages, page), before)
    ensures Collected(pages, page + 1, lastId, byId) && AsListed(Scanned(pages, page + 1), byId)
    ensures met <==> exists i :: 0 <= i < |pages[page]| && AtCursor(pages[page][i], lastId)
  {
    var items := pages[page];
    byId, met := before, false;
    assert Scanned(pages, page) + items[..0] == Scanned(pages, page);
    for i := 0 to |items|
      invariant met <==> exists j :: 0 <= j < i && AtCursor(items[j], lastId)
      invariant CollectedPart(pages, page, i, lastId, byId)
      invariant AsListed(Scanned(pages, page) + items[..i], byId)
    {
      var row := items[i];
      ghost var was := byId;
      if row.id > 0 {
        if row.id <= lastId {
          assert AtCursor(items[i], lastId);
          met := true;
        } else {
          byId := byId[row.id := row];
        }
      }
      ListOneMore(Scanned(pages, page) + items[..i], row, was, byId);
      assert Scanned(pages, page) + items[..i] + [row] == Scanned(pages, page) + items[..i + 1];
      forall id
        ensures AboveIn(items, i + 1, lastId, id) <==>
          AboveIn(items, i, lastId, id) || (id == row.id && id > lastId && id > 0)
      {
        assert items[i] == row;
      }
    }
    forall id
      ensures Above(pages, page + 1, lastId, id) <==>
        Above(pages, page, lastId, id) || AboveIn(items, |items|, lastId, id)
    {
    }
    assert items[..|items|] == items;
  }

  // Every candidate is a row as read, the last of its id.
  predicate AsListed(rows: seq<Row>, byId: map<int, Row>) {
    forall id :: id in byId ==> byId[id].id == id && LastIn(rows, byId[id])
  }

  lemma ListOneMore(rows: seq<Row>, next: Row, before: map<int, Row>, after: map<int, Row>)
    requires AsListed(rows, before)
    requires after == before[next.id := next] || (after == before && next.id !in before)
    ensures AsListed(rows + [next], after)
  {
    forall id | id in after ensures after[id].id == id && LastIn(rows + [next], after[id]) {
      LastOfMore(rows, next, after[id]);
    }
  }

  // The rows are rows of the listing, each as it was read last.
  predicate Genuine(scanned: seq<Row>, rows: seq<Row>) {
    forall i :: 0 <= i < |rows| ==> LastIn(scanned, rows[i])
  }

  /** Reads pages until the cursor is met and returns the batch above it, each row as it was listed last;
      refuses when the page limit was hit first and the candidates do not fit one batch. */
  method FetchUsageLogs(pages: seq<seq<Row>>, lastId: int, size: nat, batch: nat) returns (fetch: Fetch, ids: set<int>)
    requires lastId >= 0
    ensures CandidateIds(pages, lastId, size, ids)
    ensures fetch.Capped? <==> !Reached(pages, lastId, size) && |ids| > batch
    ensures fetch.Logs? ==> Lowest(fetch.rows, ids, batch) && fetch.reached == Reached(pages, lastId, size)
    ensures fetch.Logs? ==> Genuine(Scanned(pages, Read(pages, lastId, size)), fetch.rows)
  {
    var byId, reached := ScanPages(pages, lastId, size);
    ids := byId.Keys;
    var candidates := SortById(byId);
    ListedAreGenuine(Scanned(pages, Read(pages, lastId, size)), byId, candidates, batch);
    hide Reached, Read, Above, LastIn, Scanned, AsListed, Genuine;
    if !reached && |candidates| > batch {
      return Capped, ids;
    }
    FirstAreLowest(candidates, ids, batch);
    hide Lowest;
    fetch := Logs(if |candidates| <= batch then candidates else candidates[..batch], reached);
  }

  lemma ListedAreGenuine(scanned: seq<Row>, byId: map<int, Row>, rows: seq<Row>, batch: nat)
    requires AsListed(scanned, byId)
    requires forall i :: 0 <= i < |rows| ==> rows[i].id in byId && rows[i] == byId[rows[i].id]
    ensures Genuine(scanned, if |rows| <= batch then rows else rows[..batch])
  {
    hide LastIn;
  }

  lemma FirstAreLowest(sorted: seq<Row>, ids: set<int>, batch: nat)
    requires Increasing(sorted) && |sorted| == |ids|
    requires forall id :: id in ids <==> exists i :: 0 <= i < |sorted| && sorted[i].id == id
    ensures Lowest(if |sorted| <= batch then sorted else sorted[..batch], ids, batch)
  {
    var rows := if |sorted| <= batch then sorted else sorted[..batch];
    forall id, i | id in ids && 0 <= i < |rows| && id <= rows[i].id
      ensures exists j :: 0 <= j < |rows| && rows[j].id == id
    {
      var k :| 0 <= k < |sorted| && sorted[k].id == id;
      assert k <= i && rows[k].id == id;
    }
  }

  /** The page loop: collects every row above the cursor until a page ends the scan. */
  method ScanPages(pages: seq<seq<Row>>, lastId: int, size: nat) returns (byId: map<int, Row>, reached: bool)
    requires lastId >= 0
    ensures Collected(pages, Read(pages, lastId, size), lastId, byId) && reached == Reached(pages, lastId, size)
    ensures AsListed(Scanned(pages, Read(pages, lastId, size)), byId)
  {
    hide Collected, Ends, Scanned, LastIn;
    byId, reached := map[], false;
    NothingCollected(pages, lastId);
    var page := 0;
    assert pages[0..] == pages;
    while page < |pages|
      invariant 0 <= page <= |pages| && !reached
      invariant Read(pages, lastId, size) == page + Read(pages[page..], lastId, size)
      invariant Collected(pages, page, lastId, byId) && AsListed(Scanned(pages, page), byId)
      invariant forall k :: 0 <= k < page ==> !Ends(pages[k], lastId, size)
    {
      assert pages[page..][0] == pages[page] && pages[page..][1..] == pages[page + 1..];
      var met;
      byId, met := TakePage(pages, page, lastId, byId);
      page := page + 1;
      EndsWhen(pages[page - 1], lastId, size);
      if |pages[page - 1]| == 0 || met || |pages[page - 1]| < size {
        reached := true;
        break;
      }
    }
  }

  lemma NothingCollected(pages: seq<seq<Row>>, lastId: int)
    ensures Collected(pages, 0, lastId, map[])
  {
  }

  lemma EndsWhen(page: seq<Row>, lastId: int, size: nat)
    ensures Ends(page, lastId, size)
      <==> |page| == 0 || |page| < size || exists i :: 0 <= i < |page| && AtCursor(page[i], lastId)
  {
  }

  predicate AboveIn(page: seq<Row>, count: nat, lastId: int, id: int)
    requires count <= |page|
  {
    id > lastId && id > 0 && exists i :: 0 <= i < count && page[i].id == id
  }

  ghost predicate CollectedPart(pages: seq<seq<Row>>, page: nat, count: nat, lastId: int, byId: map<int, Row>)
    requires page < |pages| && count <= |pages[page]|
  {
    && (forall id :: id in byId ==> byId[id].id == id)
    && (forall id :: id in byId <==> Above(pages, page, lastId, id) || AboveIn(pages[page], count, lastId, id))
  }

  ghost predicate Collected(pages: seq<seq<Row>>, page: nat, lastId: int, byId: map<int, Row>)
    requires page <= |pages|
  {
    && (forall id :: id in byId ==> byId[id].id == id)
    && (forall id :: id in byId <==> Above(pages, page, lastId, id))
  }

  // ---------- the listing behind the pages ----------

  function Min(a: nat, b: nat): nat {
    if a <= b then a else b
  }

  function PageOf(listing: seq<Row>, page: nat, size: nat): seq<Row> {
    listing[Min(page * size, |listing|)..Min((page + 1) * size, |listing|)]
  }

  ghost predicate Descending(rows: seq<Row>) {
    && (forall i :: 0 <= i < |rows| ==> rows[i].id > 0)
    && forall i, j :: 0 <= i < j < |rows| ==> rows[i].id > rows[j].id
  }

  // Rows are only ever added at the head.
  predicate Extends(newer: seq<Row>, older: seq<Row>) {
    |older| <= |newer| && newer[|newer| - |older|..] == older
  }

  /** One listing per page read, newest first in id order, growing at the head meanwhile. */
  ghost predicate Listings(listings: seq<seq<Row>>) {
    && (forall k :: 0 <= k < |listings| ==> Descending(listings[k]))
    && forall k :: 0 < k < |listings| ==> Extends(listings[k], listings[k - 1])
  }

  function Pages(listings: seq<seq<Row>>, size: nat): seq<seq<Row>> {
    seq(|listings|, k requires 0 <= k < |listings| => PageOf(listings[k], k, size))
  }

  // A row keeps its distance from the end of the listing.
  lemma {:induction false} StaysListed(listings: seq<seq<Row>>, k: nat, m: nat, i: nat)
    requires Listings(listings) && k <= m < |listings| && i < |listings[k]|
    ensures |listings[k]| <= |listings[m]| && listings[m][|listings[m]| - |listings[k]| + i] == listings[k][i]
    decreases m
  {
    if k < m {
      StaysListed(listings, k, m - 1, i);
      var older, newer := listings[m - 1], listings[m];
      assert Extends(newer, older);
      var j := |older| - |listings[k]| + i;
      assert newer[|newer| - |older|..][j] == newer[|newer| - |older| + j];
    }
  }

  // A row at or below the page about to be read is met on some later page, or stays below.
  lemma {:induction false} MetOrBelow(listings: seq<seq<Row>>, size: nat, k: nat, m: nat, i: nat)
    requires Listings(listings) && size > 0 && k <= m < |listings| && i < |listings[k]| && i >= k * size
    ensures (exists q, j ::
      k <= q <= m && 0 <= j < |PageOf(listings[q], q, size)| && PageOf(listings[q], q, size)[j] == listings[k][i])
      || |listings[m]| - |listings[k]| + i >= (m + 1) * size
    decreases m - k
  {
    if i < (k + 1) * size {
      assert PageOf(listings[k], k, size)[i - k * size] == listings[k][i];
    } else if k < m {
      var i' := |listings[k + 1]| - |listings[k]| + i;
      StaysListed(listings, k, k + 1, i);
      MetOrBelow(listings, size, k + 1, m, i');
    }
  }

  // ---------- no gap ----------

  predicate Carries(rows: seq<Row>, id: int) {
    exists i :: 0 <= i < |rows| && rows[i].id == id
  }

  // The batch moves the cursor at least to this id.
  predicate Passes(rows: seq<Row>, id: int) {
    exists i :: 0 <= i < |rows| && id <= rows[i].id
  }

  /** Every row above the old cursor and not above the new one is in the batch. */
  ghost predicate NoGap(window: seq<Row>, lastId: int, rows: seq<Row>) {
    forall i :: 0 <= i < |window| && window[i].id > lastId && Passes(rows, window[i].id) ==> Carries(rows, window[i].id)
  }

  /** Below the last page read there is a row above the cursor that no page showed. */
  ghost predicate LeftBehind(window: seq<Row>, read: nat, size: nat, lastId: int, ids: set<int>) {
    exists i :: read * size <= i < |window| && window[i].id > lastId && window[i].id !in ids
  }

  lemma OnPage(listings: seq<seq<Row>>, size: nat, n: nat, q: nat, j: nat, lastId: int)
    requires q < n <= |listings| && j < |PageOf(listings[q], q, size)| && Listings(listings)
    requires PageOf(listings[q], q, size)[j].id > lastId
    ensures Above(Pages(listings, size), n, lastId, PageOf(listings[q], q, size)[j].id)
  {
    var page := PageOf(listings[q], q, size);
    assert Pages(listings, size)[q] == page;
    assert page[j] == listings[q][Min(q * size, |listings[q]|) + j];
    assert Pages(listings, size)[q][j].id == page[j].id;
  }

  lemma NewerIsHigher(rows: seq<Row>, i: nat, j: nat)
    requires Descending(rows) && i < |rows| && j < |rows| && rows[i].id <= rows[j].id
    ensures i >= j
  {
  }

  lemma PageRow(listing: seq<Row>, page: nat, size: nat, j: nat)
    requires j < |PageOf(listing, page, size)|
    ensures page * size + j < |listing| && PageOf(listing, page, size)[j] == listing[page * size + j]
  {
  }

  // A row no newer than one on page m was listed when page m was read, at or below that page.
  lemma ListedThen(listings: seq<seq<Row>>, size: nat, n: nat, m: nat, j: nat, i: nat) returns (k: nat)
    requires Listings(listings) && m < n <= |listings| && i < |listings[n - 1]|
    requires j < |PageOf(listings[m], m, size)| && listings[n - 1][i].id <= PageOf(listings[m], m, size)[j].id
    ensures m * size <= k < |listings[m]| && listings[m][k] == listings[n - 1][i]
    ensures |listings[m]| <= |listings[n - 1]| && i == |listings[n - 1]| - |listings[m]| + k
  {
    var window, older := listings[n - 1], listings[m];
    PageRow(older, m, size, j);
    var start := m * size;
    hide PageOf, Min;
    StaysListed(listings, m, n - 1, start + j);
    var shift := |window| - |older|;
    NewerIsHigher(window, i, shift + start + j);
    k := i - shift;
    StaysListed(listings, m, n - 1, k);
  }

  // Once a row on page m is at least as new, an unread row can only be below the last page.
  lemma PassedIsMetOrBelow(listings: seq<seq<Row>>, size: nat, lastId: int, n: nat, m: nat, j: nat, i: nat)
    requires Listings(listings) && size > 0 && m < n <= |listings| && i < |listings[n - 1]|
    requires j < |PageOf(listings[m], m, size)| && listings[n - 1][i].id <= PageOf(listings[m], m, size)[j].id
    requires listings[n - 1][i].id > lastId
    ensures Above(Pages(listings, size), n, lastId, listings[n - 1][i].id) || i >= n * size
  {
    var k := ListedThen(listings, size, n, m, j, i);
    MetOrBelow(listings, size, m, n - 1, k);
    hide Listings, PageOf, Pages, Above;
    if i < n * size {
      var q, p :| m <= q <= n - 1 && 0 <= p < |PageOf(listings[q], q, size)|
        && PageOf(listings[q], q, size)[p] == listings[m][k];
      OnPage(listings, size, n, q, p, lastId);
    }
  }

  // A scan that met the cursor has nothing above it below the last page.
  lemma ReachedLeavesNothing(listings: seq<seq<Row>>, size: nat, lastId: int, i: nat)
    requires Listings(listings) && size > 0 && Reached(Pages(listings, size), lastId, size)
    requires var n := Read(Pages(listings, size), lastId, size); i < |listings[n - 1]| && i >= n * size
    ensures var n := Read(Pages(listings, size), lastId, size); listings[n - 1][i].id <= lastId
  {
    var n := Read(Pages(listings, size), lastId, size);
    var window := listings[n - 1];
    var page := Pages(listings, size)[n - 1];
    assert page == PageOf(window, n - 1, size);
    assert |window| >= n * size && |page| == size;
    var j :| 0 <= j < |page| && AtCursor(page[j], lastId);
    assert page[j] == window[(n - 1) * size + j];
  }

  /** Main result: for every growing listing, a returned batch leaves a gap exactly when it is not empty
      and an unread row above the cursor lies below the last page. */
  lemma GapExactly(listings: seq<seq<Row>>, size: nat, lastId: int, batch: nat, rows: seq<Row>, ids: set<int>)
    requires Listings(listings) && size > 0 && |listings| > 0
    requires CandidateIds(Pages(listings, size), lastId, size, ids) && Lowest(rows, ids, batch)
    requires Reached(Pages(listings, size), lastId, size) || |ids| <= batch
    ensures var n := Read(Pages(listings, size), lastId, size);
      NoGap(listings[n - 1], lastId, rows) <==> rows == [] || !LeftBehind(listings[n - 1], n, size, lastId, ids)
  {
    var n := Read(Pages(listings, size), lastId, size);
    if rows != [] {
      if LeftBehind(listings[n - 1], n, size, lastId, ids) {
        LeftBehindIsGap(listings, size, lastId, batch, rows, ids);
      } else {
        NothingLeftIsNoGap(listings, size, lastId, batch, rows, ids);
      }
    }
  }

  lemma NothingLeftIsNoGap(listings: seq<seq<Row>>, size: nat, lastId: int, batch: nat, rows: seq<Row>, ids: set<int>)
    requires Listings(listings) && size > 0 && |listings| > 0
    requires CandidateIds(Pages(listings, size), lastId, size, ids) && Lowest(rows, ids, batch)
    requires var n := Read(Pages(listings, size), lastId, size); !LeftBehind(listings[n - 1], n, size, lastId, ids)
    ensures NoGap(listings[Read(Pages(listings, size), lastId, size) - 1], lastId, rows)
  {
    var pages := Pages(listings, size);
    var n := Read(pages, lastId, size);
    var window := listings[n - 1];
    forall i | 0 <= i < |window| && window[i].id > lastId && Passes(rows, window[i].id)
      ensures Carries(rows, window[i].id)
    {
      var r :| 0 <= r < |rows| && window[i].id <= rows[r].id;
      assert rows[r].id in ids && Above(pages, n, lastId, rows[r].id);
      var m, j :| 0 <= m < n && 0 <= j < |pages[m]| && pages[m][j].id == rows[r].id;
      PassedIsMetOrBelow(listings, size, lastId, n, m, j, i);
      assert window[i].id in ids;
    }
  }

  lemma LeftBehindIsGap(listings: seq<seq<Row>>, size: nat, lastId: int, batch: nat, rows: seq<Row>, ids: set<int>)
    requires Listings(listings) && size > 0 && |listings| > 0
    requires CandidateIds(Pages(listings, size), lastId, size, ids) && Lowest(rows, ids, batch)
    requires Reached(Pages(listings, size), lastId, size) || |ids| <= batch
    requires var n := Read(Pages(listings, size), lastId, size); LeftBehind(listings[n - 1], n, size, lastId, ids)
    ensures !NoGap(listings[Read(Pages(listings, size), lastId, size) - 1], lastId, rows)
  {
    var n := Read(Pages(listings, size), lastId, size);
    var window: seq<Row> := listings[n - 1];
    var i: nat :| n * size <= i < |window| && window[i].id > lastId && window[i].id !in ids;
    if Reached(Pages(listings, size), lastId, size) {
      ReachedLeavesNothing(listings, size, lastId, i);
    }
    LastPageIsNewer(listings, size, n, i);
    var newest := PageOf(window, n - 1, size)[0].id;
    OnPage(listings, size, n, n - 1, 0, lastId);
    hide Listings, PageOf, Pages, Above, Reached, Read;
    assert newest in ids;
    AllTaken(rows, ids, batch, newest);
    hide Lowest;
    assert Passes(rows, window[i].id);
    assert !Carries(rows, window[i].id) by { OnlyCandidates(rows, ids, batch, window[i].id); }
  }

  lemma LastPageIsNewer(listings: seq<seq<Row>>, size: nat, n: nat, i: nat)
    requires Listings(listings) && size > 0 && 0 < n <= |listings| && n * size <= i < |listings[n - 1]|
    ensures |PageOf(listings[n - 1], n - 1, size)| > 0
      && PageOf(listings[n - 1], n - 1, size)[0].id > listings[n - 1][i].id
  {
    var window := listings[n - 1];
    assert Descending(window);
    assert PageOf(window, n - 1, size)[0] == window[(n - 1) * size];
  }

  lemma OnlyCandidates(rows: seq<Row>, ids: set<int>, batch: nat, id: int)
    requires Lowest(rows, ids, batch) && id !in ids
    ensures !Carries(rows, id)
  {
  }

  function IdSet(rows: seq<Row>): set<int> {
    if rows == [] then {} else IdSet(rows[..|rows| - 1]) + {rows[|rows| - 1].id}
  }

  lemma {:induction false} IdSetMembers(rows: seq<Row>, id: int)
    ensures id in IdSet(rows) <==> Carries(rows, id)
  {
    if rows != [] {
      var init := rows[..|rows| - 1];
      IdSetMembers(init, id);
      assert forall i :: 0 <= i < |init| ==> rows[i] == init[i];
    }
  }

  lemma {:induction false} IdSetSize(rows: seq<Row>)
    requires forall i, j :: 0 <= i < j < |rows| ==> rows[i].id != rows[j].id
    ensures |IdSet(rows)| == |rows|
  {
    if rows != [] {
      var init := rows[..|rows| - 1];
      IdSetSize(init);
      IdSetMembers(init, rows[|rows| - 1].id);
    }
  }

  lemma AllTaken(rows: seq<Row>, ids: set<int>, batch: nat, id: int)
    requires Lowest(rows, ids, batch) && |ids| <= batch && id in ids
    ensures Carries(rows, id)
  {
    IdSetSize(rows);
    forall x | x in IdSet(rows)
      ensures x in ids
    {
      IdSetMembers(rows, x);
    }
    SameSize(IdSet(rows), ids);
    IdSetMembers(rows, id);
  }

  lemma SameSize(a: set<int>, b: set<int>)
    requires a <= b && |a| == |b|
    ensures a == b
  {
    assert |b - a| == |b| - |a|;
  }

  lemma HeadCount(head: seq<Row>, ids: set<int>)
    requires Descending(head) && forall i :: 0 <= i < |head| ==> head[i].id in ids
    ensures |head| <= |ids|
  {
    IdSetSize(head);
    forall x | x in IdSet(head)
      ensures x in ids
    {
      IdSetMembers(head, x);
    }
    SubsetSize(IdSet(head), ids);
  }

  // Without reaching the cursor, every early row has been shown by some page.
  lemma CutOffShows(listings: seq<seq<Row>>, size: nat, lastId: int, i: nat)
    requires Listings(listings) && size > 0 && |listings| > 0 && !Reached(Pages(listings, size), lastId, size)
    requires i < |listings[0]| && |listings[|listings| - 1]| - |listings[0]| + i < |listings| * size
    ensures Above(Pages(listings, size), |listings|, lastId, listings[0][i].id)
  {
    var n := |listings|;
    MetOrBelow(listings, size, 0, n - 1, i);
    var q: nat, j: nat :| q <= n - 1 && j < |PageOf(listings[q], q, size)|
      && PageOf(listings[q], q, size)[j] == listings[0][i];
    PageNotAtCursor(listings, size, lastId, q, j);
    hide Listings, PageOf, Pages, Above, Reached;
    OnPage(listings, size, n, q, j, lastId);
  }

  lemma PageNotAtCursor(listings: seq<seq<Row>>, size: nat, lastId: int, q: nat, j: nat)
    requires Listings(listings) && size > 0 && q < |listings| && !Reached(Pages(listings, size), lastId, size)
    requires j < |PageOf(listings[q], q, size)|
    ensures PageOf(listings[q], q, size)[j].id > lastId
  {
    var pages := Pages(listings, size);
    assert pages[q] == PageOf(listings[q], q, size) && !Ends(pages[q], lastId, size);
    assert !AtCursor(pages[q][j], lastId);
    PageRow(listings[q], q, size, j);
    assert Descending(listings[q]);
  }

  // A scan cut off by the page limit has seen almost all of its rows once: repeats come from insertions only.
  lemma CutOffHasMany(listings: seq<seq<Row>>, size: nat, lastId: int, ids: set<int>)
    requires Listings(listings) && size > 0 && |listings| > 0
    requires CandidateIds(Pages(listings, size), lastId, size, ids) && !Reached(Pages(listings, size), lastId, size)
    ensures |ids| >= |listings| * size - (|listings[|listings| - 1]| - |listings[0]|)
  {
    var pages := Pages(listings, size);
    var n := |listings|;
    var first, window := listings[0], listings[n - 1];
    var inserted := |window| - |first|;
    assert Read(pages, lastId, size) == n && !Ends(pages[n - 1], lastId, size);
    assert |pages[n - 1]| == size && |window| >= n * size;
    var c := n * size - inserted;
    if c > 0 {
      var head := first[..c];
      forall i | 0 <= i < c
        ensures head[i].id in ids
      {
        CutOffShows(listings, size, lastId, i);
      }
      HeadCount(head, ids);
    }
  }

  lemma SubsetSize(a: set<int>, b: set<int>)
    requires a <= b
    ensures |a| <= |b|
  {
    assert |b - a| == |b| - |a|;
  }

  /** Main result: when the page limit times the page size exceeds the batch by more than the rows that
      arrive during the scan, every returned batch has met the cursor and leaves no gap. */
  lemma LargeWindowLeavesNoGap(listings: seq<seq<Row>>, size: nat, lastId: int, batch: nat, rows: seq<Row>,
                               ids: set<int>)
    requires Listings(listings) && size > 0 && |listings| > 0
    requires |listings| * size > batch + (|listings[|listings| - 1]| - |listings[0]|)
    requires CandidateIds(Pages(listings, size), lastId, size, ids) && Lowest(rows, ids, batch)
    requires Reached(Pages(listings, size), lastId, size) || |ids| <= batch
    ensures Reached(Pages(listings, size), lastId, size)
    ensures NoGap(listings[Read(Pages(listings, size), lastId, size) - 1], lastId, rows)
  {
    if !Reached(Pages(listings, size), lastId, size) {
      CutOffHasMany(listings, size, lastId, ids);
    }
    MetCursorLeavesNoGap(listings, size, lastId, batch, rows, ids);
  }

  /** Main result: a scan that met the cursor leaves no gap, whatever arrived meanwhile. */
  lemma MetCursorLeavesNoGap(listings: seq<seq<Row>>, size: nat, lastId: int, batch: nat, rows: seq<Row>, ids: set<int>)
    requires Listings(listings) && size > 0 && |listings| > 0 && Reached(Pages(listings, size), lastId, size)
    requires CandidateIds(Pages(listings, size), lastId, size, ids) && Lowest(rows, ids, batch)
    ensures NoGap(listings[Read(Pages(listings, size), lastId, size) - 1], lastId, rows)
  {
    var n := Read(Pages(listings, size), lastId, size);
    var window := listings[n - 1];
    forall i | n * size <= i < |window|
      ensures window[i].id <= lastId
    {
      ReachedLeavesNothing(listings, size, lastId, i);
    }
    NothingLeftIsNoGap(listings, size, lastId, batch, rows, ids);
  }

  // Two rows arrive at the head between the two page reads.
  const EARLY: seq<Row> := [Row(4, true), Row(3, true), Row(2, true), Row(1, true)]
  const LATE: seq<Row> := [Row(6, true), Row(5, true)] + EARLY

  lemma RepeatedPage()
    ensures Listings([EARLY, LATE]) && |EARLY| == 4 && |LATE| == 6
    ensures forall k :: 0 <= k < 2 ==> Pages([EARLY, LATE], 2)[k] == [Row(4, true), Row(3, true)]
  {
    var listings := [EARLY, LATE];
    assert LATE[2..] == EARLY;
    assert Pages(listings, 2)[0] == EARLY[0..2] && Pages(listings, 2)[1] == LATE[2..4];
  }

  lemma RepeatedScan(pages: seq<seq<Row>>)
    requires |pages| == 2 && forall k :: 0 <= k < 2 ==> pages[k] == [Row(4, true), Row(3, true)]
    ensures Read(pages, 0, 2) == 2 && !Reached(pages, 0, 2) && CandidateIds(pages, 0, 2, {3, 4})
  {
    var page := [Row(4, true), Row(3, true)];
    assert !Ends(page, 0, 2) && pages[1..][1..] == [];
    assert Read(pages[1..], 0, 2) == 1;
    forall id
      ensures id in {3, 4} <==> Above(pages, 2, 0, id)
    {
      assert pages[0][0].id == 4 && pages[0][1].id == 3;
    }
  }

  /** With a smaller surplus the claim fails: the second page repeats the first, the few candidates pass
      as a whole batch, and two older rows are skipped. */
  lemma RepeatedPageLeavesGap()
    ensures var rows := [Row(3, true), Row(4, true)];
      && Listings([EARLY, LATE]) && 2 * 2 > 3 && CandidateIds(Pages([EARLY, LATE], 2), 0, 2, {3, 4})
      && Lowest(rows, {3, 4}, 3) && !Reached(Pages([EARLY, LATE], 2), 0, 2)
      && !NoGap(LATE, 0, rows)
  {
    RepeatedPage();
    RepeatedScan(Pages([EARLY, LATE], 2));
    hide CandidateIds, Listings, Reached, Pages, NoGap;
    RepeatedBatch();
  }

  lemma RepeatedBatch()
    ensures Lowest([Row(3, true), Row(4, true)], {3, 4}, 3) && !NoGap(LATE, 0, [Row(3, true), Row(4, true)])
  {
    var rows := [Row(3, true), Row(4, true)];
    assert rows[0].id == 3 && rows[1].id == 4;
    assert LATE[4].id == 2 && Passes(rows, 2) && !Carries(rows, 2);
  }

  // ---------- runs of the exporter ----------

  function Exportable(rows: seq<Row>): seq<Row> {
    if rows == [] then []
    else
      var before := Exportable(rows[..|rows| - 1]);
      if rows[|rows| - 1].exportable then before + [rows[|rows| - 1]] else before
  }

  datatype Outcome = Exported(rows: seq<Row>) | BacklogTooLarge | IngestFailed

  /** The new cursor is the old one or the newest returned row, whichever is larger. */
  predicate CursorMoved(rows: seq<Row>, before: int, after: int) {
    after >= before && (forall i :: 0 <= i < |rows| ==> rows[i].id <= after)
      && (after == before || Carries(rows, after))
  }

  // Fewer than `batch` candidates lie below this one.
  ghost predicate InBatch(ids: set<int>, batch: nat, id: int) {
    id in ids && |set j | j in ids && j < id| < batch
  }

  ghost predicate ListedExportable(scanned: seq<Row>, id: int) {
    LastIn(scanned, Row(id, true))
  }

  /** The ids that a run has to export, read off the pages: those of the batch whose row, as listed last,
      passes the filters. */
  ghost function ToExport(pages: seq<seq<Row>>, lastId: int, size: nat, ids: set<int>, batch: nat): set<int> {
    set id | id in ids && InBatch(ids, batch, id) && ListedExportable(Scanned(pages, Read(pages, lastId, size)), id)
  }

  // The newest exported id, or the one exported before; without either the old cursor stands in.
  ghost predicate NewestOf(exported: set<int>, before: int, cursor: int, after: int) {
    if exported == {} then after == if before != 0 then before else cursor
    else after >= before && (forall id :: id in exported ==> id <= after) && (after == before || after in exported)
  }

  // The batch holds the candidates with fewer than `batch` below them.
  lemma BatchIsLowest(rows: seq<Row>, ids: set<int>, batch: nat, id: int)
    requires Lowest(rows, ids, batch)
    ensures Carries(rows, id) <==> InBatch(ids, batch, id)
  {
    var below := set j | j in ids && j < id;
    if Carries(rows, id) {
      var k :| 0 <= k < |rows| && rows[k].id == id;
      IdsOf(rows, k);
      assert below == set i | 0 <= i < k :: rows[i].id;
    } else if id in ids {
      IdsOf(rows, |rows|);
      var all := set i | 0 <= i < |rows| :: rows[i].id;
      forall i | 0 <= i < |rows| ensures rows[i].id in below {
        assert id <= rows[i].id ==> Carries(rows, id);
      }
      Subset(all, below);
      assert all <= ids && id !in all;
      Subset(all + {id}, ids);
    }
  }

  lemma IdsOf(rows: seq<Row>, n: nat)
    requires Increasing(rows) && n <= |rows|
    ensures |set i | 0 <= i < n :: rows[i].id| == n
  {
    if n > 0 {
      IdsOf(rows, n - 1);
      assert (set i | 0 <= i < n :: rows[i].id) == (set i | 0 <= i < n - 1 :: rows[i].id) + {rows[n - 1].id};
    }
  }

  lemma Subset(a: set<int>, b: set<int>)
    requires a <= b
    ensures |a| <= |b|
  {
    assert b == a + (b - a);
  }

  lemma {:induction false} ExportableIds(rows: seq<Row>)
    requires Increasing(rows)
    ensures var ids := set i | 0 <= i < |rows| && rows[i].exportable :: rows[i].id;
      |Exportable(rows)| == |ids| && forall id :: id in ids <==> Carries(Exportable(rows), id)
    decreases |rows|
  {
    if rows != [] {
      var n := |rows| - 1;
      var init := rows[..n];
      ExportableIds(init);
      var before := set i | 0 <= i < |init| && init[i].exportable :: init[i].id;
      var ids := set i | 0 <= i < |rows| && rows[i].exportable :: rows[i].id;
      if rows[n].exportable {
        assert ids == before + {rows[n].id};
        assert rows[n].id !in before;
        assert Exportable(rows)[|Exportable(init)|] == rows[n];
        assert forall i :: 0 <= i < |Exportable(init)| ==> Exportable(rows)[i] == Exportable(init)[i];
      } else {
        assert ids == before;
      }
    }
  }

  // Of one id the listing has one last row.
  lemma OneLast(scanned: seq<Row>, a: Row, b: Row)
    requires LastIn(scanned, a) && LastIn(scanned, b) && a.id == b.id
    ensures a == b
  {
  }

  lemma ExportsListed(pages: seq<seq<Row>>, lastId: int, size: nat, ids: set<int>, batch: nat, rows: seq<Row>)
    requires Lowest(rows, ids, batch) && Genuine(Scanned(pages, Read(pages, lastId, size)), rows)
    ensures |Exportable(rows)| == |ToExport(pages, lastId, size, ids, batch)|
    ensures forall id :: id in ToExport(pages, lastId, size, ids, batch) <==> Carries(Exportable(rows), id)
  {
    var scanned := Scanned(pages, Read(pages, lastId, size));
    var exported := set i | 0 <= i < |rows| && rows[i].exportable :: rows[i].id;
    ExportableIds(rows);
    forall id ensures id in ToExport(pages, lastId, size, ids, batch) <==> id in exported {
      BatchIsLowest(rows, ids, batch, id);
      if Carries(rows, id) {
        var k :| 0 <= k < |rows| && rows[k].id == id;
        if ListedExportable(scanned, id) {
          OneLast(scanned, rows[k], Row(id, true));
        }
      }
    }
    assert ToExport(pages, lastId, size, ids, batch) == exported;
  }

  class TraceExporter {
    var lastUsageLogId: nat
    // 0 while nothing has been exported.
    var lastExportedUsageLogId: nat
    var exportedCount: nat
    var skippedCount: nat

    constructor ()
      ensures lastUsageLogId == 0 && lastExportedUsageLogId == 0 && exportedCount == 0 && skippedCount == 0
    {
      lastUsageLogId, lastExportedUsageLogId, exportedCount, skippedCount := 0, 0, 0, 0;
    }

    /** One run: fetch, export what passes the filters, then advance the state; a refused or failed run
        leaves the state as it was. */
    method RunOnce(pages: seq<seq<Row>>, size: nat, batch: nat, ingested: bool)
      returns (outcome: Outcome, ghost ids: set<int>)
      modifies this
      ensures CandidateIds(pages, old(lastUsageLogId), size, ids)
      ensures outcome.BacklogTooLarge? <==> !Reached(pages, old(lastUsageLogId), size) && |ids| > batch
      ensures outcome.Exported? ==> Lowest(outcome.rows, ids, batch)
      ensures !outcome.Exported? ==> unchanged(this)
      ensures outcome.Exported? ==> CursorMoved(outcome.rows, old(lastUsageLogId), lastUsageLogId)
      ensures outcome.Exported? ==>
        exportedCount == old(exportedCount) + |ToExport(pages, old(lastUsageLogId), size, ids, batch)|
      ensures outcome.Exported? ==>
        exportedCount + skippedCount == old(exportedCount) + old(skippedCount) + |outcome.rows|
      ensures outcome.Exported? ==> Genuine(Scanned(pages, Read(pages, old(lastUsageLogId), size)), outcome.rows)
      ensures outcome.IngestFailed? <==>
        !outcome.BacklogTooLarge? && !ingested && ToExport(pages, old(lastUsageLogId), size, ids, batch) != {}
      ensures outcome.Exported? ==>
        NewestOf(ToExport(pages, old(lastUsageLogId), size, ids, batch), old(lastExportedUsageLogId),
                 old(lastUsageLogId), lastExportedUsageLogId)
    {
      var fetch;
      fetch, ids := FetchUsageLogs(pages, lastUsageLogId, size, batch);
      if fetch.Capped? {
        return BacklogTooLarge, ids;
      }
      var logs := fetch.rows;
      var exported := Filter(logs);
      ExportsListed(pages, lastUsageLogId, size, ids, batch, logs);
      hide Lowest, CandidateIds, Genuine, Reached, Read, Scanned, ToExport, Exportable;
      if |exported| > 0 && !ingested {
        return IngestFailed, ids;
      }
      var fallback := if lastExportedUsageLogId != 0 then lastExportedUsageLogId else lastUsageLogId;
      if |logs| > 0 {
        var newest := Newest(lastUsageLogId, logs);
        if |exported| > 0 {
          lastExportedUsageLogId := Newest(lastExportedUsageLogId, exported);
        } else {
          lastExportedUsageLogId := fallback;
        }
        lastUsageLogId := newest;
        exportedCount := exportedCount + |exported|;
        skippedCount := skippedCount + (|logs| - |exported|);
      } else {
        lastExportedUsageLogId := fallback;
      }
      outcome := Exported(logs);
    }

    method Filter(rows: seq<Row>) returns (kept: seq<Row>)
      ensures kept == Exportable(rows) && |kept| <= |rows|
      ensures forall i :: 0 <= i < |kept| ==> kept[i] in rows
    {
      kept := [];
      for i := 0 to |rows|
        invariant kept == Exportable(rows[..i]) && |kept| <= i
        invariant forall j :: 0 <= j < |kept| ==> kept[j] in rows
      {
        assert rows[..i + 1][..i] == rows[..i];
        if rows[i].exportable {
          kept := kept + [rows[i]];
        }
      }
      assert rows[..|rows|] == rows;
    }

    method Newest(floor: nat, rows: seq<Row>) returns (newest: nat)
      ensures newest >= floor && forall i :: 0 <= i < |rows| ==> rows[i].id <= newest
      ensures newest == floor || exists i :: 0 <= i < |rows| && rows[i].id == newest
    {
      newest := floor;
      for i := 0 to |rows|
        invariant newest >= floor && forall j :: 0 <= j < i ==> rows[j].id <= newest
        invariant newest == floor || exists j :: 0 <= j < i && rows[j].id == newest
      {
        if rows[i].id > newest {
          newest := rows[i].id;
        }
      }
    }
  }

  // One finished run: the listing at its last page, what it returned, and the cursor before and after.
  datatype Run = Run(window: seq<Row>, rows: seq<Row>, before: int, after: int)

  // What RunOnce and the no-gap theorems give for one run.
  ghost predicate RunKept(r: Run) {
    && NoGap(r.window, r.before, r.rows) && CursorMoved(r.rows, r.before, r.after)
    && forall i :: 0 <= i < |r.rows| ==> Carries(r.window, r.rows[i].id)
  }

  /** What RunOnce ensures makes a kept run, wherever the scan leaves no gap. */
  lemma RunIsKept(listings: seq<seq<Row>>, size: nat, lastId: nat, batch: nat, rows: seq<Row>, ids: set<int>,
                  after: int)
    requires Listings(listings) && size > 0 && |listings| > 0
    requires CandidateIds(Pages(listings, size), lastId, size, ids) && Lowest(rows, ids, batch)
      && CursorMoved(rows, lastId, after)
    requires NoGap(listings[Read(Pages(listings, size), lastId, size) - 1], lastId, rows)
    ensures RunKept(Run(listings[Read(Pages(listings, size), lastId, size) - 1], rows, lastId, after))
  {
    hide NoGap, CursorMoved;
    var n := Read(Pages(listings, size), lastId, size);
    forall i | 0 <= i < |rows|
      ensures Carries(listings[n - 1], rows[i].id)
    {
      assert rows[i].id in ids;
      ShownIsListed(listings, size, n, lastId, rows[i].id);
    }
  }

  // What a page showed is still listed at the last page.
  lemma ShownIsListed(listings: seq<seq<Row>>, size: nat, n: nat, lastId: int, id: int)
    requires Listings(listings) && size > 0 && 0 < n <= |listings| && Above(Pages(listings, size), n, lastId, id)
    ensures Carries(listings[n - 1], id)
  {
    var pages: seq<seq<Row>> := Pages(listings, size);
    var m: nat, j: nat :| m < n && j < |pages[m]| && pages[m][j].id == id;
    assert pages[m] == PageOf(listings[m], m, size);
    PageRow(listings[m], m, size, j);
    hide Pages, PageOf, Above;
    var k := m * size + j;
    StaysListed(listings, m, n - 1, k);
    hide Listings;
    StillCarried(listings[n - 1], |listings[n - 1]| - |listings[m]| + k, id);
  }

  lemma StillCarried(rows: seq<Row>, i: nat, id: int)
    requires i < |rows| && rows[i].id == id
    ensures Carries(rows, id)
  {
  }

  // Rows keep their ids and later rows have larger ones; old rows may leave the window.
  ghost predicate Later(newer: seq<Row>, older: seq<Row>) {
    forall i :: 0 <= i < |newer| ==> Carries(older, newer[i].id) || forall j :: 0 <= j < |older| ==>
      older[j].id < newer[i].id
  }

  function CursorBefore(runs: seq<Run>, start: int, k: nat): int
    requires k <= |runs|
  {
    if k == 0 then start else runs[k - 1].after
  }

  ghost predicate Linked(runs: seq<Run>, start: int, k: nat)
    requires k < |runs|
  {
    RunKept(runs[k]) && runs[k].before == CursorBefore(runs, start, k)
  }

  ghost predicate History(runs: seq<Run>, start: int) {
    && (forall k: nat :: k < |runs| ==> Linked(runs, start, k))
    && forall j, k :: 0 <= j < k < |runs| ==> Later(runs[k].window, runs[j].window)
  }

  ghost predicate Returned(runs: seq<Run>, id: int) {
    exists k :: 0 <= k < |runs| && Carries(runs[k].rows, id)
  }

  ghost predicate SetBy(runs: seq<Run>, j: nat, id: int) {
    j < |runs| && Carries(runs[j].rows, id) && runs[j].after == id
  }

  lemma {:induction false} CursorWasReturned(runs: seq<Run>, start: int, k: nat)
    requires History(runs, start) && k < |runs|
    ensures runs[k].after == start || exists j: nat :: j <= k && SetBy(runs, j, runs[k].after)
  {
    hide NoGap, Later;
    assert Linked(runs, start, k);
    if runs[k].after != runs[k].before {
      assert SetBy(runs, k, runs[k].after);
    } else if k > 0 {
      CursorWasReturned(runs, start, k - 1);
    }
  }

  // A row not newer than the cursor was in the window of the run that set it.
  lemma InEarlierWindow(runs: seq<Run>, start: int, k: nat, i: nat, j: nat)
    requires History(runs, start) && j < k < |runs| && i < |runs[k].window|
    requires SetBy(runs, j, runs[j].after) && runs[k].window[i].id <= runs[j].after
    ensures Carries(runs[j].window, runs[k].window[i].id)
  {
    hide NoGap;
    assert Later(runs[k].window, runs[j].window) && Linked(runs, start, j);
    var a :| 0 <= a < |runs[j].rows| && runs[j].rows[a].id == runs[j].after;
    assert Carries(runs[j].window, runs[j].rows[a].id);
  }

  /** Main result: over any number of runs, every row of the latest window above the first cursor and not
      above the present one has been returned by some run. */
  lemma {:induction false} RunsLeaveNoGap(runs: seq<Run>, start: int, k: nat, i: nat)
    requires History(runs, start) && k < |runs| && i < |runs[k].window|
    requires start < runs[k].window[i].id <= runs[k].after
    ensures Returned(runs, runs[k].window[i].id)
    decreases k
  {
    var id := runs[k].window[i].id;
    assert Linked(runs, start, k);
    if id > runs[k].before {
      assert Passes(runs[k].rows, id);
    } else {
      CursorWasReturned(runs, start, k - 1);
      var j: nat :| j <= k - 1 && SetBy(runs, j, runs[k - 1].after);
      InEarlierWindow(runs, start, k, i, j);
      hide History, RunKept;
      var b :| 0 <= b < |runs[j].window| && runs[j].window[b].id == id;
      RunsLeaveNoGap(runs, start, j, b);
    }
  }
}

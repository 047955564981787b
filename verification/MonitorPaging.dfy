/** Keyset paging over the monitor records, and the event stream that takes over from the first page. */
module MonitorPaging {
  import opened Wrappers
  import opened Orders

  datatype Key = Key(at: int, id: string)

  datatype Record = Record(key: Key, kind: string, status: Option<string>, session: Option<string>, title: string)

  /** The optional filters; a record without the column never matches a given value. */
  datatype Query = Query(kind: Option<string>, status: Option<string>, session: Option<string>)

  datatype Direction = Older | Newer

  /** A missing or empty cursor text, a text that does not decode, or the key it encodes. */
  datatype Cursor = Start | Malformed | At(key: Key)

  datatype Page = Page(records: seq<Record>, next: Cursor, hasMore: bool, cursors: seq<Key>)

  datatype PageError = LimitOutOfRange | InvalidCursor

  const STREAM_LIMIT := 200

  predicate Before(a: Key, b: Key) {
    a.at < b.at || (a.at == b.at && StringBefore(a.id, b.id))
  }

  predicate Earlier(a: Record, b: Record) {
    Before(a.key, b.key)
  }

  predicate Later(a: Record, b: Record) {
    Before(b.key, a.key)
  }

  function OrderOf(d: Direction): (Record, Record) -> bool {
    if d == Older then Later else Earlier
  }

  predicate Wanted(q: Query, r: Record) {
    && (q.kind.Some? ==> r.kind == q.kind.value)
    && (q.status.Some? ==> r.status == q.status)
    && (q.session.Some? ==> r.session == q.session)
  }

  predicate Beyond(c: Cursor, d: Direction, k: Key) {
    c.At? ==> if d == Older then Before(k, c.key) else Before(c.key, k)
  }

  function Candidates(table: seq<Record>, q: Query, c: Cursor, d: Direction): (r: seq<Record>)
    ensures forall x :: x in r <==> x in table && Wanted(q, x) && Beyond(c, d, x.key)
    ensures Distinct(table) ==> Distinct(r)
  {
    Filter(table, (x: Record) => Wanted(q, x) && Beyond(c, d, x.key))
  }

  /** Every record the query reaches from the cursor, in the order of the direction. */
  function Listing(table: seq<Record>, q: Query, c: Cursor, d: Direction): seq<Record> {
    Sort(Candidates(table, q, c, d), OrderOf(d))
  }

  function Keys(records: seq<Record>): (r: seq<Key>)
    ensures |r| == |records| && forall i :: 0 <= i < |r| ==> r[i] == records[i].key
  {
    seq(|records|, i requires 0 <= i < |records| => records[i].key)
  }

  function First(s: seq<Record>, n: nat): seq<Record> {
    if |s| > n then s[..n] else s
  }

  /** One row more than the limit is fetched to learn whether there is another page. */
  function ListRecords(table: seq<Record>, q: Query, c: Cursor, d: Direction, limit: int): Result<Page, PageError> {
    if !(1 <= limit <= 200) then Err(LimitOutOfRange)
    else if c.Malformed? then Err(InvalidCursor)
    else
      var rows := First(Listing(table, q, c, d), limit + 1);
      var selected := First(rows, limit);
      Ok(Page(selected, if selected == [] then c else At(selected[|selected| - 1].key), |rows| > limit, Keys(selected)))
  }

  function StreamCursor(page: Page): Cursor {
    if page.cursors == [] then Start else At(page.cursors[0])
  }

  // ---- The key order ----

  /** A key belongs to one record, and a record is stored once. */
  predicate UniqueKeys(table: seq<Record>) {
    Distinct(table) && forall x, y :: x in table && y in table && x.key == y.key ==> x == y
  }

  lemma KeyOrder(a: Key, b: Key)
    ensures Before(a, b) || Before(b, a) || a == b
    ensures !(Before(a, b) && Before(b, a))
    ensures !Before(a, a)
  {
    StringOrderTotal(a.id, b.id);
    StringOrderTotal(a.id, a.id);
  }

  lemma KeyTransitive(a: Key, b: Key, c: Key)
    requires Before(a, b) && Before(b, c)
    ensures Before(a, c)
  {
    if a.at == b.at && b.at == c.at {
      StringOrderTransitive(a.id, b.id, c.id);
    }
  }

  lemma KeysWeaklyOrdered(a: Key, b: Key, c: Key)
    requires !Before(b, a) && !Before(c, b)
    ensures !Before(c, a)
  {
    KeyOrder(a, b);
    KeyOrder(b, c);
    KeyOrder(a, c);
    if Before(a, b) && Before(b, c) {
      KeyTransitive(a, b, c);
    }
  }

  lemma OrdersAreWeak(d: Direction)
    ensures WeakOrder(OrderOf(d))
  {
    forall a: Record, b: Record ensures OrderOf(d)(a, b) ==> !OrderOf(d)(b, a) {
      KeyOrder(a.key, b.key);
    }
    forall a: Record, b: Record, c: Record | !OrderOf(d)(b, a) && !OrderOf(d)(c, b) ensures !OrderOf(d)(c, a) {
      if d == Older {
        KeysWeaklyOrdered(c.key, b.key, a.key);
      } else {
        KeysWeaklyOrdered(a.key, b.key, c.key);
      }
    }
  }

  lemma BeyondTransitive(c: Cursor, d: Direction, k: Key, l: Key)
    requires Beyond(c, d, k) && Beyond(At(k), d, l)
    ensures Beyond(c, d, l)
  {
    if c.At? {
      if d == Older {
        KeyTransitive(l, k, c.key);
      } else {
        KeyTransitive(c.key, k, l);
      }
    }
  }

  // ---- Listings ----

  lemma ListingMembers(table: seq<Record>, q: Query, c: Cursor, d: Direction)
    requires UniqueKeys(table)
    ensures var s := Listing(table, q, c, d);
            && Distinct(s) && Sorted(s, OrderOf(d))
            && forall x :: x in s <==> x in table && Wanted(q, x) && Beyond(c, d, x.key)
  {
    OrdersAreWeak(d);
    SortMembers(Candidates(table, q, c, d), OrderOf(d));
    SortSorts(Candidates(table, q, c, d), OrderOf(d));
    SortDistinct(Candidates(table, q, c, d), OrderOf(d));
  }

  /** A sorted list of the table's records without duplicates is the listing of whatever it holds. */
  lemma ListingIs(table: seq<Record>, q: Query, c: Cursor, d: Direction, s: seq<Record>)
    requires UniqueKeys(table) && Distinct(s) && Sorted(s, OrderOf(d))
    requires forall x :: x in s <==> x in table && Wanted(q, x) && Beyond(c, d, x.key)
    ensures s == Listing(table, q, c, d)
  {
    ListingMembers(table, q, c, d);
    forall x, y | x in s && y in s && x != y ensures OrderOf(d)(x, y) || OrderOf(d)(y, x) {
      KeyOrder(x.key, y.key);
    }
    SortedUnique(s, Listing(table, q, c, d), OrderOf(d));
  }

  /** In a listing, a later position is a key strictly further on. */
  lemma ListingAscends(table: seq<Record>, q: Query, c: Cursor, d: Direction, i: nat, j: nat)
    requires UniqueKeys(table) && i < |Listing(table, q, c, d)| && j < |Listing(table, q, c, d)|
    ensures var s := Listing(table, q, c, d);
            i < j <==> Beyond(At(s[i].key), d, s[j].key)
  {
    ListingMembers(table, q, c, d);
    var s := Listing(table, q, c, d);
    assert s[i] in table && s[j] in table;
    KeyOrder(s[i].key, s[j].key);
    assert i < j ==> !OrderOf(d)(s[j], s[i]) && s[i] != s[j];
    assert j < i ==> !OrderOf(d)(s[i], s[j]) && s[i] != s[j];
  }

  lemma ResumesOnly(table: seq<Record>, q: Query, c: Cursor, d: Direction, n: nat, j: nat)
    requires UniqueKeys(table) && 0 < n <= j < |Listing(table, q, c, d)|
    ensures var s := Listing(table, q, c, d);
            s[j] in table && Wanted(q, s[j]) && Beyond(At(s[n - 1].key), d, s[j].key)
  {
    ListingMembers(table, q, c, d);
    assert Listing(table, q, c, d)[j] in Listing(table, q, c, d);
    ListingAscends(table, q, c, d, n - 1, j);
  }

  lemma ResumesAll(table: seq<Record>, q: Query, c: Cursor, d: Direction, n: nat, x: Record)
    requires UniqueKeys(table) && 0 < n <= |Listing(table, q, c, d)|
    requires x in table && Wanted(q, x) && Beyond(At(Listing(table, q, c, d)[n - 1].key), d, x.key)
    ensures x in Listing(table, q, c, d)[n..]
  {
    var s := Listing(table, q, c, d);
    ListingMembers(table, q, c, d);
    assert s[n - 1] in s;
    BeyondTransitive(c, d, s[n - 1].key, x.key);
    var j :| 0 <= j < |s| && s[j] == x;
    ListingAscends(table, q, c, d, n - 1, j);
    assert s[n..][j - n] == x;
  }

  lemma ResumesMember(table: seq<Record>, q: Query, c: Cursor, d: Direction, n: nat, x: Record)
    requires UniqueKeys(table) && 0 < n <= |Listing(table, q, c, d)|
    ensures var s := Listing(table, q, c, d);
            x in s[n..] <==> x in table && Wanted(q, x) && Beyond(At(s[n - 1].key), d, x.key)
  {
    var s := Listing(table, q, c, d);
    if x in s[n..] {
      var j :| 0 <= j < |s[n..]| && s[n..][j] == x;
      ResumesOnly(table, q, c, d, n, n + j);
      assert s[n + j] == x;
    }
    if x in table && Wanted(q, x) && Beyond(At(s[n - 1].key), d, x.key) {
      ResumesAll(table, q, c, d, n, x);
    }
  }

  lemma SuffixSorted(s: seq<Record>, before: (Record, Record) -> bool, n: nat)
    requires Distinct(s) && Sorted(s, before) && n <= |s|
    ensures Distinct(s[n..]) && Sorted(s[n..], before)
  {
    var r := s[n..];
    forall i, j | 0 <= i < j < |r| ensures r[i] != r[j] && !before(r[j], r[i]) {
      assert r[i] == s[n + i] && r[j] == s[n + j];
    }
  }

  /** Listing from the key of an entry gives exactly what follows that entry. */
  lemma ListingResumes(table: seq<Record>, q: Query, c: Cursor, d: Direction, n: nat)
    requires UniqueKeys(table) && 0 < n <= |Listing(table, q, c, d)|
    ensures var s := Listing(table, q, c, d);
            Listing(table, q, At(s[n - 1].key), d) == s[n..]
  {
    var s := Listing(table, q, c, d);
    ListingMembers(table, q, c, d);
    SuffixSorted(s, OrderOf(d), n);
    forall x ensures x in s[n..] <==> x in table && Wanted(q, x) && Beyond(At(s[n - 1].key), d, x.key) {
      ResumesMember(table, q, c, d, n, x);
    }
    ListingIs(table, q, At(s[n - 1].key), d, s[n..]);
  }

  // ---- Older pages ----

  lemma FirstOfFirst(s: seq<Record>, limit: nat)
    ensures First(First(s, limit + 1), limit) == First(s, limit)
    ensures |First(s, limit + 1)| > limit <==> |s| > limit
  {
  }

  lemma PageShape(table: seq<Record>, q: Query, c: Cursor, d: Direction, limit: int)
    requires 1 <= limit <= 200 && !c.Malformed?
    ensures var s, page := Listing(table, q, c, d), ListRecords(table, q, c, d, limit).value;
            && page.records == First(s, limit)
            && page.hasMore == (|s| > limit)
            && page.cursors == Keys(page.records)
            && page.next == if page.records == [] then c else At(page.records[|page.records| - 1].key)
  {
    FirstOfFirst(Listing(table, q, c, d), limit);
  }

  lemma ResumeAfter(table: seq<Record>, q: Query, c: Cursor, d: Direction, n: nat)
    requires UniqueKeys(table) && !c.Malformed? && n <= |Listing(table, q, c, d)|
    ensures var s := Listing(table, q, c, d);
            s == s[..n] + Listing(table, q, if n == 0 then c else At(s[n - 1].key), d)
  {
    var s := Listing(table, q, c, d);
    assert s == s[..n] + s[n..];
    if n > 0 {
      ListingResumes(table, q, c, d, n);
    }
  }

  lemma NextPage(table: seq<Record>, q: Query, c: Cursor, d: Direction, limit: int)
    requires UniqueKeys(table) && 1 <= limit <= 200 && !c.Malformed?
    ensures var s, page := Listing(table, q, c, d), ListRecords(table, q, c, d, limit).value;
            && page.records == First(s, limit)
            && page.hasMore == (|s| > limit)
            && !page.next.Malformed?
            && s == page.records + Listing(table, q, page.next, d)
  {
    PageShape(table, q, c, d, limit);
    var s := Listing(table, q, c, d);
    ResumeAfter(table, q, c, d, |First(s, limit)|);
  }

  /** All records of a client that follows the next cursor while there is more. */
  function Walk(table: seq<Record>, q: Query, c: Cursor, limit: int): seq<Record>
    requires UniqueKeys(table) && 1 <= limit <= 200 && !c.Malformed?
    decreases |Listing(table, q, c, Older)|
  {
    NextPage(table, q, c, Older, limit);
    var page := ListRecords(table, q, c, Older, limit).value;
    if page.hasMore then page.records + Walk(table, q, page.next, limit) else page.records
  }

  /** Following the cursor ends, and gives every record below it once, in strictly descending order. */
  lemma {:induction false} WalkIsListing(table: seq<Record>, q: Query, c: Cursor, limit: int)
    requires UniqueKeys(table) && 1 <= limit <= 200 && !c.Malformed?
    ensures Walk(table, q, c, limit) == Listing(table, q, c, Older)
    ensures var w := Walk(table, q, c, limit);
            && (forall x :: x in w <==> x in table && Wanted(q, x) && Beyond(c, Older, x.key))
            && (forall i, j :: 0 <= i < j < |w| ==> Before(w[j].key, w[i].key))
    decreases |Listing(table, q, c, Older)|
  {
    NextPage(table, q, c, Older, limit);
    var page := ListRecords(table, q, c, Older, limit).value;
    if page.hasMore {
      WalkIsListing(table, q, page.next, limit);
    }
    ListingMembers(table, q, c, Older);
    var w := Listing(table, q, c, Older);
    forall i, j | 0 <= i < j < |w| ensures Before(w[j].key, w[i].key) {
      ListingAscends(table, q, c, Older, i, j);
    }
  }

  // ---- The stream ----

  /** The records a stream has sent and its cursor after polling the table in each of these states. */
  function Stream(tables: seq<seq<Record>>, q: Query, c: Cursor): (seq<Record>, Cursor)
    requires !c.Malformed?
    ensures !Stream(tables, q, c).1.Malformed?
  {
    if tables == [] then ([], c)
    else
      var (sent, current) := Stream(tables[..|tables| - 1], q, c);
      var page := ListRecords(tables[|tables| - 1], q, current, Newer, STREAM_LIMIT).value;
      (sent + page.records, page.next)
  }

  /** The inner loop of a round: the cursor advances record by record. */
  method SendPage(page: Page, from: Cursor) returns (sent: seq<Record>, current: Cursor)
    requires page.cursors == Keys(page.records)
    ensures sent == page.records
    ensures current == if page.records == [] then from else At(page.records[|page.records| - 1].key)
  {
    sent, current := [], from;
    for index := 0 to |page.records|
      invariant sent == page.records[..index]
      invariant current == if index == 0 then from else At(page.records[index - 1].key)
    {
      current := At(page.cursors[index]);
      sent := sent + [page.records[index]];
    }
  }

  lemma StreamRound(tables: seq<seq<Record>>, q: Query, c: Cursor, i: nat)
    requires !c.Malformed? && i < |tables|
    ensures var (sent, current) := Stream(tables[..i], q, c);
            var page := ListRecords(tables[i], q, current, Newer, STREAM_LIMIT).value;
            Stream(tables[..i + 1], q, c) == (sent + page.records, page.next)
  {
    assert tables[..i + 1][..i] == tables[..i];
  }

  /** One round of the loop for each state of the table. */
  method IterMonitorEvents(tables: seq<seq<Record>>, q: Query, c: Cursor) returns (sent: seq<Record>, current: Cursor)
    requires !c.Malformed?
    ensures (sent, current) == Stream(tables, q, c)
  {
    sent, current := [], c;
    for i := 0 to |tables|
      invariant !current.Malformed? && (sent, current) == Stream(tables[..i], q, c)
    {
      StreamRound(tables, q, c, i);
      var page := ListRecords(tables[i], q, current, Newer, STREAM_LIMIT).value;
      PageShape(tables[i], q, current, Newer, STREAM_LIMIT);
      var more;
      more, current := SendPage(page, current);
      sent := sent + more;
    }
    assert tables[..|tables|] == tables;
  }

  predicate AllUnique(tables: seq<seq<Record>>) {
    forall i :: 0 <= i < |tables| ==> UniqueKeys(tables[i])
  }

  /** The version was in the table at polls `i` and `k`, and at each one between. */
  predicate Stays(tables: seq<seq<Record>>, i: nat, k: nat, x: Record)
    requires i <= k < |tables|
  {
    forall j :: i <= j <= k ==> x in tables[j]
  }

  /** How the table may change between polls: records come and go, and an updated row is a new version under a new key;
      but keys stay unique and a version that has left never returns. */
  ghost predicate Evolving(tables: seq<seq<Record>>) {
    && AllUnique(tables)
    && forall i, k, x :: 0 <= i <= k < |tables| && x in tables[i] && x in tables[k] ==> Stays(tables, i, k, x)
  }

  // ---- What one poll does ----

  predicate StrictlyAscending(s: seq<Record>) {
    forall i, j :: 0 <= i < j < |s| ==> Before(s[i].key, s[j].key)
  }

  /** `more` ascends from beyond one cursor up to the other, which it never moves back. */
  ghost predicate Climbs(current: Cursor, more: seq<Record>, next: Cursor) {
    && StrictlyAscending(more)
    && (forall i :: 0 <= i < |more| ==> Beyond(current, Newer, more[i].key) && !Beyond(next, Newer, more[i].key))
    && (forall k :: Beyond(next, Newer, k) ==> Beyond(current, Newer, k))
  }

  /** Sent, or still to come. */
  predicate Covered(sent: seq<Record>, current: Cursor, r: Record) {
    r in sent || Beyond(current, Newer, r.key)
  }

  /** What one poll does to the sent records and the cursor: it climbs on with stored records the query wants, and
      leaves none of those beyond its cursor behind. */
  ghost predicate IsPoll(table: seq<Record>, q: Query, current: Cursor, more: seq<Record>, next: Cursor) {
    && Climbs(current, more, next)
    && (forall r :: r in more ==> r in table && Wanted(q, r))
    && (forall r :: r in table && Wanted(q, r) && Beyond(current, Newer, r.key) ==> Covered(more, next, r))
  }

  lemma PageClimbs(s: seq<Record>, n: nat, current: Cursor)
    requires n <= |s|
    requires forall i, j :: 0 <= i < |s| && 0 <= j < |s| ==> (i < j <==> Beyond(At(s[i].key), Newer, s[j].key))
    requires forall i :: 0 <= i < |s| ==> Beyond(current, Newer, s[i].key)
    ensures Climbs(current, s[..n], if n == 0 then current else At(s[n - 1].key))
  {
    if n > 0 {
      forall k | Beyond(At(s[n - 1].key), Newer, k) ensures Beyond(current, Newer, k) {
        BeyondTransitive(current, Newer, s[n - 1].key, k);
      }
    }
  }

  lemma ListingClimbs(table: seq<Record>, q: Query, current: Cursor)
    requires UniqueKeys(table)
    ensures var s := Listing(table, q, current, Newer);
            && (forall i :: 0 <= i < |s| ==> Beyond(current, Newer, s[i].key))
            && (forall i, j :: 0 <= i < |s| && 0 <= j < |s| ==> (i < j <==> Beyond(At(s[i].key), Newer, s[j].key)))
  {
    var s := Listing(table, q, current, Newer);
    ListingMembers(table, q, current, Newer);
    forall i | 0 <= i < |s| ensures Beyond(current, Newer, s[i].key) {
      assert s[i] in s;
    }
    forall i, j | 0 <= i < |s| && 0 <= j < |s| ensures i < j <==> Beyond(At(s[i].key), Newer, s[j].key) {
      ListingAscends(table, q, current, Newer, i, j);
    }
  }

  lemma PollClimbs(table: seq<Record>, q: Query, current: Cursor)
    requires UniqueKeys(table) && !current.Malformed?
    ensures var page := ListRecords(table, q, current, Newer, STREAM_LIMIT).value;
            Climbs(current, page.records, page.next)
  {
    var s := Listing(table, q, current, Newer);
    PageShape(table, q, current, Newer, STREAM_LIMIT);
    ListingClimbs(table, q, current);
    PageClimbs(s, |First(s, STREAM_LIMIT)|, current);
  }

  lemma PollSends(table: seq<Record>, q: Query, current: Cursor, r: Record)
    requires UniqueKeys(table) && !current.Malformed?
    ensures var page := ListRecords(table, q, current, Newer, STREAM_LIMIT).value;
            && (r in page.records ==> r in table && Wanted(q, r))
            && (r in table && Wanted(q, r) && Beyond(current, Newer, r.key) ==>
                  r in page.records || (page.hasMore && Beyond(page.next, Newer, r.key)))
  {
    var page := ListRecords(table, q, current, Newer, STREAM_LIMIT).value;
    var s := Listing(table, q, current, Newer);
    NextPage(table, q, current, Newer, STREAM_LIMIT);
    ListingMembers(table, q, current, Newer);
    ListingMembers(table, q, page.next, Newer);
    assert r in s <==> r in page.records || r in Listing(table, q, page.next, Newer);
  }

  lemma PageIsPoll(table: seq<Record>, q: Query, current: Cursor)
    requires UniqueKeys(table) && !current.Malformed?
    ensures var page := ListRecords(table, q, current, Newer, STREAM_LIMIT).value;
            IsPoll(table, q, current, page.records, page.next)
  {
    var page := ListRecords(table, q, current, Newer, STREAM_LIMIT).value;
    PollClimbs(table, q, current);
    forall r
      ensures r in page.records ==> r in table && Wanted(q, r)
      ensures r in table && Wanted(q, r) && Beyond(current, Newer, r.key) ==> Covered(page.records, page.next, r)
    {
      PollSends(table, q, current, r);
    }
  }

  // ---- What a run of polls does ----

  /** Sent records and cursors before each poll and after the last, where every poll keeps its promise. */
  ghost predicate IsRun(tables: seq<seq<Record>>, q: Query, sents: seq<seq<Record>>, cursors: seq<Cursor>) {
    && |sents| == |cursors| == |tables| + 1 && sents[0] == []
    && (forall j :: 0 <= j < |tables| ==> sents[j] <= sents[j + 1])
    && (forall j :: 0 <= j < |tables| ==>
          IsPoll(tables[j], q, cursors[j], sents[j + 1][|sents[j]|..], cursors[j + 1]))
  }

  lemma BelowThenBeyond(current: Cursor, a: Key, b: Key)
    requires !Beyond(current, Newer, a) && Beyond(current, Newer, b)
    ensures Before(a, b)
  {
    KeyOrder(a, current.key);
    if Before(a, current.key) {
      KeyTransitive(a, current.key, b);
    }
  }

  lemma ClimbOn(c: Cursor, sent: seq<Record>, current: Cursor, more: seq<Record>, next: Cursor)
    requires Climbs(c, sent, current) && Climbs(current, more, next)
    ensures Climbs(c, sent + more, next)
  {
    var all := sent + more;
    forall i, j | 0 <= i < j < |all| ensures Before(all[i].key, all[j].key) {
      if i < |sent| <= j {
        BelowThenBeyond(current, all[i].key, all[j].key);
      }
    }
    forall i | 0 <= i < |all| ensures Beyond(c, Newer, all[i].key) && !Beyond(next, Newer, all[i].key) {
      assert i >= |sent| ==> all[i] == more[i - |sent|];
    }
  }

  /** From any poll on, records are sent in strictly ascending key order from beyond the cursor the stream had there,
      and the cursor never moves back. */
  lemma {:induction false} RunClimbs(tables: seq<seq<Record>>, q: Query, sents: seq<seq<Record>>, cursors: seq<Cursor>,
                                     i: nat, n: nat)
    requires IsRun(tables, q, sents, cursors) && i <= n <= |tables|
    ensures sents[i] <= sents[n] && Climbs(cursors[i], sents[n][|sents[i]|..], cursors[n])
    decreases n
  {
    if i < n {
      RunClimbs(tables, q, sents, cursors, i, n - 1);
      var sent, more := sents[n - 1][|sents[i]|..], sents[n][|sents[n - 1]|..];
      assert IsPoll(tables[n - 1], q, cursors[n - 1], more, cursors[n]);
      ClimbOn(cursors[i], sent, cursors[n - 1], more, cursors[n]);
      assert sents[n][|sents[i]|..] == sent + more;
    }
  }

  /** What is sent was stored at one of the polls, and wanted. */
  lemma {:induction false} SentWasStored(tables: seq<seq<Record>>, q: Query, sents: seq<seq<Record>>,
                                         cursors: seq<Cursor>,
                                         n: nat, x: Record)
    requires IsRun(tables, q, sents, cursors) && n <= |tables| && x in sents[n]
    ensures Wanted(q, x) && exists j :: 0 <= j < n && x in tables[j]
    decreases n
  {
    if n > 0 {
      var more := sents[n][|sents[n - 1]|..];
      assert sents[n] == sents[n - 1] + more;
      assert IsPoll(tables[n - 1], q, cursors[n - 1], more, cursors[n]);
      if x in sents[n - 1] {
        SentWasStored(tables, q, sents, cursors, n - 1, x);
      } else {
        assert x in tables[n - 1];
      }
    }
  }

  /** The version is in the table from poll `i` on, and was not before. */
  predicate Arrives(tables: seq<seq<Record>>, i: nat, r: Record) {
    && i < |tables|
    && (forall j :: 0 <= j < i ==> r !in tables[j])
    && (forall j :: i <= j < |tables| ==> r in tables[j])
  }

  lemma FirstWith(tables: seq<seq<Record>>, r: Record) returns (i: nat)
    requires tables != [] && r in tables[|tables| - 1]
    ensures i < |tables| && r in tables[i] && forall j :: 0 <= j < i ==> r !in tables[j]
  {
    i := 0;
    while r !in tables[i]
      invariant i < |tables| && forall j :: 0 <= j < i ==> r !in tables[j]
      decreases |tables| - i
    {
      i := i + 1;
    }
  }

  /** Every version of the final table arrived at some poll. */
  lemma ArrivalOf(tables: seq<seq<Record>>, r: Record) returns (i: nat)
    requires Evolving(tables) && tables != [] && r in tables[|tables| - 1]
    ensures Arrives(tables, i, r)
  {
    i := FirstWith(tables, r);
    assert Stays(tables, i, |tables| - 1, r);
  }

  lemma {:induction false} StaysCovered(tables: seq<seq<Record>>, q: Query, sents: seq<seq<Record>>,
                                        cursors: seq<Cursor>,
                                        i: nat, n: nat, r: Record)
    requires IsRun(tables, q, sents, cursors) && i <= n <= |tables| && Wanted(q, r)
    requires (forall j :: i <= j < n ==> r in tables[j]) && Covered(sents[i], cursors[i], r)
    ensures Covered(sents[n], cursors[n], r)
    decreases n
  {
    if i < n {
      StaysCovered(tables, q, sents, cursors, i, n - 1, r);
      var more := sents[n][|sents[n - 1]|..];
      assert sents[n] == sents[n - 1] + more;
      assert IsPoll(tables[n - 1], q, cursors[n - 1], more, cursors[n]);
      assert r in tables[n - 1];
    }
  }

  /** The last poll leaves nothing behind. */
  ghost predicate Drained(tables: seq<seq<Record>>, q: Query, sents: seq<seq<Record>>, cursors: seq<Cursor>)
    requires IsRun(tables, q, sents, cursors) && tables != []
  {
    var n := |tables| - 1;
    forall r :: r in tables[n] && Wanted(q, r) && Beyond(cursors[n], Newer, r.key) ==> r in sents[n + 1]
  }

  lemma SuffixHas(before: seq<Record>, sent: seq<Record>, r: Record)
    requires before <= sent && r !in before && r in sent
    ensures r in sent[|before|..]
  {
    assert sent == before + sent[|before|..];
  }

  /** A version that arrives at or below the cursor is never sent. */
  lemma LateIsLost(tables: seq<seq<Record>>, q: Query, sents: seq<seq<Record>>, cursors: seq<Cursor>, i: nat, r: Record)
    requires IsRun(tables, q, sents, cursors) && i <= |tables| && forall j :: 0 <= j < i ==> r !in tables[j]
    ensures r in sents[|tables|] ==> Beyond(cursors[i], Newer, r.key)
  {
    RunClimbs(tables, q, sents, cursors, i, |tables|);
    if r in sents[i] {
      SentWasStored(tables, q, sents, cursors, i, r);
    } else if r in sents[|tables|] {
      SuffixHas(sents[i], sents[|tables|], r);
    }
  }

  /** When the last poll leaves nothing behind, a wanted version of the final table was sent if and only if it arrived
      beyond the cursor the stream had at that poll. */
  lemma SentIff(tables: seq<seq<Record>>, q: Query, sents: seq<seq<Record>>, cursors: seq<Cursor>, i: nat, r: Record)
    requires IsRun(tables, q, sents, cursors) && tables != [] && Drained(tables, q, sents, cursors)
    requires Arrives(tables, i, r) && Wanted(q, r)
    ensures r in sents[|tables|] <==> Beyond(cursors[i], Newer, r.key)
  {
    var n := |tables| - 1;
    LateIsLost(tables, q, sents, cursors, i, r);
    if Beyond(cursors[i], Newer, r.key) {
      StaysCovered(tables, q, sents, cursors, i, n, r);
      assert sents[n] <= sents[n + 1] && r in tables[n];
    }
  }

  // ---- Completeness of a run ----

  /** Of the final table's versions beyond `floor`, each that arrives after the first poll lies beyond the stream's
      cursor at that poll. */
  ghost predicate NoneLate(tables: seq<seq<Record>>, q: Query, cursors: seq<Cursor>, floor: Cursor)
    requires |cursors| == |tables| + 1
  {
    forall i, r :: 0 < i && Arrives(tables, i, r) && Wanted(q, r) && Beyond(floor, Newer, r.key)
      ==> Beyond(cursors[i], Newer, r.key)
  }

  /** What was sent and is still stored. */
  function Present(sent: seq<Record>, table: seq<Record>): (r: seq<Record>)
    ensures forall x :: x in r <==> x in sent && x in table
  {
    Filter(sent, (x: Record) => x in table)
  }

  lemma {:induction false} PresentAscends(sent: seq<Record>, table: seq<Record>)
    requires StrictlyAscending(sent)
    ensures StrictlyAscending(Present(sent, table))
  {
    if sent != [] {
      var last, init := sent[|sent| - 1], sent[..|sent| - 1];
      PresentAscends(init, table);
      var r := Present(init, table);
      assert Present(sent, table) == r + (if last in table then [last] else []);
      forall i | 0 <= i < |r| ensures Before(r[i].key, last.key) {
        assert r[i] in init;
        var j :| 0 <= j < |init| && init[j] == r[i];
        assert Before(sent[j].key, sent[|sent| - 1].key);
      }
    }
  }

  lemma AscendingIsSorted(s: seq<Record>)
    requires StrictlyAscending(s)
    ensures Distinct(s) && Sorted(s, OrderOf(Newer))
  {
    forall i, j | 0 <= i < j < |s| ensures s[i] != s[j] && !OrderOf(Newer)(s[j], s[i]) {
      KeyOrder(s[i].key, s[j].key);
    }
  }

  /** An ascending list of wanted records beyond the floor shows the whole listing exactly when it misses nothing. */
  lemma PresentIsListingIff(sent: seq<Record>, table: seq<Record>, q: Query, floor: Cursor)
    requires UniqueKeys(table) && StrictlyAscending(sent)
    requires forall x :: x in sent ==> Wanted(q, x) && Beyond(floor, Newer, x.key)
    ensures Present(sent, table) == Listing(table, q, floor, Newer)
       <==> forall x :: x in table && Wanted(q, x) && Beyond(floor, Newer, x.key) ==> x in sent
  {
    ListingMembers(table, q, floor, Newer);
    PresentAscends(sent, table);
    AscendingIsSorted(Present(sent, table));
    if forall x :: x in table && Wanted(q, x) && Beyond(floor, Newer, x.key) ==> x in sent {
      ListingIs(table, q, floor, Newer, Present(sent, table));
    }
    forall x | x in table && Wanted(q, x) && Beyond(floor, Newer, x.key)
      ensures Present(sent, table) == Listing(table, q, floor, Newer) ==> x in sent
    {
      assert x in Listing(table, q, floor, Newer);
      assert x in Present(sent, table) ==> x in sent;
    }
  }

  /** A client that begins with `head`, every wanted version of the first table beyond `floor` up to the stream's
      first cursor, has every version of the final table exactly once and in order, exactly when none of them arrived
      at or below the cursor of its time. */
  lemma RunIsCompleteIff(tables: seq<seq<Record>>, q: Query, sents: seq<seq<Record>>, cursors: seq<Cursor>,
                         head: seq<Record>, floor: Cursor)
    requires Evolving(tables) && IsRun(tables, q, sents, cursors) && tables != [] && Drained(tables, q, sents, cursors)
    requires Climbs(floor, head, cursors[0])
    requires forall r :: r in head ==> r in tables[0] && Wanted(q, r)
    requires forall r :: r in tables[0] && Wanted(q, r) && Beyond(floor, Newer, r.key) ==> Covered(head, cursors[0], r)
    ensures var n := |tables|;
            Present(head + sents[n], tables[n - 1]) == Listing(tables[n - 1], q, floor, Newer)
            <==> NoneLate(tables, q, cursors, floor)
  {
    var n := |tables|;
    RunSends(tables, q, sents, cursors, head, floor);
    PresentIsListingIff(head + sents[n], tables[n - 1], q, floor);
    forall i, r | 0 < i && Arrives(tables, i, r) && Wanted(q, r) && Beyond(floor, Newer, r.key)
      ensures r in tables[n - 1] && (r in head + sents[n] <==> Beyond(cursors[i], Newer, r.key))
    {
      SentIff(tables, q, sents, cursors, i, r);
      assert r !in tables[0];
    }
    forall r | r in tables[n - 1] && Wanted(q, r) && Beyond(floor, Newer, r.key)
      ensures NoneLate(tables, q, cursors, floor) ==> r in head + sents[n]
    {
      var i := ArrivalOf(tables, r);
      SentIff(tables, q, sents, cursors, i, r);
    }
  }

  lemma RunSends(tables: seq<seq<Record>>, q: Query, sents: seq<seq<Record>>, cursors: seq<Cursor>,
                 head: seq<Record>, floor: Cursor)
    requires IsRun(tables, q, sents, cursors) && Climbs(floor, head, cursors[0])
    requires forall r :: r in head ==> Wanted(q, r)
    ensures StrictlyAscending(head + sents[|tables|])
    ensures forall x :: x in head + sents[|tables|] ==> Wanted(q, x) && Beyond(floor, Newer, x.key)
  {
    var n := |tables|;
    RunClimbs(tables, q, sents, cursors, 0, n);
    assert sents[n][|sents[0]|..] == sents[n];
    ClimbOn(floor, head, cursors[0], sents[n], cursors[n]);
    var all := head + sents[n];
    forall x | x in all ensures Wanted(q, x) && Beyond(floor, Newer, x.key) {
      var k :| 0 <= k < |all| && all[k] == x;
      if x in sents[n] {
        SentWasStored(tables, q, sents, cursors, n, x);
      }
    }
  }

  // ---- The stream is such a run ----

  function Sents(tables: seq<seq<Record>>, q: Query, c: Cursor): (r: seq<seq<Record>>)
    requires !c.Malformed?
    ensures |r| == |tables| + 1 && forall j :: 0 <= j < |r| ==> r[j] == Stream(tables[..j], q, c).0
  {
    seq(|tables| + 1, j requires 0 <= j <= |tables| => Stream(tables[..j], q, c).0)
  }

  /** The stream's cursor at each poll, and after the last. */
  function Cursors(tables: seq<seq<Record>>, q: Query, c: Cursor): (r: seq<Cursor>)
    requires !c.Malformed?
    ensures |r| == |tables| + 1 && forall j :: 0 <= j < |r| ==> r[j] == Stream(tables[..j], q, c).1
  {
    seq(|tables| + 1, j requires 0 <= j <= |tables| => Stream(tables[..j], q, c).1)
  }

  lemma StreamPolls(tables: seq<seq<Record>>, q: Query, c: Cursor, j: nat)
    requires !c.Malformed? && j < |tables| && UniqueKeys(tables[j])
    ensures var (sent, current) := Stream(tables[..j], q, c);
            var (all, next) := Stream(tables[..j + 1], q, c);
            sent <= all && IsPoll(tables[j], q, current, all[|sent|..], next)
  {
    StreamRound(tables, q, c, j);
    var (sent, current) := Stream(tables[..j], q, c);
    PageIsPoll(tables[j], q, current);
  }

  lemma StreamStarts(tables: seq<seq<Record>>, q: Query, c: Cursor)
    requires !c.Malformed?
    ensures Stream(tables[..0], q, c) == ([], c) && tables[..|tables|] == tables
  {
    assert tables[..0] == [];
  }

  lemma StreamIsRun(tables: seq<seq<Record>>, q: Query, c: Cursor)
    requires !c.Malformed? && AllUnique(tables)
    ensures IsRun(tables, q, Sents(tables, q, c), Cursors(tables, q, c))
    ensures Cursors(tables, q, c)[0] == c && Sents(tables, q, c)[|tables|] == Stream(tables, q, c).0
  {
    StreamStarts(tables, q, c);
    forall j | 0 <= j < |tables|
      ensures var sents, cursors := Sents(tables, q, c), Cursors(tables, q, c);
              sents[j] <= sents[j + 1]
              && IsPoll(tables[j], q, cursors[j], sents[j + 1][|sents[j]|..], cursors[j + 1])
    {
      StreamPolls(tables, q, c, j);
    }
  }

  /** The last poll found no more than it could send. */
  predicate CaughtUp(tables: seq<seq<Record>>, q: Query, c: Cursor)
    requires !c.Malformed? && tables != []
  {
    var n := |tables| - 1;
    !ListRecords(tables[n], q, Stream(tables[..n], q, c).1, Newer, STREAM_LIMIT).value.hasMore
  }

  lemma CaughtUpIsDrained(tables: seq<seq<Record>>, q: Query, c: Cursor)
    requires !c.Malformed? && tables != [] && AllUnique(tables) && CaughtUp(tables, q, c)
    ensures IsRun(tables, q, Sents(tables, q, c), Cursors(tables, q, c))
    ensures Drained(tables, q, Sents(tables, q, c), Cursors(tables, q, c))
  {
    StreamIsRun(tables, q, c);
    var n := |tables| - 1;
    StreamRound(tables, q, c, n);
    forall r | r in tables[n] && Wanted(q, r) && Beyond(Stream(tables[..n], q, c).1, Newer, r.key)
      ensures r in Stream(tables[..n + 1], q, c).0
    {
      PollSends(tables[n], q, Stream(tables[..n], q, c).1, r);
    }
  }

  /** Over a whole stream every version is sent at most once, in strictly ascending key order, from beyond the cursor
      the stream began at; and its cursor only moves on. */
  lemma StreamAscends(tables: seq<seq<Record>>, q: Query, c: Cursor)
    requires !c.Malformed? && AllUnique(tables)
    ensures Climbs(c, Stream(tables, q, c).0, Stream(tables, q, c).1)
  {
    StreamIsRun(tables, q, c);
    StreamStarts(tables, q, c);
    var sents := Sents(tables, q, c);
    RunClimbs(tables, q, sents, Cursors(tables, q, c), 0, |tables|);
    assert sents[|tables|][|sents[0]|..] == sents[|tables|];
  }

  /** A caught-up stream has sent every version of the final table beyond its first cursor exactly once, in ascending
      order, exactly when none of them arrived at or below the cursor of its time. */
  lemma StreamIsCompleteIff(tables: seq<seq<Record>>, q: Query, c: Cursor)
    requires !c.Malformed? && tables != [] && Evolving(tables) && CaughtUp(tables, q, c)
    ensures Present(Stream(tables, q, c).0, tables[|tables| - 1]) == Listing(tables[|tables| - 1], q, c, Newer)
       <==> NoneLate(tables, q, Cursors(tables, q, c), c)
  {
    StreamIsRun(tables, q, c);
    CaughtUpIsDrained(tables, q, c);
    RunIsCompleteIff(tables, q, Sents(tables, q, c), Cursors(tables, q, c), [], c);
    assert [] + Stream(tables, q, c).0 == Stream(tables, q, c).0;
  }

  // ---- The handoff from the first page to the stream ----

  function Reverse(s: seq<Record>): (r: seq<Record>)
    ensures |r| == |s| && forall i :: 0 <= i < |r| ==> r[i] == s[|s| - 1 - i]
  {
    seq(|s|, i requires 0 <= i < |s| => s[|s| - 1 - i])
  }

  lemma ReverseMember(s: seq<Record>, x: Record)
    ensures x in Reverse(s) <==> x in s
  {
    if x in s {
      var i :| 0 <= i < |s| && s[i] == x;
      assert Reverse(s)[|s| - 1 - i] == x;
    }
  }

  lemma ReverseAscends(s: seq<Record>)
    requires forall i, j :: 0 <= i < j < |s| ==> Before(s[j].key, s[i].key)
    ensures StrictlyAscending(Reverse(s))
  {
  }

  lemma FirstCursor(table: seq<Record>, q: Query, limit: int)
    requires UniqueKeys(table) && 1 <= limit <= 200
    ensures var s := Listing(table, q, Start, Older);
            StreamCursor(ListRecords(table, q, Start, Older, limit).value) == if s == [] then Start else At(s[0].key)
  {
    PageShape(table, q, Start, Older, limit);
  }

  lemma DescendingClimbs(w: seq<Record>)
    requires forall i, j :: 0 <= i < j < |w| ==> Before(w[j].key, w[i].key)
    ensures Climbs(Start, Reverse(w), if w == [] then Start else At(w[0].key))
  {
    ReverseAscends(w);
    forall i | 0 <= i < |w| ensures !Before(w[0].key, Reverse(w)[i].key) {
      KeyOrder(w[0].key, w[|w| - 1 - i].key);
    }
  }

  /** What the pages of a fixed table give a client: every wanted record once, none of them beyond the stream cursor. */
  lemma PagesClimb(table: seq<Record>, q: Query, limit: int)
    requires UniqueKeys(table) && 1 <= limit <= 200
    ensures var head := Reverse(Walk(table, q, Start, limit));
            && Climbs(Start, head, StreamCursor(ListRecords(table, q, Start, Older, limit).value))
            && (forall r :: r in head <==> r in table && Wanted(q, r))
  {
    var w := Walk(table, q, Start, limit);
    WalkIsListing(table, q, Start, limit);
    DescendingClimbs(w);
    FirstCursor(table, q, limit);
    forall r ensures r in Reverse(w) <==> r in table && Wanted(q, r) {
      ReverseMember(w, r);
    }
  }

  /** Everything a client has: the pages of the table as it was, oldest record first, then what the stream sent. */
  function Delivered(table: seq<Record>, later: seq<seq<Record>>, q: Query, limit: int): seq<Record>
    requires UniqueKeys(table) && 1 <= limit <= 200
  {
    var from := StreamCursor(ListRecords(table, q, Start, Older, limit).value);
    Reverse(Walk(table, q, Start, limit)) + Stream(later, q, from).0
  }

  /** A complete delivery, for any run that begins where the pages of an earlier table end. */
  lemma HandoffIff(table: seq<Record>, later: seq<seq<Record>>, q: Query, sents: seq<seq<Record>>, cursors: seq<Cursor>,
                   head: seq<Record>)
    requires Evolving([table] + later) && IsRun(later, q, sents, cursors) && later != []
    requires Drained(later, q, sents, cursors)
    requires Climbs(Start, head, cursors[0]) && forall r :: r in head <==> r in table && Wanted(q, r)
    ensures Present(head + sents[|later|], later[|later| - 1]) == Listing(later[|later| - 1], q, Start, Newer)
       <==> NoneLate([table] + later, q, [cursors[0]] + cursors, Start)
  {
    var tables, all, from := [table] + later, [[]] + sents, [cursors[0]] + cursors;
    PrependPoll(table, later, q, sents, cursors, head);
    RunIsCompleteIff(tables, q, all, from, head, Start);
    assert tables[|tables| - 1] == later[|later| - 1] && all[|tables|] == sents[|later|];
  }

  lemma PrependPoll(table: seq<Record>, later: seq<seq<Record>>, q: Query, sents: seq<seq<Record>>,
                    cursors: seq<Cursor>,
                    head: seq<Record>)
    requires IsRun(later, q, sents, cursors) && later != [] && Drained(later, q, sents, cursors)
    requires Climbs(Start, head, cursors[0]) && forall r :: r in table && Wanted(q, r) ==> r in head
    ensures var all, from := [[]] + sents, [cursors[0]] + cursors;
            IsRun([table] + later, q, all, from) && Drained([table] + later, q, all, from)
  {
    var tables, all, from := [table] + later, [[]] + sents, [cursors[0]] + cursors;
    forall r | r in head ensures !Beyond(cursors[0], Newer, r.key) {
      var i :| 0 <= i < |head| && head[i] == r;
    }
    assert IsPoll(table, q, cursors[0], [], cursors[0]);
    assert all[1][|all[0]|..] == [];
    forall j | 0 <= j < |tables|
      ensures all[j] <= all[j + 1] && IsPoll(tables[j], q, from[j], all[j + 1][|all[j]|..], from[j + 1])
    {
      if j > 0 {
        assert tables[j] == later[j - 1] && all[j] == sents[j - 1] && all[j + 1] == sents[j];
      }
    }
  }

  /** The first page, the older pages and the caught-up stream from its stream cursor deliver every version of the
      final table exactly once, in order, exactly when none of them arrived at or below the stream's cursor of its
      time. The first poll may find the table of the first page changed. */
  lemma HandoffIsCompleteIff(table: seq<Record>, later: seq<seq<Record>>, q: Query, limit: int)
    requires 1 <= limit <= 200 && later != [] && Evolving([table] + later) && UniqueKeys(table)
    requires CaughtUp(later, q, StreamCursor(ListRecords(table, q, Start, Older, limit).value))
    ensures var c := StreamCursor(ListRecords(table, q, Start, Older, limit).value);
            Present(Delivered(table, later, q, limit), later[|later| - 1])
            == Listing(later[|later| - 1], q, Start, Newer)
            <==> NoneLate([table] + later, q, [c] + Cursors(later, q, c), Start)
  {
    var c := StreamCursor(ListRecords(table, q, Start, Older, limit).value);
    UniqueLater(table, later);
    StreamIsRun(later, q, c);
    CaughtUpIsDrained(later, q, c);
    PagesClimb(table, q, limit);
    HandoffIff(table, later, q, Sents(later, q, c), Cursors(later, q, c), Reverse(Walk(table, q, Start, limit)));
  }

  lemma UniqueLater(table: seq<Record>, later: seq<seq<Record>>)
    requires Evolving([table] + later)
    ensures AllUnique(later)
  {
    assert forall i :: 0 <= i < |later| ==> later[i] == ([table] + later)[i + 1];
  }

  // ---- Examples ----

  /** A version of one and the same row. */
  function Version(at: int): Record {
    Record(Key(at, "event"), "event", None, None, "")
  }

  const EVERYTHING := Query(None, None, None)

  /** A poll that finds one version beyond its cursor sends it. */
  lemma OneNewVersion(table: seq<Record>, from: int, to: int)
    requires from < to && UniqueKeys(table) && Version(to) in table
    requires forall x :: x in table ==> x == Version(to) || (x.key.at <= from && x.key.id == "event")
    ensures var page := ListRecords(table, EVERYTHING, At(Key(from, "event")), Newer, STREAM_LIMIT).value;
            page.records == [Version(to)] && page.next == At(Key(to, "event"))
  {
    StringOrderTotal("event", "event");
    ListingIs(table, EVERYTHING, At(Key(from, "event")), Newer, [Version(to)]);
  }

  lemma TwoPolls(first: seq<Record>, second: seq<Record>, q: Query, c: Cursor)
    requires !c.Malformed?
    ensures var one := ListRecords(first, q, c, Newer, STREAM_LIMIT).value;
            && Stream([first], q, c) == (one.records, one.next)
            && var two := ListRecords(second, q, one.next, Newer, STREAM_LIMIT).value;
               Stream([first, second], q, c) == (one.records + two.records, two.next)
  {
    assert [first, second][..1] == [first] && [first][..0] == [];
    assert Stream([], q, c) == ([], c);
    var none: seq<Record> := [];
    var one := ListRecords(first, q, c, Newer, STREAM_LIMIT).value;
    assert none + one.records == one.records;
  }

  /** Two polls, each of which finds one version beyond the cursor. */
  lemma TwoVersions(first: seq<Record>, second: seq<Record>, from: int, a: int, b: int)
    requires from < a < b && UniqueKeys(first) && UniqueKeys(second) && Version(a) in first && Version(b) in second
    requires forall x :: x in first ==> x == Version(a) || (x.key.at <= from && x.key.id == "event")
    requires forall x :: x in second ==> x == Version(b) || (x.key.at <= a && x.key.id == "event")
    ensures Stream([first, second], EVERYTHING, At(Key(from, "event"))).0 == [Version(a), Version(b)]
  {
    TwoPolls(first, second, EVERYTHING, At(Key(from, "event")));
    OneNewVersion(first, from, a);
    OneNewVersion(second, a, b);
  }

  const BEFORE_UPDATE := [Version(1)]
  const AFTER_UPDATE := [Version(2)]

  lemma UpdatedTables()
    ensures Evolving([BEFORE_UPDATE, AFTER_UPDATE]) && UniqueKeys(BEFORE_UPDATE) && UniqueKeys(AFTER_UPDATE)
    ensures forall x :: x in BEFORE_UPDATE <==> x == Version(1)
    ensures forall x :: x in AFTER_UPDATE <==> x == Version(2)
  {
  }

  /** A row whose update time moves between two polls is sent twice, under one record id. */
  lemma RecordIsSentTwice()
    ensures Evolving([BEFORE_UPDATE, AFTER_UPDATE]) && Version(1).key.id == Version(2).key.id
    ensures Stream([BEFORE_UPDATE, AFTER_UPDATE], EVERYTHING, At(Key(0, "event"))).0 == [Version(1), Version(2)]
  {
    UpdatedTables();
    TwoVersions(BEFORE_UPDATE, AFTER_UPDATE, 0, 1, 2);
  }

  const EARLY_TABLE := [Version(1), Version(3)]
  const LATE_TABLE := [Version(1), Version(3), Version(2)]

  lemma LateTables()
    ensures Evolving([EARLY_TABLE, LATE_TABLE])
    ensures Version(2) in LATE_TABLE && Version(2) !in EARLY_TABLE
    ensures Version(3) in EARLY_TABLE && UniqueKeys(EARLY_TABLE) && UniqueKeys(LATE_TABLE)
  {
    assert LATE_TABLE[2] == Version(2) && EARLY_TABLE[1] == Version(3);
  }

  lemma OnePoll(table: seq<Record>, q: Query, c: Cursor)
    requires !c.Malformed?
    ensures Stream([table], q, c).1 == ListRecords(table, q, c, Newer, STREAM_LIMIT).value.next
  {
    assert [table][..0] == [];
    assert Stream([], q, c) == ([], c);
  }

  lemma LostInRun(early: seq<Record>, late: seq<Record>, q: Query, sents: seq<seq<Record>>, cursors: seq<Cursor>,
                  r: Record)
    requires IsRun([early, late], q, sents, cursors) && r !in early && !Beyond(cursors[1], Newer, r.key)
    ensures r !in sents[2]
  {
    LateIsLost([early, late], q, sents, cursors, 1, r);
  }

  lemma LostBetween(early: seq<Record>, late: seq<Record>, q: Query, c: Cursor, r: Record)
    requires !c.Malformed? && UniqueKeys(early) && UniqueKeys(late)
    requires r !in early && !Beyond(Stream([early], q, c).1, Newer, r.key)
    ensures r !in Stream([early, late], q, c).0
  {
    var tables := [early, late];
    assert tables[..1] == [early];
    StreamIsRun(tables, q, c);
    LostInRun(early, late, q, Sents(tables, q, c), Cursors(tables, q, c), r);
  }

  lemma LostAfterNewer(early: seq<Record>, late: seq<Record>, from: int, to: int, r: Record)
    requires from < to && UniqueKeys(early) && UniqueKeys(late) && Version(to) in early && r !in early
    requires forall x :: x in early ==> x == Version(to) || (x.key.at <= from && x.key.id == "event")
    requires !Before(Key(to, "event"), r.key)
    ensures r !in Stream([early, late], EVERYTHING, At(Key(from, "event"))).0
  {
    OneNewVersion(early, from, to);
    OnePoll(early, EVERYTHING, At(Key(from, "event")));
    LostBetween(early, late, EVERYTHING, At(Key(from, "event")), r);
  }

  /** A record above the stream's first cursor is lost when a newer one was sent before it appeared. */
  lemma LateRecordIsLost()
    ensures Evolving([EARLY_TABLE, LATE_TABLE]) && Version(2) in LATE_TABLE
    ensures Beyond(At(Key(1, "event")), Newer, Version(2).key)
    ensures Version(2) !in Stream([EARLY_TABLE, LATE_TABLE], EVERYTHING, At(Key(1, "event"))).0
  {
    LateTables();
    LostAfterNewer(EARLY_TABLE, LATE_TABLE, 1, 3, Version(2));
  }
}

/** Which records a page or a stream can hold, by their own columns. */
module MonitorFilters {
  import opened Wrappers
  import opened Orders
  import opened MonitorPaging

  /** The record has the kind, the status and the session asked for, where they are asked for. */
  predicate Passes(q: Query, r: Record) {
    && (q.kind == None || q.kind == Some(r.kind))
    && (q.status == None || (r.status.Some? && q.status == r.status))
    && (q.session == None || (r.session.Some? && q.session == r.session))
  }

  /** The record lies on the far side of the cursor: earlier when paging back, later when following, and by record id at
      the same time. */
  predicate FarSide(c: Cursor, d: Direction, r: Record) {
    match c
    case At(key) =>
      if d == Older then r.key.at < key.at || (r.key.at == key.at && StringBefore(r.key.id, key.id))
      else r.key.at > key.at || (r.key.at == key.at && StringBefore(key.id, r.key.id))
    case _ => true
  }

  /** A listing holds exactly the table's records with those columns on the far side of the cursor. */
  lemma ListedIff(table: seq<Record>, q: Query, c: Cursor, d: Direction, r: Record)
    requires UniqueKeys(table)
    ensures r in Listing(table, q, c, d) <==> r in table && Passes(q, r) && FarSide(c, d, r)
  {
    ListingMembers(table, q, c, d);
  }

  /** So does a page, for what it holds. */
  lemma PagedHas(table: seq<Record>, q: Query, c: Cursor, d: Direction, limit: int, r: Record)
    requires UniqueKeys(table) && 1 <= limit <= 200 && !c.Malformed?
    requires r in ListRecords(table, q, c, d, limit).value.records
    ensures r in table && Passes(q, r) && FarSide(c, d, r)
    ensures |ListRecords(table, q, c, d, limit).value.records| <= limit
  {
    PageShape(table, q, c, d, limit);
    ListedIff(table, q, c, d, r);
  }

  /** A page is refused exactly for a limit out of range or a cursor that does not decode. */
  lemma PageRefusedIff(table: seq<Record>, q: Query, c: Cursor, d: Direction, limit: int)
    ensures ListRecords(table, q, c, d, limit).Err? <==> limit < 1 || limit > 200 || c == Malformed
    ensures limit < 1 || limit > 200 ==> ListRecords(table, q, c, d, limit) == Err(LimitOutOfRange)
    ensures 1 <= limit <= 200 && c == Malformed ==> ListRecords(table, q, c, d, limit) == Err(InvalidCursor)
  {
  }

  /** Pages run from the newest record back, the stream from the oldest on. */
  lemma ListedInOrder(table: seq<Record>, q: Query, c: Cursor, d: Direction, i: nat, j: nat)
    requires UniqueKeys(table) && i < j < |Listing(table, q, c, d)|
    ensures var a, b := Listing(table, q, c, d)[i].key, Listing(table, q, c, d)[j].key;
            if d == Older then b.at < a.at || (b.at == a.at && StringBefore(b.id, a.id))
            else a.at < b.at || (a.at == b.at && StringBefore(a.id, b.id))
  {
    ListingAscends(table, q, c, d, i, j);
  }

  /** Whatever the stream sends has the columns asked for. */
  lemma SentPasses(tables: seq<seq<Record>>, q: Query, c: Cursor, r: Record)
    requires !c.Malformed? && AllUnique(tables) && r in Stream(tables, q, c).0
    ensures Passes(q, r)
  {
    StreamIsRun(tables, q, c);
    SentWasStored(tables, q, Sents(tables, q, c), Cursors(tables, q, c), |tables|, r);
  }
}

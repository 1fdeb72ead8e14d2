/** Keyset pagination of the message list: following next_cursor. */
module Pagination {
  import opened Ordering
  import opened QueueModel
  import opened Sums

  const PAGE_SIZE: nat := 50

  /** 9999-12-31T23:59:59Z in microseconds, and the all-ones uuid. */
  const MAX_TS := 253_402_300_799_000_000
  const MAX_ID: nat := 0xffff_ffff_ffff_ffff_ffff_ffff_ffff_ffff

  /** The messages table by primary key. */
  datatype Columns = Columns(app: nat, createdAt: int)
  type Table = map<nat, Columns>

  datatype Key = Key(ts: int, id: nat)

  function RowsOf(table: Table, app: nat): set<Key> {
    set id | id in table && table[id].app == app :: Key(table[id].createdAt, id)
  }

  /** ORDER BY created_at DESC, id DESC. */
  predicate Newer(a: Key, b: Key) { a.ts > b.ts || (a.ts == b.ts && a.id > b.id) }

  lemma NewerOrder()
    ensures StrictTotal(Newer)
  {
  }

  /** The bound parameters of the query: a nil uuid is sent as NULL. */
  datatype Cursor = Cursor(ts: int, id: Option<nat>)

  const FIRST := Cursor(MAX_TS, Some(MAX_ID))

  function Bind(k: Key): Cursor { Cursor(k.ts, if k.id == 0 then None else Some(k.id)) }

  /** (created_at, id) < (ts, id) as SQL compares rows: a NULL leaves ties unknown, and
      unknown does not select. */
  predicate Below(k: Key, c: Cursor) {
    k.ts < c.ts || (k.ts == c.ts && c.id.Some? && k.id < c.id.value)
  }

  /** The opaque cursor text: whatever its encoding, a cursor handed out reads back. */
  datatype Text = Text(enc: Key -> string, dec: string -> Option<Key>) {
    ghost predicate Valid() {
      forall k: Key :: k.ts <= MAX_TS ==> enc(k) != "" && dec(enc(k)) == Some(k)
    }
  }

  /** An absent or unreadable cursor asks for the first page. */
  function PageCursor(text: Text, c: string): Cursor {
    if c == "" then FIRST else
      match text.dec(c)
      case None => FIRST
      case Some(k) => Bind(k)
  }

  function Selected(rows: set<Key>, c: Cursor): set<Key> { set k | k in rows && Below(k, c) }

  /** The query: the newest `lim` rows below the cursor. */
  ghost function Newest(rows: set<Key>, c: Cursor, lim: nat): seq<Key> {
    NewerOrder();
    Top(Newer, Selected(rows, c), lim)
  }

  ghost function Page(rows: set<Key>, c: Cursor): seq<Key> { Newest(rows, c, PAGE_SIZE) }

  function NextCursor(text: Text, page: seq<Key>): Option<string> {
    if |page| == PAGE_SIZE then Some(text.enc(page[|page| - 1])) else None
  }

  // ---- the endpoint -----------------------------------------------------------------

  method ListMessagesByApp(table: Table, app: nat, c: Cursor, lim: nat) returns (items: seq<Key>)
    ensures items == Newest(RowsOf(table, app), c, lim)
  {
    NewerOrder();
    items := ReadTop(Newer, Selected(RowsOf(table, app), c), lim);
  }

  method ListMessages(text: Text, table: Table, app: nat, cursor: string) returns (data: seq<Key>, next: Option<string>)
    ensures data == Page(RowsOf(table, app), PageCursor(text, cursor))
    ensures next == NextCursor(text, data)
    ensures cursor == "" || text.dec(cursor).None? ==>
              data == Newest(RowsOf(table, app), Cursor(253_402_300_799_000_000, Some(0xffff_ffff_ffff_ffff_ffff_ffff_ffff_ffff)), 50)
  {
    var rows := ListMessagesByApp(table, app, PageCursor(text, cursor), PAGE_SIZE);
    data := [];
    for i := 0 to |rows|
      invariant data == rows[..i]
    {
      data := data + [rows[i]];
    }
    next := None;
    if |rows| == PAGE_SIZE {
      next := Some(text.enc(rows[|rows| - 1]));
    }
  }

  // ---- following the cursor ---------------------------------------------------------------

  /** Asking below the last row of a page is asking for what the page left, also when
      that row's id is nil and its cursor goes out as NULL. */
  lemma BindSelects(rows: set<Key>, c: Cursor, last: Key)
    requires last in Selected(rows, c)
    ensures forall k :: k in Selected(rows, Bind(last)) <==> k in Selected(rows, c) && Newer(last, k)
  {
  }

  lemma PageEnd(rows: set<Key>, c: Cursor, last: Key)
    requires |Page(rows, c)| == PAGE_SIZE && last == Page(rows, c)[PAGE_SIZE - 1]
    ensures StrictTotal(Newer)
    ensures last in Selected(rows, c) && last !in Selected(rows, Bind(last))
    ensures Selected(rows, Bind(last)) <= Selected(rows, c)
    ensures Page(rows, c) + Sort(Newer, Selected(rows, Bind(last))) == Sort(Newer, Selected(rows, c))
  {
    NewerOrder();
    TopIn(Newer, Selected(rows, c), PAGE_SIZE);
    BindSelects(rows, c, last);
    TopRest(Newer, Selected(rows, c), PAGE_SIZE, last, Selected(rows, Bind(last)));
  }

  datatype Walk = Walk(seen: seq<Key>, pages: nat)

  /** A client that asks again with each next_cursor until there is none. */
  ghost function Follow(text: Text, rows: set<Key>, cursor: string): Walk
    requires text.Valid() && forall k :: k in Selected(rows, PageCursor(text, cursor)) ==> k.ts <= MAX_TS
    decreases |Selected(rows, PageCursor(text, cursor))|
  {
    var c := PageCursor(text, cursor);
    var page := Page(rows, c);
    match NextCursor(text, page)
    case None => Walk(page, 1)
    case Some(next) =>
      PageEnd(rows, c, page[|page| - 1]);
      SubsetSize(Selected(rows, PageCursor(text, next)), Selected(rows, c));
      var rest := Follow(text, rows, next);
      Walk(page + rest.seen, 1 + rest.pages)
  }

  lemma {:induction false} FollowSees(text: Text, rows: set<Key>, cursor: string)
    requires text.Valid() && forall k :: k in Selected(rows, PageCursor(text, cursor)) ==> k.ts <= MAX_TS
    ensures StrictTotal(Newer)
    ensures var (all, walk) := (Selected(rows, PageCursor(text, cursor)), Follow(text, rows, cursor));
            walk.seen == Sort(Newer, all) && walk.pages == |all| / PAGE_SIZE + 1
    decreases |Selected(rows, PageCursor(text, cursor))|
  {
    NewerOrder();
    var c := PageCursor(text, cursor);
    var page := Page(rows, c);
    if NextCursor(text, page).Some? {
      var last := page[|page| - 1];
      PageEnd(rows, c, last);
      SubsetSize(Selected(rows, Bind(last)), Selected(rows, c));
      FollowSees(text, rows, text.enc(last));
    }
  }

  /** From the first page on, following next_cursor visits the app's rows in
      (created_at, id) descending order, each exactly once, in n/50 + 1 pages, and
      misses a row only if it lies at or above the first-page sentinel: the row of a
      message is seen exactly if it is the app's and created before the last second of
      the year 9999, or in it under any id but the all-ones one. */
  lemma WalkVisitsAll(text: Text, table: Table, app: nat)
    requires text.Valid()
    ensures StrictTotal(Newer)
    ensures var (rows, walk) := (RowsOf(table, app), Follow(text, RowsOf(table, app), ""));
            && walk.seen == Sort(Newer, Selected(rows, FIRST))
            && (forall i, j :: 0 <= i < j < |walk.seen| ==>
                  walk.seen[i].ts > walk.seen[j].ts || (walk.seen[i].ts == walk.seen[j].ts && walk.seen[i].id > walk.seen[j].id))
            && walk.pages == |Selected(rows, FIRST)| / 50 + 1
            && ((forall k :: k in rows ==> k in walk.seen) <==> forall k :: k in rows ==> Below(k, FIRST))
            && (forall k :: k in walk.seen ==> k.id in table && table[k.id] == Columns(app, k.ts))
            && (forall id :: id in table ==>
                  (Key(table[id].createdAt, id) in walk.seen <==>
                     table[id].app == app
                     && (table[id].createdAt < 253_402_300_799_000_000
                         || (table[id].createdAt == 253_402_300_799_000_000 && id < 0xffff_ffff_ffff_ffff_ffff_ffff_ffff_ffff))))
  {
    FollowSees(text, RowsOf(table, app), "");
  }
}

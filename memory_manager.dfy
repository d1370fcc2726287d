/**
 * The per-channel message log (`MemoryManager`): an append-only table of
 * (id, username, message) rows with increasing ids, a handle that is opened
 * lazily on first use, an insert, and a query for the latest rows, returned
 * from oldest to newest.
 *
 * The table is a sequence of rows in insertion order; the rows already in the
 * channel's database file when the manager is created are a parameter.
 */
module Memory {
  import opened Util
  import opened Text

  /** One row of the `memories` table (the timestamp column is not modelled). */
  datatype Row = Row(id: nat, username: string, message: string)

  /** One row of the query's result: the `username` and `message` columns. */
  datatype Entry = Entry(username: string, message: string)

  /** The default `limit` of `getRecentMessages`. */
  const DefaultLimit: int := 10

  /** Rows stored in insertion order carry strictly increasing ids. */
  predicate IdsIncreasing(rows: seq<Row>) {
    forall i, j :: 0 <= i < j < |rows| ==> rows[i].id < rows[j].id
  }

  /**
   * The id `AUTOINCREMENT` gives the next row of a table no row was ever
   * deleted from: one more than the largest id, or 1 for an empty table.
   */
  function NextId(rows: seq<Row>): (id: nat)
    ensures id >= 1
    ensures forall i :: 0 <= i < |rows| ==> rows[i].id < id
    ensures id == 1 || exists i :: 0 <= i < |rows| && rows[i].id + 1 == id
    decreases |rows|
  {
    if rows == [] then 1
    else
      var rest := NextId(rows[..|rows| - 1]);
      var last := rows[|rows| - 1].id + 1;
      if last >= rest then last else rest
  }

  /** In a table with increasing ids the next id is one more than the last row's. */
  lemma {:induction false} NextIdAfterLast(rows: seq<Row>)
    requires IdsIncreasing(rows) && rows != []
    ensures NextId(rows) == rows[|rows| - 1].id + 1
  {
    var id := NextId(rows);
    if id != 1 {
      var i :| 0 <= i < |rows| && rows[i].id + 1 == id;
      assert rows[i].id <= rows[|rows| - 1].id;
    }
  }

  /** Appending a row with the next id keeps the ids increasing. */
  lemma AppendKeepsIdsIncreasing(rows: seq<Row>, username: string, message: string)
    requires IdsIncreasing(rows)
    ensures IdsIncreasing(rows + [Row(NextId(rows), username, message)])
  {
    var after := rows + [Row(NextId(rows), username, message)];
    forall i, j | 0 <= i < j < |after|
      ensures after[i].id < after[j].id
    {
      if j == |rows| {
        assert after[i] == rows[i];
      }
    }
  }

  /** How many rows `LIMIT limit` lets through out of `n`: all of them for a negative limit, as SQLite does. */
  function Count(n: nat, limit: int): nat {
    if limit < 0 then n else Min(limit, n)
  }

  /**
   * `SELECT ... ORDER BY id DESC LIMIT ?` over a table stored in id order:
   * the first `Count` rows, newest first.
   */
  function NewestFirst(rows: seq<Row>, limit: int): seq<Row> {
    Reverse(rows)[..Count(|rows|, limit)]
  }

  /**
   * The query's result is what `ORDER BY id DESC LIMIT` promises: ids strictly
   * decreasing, `Count` rows, and every row left out older than every row returned.
   */
  lemma NewestFirstIsOrderedQuery(rows: seq<Row>, limit: int)
    requires IdsIncreasing(rows)
    ensures var r := NewestFirst(rows, limit);
      |r| == Count(|rows|, limit)
      && (forall i, j :: 0 <= i < j < |r| ==> r[i].id > r[j].id)
      && (forall k :: 0 <= k < |rows| && rows[k] !in r ==>
            forall i :: 0 <= i < |r| ==> rows[k].id < r[i].id)
  {
    var r := NewestFirst(rows, limit);
    var n := |rows|;
    assert forall i :: 0 <= i < |r| ==> r[i] == rows[n - 1 - i];
    assert forall j :: n - |r| <= j < n ==> r[n - 1 - j] == rows[j];
  }

  /** The projection of rows onto their `username` and `message` columns. */
  function Entries(rows: seq<Row>): (entries: seq<Entry>)
    ensures |entries| == |rows|
    ensures forall i :: 0 <= i < |rows| ==> entries[i] == Entry(rows[i].username, rows[i].message)
  {
    seq(|rows|, i requires 0 <= i < |rows| => Entry(rows[i].username, rows[i].message))
  }

  /**
   * Reversing the newest-first result gives the last `Count` rows of the table,
   * oldest first: the rows most recently inserted, in insertion order.
   */
  lemma ReversedQueryIsLatestRows(rows: seq<Row>, limit: int)
    ensures var k := Count(|rows|, limit);
      Reverse(Entries(NewestFirst(rows, limit))) == Entries(rows[|rows| - k..])
  {
    var n := |rows|;
    var k := Count(n, limit);
    var q := NewestFirst(rows, limit);
    assert |q| == k;
    assert forall j :: 0 <= j < k ==> q[j] == rows[n - 1 - j];
    var eq := Entries(q);
    var r := Reverse(eq);
    var e := Entries(rows[n - k..]);
    forall i | 0 <= i < k
      ensures r[i] == e[i]
    {
      calc {
        r[i];
        eq[k - 1 - i];
        Entry(rows[n - k + i].username, rows[n - k + i].message);
        e[i];
      }
    }
  }

  /** After a message is saved, a query with a positive limit ends with that message. */
  lemma LatestAfterSave(rows: seq<Row>, username: string, message: string, limit: int)
    requires limit != 0
    ensures var after := rows + [Row(NextId(rows), username, message)];
      var latest := Entries(after[|after| - Count(|after|, limit)..]);
      |latest| >= 1 && latest[|latest| - 1] == Entry(username, message)
  {
    var after := rows + [Row(NextId(rows), username, message)];
    assert Count(|after|, limit) >= 1;
  }

  /** The channel name a manager is created for: lower-cased, then its first '#' removed, wherever it is. */
  function ChannelName(raw: string): string {
    RemoveFirst(ToLower(raw), '#')
  }

  /** A leading '#' is removed after lower-casing. */
  lemma ChannelNameDropsHash()
    ensures ChannelName("#Ab") == "ab"
  {
    assert ToLower("#Ab") == "#ab";
    assert IndexOf("#ab", '#') == 0;
  }

  /** Only the first '#' goes, and it need not be the leading one. */
  lemma ChannelNameFirstHashOnly()
    ensures ChannelName("a#b#") == "ab#"
  {
    assert ToLower("a#b#") == "a#b#";
    assert IndexOf("a#b#", '#') == 1;
  }

  /** `MemoryManager`: the log of one channel. */
  class MemoryManager {
    const channelName: string
    /** `path.resolve("memory", channelName + ".db")`, relative to the working directory. */
    const dbPath: string
    /** Whether the database handle is open (`this.db` is not null). */
    var db: bool
    /** The rows of the `memories` table, in insertion order. */
    var table: seq<Row>

    ghost predicate Valid()
      reads this
    {
      IdsIncreasing(table)
    }

    /** Normalises the channel name and derives the file path; the handle starts closed. */
    constructor (rawChannelName: string, stored: seq<Row>)
      requires IdsIncreasing(stored)
      ensures channelName == ChannelName(rawChannelName)
      ensures dbPath == "memory/" + channelName + ".db"
      ensures !db && table == stored
      ensures Valid()
    {
      channelName := ChannelName(rawChannelName);
      dbPath := "memory/" + ChannelName(rawChannelName) + ".db";
      db := false;
      table := stored;
    }

    /** `init`: opens the handle; creating the table when it is absent leaves its rows as they are. */
    method Init()
      modifies this
      ensures db && table == old(table)
    {
      db := true;
    }

    /** `saveMessage`: opens the handle if needed and inserts one row with the next id. */
    method SaveMessage(username: string, message: string)
      requires Valid()
      modifies this
      ensures Valid() && db
      ensures table == old(table) + [Row(NextId(old(table)), username, message)]
    {
      if !db {
        Init();
      }
      AppendKeepsIdsIncreasing(table, username, message);
      table := table + [Row(NextId(table), username, message)];
    }

    /**
     * `getRecentMessages`: opens the handle if needed, queries the newest rows
     * and reverses them, giving the latest `Count` rows oldest first.
     */
    method GetRecentMessages(limit: int := DefaultLimit) returns (entries: seq<Entry>)
      requires Valid()
      modifies this
      ensures Valid() && db && table == old(table)
      ensures |entries| == Count(|table|, limit)
      ensures entries == Entries(table[|table| - Count(|table|, limit)..])
    {
      if !db {
        Init();
      }
      var rows := Entries(NewestFirst(table, limit));
      entries := Reverse(rows);
      ReversedQueryIsLatestRows(table, limit);
    }
  }
}

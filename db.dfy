/** The favorites/user store of `db.py` (`FinancialAgentDB`): five tables
    and a table of per-table id counters, held in memory. The SQL engine is
    replaced by sequences of rows kept in insertion order. */
module Db {
  import opened Common
  import opened Text

  /** The tables that draw ids from `id_counters`; a counter row is keyed
      by the table's name. */
  datatype Table = UsersTable | FavoritesTable | QueriesTable | ResponsesTable | QueryStocksTable

  /** The `table_name` of a table's counter row. */
  function TableName(t: Table): string
  {
    match t
    case UsersTable => "users"
    case FavoritesTable => "favorite_stocks"
    case QueriesTable => "user_queries"
    case ResponsesTable => "agent_responses"
    case QueryStocksTable => "query_stocks"
  }

  /** Distinct tables have distinct names, so keying the counters by table
      is keying them by name. */
  lemma TableNamesDistinct(a: Table, b: Table)
    ensures TableName(a) == TableName(b) <==> a == b
  {
    if a != b {
      var x, y := TableName(a), TableName(b);
      assert x[0] != y[0] || x[1] != y[1] || |x| != |y|;
    }
  }

  /** The tables `setup_db` gives a counter, in its order. */
  const Tables: seq<Table> := [UsersTable, FavoritesTable, QueriesTable, ResponsesTable, QueryStocksTable]

  /** The most favorite stocks a user may hold. */
  const MaxFavorites: nat := 5

  /** `DECIMAL(10, 2)` keeps eight digits before the point: a threshold of
      this magnitude or more cannot be stored. */
  const DecimalBound: real := 100000000.0

  /** Whether a threshold (or `NULL`) fits `DECIMAL(10, 2)`. */
  predicate Storable(t: Option<real>)
  {
    t.None? || (-DecimalBound < t.value && t.value < DecimalBound)
  }

  /** The errors the engine raises, by kind (their exact wording left open). */
  const DecimalRangeError: string := "Conversion Error: value out of range for DECIMAL(10,2)"
  const NegativeLimitError: string := "LIMIT must not be negative"
  const MissingTableError: string := "Catalog Error: table does not exist"

  datatype User = User(userId: int, email: string)
  datatype Favorite = Favorite(favoriteId: int, userId: int, symbol: string, low: Option<real>, high: Option<real>)
  datatype Query = Query(queryId: int, userId: int, text: string, queryType: string)
  datatype Response = Response(responseId: int, queryId: int, text: string, toolsUsed: seq<string>, executionMs: int)
  datatype QueryStock = QueryStock(id: int, queryId: int, symbol: string)

  /** One row of `get_user_query_history` (its time stamp left out). */
  datatype HistoryRow = HistoryRow(queryText: string, responseText: string, toolsUsed: seq<string>, executionMs: int)

  function UserIds(us: seq<User>): (ids: seq<int>)
    ensures |ids| == |us| && forall i :: 0 <= i < |us| ==> ids[i] == us[i].userId
  {
    seq(|us|, i requires 0 <= i < |us| => us[i].userId)
  }

  function FavoriteIds(fs: seq<Favorite>): (ids: seq<int>)
    ensures |ids| == |fs| && forall i :: 0 <= i < |fs| ==> ids[i] == fs[i].favoriteId
  {
    seq(|fs|, i requires 0 <= i < |fs| => fs[i].favoriteId)
  }

  function QueryIds(qs: seq<Query>): (ids: seq<int>)
    ensures |ids| == |qs| && forall i :: 0 <= i < |qs| ==> ids[i] == qs[i].queryId
  {
    seq(|qs|, i requires 0 <= i < |qs| => qs[i].queryId)
  }

  function ResponseIds(rs: seq<Response>): (ids: seq<int>)
    ensures |ids| == |rs| && forall i :: 0 <= i < |rs| ==> ids[i] == rs[i].responseId
  {
    seq(|rs|, i requires 0 <= i < |rs| => rs[i].responseId)
  }

  function QueryStockIds(ss: seq<QueryStock>): (ids: seq<int>)
    ensures |ids| == |ss| && forall i :: 0 <= i < |ss| ==> ids[i] == ss[i].id
  {
    seq(|ss|, i requires 0 <= i < |ss| => ss[i].id)
  }

  /** The ids of a table's rows, in insertion order, increase strictly and
      none is above the table's counter. */
  predicate Numbered(ids: seq<int>, last: int)
  {
    && (forall i, j :: 0 <= i < j < |ids| ==> ids[i] < ids[j])
    && (forall i :: 0 <= i < |ids| ==> ids[i] <= last)
  }

  /** A table numbered up to a counter stays numbered when the counter
      moves on. */
  lemma NumberedRaise(ids: seq<int>, last: int, next: int)
    requires Numbered(ids, last) && last <= next
    ensures Numbered(ids, next)
  {
  }

  /** A row inserted under the next id keeps the table numbered. */
  lemma NumberedAppend(ids: seq<int>, last: int)
    requires Numbered(ids, last)
    ensures Numbered(ids + [last + 1], last + 1)
  {
    assert (ids + [last + 1])[..|ids|] == ids;
  }

  // ---------------------------------------------------------------------
  // id_counters

  /** The counter map after inserting `(t, 0)` for each `t` of `tables`
      with `ON CONFLICT DO NOTHING`. */
  function InitCounters(c: map<Table, int>, tables: seq<Table>): map<Table, int>
  {
    if tables == [] then c
    else
      var prev := InitCounters(c, tables[..|tables| - 1]);
      var t := tables[|tables| - 1];
      if t in prev then prev else prev[t := 0]
  }

  /** `last_id` of a table, 0 while it has no counter row. */
  function LastId(c: map<Table, int>, t: Table): int
  {
    if t in c then c[t] else 0
  }

  /** Initialisation gives every named table a row, adds no other row,
      keeps every row that was there and starts the new ones at 0; so no
      table's `last_id` changes. */
  lemma {:induction false} InitCountersSpec(c: map<Table, int>, tables: seq<Table>)
    ensures forall t :: t in InitCounters(c, tables) <==> t in c || t in tables
    ensures forall t :: t in c ==> InitCounters(c, tables)[t] == c[t]
    ensures forall t :: t in tables && t !in c ==> InitCounters(c, tables)[t] == 0
    ensures forall t :: LastId(InitCounters(c, tables), t) == LastId(c, t)
  {
    if tables != [] {
      var init := tables[..|tables| - 1];
      InitCountersSpec(c, init);
      assert forall u :: u in tables <==> u in init || u == tables[|tables| - 1];
    }
  }

  /** Running the counter initialisation a second time changes nothing. */
  lemma InitCountersIdempotent(c: map<Table, int>, tables: seq<Table>)
    ensures InitCounters(InitCounters(c, tables), tables) == InitCounters(c, tables)
  {
    var once := InitCounters(c, tables);
    var twice := InitCounters(once, tables);
    InitCountersSpec(c, tables);
    InitCountersSpec(once, tables);
    assert twice.Keys == once.Keys;
  }

  // ---------------------------------------------------------------------
  // users

  /** `SELECT user_id FROM users WHERE email = ?` with `fetchone()`. */
  function FindUserByEmail(us: seq<User>, email: string): (r: Option<int>)
    ensures r.None? <==> forall i :: 0 <= i < |us| ==> us[i].email != email
    ensures r.Some? ==> User(r.value, email) in us
  {
    if us == [] then None
    else if us[0].email == email then Some(us[0].userId)
    else FindUserByEmail(us[1..], email)
  }

  /** Each user's email is one no earlier user has. */
  predicate UniqueEmails(us: seq<User>)
  {
    us == [] || (UniqueEmails(us[..|us| - 1]) && FindUserByEmail(us[..|us| - 1], us[|us| - 1].email).None?)
  }

  /** `UniqueEmails` means: no two rows share an email. */
  lemma {:induction false} UniqueEmailsIff(us: seq<User>)
    ensures UniqueEmails(us) <==> forall i, j :: 0 <= i < j < |us| ==> us[i].email != us[j].email
  {
    if us != [] {
      var init := us[..|us| - 1];
      UniqueEmailsIff(init);
      assert forall i :: 0 <= i < |init| ==> init[i] == us[i];
    }
  }

  /** After a user is inserted under a new email, looking that email up
      returns the new id: a second `create_user` finds it. */
  lemma {:induction false} FindUserAfterInsert(us: seq<User>, id: int, email: string)
    requires FindUserByEmail(us, email).None?
    ensures FindUserByEmail(us + [User(id, email)], email) == Some(id)
  {
    if us != [] {
      assert (us + [User(id, email)])[1..] == us[1..] + [User(id, email)];
      FindUserAfterInsert(us[1..], id, email);
    }
  }

  // ---------------------------------------------------------------------
  // favorite_stocks

  predicate Matches(f: Favorite, userId: int, symbol: string)
  {
    f.userId == userId && f.symbol == symbol
  }

  /** `SELECT COUNT(*) FROM favorite_stocks WHERE user_id = ?`. */
  function CountFor(fs: seq<Favorite>, userId: int): (n: nat)
    ensures n <= |fs|
  {
    if fs == [] then 0
    else CountFor(fs[..|fs| - 1], userId) + (if fs[|fs| - 1].userId == userId then 1 else 0)
  }

  /** The count is 0 exactly when no row belongs to the user, and the size
      of the table exactly when every row does. */
  lemma {:induction false} CountForBounds(fs: seq<Favorite>, userId: int)
    ensures CountFor(fs, userId) == 0 <==> forall i :: 0 <= i < |fs| ==> fs[i].userId != userId
    ensures CountFor(fs, userId) == |fs| <==> forall i :: 0 <= i < |fs| ==> fs[i].userId == userId
  {
    if fs != [] {
      var init := fs[..|fs| - 1];
      CountForBounds(init, userId);
      assert forall i :: 0 <= i < |init| ==> init[i] == fs[i];
    }
  }

  /** `SELECT 1 FROM favorite_stocks WHERE user_id = ? AND stock_symbol = ?`
      finds a row. */
  predicate HasFavorite(fs: seq<Favorite>, userId: int, symbol: string)
  {
    exists i :: 0 <= i < |fs| && Matches(fs[i], userId, symbol)
  }

  /** Each row's `(user_id, stock_symbol)` is one no earlier row has. */
  predicate UniqueFavorites(fs: seq<Favorite>)
  {
    fs == [] || (UniqueFavorites(fs[..|fs| - 1]) && !HasFavorite(fs[..|fs| - 1], fs[|fs| - 1].userId, fs[|fs| - 1].symbol))
  }

  /** `UniqueFavorites` means: no two rows share `(user_id, stock_symbol)`. */
  lemma {:induction false} UniqueFavoritesIff(fs: seq<Favorite>)
    ensures UniqueFavorites(fs) <==>
      forall i, j :: 0 <= i < j < |fs| ==> !Matches(fs[i], fs[j].userId, fs[j].symbol)
  {
    if fs != [] {
      var init := fs[..|fs| - 1];
      UniqueFavoritesIff(init);
      assert forall i :: 0 <= i < |init| ==> init[i] == fs[i];
    }
  }

  /** Each row's user held fewer than five favorites before it. */
  predicate WithinCap(fs: seq<Favorite>)
  {
    fs == [] || (WithinCap(fs[..|fs| - 1]) && CountFor(fs[..|fs| - 1], fs[|fs| - 1].userId) < MaxFavorites)
  }

  /** `WithinCap` means: no user holds more than five favorites (both
      directions). */
  lemma {:induction false} WithinCapIff(fs: seq<Favorite>)
    ensures WithinCap(fs) ==> forall u :: CountFor(fs, u) <= MaxFavorites
    ensures (forall u :: CountFor(fs, u) <= MaxFavorites) ==> WithinCap(fs)
  {
    if fs != [] {
      var init, last := fs[..|fs| - 1], fs[|fs| - 1];
      WithinCapIff(init);
      if WithinCap(fs) {
        forall u ensures CountFor(fs, u) <= MaxFavorites {
          assert CountFor(init, u) <= MaxFavorites;
        }
      } else if CountFor(init, last.userId) >= MaxFavorites {
        assert CountFor(fs, last.userId) > MaxFavorites;
      } else {
        var u :| CountFor(init, u) > MaxFavorites;
        assert CountFor(fs, u) > MaxFavorites;
      }
    }
  }

  /** The table after `DELETE ... WHERE user_id = ? AND stock_symbol = ?`:
      exactly the rows that do not match, in their order. */
  function RemoveMatching(fs: seq<Favorite>, userId: int, symbol: string): (r: seq<Favorite>)
    ensures forall x :: x in r <==> x in fs && !Matches(x, userId, symbol)
  {
    if fs == [] then []
    else
      var last := fs[|fs| - 1];
      var init := fs[..|fs| - 1];
      assert forall x :: x in fs <==> x in init || x == last;
      RemoveMatching(init, userId, symbol) + (if Matches(last, userId, symbol) then [] else [last])
  }

  /** The table after `UPDATE ... SET price_threshold_low = ?,
      price_threshold_high = ? WHERE user_id = ? AND stock_symbol = ?`. */
  function SetThresholds(fs: seq<Favorite>, userId: int, symbol: string, low: Option<real>, high: Option<real>): (r: seq<Favorite>)
  {
    seq(|fs|, i requires 0 <= i < |fs| =>
      if Matches(fs[i], userId, symbol) then fs[i].(low := low, high := high) else fs[i])
  }

  /** Inserting a row raises the count of its user by one and that of no
      other user. */
  lemma CountForAppend(fs: seq<Favorite>, f: Favorite, u: int)
    ensures CountFor(fs + [f], u) == CountFor(fs, u) + (if f.userId == u then 1 else 0)
  {
    assert (fs + [f])[..|fs|] == fs;
  }

  /** Deleting never raises a user's count, and leaves every other user's
      count as it was. */
  lemma {:induction false} CountForRemove(fs: seq<Favorite>, userId: int, symbol: string, u: int)
    ensures CountFor(RemoveMatching(fs, userId, symbol), u) <= CountFor(fs, u)
    ensures u != userId ==> CountFor(RemoveMatching(fs, userId, symbol), u) == CountFor(fs, u)
  {
    if fs != [] {
      var init, last := fs[..|fs| - 1], fs[|fs| - 1];
      CountForRemove(init, userId, symbol, u);
      var rest := RemoveMatching(init, userId, symbol);
      if !Matches(last, userId, symbol) {
        CountForAppend(rest, last, u);
      } else {
        assert RemoveMatching(fs, userId, symbol) == rest + [];
        assert rest + [] == rest;
      }
    }
  }

  /** Removing a symbol that is not among the user's favorites changes
      nothing. */
  lemma {:induction false} RemoveAbsentIsNoOp(fs: seq<Favorite>, userId: int, symbol: string)
    requires !HasFavorite(fs, userId, symbol)
    ensures RemoveMatching(fs, userId, symbol) == fs
  {
    if fs != [] {
      var init := fs[..|fs| - 1];
      assert !HasFavorite(init, userId, symbol) by {
        forall i | 0 <= i < |init| ensures !Matches(init[i], userId, symbol) {
          assert init[i] == fs[i];
        }
      }
      RemoveAbsentIsNoOp(init, userId, symbol);
      assert !Matches(fs[|fs| - 1], userId, symbol);
      assert init + [fs[|fs| - 1]] == fs;
    }
  }

  /** Deleting keeps the ids strictly increasing. */
  lemma {:induction false} RemoveKeepsNumbered(fs: seq<Favorite>, userId: int, symbol: string, last: int)
    requires Numbered(FavoriteIds(fs), last)
    ensures Numbered(FavoriteIds(RemoveMatching(fs, userId, symbol)), last)
  {
    if fs != [] {
      var init, f := fs[..|fs| - 1], fs[|fs| - 1];
      assert FavoriteIds(fs)[..|fs| - 1] == FavoriteIds(init);
      RemoveKeepsNumbered(init, userId, symbol, f.favoriteId - 1);
      var rest := RemoveMatching(init, userId, symbol);
      if Matches(f, userId, symbol) {
        assert RemoveMatching(fs, userId, symbol) == rest + [];
        assert rest + [] == rest;
        NumberedRaise(FavoriteIds(rest), f.favoriteId - 1, last);
      } else {
        assert FavoriteIds(rest + [f])[..|rest|] == FavoriteIds(rest);
      }
    }
  }

  /** Deleting keeps `(user_id, stock_symbol)` unique. */
  lemma {:induction false} RemoveKeepsUnique(fs: seq<Favorite>, userId: int, symbol: string)
    requires UniqueFavorites(fs)
    ensures UniqueFavorites(RemoveMatching(fs, userId, symbol))
  {
    if fs != [] {
      var init, f := fs[..|fs| - 1], fs[|fs| - 1];
      RemoveKeepsUnique(init, userId, symbol);
      var rest := RemoveMatching(init, userId, symbol);
      if Matches(f, userId, symbol) {
        assert RemoveMatching(fs, userId, symbol) == rest + [];
        assert rest + [] == rest;
      } else {
        assert (rest + [f])[..|rest|] == rest;
        forall i | 0 <= i < |rest| ensures !Matches(rest[i], f.userId, f.symbol) {
          assert rest[i] in init;
        }
      }
    }
  }

  /** Deleting keeps every user within the cap. */
  lemma {:induction false} RemoveKeepsCap(fs: seq<Favorite>, userId: int, symbol: string)
    requires WithinCap(fs)
    ensures WithinCap(RemoveMatching(fs, userId, symbol))
  {
    if fs != [] {
      var init, f := fs[..|fs| - 1], fs[|fs| - 1];
      RemoveKeepsCap(init, userId, symbol);
      var rest := RemoveMatching(init, userId, symbol);
      if Matches(f, userId, symbol) {
        assert RemoveMatching(fs, userId, symbol) == rest + [];
        assert rest + [] == rest;
      } else {
        assert (rest + [f])[..|rest|] == rest;
        CountForRemove(init, userId, symbol, f.userId);
      }
    }
  }

  /** Updating thresholds overwrites `low` and `high` of exactly the
      matching rows, None included, and leaves every other column of
      every row, and every other row, as it was. */
  lemma UpdateOnlyMatching(fs: seq<Favorite>, userId: int, symbol: string, low: Option<real>, high: Option<real>)
    ensures |SetThresholds(fs, userId, symbol, low, high)| == |fs|
    ensures forall i :: 0 <= i < |fs| ==>
      var r := SetThresholds(fs, userId, symbol, low, high)[i];
      && r.favoriteId == fs[i].favoriteId && r.userId == fs[i].userId && r.symbol == fs[i].symbol
      && (Matches(fs[i], userId, symbol) ==> r.low == low && r.high == high)
      && (!Matches(fs[i], userId, symbol) ==> r == fs[i])
  {
  }

  /** Updating thresholds keeps every user's count. */
  lemma {:induction false} CountForUpdate(fs: seq<Favorite>, userId: int, symbol: string, low: Option<real>, high: Option<real>, u: int)
    ensures CountFor(SetThresholds(fs, userId, symbol, low, high), u) == CountFor(fs, u)
  {
    if fs != [] {
      var init := fs[..|fs| - 1];
      var r := SetThresholds(fs, userId, symbol, low, high);
      assert r[..|fs| - 1] == SetThresholds(init, userId, symbol, low, high);
      CountForUpdate(init, userId, symbol, low, high, u);
    }
  }

  /** Removing favorites keeps the ids, the `(user, symbol)` uniqueness and
      the cap. */
  lemma RemoveKeepsInvariants(fs: seq<Favorite>, userId: int, symbol: string, last: int)
    requires FavoritesOk(fs, last)
    ensures FavoritesOk(RemoveMatching(fs, userId, symbol), last)
  {
    RemoveKeepsNumbered(fs, userId, symbol, last);
    RemoveKeepsUnique(fs, userId, symbol);
    RemoveKeepsCap(fs, userId, symbol);
  }

  /** Updating thresholds keeps the ids, the `(user, symbol)` uniqueness
      and the cap. */
  lemma UpdateKeepsInvariants(fs: seq<Favorite>, userId: int, symbol: string, low: Option<real>, high: Option<real>,
                              last: int)
    requires FavoritesOk(fs, last)
    ensures FavoritesOk(SetThresholds(fs, userId, symbol, low, high), last)
  {
    var r := SetThresholds(fs, userId, symbol, low, high);
    assert FavoriteIds(r) == FavoriteIds(fs);
    UniqueFavoritesIff(fs);
    UniqueFavoritesIff(r);
    WithinCapIff(fs);
    WithinCapIff(r);
    forall u ensures CountFor(r, u) <= MaxFavorites {
      CountForUpdate(fs, userId, symbol, low, high, u);
    }
  }

  // ---------------------------------------------------------------------
  // query_stocks

  /** The rows `log_query_stocks` appends: one per symbol, in order,
      upper-cased, numbered on from `base`. */
  function StockRows(queryId: int, symbols: seq<string>, base: int): (r: seq<QueryStock>)
    ensures |r| == |symbols|
    ensures forall k :: 0 <= k < |r| ==> r[k] == QueryStock(base + 1 + k, queryId, Upper(symbols[k]))
  {
    if symbols == [] then []
    else StockRows(queryId, symbols[..|symbols| - 1], base) + [QueryStock(base + |symbols|, queryId, Upper(symbols[|symbols| - 1]))]
  }

  /** Logging one more symbol appends its row after those already
      logged after `prefix`. */
  lemma StockRowsStep(prefix: seq<QueryStock>, queryId: int, symbols: seq<string>, base: int, i: nat)
    requires i < |symbols|
    ensures prefix + StockRows(queryId, symbols[..i + 1], base)
         == prefix + StockRows(queryId, symbols[..i], base) + [QueryStock(base + i + 1, queryId, Upper(symbols[i]))]
  {
    assert symbols[..i + 1][..i] == symbols[..i];
  }

  /** Setting a counter twice is setting it to the second value. */
  lemma OverwriteCounter(c: map<Table, int>, t: Table, a: int, b: int)
    ensures c[t := a][t := b] == c[t := b]
  {
  }

  // ---------------------------------------------------------------------
  // query history

  function MakeRow(q: Query, r: Response): HistoryRow
  {
    HistoryRow(q.text, r.text, r.toolsUsed, r.executionMs)
  }

  /** The join rows of one query: its responses, in insertion order. */
  function RowsFor(q: Query, rs: seq<Response>): seq<HistoryRow>
  {
    if rs == [] then []
    else
      var r := rs[|rs| - 1];
      RowsFor(q, rs[..|rs| - 1]) + (if r.queryId == q.queryId then [MakeRow(q, r)] else [])
  }

  /** `user_queries JOIN agent_responses ON query_id WHERE user_id = ?`,
      newest query first (time stamps taken as insertion order). */
  function JoinHistory(qs: seq<Query>, rs: seq<Response>, userId: int): seq<HistoryRow>
  {
    if qs == [] then []
    else
      var q := qs[|qs| - 1];
      (if q.userId == userId then RowsFor(q, rs) else []) + JoinHistory(qs[..|qs| - 1], rs, userId)
  }

  /** Every history row joins one of the user's queries with a response to
      that query. */
  ghost predicate RowFromUser(row: HistoryRow, qs: seq<Query>, rs: seq<Response>, userId: int)
  {
    exists q, r :: q in qs && r in rs && q.userId == userId && r.queryId == q.queryId && row == MakeRow(q, r)
  }

  /** The rows of one query come from its responses. */
  lemma {:induction false} RowsForSound(q: Query, rs: seq<Response>)
    ensures forall row :: row in RowsFor(q, rs) ==>
      exists x :: x in rs && x.queryId == q.queryId && row == MakeRow(q, x)
  {
    if rs != [] {
      var init := rs[..|rs| - 1];
      assert rs == init + [rs[|rs| - 1]];
      RowsForSound(q, init);
      forall row | row in RowsFor(q, rs)
        ensures exists x :: x in rs && x.queryId == q.queryId && row == MakeRow(q, x)
      {
        if row in RowsFor(q, init) {
          var x :| x in init && x.queryId == q.queryId && row == MakeRow(q, x);
          assert x in rs;
        } else {
          assert rs[|rs| - 1] in rs;
        }
      }
    }
  }

  /** Every response to a query yields one of its rows. */
  lemma {:induction false} RowsForComplete(q: Query, rs: seq<Response>, r: Response)
    requires r in rs && r.queryId == q.queryId
    ensures MakeRow(q, r) in RowsFor(q, rs)
  {
    var init := rs[..|rs| - 1];
    assert rs == init + [rs[|rs| - 1]];
    if r != rs[|rs| - 1] {
      RowsForComplete(q, init, r);
    }
  }

  /** The join is exact: every row comes from one of the user's queries and
      a response to it, and every such pair yields a row. */
  lemma {:induction false} JoinHistoryExact(qs: seq<Query>, rs: seq<Response>, userId: int)
    ensures forall row :: row in JoinHistory(qs, rs, userId) ==> RowFromUser(row, qs, rs, userId)
    ensures forall q, r :: q in qs && r in rs && q.userId == userId && r.queryId == q.queryId ==>
      MakeRow(q, r) in JoinHistory(qs, rs, userId)
  {
    if qs != [] {
      var init, q := qs[..|qs| - 1], qs[|qs| - 1];
      JoinHistoryExact(init, rs, userId);
      assert forall x :: x in qs <==> x in init || x == q;
      forall row | row in JoinHistory(qs, rs, userId) ensures RowFromUser(row, qs, rs, userId) {
        if row in JoinHistory(init, rs, userId) {
          var a, b :| a in init && b in rs && a.userId == userId && b.queryId == a.queryId && row == MakeRow(a, b);
          assert a in qs;
        } else {
          RowsForSound(q, rs);
          var x :| x in rs && x.queryId == q.queryId && row == MakeRow(q, x);
        }
      }
      forall a, b | a in qs && b in rs && a.userId == userId && b.queryId == a.queryId
        ensures MakeRow(a, b) in JoinHistory(qs, rs, userId)
      {
        if a == q { RowsForComplete(q, rs, b); }
      }
    }
  }

  /** `get_user_query_history(user_id, limit)`: the join, cut to `limit`
      rows by `LIMIT ?`. */
  function History(qs: seq<Query>, rs: seq<Response>, userId: int, limit: nat): (rows: seq<HistoryRow>)
    ensures |rows| <= limit
    ensures rows <= JoinHistory(qs, rs, userId)
    ensures |rows| == if limit < |JoinHistory(qs, rs, userId)| then limit else |JoinHistory(qs, rs, userId)|
  {
    var all := JoinHistory(qs, rs, userId);
    if limit < |all| then all[..limit] else all
  }

  // ---------------------------------------------------------------------
  // the store

  /** The users table: numbered up to its counter, emails unique. */
  predicate UsersOk(us: seq<User>, last: int)
  {
    Numbered(UserIds(us), last) && UniqueEmails(us)
  }

  /** The favorites table: numbered up to its counter, `(user, symbol)`
      unique, at most five per user. */
  predicate FavoritesOk(fs: seq<Favorite>, last: int)
  {
    Numbered(FavoriteIds(fs), last) && UniqueFavorites(fs) && WithinCap(fs)
  }

  /** The store's invariant, table by table. */
  predicate Consistent(c: map<Table, int>, users: seq<User>, favorites: seq<Favorite>, queries: seq<Query>,
                       responses: seq<Response>, queryStocks: seq<QueryStock>)
  {
    && UsersOk(users, LastId(c, UsersTable))
    && FavoritesOk(favorites, LastId(c, FavoritesTable))
    && Numbered(QueryIds(queries), LastId(c, QueriesTable))
    && Numbered(ResponseIds(responses), LastId(c, ResponsesTable))
    && Numbered(QueryStockIds(queryStocks), LastId(c, QueryStocksTable))
  }

  /** Moving one counter on, with no row inserted, keeps the invariant. */
  lemma ConsistentRaise(c: map<Table, int>, users: seq<User>, favorites: seq<Favorite>, queries: seq<Query>,
                        responses: seq<Response>, queryStocks: seq<QueryStock>, t: Table, next: int)
    requires Consistent(c, users, favorites, queries, responses, queryStocks) && LastId(c, t) <= next
    ensures Consistent(c[t := next], users, favorites, queries, responses, queryStocks)
  {
    match t
    case UsersTable => NumberedRaise(UserIds(users), LastId(c, t), next);
    case FavoritesTable => NumberedRaise(FavoriteIds(favorites), LastId(c, t), next);
    case QueriesTable => NumberedRaise(QueryIds(queries), LastId(c, t), next);
    case ResponsesTable => NumberedRaise(ResponseIds(responses), LastId(c, t), next);
    case QueryStocksTable => NumberedRaise(QueryStockIds(queryStocks), LastId(c, t), next);
  }

  /** Inserting a user under the next id, with an email no row has, keeps
      the users table consistent. */
  lemma InsertUserOk(us: seq<User>, last: int, row: User)
    requires UsersOk(us, last) && row.userId == last + 1 && FindUserByEmail(us, row.email).None?
    ensures UsersOk(us + [row], row.userId)
  {
    assert (us + [row])[..|us|] == us;
    assert UserIds(us + [row]) == UserIds(us) + [row.userId];
    NumberedAppend(UserIds(us), last);
  }

  /** Inserting a favorite under the next id, for a user below the cap who
      does not hold its symbol, keeps the favorites table consistent. */
  lemma InsertFavoriteOk(fs: seq<Favorite>, last: int, row: Favorite)
    requires FavoritesOk(fs, last) && row.favoriteId == last + 1
    requires CountFor(fs, row.userId) < MaxFavorites && !HasFavorite(fs, row.userId, row.symbol)
    ensures FavoritesOk(fs + [row], row.favoriteId)
  {
    assert (fs + [row])[..|fs|] == fs;
    assert FavoriteIds(fs + [row]) == FavoriteIds(fs) + [row.favoriteId];
    NumberedAppend(FavoriteIds(fs), last);
  }

  /** A query, response or query-stock row inserted under the next id keeps
      its table numbered. */
  lemma InsertQueryOk(qs: seq<Query>, last: int, row: Query)
    requires Numbered(QueryIds(qs), last) && row.queryId == last + 1
    ensures Numbered(QueryIds(qs + [row]), row.queryId)
  {
    assert QueryIds(qs + [row]) == QueryIds(qs) + [row.queryId];
    NumberedAppend(QueryIds(qs), last);
  }

  lemma InsertResponseOk(rs: seq<Response>, last: int, row: Response)
    requires Numbered(ResponseIds(rs), last) && row.responseId == last + 1
    ensures Numbered(ResponseIds(rs + [row]), row.responseId)
  {
    assert ResponseIds(rs + [row]) == ResponseIds(rs) + [row.responseId];
    NumberedAppend(ResponseIds(rs), last);
  }

  lemma InsertQueryStockOk(ss: seq<QueryStock>, last: int, row: QueryStock)
    requires Numbered(QueryStockIds(ss), last) && row.id == last + 1
    ensures Numbered(QueryStockIds(ss + [row]), row.id)
  {
    assert QueryStockIds(ss + [row]) == QueryStockIds(ss) + [row.id];
    NumberedAppend(QueryStockIds(ss), last);
  }

  class FinancialAgentDB {
    var counters: map<Table, int>
    var users: seq<User>
    var favorites: seq<Favorite>
    var queries: seq<Query>
    var responses: seq<Response>
    var queryStocks: seq<QueryStock>

    /** `setup_db` has run: every table has its counter row. */
    predicate Ready()
      reads this
    {
      forall t :: t in Tables ==> t in counters
    }

    predicate Valid()
      reads this
    {
      Consistent(counters, users, favorites, queries, responses, queryStocks)
    }

    /** A fresh connection: no counter rows, no rows. */
    constructor ()
      ensures Valid() && counters == map[]
      ensures users == [] && favorites == [] && queries == [] && responses == [] && queryStocks == []
    {
      counters := map[];
      users, favorites, queries, responses, queryStocks := [], [], [], [], [];
    }

    /** `setup_db`, counter part: inserts `(t, 0)` for each table with
        `ON CONFLICT DO NOTHING`. */
    method SetupDb()
      requires Valid()
      modifies this
      ensures Valid() && Ready()
      ensures counters == InitCounters(old(counters), Tables)
      ensures users == old(users) && favorites == old(favorites) && queries == old(queries)
      ensures responses == old(responses) && queryStocks == old(queryStocks)
    {
      for i := 0 to |Tables|
        invariant counters == InitCounters(old(counters), Tables[..i])
        invariant users == old(users) && favorites == old(favorites) && queries == old(queries)
        invariant responses == old(responses) && queryStocks == old(queryStocks)
      {
        assert Tables[..i + 1][..i] == Tables[..i];
        var t := Tables[i];
        if t !in counters {
          counters := counters[t := 0];
        }
      }
      assert Tables[..|Tables|] == Tables;
      InitCountersSpec(old(counters), Tables);
    }

    /** `_get_next_id(table)`: raises the table's counter by one and
        returns its new value. Without a counter for the table (before
        `setup_db`, when the `UPDATE` fails on the missing `id_counters`
        table) it raises and changes nothing. */
    method NextId(table: Table) returns (id: Outcome<int>)
      requires Valid()
      modifies this
      ensures Valid()
      ensures table in old(counters) ==>
        id == Value(old(counters)[table] + 1) && counters == old(counters)[table := id.value]
      ensures table !in old(counters) ==> id == Raised(MissingTableError) && counters == old(counters)
      ensures users == old(users) && favorites == old(favorites) && queries == old(queries)
      ensures responses == old(responses) && queryStocks == old(queryStocks)
    {
      if table in counters {
        var next := counters[table] + 1;
        ConsistentRaise(counters, users, favorites, queries, responses, queryStocks, table, next);
        counters := counters[table := next];
        id := Value(next);
      } else {
        id := Raised(MissingTableError);
      }
    }

    /** `create_user(email)`: the stored id when the email is known,
        otherwise a new row under the next `users` id. */
    method CreateUser(email: string) returns (userId: int)
      requires Valid() && Ready()
      modifies this
      ensures Valid() && Ready()
      ensures FindUserByEmail(old(users), email).Some? ==>
        userId == FindUserByEmail(old(users), email).value
        && users == old(users) && counters == old(counters)
      ensures FindUserByEmail(old(users), email).None? ==>
        userId == old(counters)[UsersTable] + 1
        && users == old(users) + [User(userId, email)]
        && counters == old(counters)[UsersTable := userId]
      ensures FindUserByEmail(users, email) == Some(userId)
      ensures favorites == old(favorites) && queries == old(queries)
      ensures responses == old(responses) && queryStocks == old(queryStocks)
    {
      var existing := FindUserByEmail(users, email);
      if existing.Some? {
        return existing.value;
      }
      FindUserAfterInsert(users, counters[UsersTable] + 1, email);
      userId := InsertUser(email);
    }

    /** The `INSERT` of `create_user` for an e-mail address not yet known. */
    method InsertUser(email: string) returns (userId: int)
      requires Valid() && Ready()
      requires FindUserByEmail(users, email).None?
      modifies this
      ensures Valid() && Ready()
      ensures userId == old(counters)[UsersTable] + 1
      ensures users == old(users) + [User(userId, email)]
      ensures counters == old(counters)[UsersTable := userId]
      ensures favorites == old(favorites) && queries == old(queries)
      ensures responses == old(responses) && queryStocks == old(queryStocks)
    {
      var row := User(counters[UsersTable] + 1, email);
      InsertUserOk(users, counters[UsersTable], row);
      var next := NextId(UsersTable);
      users := users + [row];
      userId := row.userId;
    }

    /** `add_favorite_stock`: refused (False, nothing changes) when the user
        already holds five favorites or already holds the upper-cased
        symbol. Otherwise the next id is drawn, and the `INSERT` either
        adds one row under it or, for a threshold `DECIMAL(10, 2)` cannot
        hold, raises with that id already used up. */
    method AddFavoriteStock(userId: int, symbol: string, low: Option<real>, high: Option<real>) returns (added: Outcome<bool>)
      requires Valid() && Ready()
      modifies this
      ensures Valid() && Ready()
      ensures added == Value(false) <==> CountFor(old(favorites), userId) >= MaxFavorites
                                         || HasFavorite(old(favorites), userId, Upper(symbol))
      ensures added == Value(true) <==> CountFor(old(favorites), userId) < MaxFavorites
                                        && !HasFavorite(old(favorites), userId, Upper(symbol))
                                        && Storable(low) && Storable(high)
      ensures added.Raised? ==> added.error == DecimalRangeError
      ensures added == Value(true) ==>
        favorites == old(favorites) + [Favorite(old(counters)[FavoritesTable] + 1, userId, Upper(symbol), low, high)]
      ensures added != Value(false) ==> counters == old(counters)[FavoritesTable := old(counters)[FavoritesTable] + 1]
      ensures added != Value(true) ==> favorites == old(favorites)
      ensures added == Value(false) ==> counters == old(counters)
      ensures users == old(users) && queries == old(queries)
      ensures responses == old(responses) && queryStocks == old(queryStocks)
    {
      var count := CountFor(favorites, userId);
      if count >= MaxFavorites {
        return Value(false);
      }
      var sym := Upper(symbol);
      if exists i :: 0 <= i < |favorites| && Matches(favorites[i], userId, sym) {
        return Value(false);
      }
      if !(Storable(low) && Storable(high)) {
        var next := NextId(FavoritesTable);
        return Raised(DecimalRangeError);
      }
      InsertFavorite(userId, sym, low, high);
      added := Value(true);
    }

    /** The `INSERT` of `add_favorite_stock`, once both checks passed. */
    method InsertFavorite(userId: int, symbol: string, low: Option<real>, high: Option<real>)
      requires Valid() && Ready()
      requires CountFor(favorites, userId) < MaxFavorites && !HasFavorite(favorites, userId, symbol)
      modifies this
      ensures Valid() && Ready()
      ensures favorites == old(favorites) + [Favorite(old(counters)[FavoritesTable] + 1, userId, symbol, low, high)]
      ensures counters == old(counters)[FavoritesTable := old(counters)[FavoritesTable] + 1]
      ensures users == old(users) && queries == old(queries)
      ensures responses == old(responses) && queryStocks == old(queryStocks)
    {
      var row := Favorite(counters[FavoritesTable] + 1, userId, symbol, low, high);
      InsertFavoriteOk(favorites, counters[FavoritesTable], row);
      var next := NextId(FavoritesTable);
      favorites := favorites + [row];
    }

    /** `log_query`: appends one query under the next id and returns it. */
    method LogQuery(userId: int, text: string, queryType: string) returns (queryId: int)
      requires Valid() && Ready()
      modifies this
      ensures Valid() && Ready()
      ensures queryId == old(counters)[QueriesTable] + 1
      ensures queries == old(queries) + [Query(queryId, userId, text, queryType)]
      ensures counters == old(counters)[QueriesTable := queryId]
      ensures users == old(users) && favorites == old(favorites)
      ensures responses == old(responses) && queryStocks == old(queryStocks)
    {
      InsertQueryOk(queries, counters[QueriesTable], Query(counters[QueriesTable] + 1, userId, text, queryType));
      var next := NextId(QueriesTable);
      queryId := next.value;
      queries := queries + [Query(queryId, userId, text, queryType)];
    }

    /** `log_response`: appends one response under the next id. */
    method LogResponse(queryId: int, text: string, toolsUsed: seq<string>, executionMs: int)
      requires Valid() && Ready()
      modifies this
      ensures Valid() && Ready()
      ensures responses == old(responses) + [Response(old(counters)[ResponsesTable] + 1, queryId, text, toolsUsed, executionMs)]
      ensures counters == old(counters)[ResponsesTable := old(counters)[ResponsesTable] + 1]
      ensures users == old(users) && favorites == old(favorites)
      ensures queries == old(queries) && queryStocks == old(queryStocks)
    {
      InsertResponseOk(responses, counters[ResponsesTable], Response(counters[ResponsesTable] + 1, queryId, text, toolsUsed, executionMs));
      var next := NextId(ResponsesTable);
      responses := responses + [Response(next.value, queryId, text, toolsUsed, executionMs)];
    }

    /** One pass of the loop of `log_query_stocks`: one row under the next
        id, for the upper-cased symbol. */
    method InsertQueryStock(queryId: int, symbol: string)
      requires Valid() && Ready()
      modifies this
      ensures Valid() && Ready()
      ensures queryStocks == old(queryStocks) + [QueryStock(old(counters)[QueryStocksTable] + 1, queryId, Upper(symbol))]
      ensures counters == old(counters)[QueryStocksTable := old(counters)[QueryStocksTable] + 1]
      ensures users == old(users) && favorites == old(favorites)
      ensures queries == old(queries) && responses == old(responses)
    {
      var row := QueryStock(counters[QueryStocksTable] + 1, queryId, Upper(symbol));
      InsertQueryStockOk(queryStocks, counters[QueryStocksTable], row);
      var next := NextId(QueryStocksTable);
      queryStocks := queryStocks + [row];
    }

    /** `log_query_stocks`: one row per symbol, in order, upper-cased, each
        under a fresh id. */
    method LogQueryStocks(queryId: int, symbols: seq<string>)
      requires Valid() && Ready()
      modifies this
      ensures Valid() && Ready()
      ensures queryStocks == old(queryStocks) + StockRows(queryId, symbols, old(counters)[QueryStocksTable])
      ensures counters == old(counters)[QueryStocksTable := old(counters)[QueryStocksTable] + |symbols|]
      ensures users == old(users) && favorites == old(favorites)
      ensures queries == old(queries) && responses == old(responses)
    {
      ghost var base := counters[QueryStocksTable];
      for i := 0 to |symbols|
        invariant Valid() && Ready()
        invariant queryStocks == old(queryStocks) + StockRows(queryId, symbols[..i], base)
        invariant counters == old(counters)[QueryStocksTable := base + i]
        invariant users == old(users) && favorites == old(favorites)
        invariant queries == old(queries) && responses == old(responses)
      {
        StockRowsStep(old(queryStocks), queryId, symbols, base, i);
        OverwriteCounter(old(counters), QueryStocksTable, base + i, base + i + 1);
        InsertQueryStock(queryId, symbols[i]);
      }
      assert symbols[..|symbols|] == symbols;
    }

    /** `get_user_query_history(user_id, limit)`: raises before `setup_db`
        (no `user_queries` table) and for a negative `LIMIT`. */
    method GetUserQueryHistory(userId: int, limit: int) returns (rows: Outcome<seq<HistoryRow>>)
      ensures rows.Raised? <==> !Ready() || limit < 0
      ensures !Ready() ==> rows == Raised(MissingTableError)
      ensures Ready() && limit < 0 ==> rows == Raised(NegativeLimitError)
      ensures rows.Value? ==>
        && rows.value == History(queries, responses, userId, limit)
        && |rows.value| <= limit
        && forall row :: row in rows.value ==> RowFromUser(row, queries, responses, userId)
    {
      if !Ready() {
        return Raised(MissingTableError);
      }
      if limit < 0 {
        return Raised(NegativeLimitError);
      }
      rows := Value(History(queries, responses, userId, limit));
      JoinHistoryExact(queries, responses, userId);
    }

    /** `remove_favorite_stock`: deletes the rows of the user carrying the
        upper-cased symbol. */
    method RemoveFavoriteStock(userId: int, symbol: string)
      requires Valid() && Ready()
      modifies this
      ensures Valid() && Ready()
      ensures favorites == RemoveMatching(old(favorites), userId, Upper(symbol))
      ensures counters == old(counters) && users == old(users) && queries == old(queries)
      ensures responses == old(responses) && queryStocks == old(queryStocks)
    {
      var sym := Upper(symbol);
      RemoveKeepsInvariants(favorites, userId, sym, LastId(counters, FavoritesTable));
      favorites := RemoveMatching(favorites, userId, sym);
    }

    /** `update_thresholds`: overwrites both thresholds of the user's row
        carrying the upper-cased symbol, or raises, changing nothing, for a
        threshold `DECIMAL(10, 2)` cannot hold. */
    method UpdateThresholds(userId: int, symbol: string, low: Option<real>, high: Option<real>) returns (done: Outcome<()>)
      requires Valid() && Ready()
      modifies this
      ensures Valid() && Ready()
      ensures done.Value? <==> Storable(low) && Storable(high)
      ensures done.Raised? ==> done.error == DecimalRangeError && favorites == old(favorites)
      ensures done.Value? ==> favorites == SetThresholds(old(favorites), userId, Upper(symbol), low, high)
      ensures counters == old(counters) && users == old(users) && queries == old(queries)
      ensures responses == old(responses) && queryStocks == old(queryStocks)
    {
      if !(Storable(low) && Storable(high)) {
        return Raised(DecimalRangeError);
      }
      var sym := Upper(symbol);
      UpdateKeepsInvariants(favorites, userId, sym, low, high, LastId(counters, FavoritesTable));
      favorites := SetThresholds(favorites, userId, sym, low, high);
      done := Value(());
    }
  }
}

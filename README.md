# Favorites store and daily stock digest

A Dafny model of the two pieces of local logic in the financial-agent
repository:

- **`db.py`, `FinancialAgentDB`** — a small table manager on top of an SQL
  store. The tables (`users`, `favorite_stocks`, `user_queries`,
  `agent_responses`, `query_stocks`) are sequences of rows held in the fields
  of the class `Db.FinancialAgentDB`, and `id_counters` is a map from table
  to `last_id`. Every method states which rows and counters change and
  that nothing else does. The class invariant `Valid` holds for every table:
  - ids grow strictly with insertion order and never pass the table's counter;
  - e-mails are unique;
  - `(user_id, stock_symbol)` pairs are unique;
  - no user holds more than five favorites.

  Each mutating method keeps the invariant.
- **`daily_mail.py`, `StockEmailer`** — the digest rules:
  - parsing a fetched daily series (`get_stock_data`);
  - trimming and numbering search lines (`get_stock_news`);
  - threshold alerts (`check_price_alerts`);
  - the block structure of the body (`format_stock_email`);
  - the weekday job (`daily_email_job`), which, user by user until a digest body raises (`DailyMail.RunCompletedIff`), makes one send attempt to each user with favorites and logs a query/response pair per digest in the store.

  What the quote provider, the search provider, the mail server and the
  clock return are inputs. A Python exception is the value `Raised(str(e))`
  of `Common.Outcome`, and Python's `None` is `Common.None`.

The body of an e-mail is a sequence of `Piece`s:
- every fixed text of the source is a `Fragment` whose exact characters `FragmentText` gives;
- variable texts are `Lit`;
- numbers stay numbers (`Price`, `Percent`, `Count`, `Trend` for the emoji).

Files:
- `common.dfy` (Option, Outcome);
- `text.dfy` (the Python `str` operations used: `strip`, `upper`, `split`/`join`, string `<=`);
- `db.dfy` (module `Db`);
- `daily_mail.dfy` (module `DailyMail`).

Behaviour of the code the model keeps:
- A digest is logged even when sending failed. `send_email` returns a dictionary that is never empty, so the test at line 195 always passes.
- A failed news search for a favorite whose quote came in aborts the whole job (`DailyMail.EmailBodyRaisesIff` states the exact condition). The error entry `{'error': ...}` makes `item['index']` raise KeyError in `format_stock_email`, and nothing catches it. Later users get no mail. A favorite whose quote failed never reads its news.
- `send_email` returns a dictionary, not a bool.
- The closing rule is emitted as the literal text `{'='*50}` (line 130 is not an f-string).
- The digest's query is logged with the current time as its `query_type`.

## Model

| member | source | states |
|---|---|---|
| `Text.Strip` | daily_mail.py:72-74 | definition of `str.strip()`: the text between the leading and the trailing whitespace; its properties are the three `Strip` lemmas below |
| `Text.Upper` | db.py:154 | definition of ASCII `str.upper()`, character by character; its properties are `Text.UpperNormalises` |
| `Text.LexLe` | daily_mail.py:42 | definition of Python's string `<=`: code-point lexicographic order, a proper prefix first; its properties are the `LexLe` lemmas below |
| `Text.StripIsTrimmedSlice` | daily_mail.py:72-74 | `strip()` returns a slice of the line outside which everything is whitespace, and the result neither starts nor ends with whitespace |
| `Text.StripEmptyIffBlank` | daily_mail.py:72 | `line.strip()` is falsy exactly when the line is all whitespace |
| `Text.StripIdempotent` | daily_mail.py:74 | stripping a stripped title changes nothing |
| `Text.UpperNormalises` | db.py:154 | `upper()` keeps the length, leaves no lower-case letter, is idempotent, and fixes upper-case symbols |
| `Text.Split` | daily_mail.py:70 | `split('\n')` always gives at least one part |
| `Text.SplitJoin` | daily_mail.py:70 | joining the parts of `split(c)` with `c` gives back the text, and no part contains `c` |
| `Text.JoinExtendLast` | daily_mail.py:70 | growing the last part of a split grows the joined text by the same character |
| `Text.LexLeReflexive` | daily_mail.py:42 | every string, date keys included, is `<=` itself |
| `Text.LexLeTotal` | daily_mail.py:42 | the string ordering used by `sorted` is total |
| `Text.LexLeTransitive` | daily_mail.py:42 | the string ordering is transitive |
| `Text.LexLeAntisymmetric` | daily_mail.py:42 | the string ordering is antisymmetric |
| `Db.TableNamesDistinct` | db.py:36 | the five counter names are pairwise different, so a table is identified by its name |
| `Db.NumberedRaise` | db.py:106-110 | raising a counter keeps every id of its table at or below it |
| `Db.NumberedAppend` | db.py:103-116 | a row inserted under `last_id + 1` keeps the ids strictly increasing and bounded by the new counter |
| `Db.InitCounters` | db.py:36-42 | definition of the counter table after the `INSERT ... ON CONFLICT DO NOTHING` loop; its properties are `Db.InitCountersSpec` and `Db.InitCountersIdempotent` |
| `Db.InitCountersSpec` | db.py:36-42 | counter initialisation gives every named table a row, adds no other, keeps every existing `last_id` and starts new ones at 0 |
| `Db.InitCountersIdempotent` | db.py:36-42 | running the initialisation twice is running it once |
| `Db.FindUserByEmail` | db.py:121-123 | the lookup finds nothing iff no row has the e-mail, and what it finds is the id of a row with that e-mail |
| `Db.UniqueEmailsIff` | db.py:118-135 | the users invariant means no two rows share an e-mail |
| `Db.FindUserAfterInsert` | db.py:125-135 | after inserting a new e-mail, looking it up returns the new id |
| `Db.CountFor` | db.py:142-144 | `COUNT(*)` of a user's favorites never exceeds the table size |
| `Db.CountForBounds` | db.py:142-144 | the count is 0 iff no row belongs to the user, and the table size iff every row does |
| `Db.UniqueFavoritesIff` | db.py:150-158 | the favorites invariant means no two rows share `(user_id, stock_symbol)` |
| `Db.WithinCapIff` | db.py:141-148 | the favorites invariant means every user has at most five favorites |
| `Db.RemoveMatching` | db.py:229-232 | the `DELETE` keeps exactly the rows that do not match user and symbol |
| `Db.CountForAppend` | db.py:161-166 | an inserted favorite raises its user's count by one and no other user's |
| `Db.CountForRemove` | db.py:227-232 | a delete never raises a count and leaves other users' counts as they were |
| `Db.RemoveAbsentIsNoOp` | db.py:227-232 | removing a symbol the user does not hold changes nothing |
| `Db.RemoveKeepsNumbered` | db.py:227-232 | deleting rows keeps the ids increasing and bounded |
| `Db.RemoveKeepsUnique` | db.py:227-232 | deleting rows keeps `(user, symbol)` unique |
| `Db.RemoveKeepsCap` | db.py:227-232 | deleting rows keeps every user within five favorites |
| `Db.RemoveKeepsInvariants` | db.py:227-232 | deleting keeps the whole favorites invariant |
| `Db.SetThresholds` | db.py:238-243 | definition of the table after the `UPDATE`; its properties are `Db.UpdateOnlyMatching`, `Db.CountForUpdate` and `Db.UpdateKeepsInvariants` |
| `Db.UpdateOnlyMatching` | db.py:238-243 | the `UPDATE` overwrites both thresholds (None included) of exactly the matching rows and leaves every other column and row as it was |
| `Db.CountForUpdate` | db.py:238-243 | updating thresholds keeps every user's count |
| `Db.UpdateKeepsInvariants` | db.py:234-243 | updating thresholds keeps the whole favorites invariant |
| `Db.StockRows` | db.py:194-199 | the rows for the symbols: one per symbol, in order, upper-cased, numbered consecutively after the counter |
| `Db.StockRowsStep` | db.py:194-199 | one more symbol appends one more row |
| `Db.JoinHistory` | db.py:214-223 | definition of the join of the user's queries with their responses, newest query first; its properties are `Db.JoinHistoryExact` and `Db.History` |
| `Db.RowsForSound` | db.py:220-221 | every joined row of a query comes from a response to it |
| `Db.RowsForComplete` | db.py:220-221 | every response to a query yields a joined row |
| `Db.JoinHistoryExact` | db.py:214-222 | the join holds exactly the rows of the user's queries paired with their responses |
| `Db.History` | db.py:210-225 | `LIMIT` gives a prefix of the join of length `min(limit, rows)` |
| `Db.ConsistentRaise` | db.py:103-116 | moving a counter on keeps the store invariant |
| `Db.InsertUserOk` | db.py:128-133 | inserting a new e-mail under the next id keeps the users table consistent |
| `Db.InsertFavoriteOk` | db.py:141-166 | a favorite inserted under the next id, for a user below five who lacks the symbol, keeps the favorites invariant |
| `Db.InsertQueryOk` | db.py:172-176 | a query under the next id keeps the queries table numbered |
| `Db.InsertResponseOk` | db.py:184-190 | a response under the next id keeps the responses table numbered |
| `Db.InsertQueryStockOk` | db.py:195-199 | a query-stock row under the next id keeps its table numbered |
| `Db.FinancialAgentDB.constructor` | db.py:10-23 | a fresh store: no counter rows, no rows, invariant holds |
| `Db.FinancialAgentDB.SetupDb` | db.py:25-42 | the counters become the initialisation of the old ones; no table row changes |
| `Db.FinancialAgentDB.NextId` | db.py:103-116 | raises the table's counter by exactly one and returns the new value; other counters and all rows unchanged; with no counter row it raises and changes nothing |
| `Db.FinancialAgentDB.CreateUser` | db.py:118-135 | a known e-mail returns its stored id and changes nothing; a new one adds exactly one row under counter + 1 and returns that id; either way a later lookup finds the id |
| `Db.FinancialAgentDB.InsertUser` | db.py:128-135 | the `INSERT` of a new user under the next id |
| `Db.FinancialAgentDB.AddFavoriteStock` | db.py:137-168 | returns False, changing nothing, iff the user has five favorites or holds the upper-cased symbol; otherwise draws the next id and returns True with exactly one row added with the given thresholds iff both fit `DECIMAL(10, 2)`, and raises with the id used up and no row added if not |
| `Db.FinancialAgentDB.InsertFavorite` | db.py:160-166 | the `INSERT` of one favorite under the next id |
| `Db.FinancialAgentDB.LogQuery` | db.py:170-178 | appends one query under the next id and returns that id; nothing else changes |
| `Db.FinancialAgentDB.LogResponse` | db.py:180-190 | appends one response under the next id; nothing else changes |
| `Db.FinancialAgentDB.InsertQueryStock` | db.py:195-199 | one pass of the loop: one upper-cased row under the next id |
| `Db.FinancialAgentDB.LogQueryStocks` | db.py:192-199 | appends the rows of `StockRows` and moves the counter on by the number of symbols |
| `Db.FinancialAgentDB.GetUserQueryHistory` | db.py:210-225 | raises iff the tables are not set up or `limit` is negative; otherwise at most `limit` rows, each from one of the user's queries and a response to it |
| `Db.FinancialAgentDB.RemoveFavoriteStock` | db.py:227-232 | the favorites become exactly the non-matching rows; nothing else changes |
| `Db.FinancialAgentDB.UpdateThresholds` | db.py:234-243 | raises, changing nothing, iff a threshold does not fit `DECIMAL(10, 2)`; otherwise the favorites become those with the matching row's thresholds overwritten; nothing else changes |
| `DailyMail.LatestIndex` | daily_mail.py:42 | the chosen entry's date is `>=` every date key of the series |
| `DailyMail.LatestStep` | daily_mail.py:42 | a key at least the best of the rest is the greatest |
| `DailyMail.StockDataOf` | daily_mail.py:36-59 | for a non-empty series the result is a quote iff the latest bar's open is non-zero, and then that bar's date and figures with `change = close - open` and `change_percent = change / open * 100`; a raised fetch, a missing series, an empty series and a zero opening price give error payloads with the exception text |
| `DailyMail.Headlines` | daily_mail.py:71-76 | each item is a non-blank line stripped, with its 1-based line position, positions increasing |
| `DailyMail.HeadlinesExtend` | daily_mail.py:71-76 | headlines of a prefix remain headlines of the whole |
| `DailyMail.HeadlinesComplete` | daily_mail.py:71-76 | every non-blank line yields its headline |
| `DailyMail.NewsOf` | daily_mail.py:63-80 | definition of what `get_stock_news` returns for a search outcome; `DailyMail.GetStockNews` states its properties |
| `DailyMail.GetStockNews` | daily_mail.py:61-80 | at most five items, all headlines of the first five lines with index at most 5 and non-empty title; an empty result gives `[]`; a raised search gives the one error entry |
| `DailyMail.CheckPriceAlerts` | daily_mail.py:82-89 | equals the case analysis `PriceAlerts`; a quote never raises; None iff neither threshold fires |
| `DailyMail.PriceAlerts` | daily_mail.py:82-89 | reference definition of the alerts, case by case; its properties are `DailyMail.AlertsOnQuote` and `DailyMail.UnsetThresholdNeverFires` |
| `DailyMail.UnsetThresholdNeverFires` | daily_mail.py:85-87 | a threshold of None or 0 never fires |
| `DailyMail.AlertsOnQuote` | daily_mail.py:82-89 | the low alert is present iff low is truthy and close <= low, the high alert iff high is truthy and close >= high; the text starts with one of them |
| `DailyMail.CollectStep` | daily_mail.py:99-128 | one more part appends its pieces, or makes the whole raise its exception |
| `DailyMail.CollectRaisedStays` | daily_mail.py:124-126 | once a part raised, the whole raises the same exception |
| `DailyMail.CollectRaisedIff` | daily_mail.py:124-126 | the concatenation raises iff some part raises |
| `DailyMail.EntryBlock` | daily_mail.py:99-128 | definition of one favorite's block, or its KeyError; its properties are `DailyMail.EntryBlockRaisesIff`, `DailyMail.ErrorEntryBlock` and `DailyMail.EmptyNewsBlock` |
| `DailyMail.EmailBody` | daily_mail.py:91-134 | definition of the whole body: header, blocks in order, footer, or the first exception; its properties are `DailyMail.EmailBodyRaisesIff` and `DailyMail.EmailBodyFrame` |
| `DailyMail.AppendFavorite` | daily_mail.py:99-128 | one pass of the loop appends the favorite's block, or raises the block's KeyError |
| `DailyMail.AppendQuoteHead` | daily_mail.py:110-123 | the quote's heading, figures, truthy alerts and news heading, in order |
| `DailyMail.AppendNews` | daily_mail.py:124-126 | the lines of the news items, one per item, or KeyError at an error item |
| `DailyMail.FormatStockEmail` | daily_mail.py:91-134 | the body is the header, every favorite's block in order and the footer, or the first block's exception |
| `DailyMail.EntryBlockRaisesIff` | daily_mail.py:104-126 | a block raises iff the quote came in and a news item is an error entry |
| `DailyMail.EmailBodyRaisesIff` | daily_mail.py:91-134 | building the body raises iff some favorite with a quote has a failed news search |
| `DailyMail.EmailBodyFrame` | daily_mail.py:94-97 | a produced body starts with the greeting and ends with "Your Financial Agent" |
| `DailyMail.ErrorEntryBlock` | daily_mail.py:104-108 | a failed quote contributes only a separator, the symbol and the error line |
| `DailyMail.EmptyNewsBlock` | daily_mail.py:123-128 | a quote with no news ends its block with "No news found." |
| `DailyMail.SendEmailResult` | daily_mail.py:155-157 | definition of the dictionary `send_email` returns for each SMTP outcome; `DailyMail.SendResultAlwaysTruthy` states its properties |
| `DailyMail.SendResultAlwaysTruthy` | daily_mail.py:155-157 | the returned dictionary is never empty, whatever happened; its `success` says whether sending worked |
| `DailyMail.IsWeekend` | daily_mail.py:161 | definition of the weekend test `weekday() > 4`; `DailyMail.StockEmailer.DailyEmailJob` states that it skips everything |
| `DailyMail.EntryFor` | daily_mail.py:175-190 | definition of one `favorites_data` entry; `DailyMail.FavoritesDataShape` and `DailyMail.FavoriteEntry` state its properties |
| `DailyMail.FavoritesDataShape` | daily_mail.py:173-190 | one entry per favorite, in order, for its symbol; alerts are `""` after a quote error, and None on a quote only when no threshold fires |
| `DailyMail.FavoritesStep` | daily_mail.py:174-190 | one more favorite adds its entry and its quote and news requests |
| `DailyMail.Run` | daily_mail.py:166-201 | reference definition of a weekday run, user by user; its properties are `DailyMail.RunStopped`, `DailyMail.RunDigests` and `DailyMail.RunCompletedIff` |
| `DailyMail.RunStopped` | daily_mail.py:166-201 | after a user's body raised, later users change nothing |
| `DailyMail.RunDigests` | daily_mail.py:166-201 | digests (send attempts, logged whatever the SMTP outcome) go to users with favorites, in order, and to no one else; a run that returns normally makes exactly one for each of them |
| `DailyMail.RunCompletedIff` | daily_mail.py:166-201 | the run returns normally iff every user's body can be built |
| `DailyMail.MailedRaised` | daily_mail.py:174-193 | a user whose body raised adds requests and no send attempt |
| `DailyMail.MailedSent` | daily_mail.py:174-195 | a mailed user adds their requests and their send attempt |
| `DailyMail.LoggedStep` | daily_mail.py:195-198 | one more digest logs one query and one response under the next ids |
| `DailyMail.DigestLogsGrow` | daily_mail.py:195-198 | one more digest adds one send attempt, one query and one response |
| `DailyMail.FavoriteEntry` | daily_mail.py:175-190 | the entry of one favorite: quote, news, and alerts only when the quote has no error |
| `DailyMail.StockEmailer.constructor` | daily_mail.py:22-25 | a digest sender over the given store, nothing sent or fetched yet |
| `DailyMail.StockEmailer.GatherFavorites` | daily_mail.py:173-190 | the entries of every favorite, in order, each quote requested before its news; nothing mailed |
| `DailyMail.StockEmailer.MailUser` | daily_mail.py:173-198 | the body is the user's digest; if it raises, nothing is attempted or logged; otherwise one send attempt is recorded, delivered iff SMTP did not fail, and one query and one response are logged either way |
| `DailyMail.StockEmailer.SendAndLog` | daily_mail.py:195-198 | records the attempt with its SMTP outcome and logs the query/response pair even when sending failed |
| `DailyMail.StockEmailer.LogDigest` | daily_mail.py:197-198 | one query and one response under the next ids, the response answering the query |
| `DailyMail.StockEmailer.MailNext` | daily_mail.py:166-198 | one pass of the job's loop for a user with favorites: the outbox, the requests and the store move from those of the run so far to those of `RunStep`, one user further; it reports whether the body was built |
| `DailyMail.StockEmailer.DailyEmailJob` | daily_mail.py:159-202 | on a weekend nothing is fetched, sent or logged; on a weekday the send attempts, the requests made and the rows logged are those of `Run`, and the job returns normally iff `Run` does |

## Left out

- DuckDB and MotherDuck connection, `CREATE TABLE`, indexes, `UNIQUE` and foreign-key enforcement by the engine: the tables are in-memory sequences, and the uniqueness the methods maintain is part of the invariant instead.
- `_get_next_id` takes a table, not a table name string: the source only ever passes the five literal names, which `Db.TableNamesDistinct` shows are distinct.
- The mutating methods other than `NextId` and `SetupDb` require `Ready()` (every counter row present, that is, `setup_db` has run): before `setup_db` none of the tables exists, so the first statement each of them runs raises a catalog error (`SELECT` on `users` or `favorite_stocks`, `DELETE` or `UPDATE` on `favorite_stocks`, `UPDATE` on `id_counters`). `NextId` and `GetUserQueryHistory` model that case as `Raised`.
- `Db.FinancialAgentDB.constructor`: models a brand-new database only (no counter rows, no rows); `__init__` reopens the persistent `finreact_db` with the rows and counters it already holds, which every method covers by being specified for any `Valid()` state.
- `Db.FinancialAgentDB.NextId`: ids and `last_id` are unbounded integers; DuckDB `INTEGER` is 32 bits wide, so the source's `last_id + 1` (db.py:106-110) raises an overflow error once a counter reaches 2147483647, and that error is not modelled, here or in the inserting methods whose ids come from it.
- `CURRENT_TIMESTAMP` defaults and `ORDER BY ... DESC`: time stamps are taken as insertion order, so the history lists the newest query first.
- `get_user_favorites`, `close`, the `__main__` block and the token check of `__init__`: outside the modelled core.
- `json.dumps` of `tools_used`: kept as the list of names.
- `DECIMAL(10, 2)` rounding of thresholds and all floating point: prices and thresholds are reals, stored as given. A threshold fits `DECIMAL(10, 2)` when its magnitude is below 10^8 (`Db.Storable`); a value within half a cent of that bound, which rounding carries over it, counts as fitting.
- The engine's error texts (`Db.DecimalRangeError`, `Db.NegativeLimitError`, `Db.MissingTableError`) stand for DuckDB's messages; their exact wording, which names the offending value or table, is not modelled.
- `upper()` is modelled for ASCII letters only.
- Atomicity of the counter under concurrent writers: the model is sequential.
- HTTP, SerpAPI, SMTP, MIME assembly, `schedule` and `time.sleep`: inputs (`Outcome` values) and the `outbox`/`requests` records stand in for them.
- `datetime.now()`: the weekday, the date and one time stamp for all logs of a run are parameters; the source reads the clock each time.
- Number rendering (`str(float)`, `:.2f`, the emoji): numbers in the body are `Price`, `Percent`, `Count` and `Trend` pieces.
- `get_all_users_with_favorites` and `get_user_favorite_stocks`: `db.py` defines neither, so the job takes the users with their favorites as input.
- `print` output.
- FinReAct.py is not part of this model.
- `DailyMail.StockDataOf`: does not model a malformed bar (a missing or non-numeric field of the day's entry), whose KeyError or ValueError the source turns into an error payload; bars arrive already as numbers.
- `DailyMail.StockEmailer.DailyEmailJob`: does not model the exceptions the store could raise while logging.

# Active Record: query truthiness, MySQL column dumping, Mysql2 adapter

This project models three pieces of decision logic from Active Record's data layer in Dafny and proves properties about them.

- **Attribute query truthiness** (`Query`). `record.name?` maps an attribute value to true or false. The first checks are `true`, then `false`/`nil`. Next comes a split on whether the attribute has a declared type: untyped numbers and digit strings test for zero, untyped false lexemes are false, and other untyped strings test for blankness. Typed values test `zero?` when they answer it and blankness otherwise. `query_attribute` and `_query_attribute` read the value through the public reader and the raw attribute store respectively, then cast it.
- **MySQL column-dump policy** (`ColumnDumper`). These are the hooks the schema dumper calls for a MySQL column: the primary-key spec, the column options, the migration keys, and the type, limit, precision and collation fragments. Each hook overrides, extends or returns the generic dumper's answer; `schema_collation` has no generic answer. The generic dumper is a record of functions (`Base`).
- **Mysql2 adapter** (`ConnectionHandling`, `Mysql2Adapter`). This part covers:
  - configuration normalisation and the mapping of connect errors;
  - the client handle's lifecycle (`active?`, `disconnect!`, `reconnect!`);
  - the prepared-statement cache in `exec_stmt_and_free`;
  - copying the global default timezone into the client before each statement;
  - `select_one`/`select_rows`, including draining pending result sets and restoring the row format.

  The adapter's state is an immutable `Adapter` value: the client handle or none, the statement map from SQL text to statement id, and counters of `prepare`, statement `close` and client `close` calls. Every driver call the modelled operations make becomes an outcome parameter, so each contract holds for every answer the driver may give: a handle or a refusal, a statement or an error, a result or an error, and a `next_result` that raises at any position or not at all. The one exception is `close`, which is assumed to succeed.

`Wrappers` (Option, Result), `Strings` (`start_with?`, `include?`, `String#inspect`) and `Bits` (`Integer#|` bit by bit) are shared helpers.

Notes on what the code does:
- `mysql2_connection` has a method-level `rescue` for `Mysql2::Error`, covering lines 10-24; of those, only opening the client and building the adapter (lines 23-24) can raise one. A driver error whose message contains "Unknown database" becomes `NoDatabaseError`; every other exception is raised again unchanged.
- An untyped `""` or `"0"` is false because it takes the digit branch. The false-lexeme branch never sees it.
- `Mysql2Adapter#reconnect!` does not touch the statement cache itself. Whatever the generic `reconnect!`/`disconnect!` do to the cache is a parameter.
- `select_one` drains pending result sets and returns only from inside the `each` block. See Findings.

## Model

| member | source | states |
|---|---|---|
| Query.QueryCast | activerecord/lib/active_record/attribute_methods/query.rb:63-81 | `true`→true and `false`/`nil`→false for any declared type. Untyped: an integer is true iff ≠ 0; a fraction iff its magnitude is ≥ 1 (truncated `to_i`); a digit string (including `""`) iff some digit is not '0'; another string is false when it is a false lexeme, otherwise true iff non-blank. Typed: a number is true iff ≠ 0; a value with `zero?` is true iff not zero; a string or a value without `zero?` is true iff non-blank |
| Query.DigitsValueZeroIff | activerecord/lib/active_record/attribute_methods/query.rb:69-70 | a string of ASCII digits has `to_i` zero exactly when every digit is '0' |
| Query.QueryAttribute | activerecord/lib/active_record/attribute_methods/query.rb:47-51 | returns the cast of the value the public reader returns; raises NoMethodError exactly when there is no reader |
| Query.RawQueryAttribute | activerecord/lib/active_record/attribute_methods/query.rb:53-57 | returns the cast of the raw stored value; an unknown attribute reads as nil and so gives false |
| Query.QueryMethodsAgree | activerecord/lib/active_record/attribute_methods/query.rb:47-57 | when the public reader returns the stored value, `query_attribute` and `_query_attribute` give the same boolean |
| Query.TypedFollowsDocumentedRule | activerecord/lib/active_record/attribute_methods/query.rb:10-37 | with a declared type, the predicate is exactly the documented rule: booleans are themselves, numbers (and values that answer `zero?`) are true iff non-zero, everything else is true iff present |
| Query.UntypedDepartsOnlyOnFractionsAndStrings | activerecord/lib/active_record/attribute_methods/query.rb:68-74 | without a declared type, the answer differs from the documented rule only for a non-zero fraction strictly between -1 and 1, or for a string that is all digits or a false lexeme |
| Query.IntegersIgnoreDeclaredType | activerecord/lib/active_record/attribute_methods/query.rb:68-76 | for an integer, the untyped `to_i.zero?` test and the typed `zero?` test agree |
| Query.FractionsDependOnDeclaredType | activerecord/lib/active_record/attribute_methods/query.rb:69-76 | for 0.5 they disagree: untyped gives false (truncates to 0), typed gives true |
| Query.DocumentedExamples | activerecord/lib/active_record/attribute_methods/query.rb:21-37 | the documented examples: 0→false, 1→true, nil→false, " "→false, "Orange"→true, and untyped "0", "" → false, "1"→true |
| ColumnDumper.DefaultPrimaryKey | activerecord/lib/active_record/connection_adapters/mysql/schema_dumper.rb:30-32 | a column is a default primary key only if the generic test accepts it and it is auto-increment |
| ColumnDumper.ColumnSpecForPrimaryKey | activerecord/lib/active_record/connection_adapters/mysql/schema_dumper.rb:5-16 | bigint key: `id` is ":bigint"; `default` (the schema default or "nil") is present iff not auto-increment; `unsigned` is "true" and present iff unsigned; no other keys. Non-bigint default key that is unsigned: exactly `{unsigned: "true"}`. Otherwise: the generic spec |
| ColumnDumper.PrepareColumnOptions | activerecord/lib/active_record/connection_adapters/mysql/schema_dumper.rb:18-22 | `unsigned` is "true" for unsigned columns. The keys are the generic keys plus `unsigned` iff unsigned. Every other key keeps its generic value |
| ColumnDumper.MigrationKeys | activerecord/lib/active_record/connection_adapters/mysql/schema_dumper.rb:24-26 | the generic keys in order, with `unsigned` as one extra last element |
| ColumnDumper.SchemaType | activerecord/lib/active_record/connection_adapters/mysql/schema_dumper.rb:34-43 | `timestamp` when the SQL type starts with "timestamp" followed by a non-word character or the end; `blob` for exactly "tinyblob"; otherwise the generic type |
| ColumnDumper.SchemaTypeOverridesOnlyTwoFamilies | activerecord/lib/active_record/connection_adapters/mysql/schema_dumper.rb:34-43 | any change from the generic type is to `timestamp` or `blob`; "timestamp(6)" is a timestamp; "timestamps" is not |
| ColumnDumper.SchemaLimit | activerecord/lib/active_record/connection_adapters/mysql/schema_dumper.rb:45-47 | boolean columns dump no limit; others get the generic limit |
| ColumnDumper.SchemaPrecision | activerecord/lib/active_record/connection_adapters/mysql/schema_dumper.rb:49-51 | no precision when "time" occurs somewhere in the SQL type and the precision is 0; otherwise exactly the generic precision |
| ColumnDumper.SchemaCollation | activerecord/lib/active_record/connection_adapters/mysql/schema_dumper.rb:53-59 | No collation or no table: no dump, no lookup, cache unchanged. Otherwise the server is asked iff the table is not cached, and only a found collation is cached. The quoted collation is dumped iff it differs from the table's |
| ColumnDumper.CollationFoundIsNotLookedUpAgain | activerecord/lib/active_record/connection_adapters/mysql/schema_dumper.rb:55-56 | after a lookup that found a collation, the next column of that table does not query the server |
| ColumnDumper.CollationNotFoundIsLookedUpAgain | activerecord/lib/active_record/connection_adapters/mysql/schema_dumper.rb:55-56 | a lookup that found nothing is repeated for the next column of that table (`||=` keeps no nil) |
| ColumnDumper.CollationDumpDeterminesCollation | activerecord/lib/active_record/connection_adapters/mysql/schema_dumper.rb:57 | two columns that dump the same collation text have the same collation (`inspect` is injective) |
| Bits.OrBits | activerecord/lib/active_record/connection_adapters/mysql2_adapter.rb:19 | a bit of `a \| b` is set iff it is set in `a` or in `b` |
| Bits.OrZero | activerecord/lib/active_record/connection_adapters/mysql2_adapter.rb:13-19 | `0 \| b` is `b`, so absent flags end up as exactly FOUND_ROWS |
| ConnectionHandling.Normalize | activerecord/lib/active_record/connection_adapters/mysql2_adapter.rb:9-21 | username becomes "root" only when absent, and a given one is kept. A flag list gets "FOUND_ROWS" appended iff the driver defines it. A mask (0 when absent) has exactly its own bits plus FOUND_ROWS's; absent flags become exactly FOUND_ROWS. Other entries are unchanged |
| ConnectionHandling.NormalizeMaskIdempotent | activerecord/lib/active_record/connection_adapters/mysql2_adapter.rb:12-21 | normalising a mask configuration twice gives the same as once |
| ConnectionHandling.NormalizeNamesAppendsEachTime | activerecord/lib/active_record/connection_adapters/mysql2_adapter.rb:16-17 | a flag list grows by one "FOUND_ROWS" on each normalisation |
| ConnectionHandling.Rescue | activerecord/lib/active_record/connection_adapters/mysql2_adapter.rb:25-30 | a driver error containing "Unknown database" becomes NoDatabaseError; every other exception is raised again as it was |
| ConnectionHandling.Connect | activerecord/lib/active_record/connection_adapters/mysql2_adapter.rb:9-30 | the driver receives the normalised config. Success iff it opens a client and the generic adapter setup raises nothing; the adapter is then new and satisfies the cache invariant. A refusal is NoDatabaseError iff its message contains "Unknown database", and otherwise is re-raised unchanged. An error from the adapter setup goes through the same rescue |
| ConnectionHandling.ConnectErrorNumbers | activerecord/lib/active_record/connection_adapters/mysql2_adapter.rb:25-30 | a refusal raised again keeps the driver's error number for `error_number`; NoDatabaseError carries none |
| Mysql2Adapter.ErrorNumber | activerecord/lib/active_record/connection_adapters/mysql2_adapter.rb:59-61 | the driver error's number when the exception is a driver error; none for every other exception |
| Mysql2Adapter.ConfigureConnection | activerecord/lib/active_record/connection_adapters/mysql2_adapter.rb:201-204 | the client returns rows as arrays afterwards; nothing else changes |
| Mysql2Adapter.NewAdapter | activerecord/lib/active_record/connection_adapters/mysql2_adapter.rb:38-41 | a new adapter holds the configured client, an empty statement cache and zero counters, and satisfies the cache invariant |
| Mysql2Adapter.Active | activerecord/lib/active_record/connection_adapters/mysql2_adapter.rb:75-78 | no handle: false, and the driver is not pinged. With a handle: the ping's answer |
| Mysql2Adapter.Disconnect | activerecord/lib/active_record/connection_adapters/mysql2_adapter.rb:89-95 | the handle is absent afterwards; the client is closed once if there was a handle and not at all otherwise. The cache invariant is kept when the generic step only drops entries |
| Mysql2Adapter.DisconnectClosesAtMostOnce | activerecord/lib/active_record/connection_adapters/mysql2_adapter.rb:89-95 | a second `disconnect!` closes nothing |
| Mysql2Adapter.NotActiveAfterDisconnect | activerecord/lib/active_record/connection_adapters/mysql2_adapter.rb:75-95 | after `disconnect!`, `active?` is false without a ping |
| Mysql2Adapter.Reconnect | activerecord/lib/active_record/connection_adapters/mysql2_adapter.rb:80-84 | closes the old handle at most once. When the driver opens a client it is installed with rows as arrays, and an error from the generic configuration propagates with it in place. A driver refusal propagates and leaves no handle. No error iff both steps succeed. The cache invariant is kept when the generic steps only drop entries |
| Mysql2Adapter.ReconnectWithoutHandleClosesNothing | activerecord/lib/active_record/connection_adapters/mysql2_adapter.rb:80-95 | `reconnect!` on an adapter without a handle closes no client |
| Mysql2Adapter.ActiveAfterReconnect | activerecord/lib/active_record/connection_adapters/mysql2_adapter.rb:75-84 | after `reconnect!`, `active?` pings the new handle when one was opened; after a refusal it is false without a ping |
| Mysql2Adapter.SyncTimezone | activerecord/lib/active_record/connection_adapters/mysql2_adapter.rb:161-165 | with a handle, `database_timezone` becomes the current default and nothing else changes; without one, nothing happens |
| Mysql2Adapter.Execute | activerecord/lib/active_record/connection_adapters/mysql2_adapter.rb:132-140 | with a handle, the driver runs the text with the current default timezone in force; the statement cache is untouched and rows come back in the format the caller set |
| Mysql2Adapter.TimezoneChangeIsSeenByNextStatement | activerecord/lib/active_record/connection_adapters/mysql2_adapter.rb:132-165 | a change of the default timezone between two statements is in force for the second, whether it is sent as text or as a prepared statement |
| Mysql2Adapter.ExecStmtAndFree | activerecord/lib/active_record/connection_adapters/mysql2_adapter.rb:160-194 | Caching: a cached statement is reused, and prepare runs only for a new one. Closing: a cached statement is never closed; an uncached one is closed exactly once after success or a driver error. Result: a run that reached the driver answers the block's answer or raises what the block raised, and a refused prepare raises its own error. Driver error: evicts a cached entry and re-raises the same error. Any other exception, from the driver or from the block, closes nothing and keeps a cached entry. No other cache entry changes. The driver runs with the current timezone, and the row format is kept. The cache invariant is preserved |
| Mysql2Adapter.CachedStatementLifecycle | activerecord/lib/active_record/connection_adapters/mysql2_adapter.rb:170-188 | two successful cached runs prepare once; a driver error on the third evicts the entry and re-raises; the fourth prepares again |
| Mysql2Adapter.UncachedRunsPrepareAndCloseEach | activerecord/lib/active_record/connection_adapters/mysql2_adapter.rb:170-192 | an uncached successful run prepares once, closes once and leaves the cache alone |
| Mysql2Adapter.Drain | activerecord/lib/active_record/connection_adapters/mysql2_adapter.rb:118 | the loop `next_result while more_results?` ends with nothing pending, after one `next_result` per pending result set, exactly when no call raises; otherwise it stops at the raising call with that call's error |
| Mysql2Adapter.SelectResult | activerecord/lib/active_record/connection_adapters/mysql2_adapter.rb:122-128 | without binds and with a handle, the statement runs as text, the result is the driver's answer and the cache is untouched; with binds, it runs as a cached prepared statement. A failed run raises its own error. The row format is kept |
| Mysql2Adapter.SelectOneAsWritten | activerecord/lib/active_record/connection_adapters/mysql2_adapter.rb:103-112 | the statement runs with rows as hashes and the current timezone; every way out leaves rows as arrays. A failed run raises its own error. A first row is returned after draining, unless a `next_result` raises, in which case that error is raised. An empty result answers `each`'s own value |
| Mysql2Adapter.SelectOneAsWrittenLeavesResultsPending | activerecord/lib/active_record/connection_adapters/mysql2_adapter.rb:106-109 | as written, an empty first result set followed by one more leaves that one pending, whatever `next_result` would do |
| Mysql2Adapter.SelectOne | activerecord/lib/active_record/connection_adapters/mysql2_adapter.rb:103-112 | like the above, except that every run that reaches the driver drains all pending result sets. It then answers the first row, or nil when there is none. It succeeds exactly when no `next_result` raises, and otherwise raises that error. A failed run raises its own error |
| Mysql2Adapter.SelectOneAgreesOnRows | activerecord/lib/active_record/connection_adapters/mysql2_adapter.rb:106-109 | on a result with a row, the corrected and the as-written `select_one` leave the same state and answer the same row or raise the same error |
| Mysql2Adapter.SelectRows | activerecord/lib/active_record/connection_adapters/mysql2_adapter.rb:116-120 | on success, answers the result's rows and leaves nothing pending. With a handle, a run that reached the driver succeeds exactly when no `next_result` raises, and otherwise raises that error. A failed run raises its own error. The row format is kept |

## Left out

- The Mysql2 driver itself is left out. This covers `Mysql2::Client.new`, `ping`, `escape` (so `quote_string`), `prepare`, `execute`, `next_result`/`more_results?`, `last_id` and `server_info`. The answers of the calls the modelled operations make are parameters: `more_results?` reads the count of further result sets a result reports, and which `next_result` call raises, if any, is a `NextResultFailure`. `escape`, `last_id` and `server_info` are called only by operations that are left out.
- `Mysql2::Statement#close` and `Mysql2::Client#close` are assumed not to raise.
- The generic adapter (`AbstractMysqlAdapter`, `AbstractAdapter`) is outside the shown files. Its `initialize`, `execute`, `execute_and_free`, `reconnect!`, `disconnect!` and `configure_connection` are left out. The generic `reconnect!`/`disconnect!` enter only as functions on the statement cache. The generic `initialize` and `configure_connection` (session variables) enter only as an outcome: nothing, or the exception they raise. They are assumed not to change the row format.
- `@statements` is a statement pool defined in the generic adapter. It is modelled as a plain map. Whether deleting an entry also releases the statement, and any capacity bound of the pool, are not modelled. `stmtCloses` counts only the `close` calls in the shown method.
- `log` is left out, including the exception translation it applies around `exec_stmt_and_free`. The model's errors are those raised inside the block.
- Mysql2Adapter.Execute: the generic `execute` is modelled as sending the text to the client's `query`. Without a handle, the call on nil is modelled as NoMethodError that leaves the adapter unchanged; the translation `log` would apply to it is not modelled.
- Mysql2Adapter.Reconnect: the generic `reconnect!` and `disconnect!` are assumed not to raise; only their effect on the statement cache is a parameter. The generic `configure_connection` may raise, and is an outcome parameter.
- ConnectionHandling.Connect: the generic setup outcome does not depend on the opened client. The client left open when that setup fails is not tracked.
- The type casting of binds (`type_cast(attr.value_for_database)`), `binds_from_relation` and `to_sql` are left out. Only the outcome of `without_prepared_statement?(binds)` is modelled, as `hasBinds`. It is false for a statement without binds and also whenever prepared statements are turned off.
- `exec_query`, `each_hash`, `last_inserted_id` and `ActiveRecord::Result` construction are result plumbing and are not modelled.
- `supports_json?` and `full_version` depend on a server version object outside the shown files and are left out.
- The generic column-dumper hooks and `schema_default` are parameters (`ColumnDumper.Base`). The `SHOW TABLE STATUS` lookup is an abstract function from table name to collation.
- ColumnDumper.ColumnSpecForPrimaryKey: a dump fragment is a map, so the insertion order of Ruby's hash is not modelled. That order decides the order of options in the dumped primary-key line (`id`, then `default`, then `unsigned`).
- `ActiveModel::Type::Boolean::FALSE_VALUES` and `String#blank?` are defined outside the shown files. They enter as `Query.Lexicon`, a set of false lexemes and a blankness predicate.
- Query.QueryCast: requires that a value without a declared type is a boolean, nil, a number or a string. For any other value the source calls `match?`. The modelled `Other` values do not answer it. An untyped Symbol does answer `match?` from Ruby 2.4 on and takes the string path; symbols are not modelled.
- Query.QueryCast: numbers that are not integers are exact reals. Float NaN and Infinity are not modelled; on them `to_i` raises.
- ColumnDumper.SchemaType: `\b` is taken with ASCII word characters (letters, digits, underscore).
- ColumnDumper.SchemaCollation: `String#inspect` is modelled as quoting plus escaping of `"` and `\`. Ruby's other escapes (control characters, `#{`, non-printable characters) are not modelled.
- ConnectionHandling.Normalize: an integer flag mask is a non-negative integer. A negative mask and a `false` flags entry are not modelled. The flag list is returned as a new value; Ruby's `push` also changes the caller's list in place. `symbolize_keys` is not modelled.
- Concurrency: the adapter is used by one caller at a time, so none is modelled.
- Three files next to the core are not modelled: the generated-column and partition tests need a live database, and the job-queue adapter file is test configuration.

## Findings

| source | as written | input that shows it | evidently intended | confidence | as-written member | corrected member |
|---|---|---|---|---|---|---|
| activerecord/lib/active_record/connection_adapters/mysql2_adapter.rb:106-109 | pending result sets are drained and the row returned inside the `each` block, so only when the first result set has a row; otherwise `select_one` answers whatever `each` returns | a statement whose first result set is empty and which has one more result set (`SelectOneAsWrittenLeavesResultsPending`): that result set stays pending on the client | drain after every successful run, and answer nil when there is no row | medium; not executed | Mysql2Adapter.SelectOneAsWritten | Mysql2Adapter.SelectOne |

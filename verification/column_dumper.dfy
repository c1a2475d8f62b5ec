/** The MySQL column-dump policy: the hooks the schema dumper calls to turn
    a MySQL column into `create_table` options. Each hook either overrides
    the generic dumper's answer or returns it unchanged; the generic dumper
    is not part of this model and enters as the `Base` record of functions. */
module ColumnDumper {
  import opened Wrappers
  import Strings

  /** A Ruby symbol, by its name. */
  type Symbol = string

  /** A dump fragment: option name to the text written after it. */
  type Spec = map<Symbol, string>

  /** A MySQL column as the hooks read it. `tableName` is the column's
      `@table_name` instance variable. */
  datatype Column = Column(
    sqlType: string,
    colType: Symbol,
    bigint: bool,
    unsigned: bool,
    autoIncrement: bool,
    precision: Option<int>,
    collation: Option<string>,
    tableName: Option<string>)

  /** The generic dumper's hooks, reached through `super`. */
  datatype Base = Base(
    columnSpecForPrimaryKey: Column -> Spec,
    prepareColumnOptions: Column -> Spec,
    migrationKeys: seq<Symbol>,
    defaultPrimaryKey: Column -> bool,
    schemaType: Column -> Symbol,
    schemaLimit: Column -> Option<string>,
    schemaPrecision: Column -> Option<string>,
    schemaDefault: Column -> Option<string>)

  /** `default_primary_key?`: the generic answer, and only for an
      auto-increment column. */
  function DefaultPrimaryKey(base: Base, c: Column): (r: bool)
    ensures r ==> c.autoIncrement
    ensures r <==> base.defaultPrimaryKey(c) && c.autoIncrement
  {
    base.defaultPrimaryKey(c) && c.autoIncrement
  }

  /** `column_spec_for_primary_key`. */
  function ColumnSpecForPrimaryKey(base: Base, c: Column): (spec: Spec)
    // a bigint key always names its type, states a default unless it is
    // auto-increment, and is marked unsigned exactly when it is
    ensures c.bigint ==> "id" in spec && spec["id"] == ":bigint"
    ensures c.bigint ==> ("default" in spec <==> !c.autoIncrement)
    ensures c.bigint && "default" in spec ==> spec["default"] == base.schemaDefault(c).GetOr("nil")
    ensures c.bigint ==> ("unsigned" in spec <==> c.unsigned)
    ensures c.bigint && "unsigned" in spec ==> spec["unsigned"] == "true"
    ensures c.bigint ==> spec.Keys <= {"id", "default", "unsigned"}
    // an unsigned default key is dumped as nothing but its signedness
    ensures !c.bigint && DefaultPrimaryKey(base, c) && c.unsigned ==> spec == map["unsigned" := "true"]
    // every other column gets the generic spec, unchanged
    ensures !c.bigint && !(DefaultPrimaryKey(base, c) && c.unsigned) ==> spec == base.columnSpecForPrimaryKey(c)
  {
    if c.bigint then
      var withId := map["id" := ":bigint"];
      var withDefault := if c.autoIncrement then withId else withId["default" := base.schemaDefault(c).GetOr("nil")];
      if c.unsigned then withDefault["unsigned" := "true"] else withDefault
    else if DefaultPrimaryKey(base, c) && c.unsigned then
      map["unsigned" := "true"]
    else
      base.columnSpecForPrimaryKey(c)
  }

  /** `prepare_column_options`: the generic options, plus `unsigned` for an
      unsigned column. */
  function PrepareColumnOptions(base: Base, c: Column): (spec: Spec)
    ensures c.unsigned ==> "unsigned" in spec && spec["unsigned"] == "true"
    ensures !c.unsigned ==> spec == base.prepareColumnOptions(c)
    ensures spec.Keys == base.prepareColumnOptions(c).Keys + (if c.unsigned then {"unsigned"} else {})
    ensures forall k :: k in spec && k != "unsigned" ==> spec[k] == base.prepareColumnOptions(c)[k]
  {
    var generic := base.prepareColumnOptions(c);
    if c.unsigned then generic["unsigned" := "true"] else generic
  }

  /** `migration_keys`: the generic keys with `unsigned` appended. */
  function MigrationKeys(base: Base): (keys: seq<Symbol>)
    ensures |keys| == |base.migrationKeys| + 1
    ensures keys[..|base.migrationKeys|] == base.migrationKeys
    ensures keys[|keys| - 1] == "unsigned"
  {
    base.migrationKeys + ["unsigned"]
  }

  /** A character `\w` matches: an ASCII letter, digit or underscore. */
  predicate IsWordChar(ch: char) {
    ('a' <= ch <= 'z') || ('A' <= ch <= 'Z') || ('0' <= ch <= '9') || ch == '_'
  }

  /** `sql_type =~ /\Atimestamp\b/`: the type starts with "timestamp" and the
      word ends there, at the end of the string or before a non-word character. */
  predicate IsTimestampType(sqlType: string) {
    Strings.StartsWith(sqlType, "timestamp")
    && (|sqlType| == 9 || !IsWordChar(sqlType[9]))
  }

  /** `schema_type`. */
  function SchemaType(base: Base, c: Column): (t: Symbol)
    ensures IsTimestampType(c.sqlType) ==> t == "timestamp"
    ensures c.sqlType == "tinyblob" ==> t == "blob"
    ensures !IsTimestampType(c.sqlType) && c.sqlType != "tinyblob" ==> t == base.schemaType(c)
  {
    if IsTimestampType(c.sqlType) then "timestamp"
    else if c.sqlType == "tinyblob" then "blob"
    else base.schemaType(c)
  }

  /** Only two families of MySQL types are renamed; everything the hook
      changes comes out as `timestamp` or `blob`. */
  lemma SchemaTypeOverridesOnlyTwoFamilies(base: Base, c: Column)
    ensures SchemaType(base, c) != base.schemaType(c) ==>
              SchemaType(base, c) == "timestamp" || SchemaType(base, c) == "blob"
    ensures c.sqlType == "timestamp(6)" ==> SchemaType(base, c) == "timestamp"
    ensures c.sqlType == "timestamps" ==> SchemaType(base, c) == base.schemaType(c)
  {
    if c.sqlType == "timestamp(6)" {
      assert c.sqlType[..9] == "timestamp";
    }
  }

  /** `schema_limit`: boolean columns never dump a limit. */
  function SchemaLimit(base: Base, c: Column): (limit: Option<string>)
    ensures c.colType == "boolean" ==> limit.None?
    ensures c.colType != "boolean" ==> limit == base.schemaLimit(c)
  {
    if c.colType == "boolean" then None else base.schemaLimit(c)
  }

  /** `schema_precision`: a temporal type (one whose SQL type mentions
      "time") with precision 0 dumps no precision, 0 being MySQL's default. */
  function SchemaPrecision(base: Base, c: Column): (precision: Option<string>)
    ensures (exists i :: Strings.OccursAt(c.sqlType, "time", i)) && c.precision == Some(0) ==> precision.None?
    ensures !((exists i :: Strings.OccursAt(c.sqlType, "time", i)) && c.precision == Some(0)) ==>
              precision == base.schemaPrecision(c)
  {
    Strings.ContainsIffOccurs(c.sqlType, "time");
    if Strings.Contains(c.sqlType, "time") && c.precision == Some(0) then None
    else base.schemaPrecision(c)
  }

  /** What `schema_collation` returns and leaves behind: the dumped
      collation, the per-table collation cache afterwards, and whether it
      asked the server for the table's collation. */
  datatype CollationStep = CollationStep(dump: Option<string>, cache: map<string, string>, queried: bool)

  /** `schema_collation`. `tableCollation` stands for the server lookup
      (`SHOW TABLE STATUS`), which may find no collation. Only a found
      collation is cached, as `||=` does not keep nil. */
  function SchemaCollation(cache: map<string, string>, c: Column, tableCollation: string -> Option<string>): (r: CollationStep)
    // nothing happens for a column without a collation or a table
    ensures c.collation.None? || c.tableName.None? ==> r == CollationStep(None, cache, false)
    // the server is asked only when the table is not cached yet
    ensures c.collation.Some? && c.tableName.Some? ==> (r.queried <==> c.tableName.value !in cache)
    // a found collation is cached; nothing else in the cache changes
    ensures c.collation.Some? && c.tableName.Some? ==>
              r.cache == (if r.queried && tableCollation(c.tableName.value).Some?
                          then cache[c.tableName.value := tableCollation(c.tableName.value).value]
                          else cache)
    // the column's collation is dumped, quoted, iff it differs from the table's
    ensures c.collation.Some? && c.tableName.Some? && c.tableName.value in cache ==>
              (r.dump.Some? <==> c.collation.value != cache[c.tableName.value])
    ensures c.collation.Some? && c.tableName.Some? && c.tableName.value !in cache ==>
              (r.dump.Some? <==> tableCollation(c.tableName.value) != c.collation)
    ensures r.dump.Some? ==> c.collation.Some? && r.dump.value == Strings.Inspect(c.collation.value)
  {
    if c.collation.Some? && c.tableName.Some? then
      var table := c.tableName.value;
      var cached := if table in cache then Some(cache[table]) else tableCollation(table);
      var cache' := if cached.Some? then cache[table := cached.value] else cache;
      var dump := if c.collation != cached then Some(Strings.Inspect(c.collation.value)) else None;
      CollationStep(dump, cache', table !in cache)
    else
      CollationStep(None, cache, false)
  }

  /** Once a table's collation has been found, later columns of that table
      reuse it without asking the server again. */
  lemma CollationFoundIsNotLookedUpAgain(cache: map<string, string>, c: Column, d: Column,
                                         tableCollation: string -> Option<string>)
    requires c.collation.Some? && c.tableName.Some?
    requires tableCollation(c.tableName.value).Some?
    requires d.tableName == c.tableName
    ensures !SchemaCollation(SchemaCollation(cache, c, tableCollation).cache, d, tableCollation).queried
  {
  }

  /** A table whose lookup finds no collation is looked up again for every
      column that has one. */
  lemma CollationNotFoundIsLookedUpAgain(cache: map<string, string>, c: Column, d: Column,
                                         tableCollation: string -> Option<string>)
    requires c.collation.Some? && c.tableName.Some? && c.tableName.value !in cache
    requires tableCollation(c.tableName.value).None?
    requires d.collation.Some? && d.tableName == c.tableName
    ensures SchemaCollation(cache, c, tableCollation).queried
    ensures SchemaCollation(SchemaCollation(cache, c, tableCollation).cache, d, tableCollation).queried
  {
  }

  /** Two columns of one table dump the same collation text only when they
      have the same collation. */
  lemma CollationDumpDeterminesCollation(cache: map<string, string>, c: Column, d: Column,
                                         tableCollation: string -> Option<string>)
    requires SchemaCollation(cache, c, tableCollation).dump.Some?
    requires SchemaCollation(cache, c, tableCollation).dump == SchemaCollation(cache, d, tableCollation).dump
    ensures c.collation == d.collation
  {
    Strings.InspectInjective(c.collation.value, d.collation.value);
  }
}

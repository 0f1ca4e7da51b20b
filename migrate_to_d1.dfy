/** The offline script that writes the year-in-review data as a D1 migration:
    one transaction holding an `INSERT INTO ambassadors` per record, followed by
    that record's `top_models` rows, then three verification queries. */
module MigrateToD1 {
  import opened Common
  import opened SqlText

  /** An entry of a record's `topModels`. */
  datatype TopModelJson = TopModelJson(name: Cell, count: Cell)

  /** A record of the data file, its nested objects flattened: a field under a
      missing `stats`, `ranking`, `archetype` or `milestones` is `Undefined`. */
  datatype AmbassadorJson = AmbassadorJson(
    name: Cell, email: Cell, program: Cell,
    revenue: Cell, orders: Cell, clicks: Cell, commission: Cell,
    overall: Cell, rankRevenue: Cell, rankOrders: Cell, rankClicks: Cell,
    archetypeTitle: Cell, archetypeDescription: Cell,
    firstOrder: Cell, bestMonth: Cell, totalLogins: Cell, lastActive: Cell,
    topModels: Option<seq<TopModelJson>>)

  const Header: string :=
    "-- D1 Database Migration\n" + "-- Generated from ambassador-data.json\n\n" + "BEGIN TRANSACTION;\n\n"

  const Footer: string :=
    "COMMIT;\n\n" + "-- Verification queries\n" +
    "SELECT COUNT(*) as total_ambassadors FROM ambassadors;\n" +
    "SELECT COUNT(*) as total_top_models FROM top_models;\n" +
    "SELECT COUNT(*) as ambassadors_with_models FROM (\n" +
    "  SELECT DISTINCT ambassador_uuid FROM top_models\n" +
    ");\n"

  const AmbassadorColumns: string :=
    "uuid, name, email, program, revenue, orders, clicks, commission, " +
    "ranking_overall, ranking_revenue, ranking_orders, ranking_clicks, " +
    "archetype_title, archetype_description, first_order, best_month, total_logins, last_active"

  const AmbassadorsInto: string := "INSERT INTO ambassadors (" + AmbassadorColumns + ")\n"
  const TopModelsInto: string := "INSERT INTO top_models (ambassador_uuid, rank, product_name, count)\n"
  const ValuesOpen: string := "VALUES ("

  /** The comment before a record's statement: its position and raw name. */
  function CommentLine(index: nat, d: AmbassadorJson): string {
    "-- Ambassador " + NatToString(index + 1) + ": " + Stringify(d.name) + "\n"
  }

  /** The record's columns, in order: the uuid quoted as it is, the text
      fields escaped and quoted, the numbers bare with 0 for a falsy one. */
  function AmbassadorRow(uuid: string, d: AmbassadorJson): seq<Column> {
    IdentityColumns(uuid, d) + StatsColumns(d) + RankingColumns(d) + DetailColumns(d)
  }

  function IdentityColumns(uuid: string, d: AmbassadorJson): seq<Column> {
    [Key(uuid), TextField(d.name), TextField(d.email), TextField(d.program)]
  }

  function StatsColumns(d: AmbassadorJson): seq<Column> {
    [NumberField(d.revenue), NumberField(d.orders), NumberField(d.clicks), NumberField(d.commission)]
  }

  function RankingColumns(d: AmbassadorJson): seq<Column> {
    [NumberField(d.overall), NumberField(d.rankRevenue), NumberField(d.rankOrders), NumberField(d.rankClicks)]
  }

  function DetailColumns(d: AmbassadorJson): seq<Column> {
    [ TextField(d.archetypeTitle), TextField(d.archetypeDescription),
      TextField(d.firstOrder), TextField(d.bestMonth),
      NumberField(d.totalLogins), TextField(d.lastActive) ]
  }

  function AmbassadorInsert(uuid: string, d: AmbassadorJson): string {
    AmbassadorsInto + ValuesOpen + RenderValues(RowValues(AmbassadorRow(uuid, d))) + ");\n\n"
  }

  /** A `top_models` row's columns: the rank is the position in the list
      plus one; `count` is written as it is, without a default. */
  function TopModelRow(uuid: string, rank: nat, m: TopModelJson): seq<Column> {
    [Key(uuid), Verbatim(NatToString(rank + 1)), TextField(m.name), Verbatim(Stringify(m.count))]
  }

  function TopModelInsert(uuid: string, rank: nat, m: TopModelJson): string {
    TopModelsInto + ValuesOpen + RenderValues(RowValues(TopModelRow(uuid, rank, m))) + ");\n"
  }

  /** One row per model, ranks in list order. */
  function TopModelRows(uuid: string, models: seq<TopModelJson>): string {
    if models == [] then ""
    else TopModelRows(uuid, models[..|models| - 1]) + TopModelInsert(uuid, |models| - 1, models[|models| - 1])
  }

  /** The rows and a blank line when the list is present and not empty. */
  function TopModelsBlock(uuid: string, topModels: Option<seq<TopModelJson>>): string {
    if topModels.Some? && |topModels.value| > 0 then TopModelRows(uuid, topModels.value) + "\n" else ""
  }

  function EntryBlock(index: nat, uuid: string, d: AmbassadorJson): string {
    CommentLine(index, d) + AmbassadorInsert(uuid, d) + TopModelsBlock(uuid, d.topModels)
  }

  /** The blocks of the entries, in entry order. */
  function Blocks(entries: seq<(string, AmbassadorJson)>): string {
    if entries == [] then ""
    else
      var last := entries[|entries| - 1];
      Blocks(entries[..|entries| - 1]) + EntryBlock(|entries| - 1, last.0, last.1)
  }

  /** The whole migration: every statement between BEGIN TRANSACTION and
      COMMIT, the verification queries after. */
  function MigrationSql(entries: seq<(string, AmbassadorJson)>): string {
    Header + Blocks(entries) + Footer
  }

  // ---------------------------------------------------------------------------
  // The string builder

  /** `data.topModels.forEach(...)`: one row per model appended. */
  method AppendTopModels(sql: string, uuid: string, models: seq<TopModelJson>) returns (r: string)
    ensures r == sql + TopModelRows(uuid, models)
  {
    r := sql;
    for rank := 0 to |models|
      invariant r == sql + TopModelRows(uuid, models[..rank])
    {
      RowsSnoc(uuid, models, rank);
      Assoc(sql, TopModelRows(uuid, models[..rank]), TopModelInsert(uuid, rank, models[rank]));
      r := r + TopModelInsert(uuid, rank, models[rank]);
    }
    assert models[..|models|] == models;
  }

  lemma RowsSnoc(uuid: string, models: seq<TopModelJson>, rank: nat)
    requires rank < |models|
    ensures TopModelRows(uuid, models[..rank + 1]) == TopModelRows(uuid, models[..rank]) + TopModelInsert(uuid, rank, models[rank])
  {
    assert models[..rank + 1][..rank] == models[..rank];
  }

  lemma BlocksSnoc(entries: seq<(string, AmbassadorJson)>, index: nat)
    requires index < |entries|
    ensures Blocks(entries[..index + 1]) == Blocks(entries[..index]) + EntryBlock(index, entries[index].0, entries[index].1)
  {
    assert entries[..index + 1][..index] == entries[..index];
  }

  /** One entry's comment, INSERT and `top_models` rows. */
  method RenderEntry(index: nat, uuid: string, data: AmbassadorJson) returns (block: string)
    ensures block == EntryBlock(index, uuid, data)
  {
    block := CommentLine(index, data) + AmbassadorInsert(uuid, data);
    if data.topModels.Some? && |data.topModels.value| > 0 {
      block := AppendTopModels(block, uuid, data.topModels.value);
      Assoc(CommentLine(index, data) + AmbassadorInsert(uuid, data), TopModelRows(uuid, data.topModels.value), "\n");
      block := block + "\n";
    }
  }

  /** The script: `sql` grown entry by entry. */
  method Migrate(entries: seq<(string, AmbassadorJson)>) returns (sql: string)
    ensures sql == MigrationSql(entries)
  {
    sql := "-- D1 Database Migration\n";
    sql := sql + "-- Generated from ambassador-data.json\n\n";
    sql := sql + "BEGIN TRANSACTION;\n\n";
    for index := 0 to |entries|
      invariant sql == Header + Blocks(entries[..index])
    {
      var block := RenderEntry(index, entries[index].0, entries[index].1);
      BlocksSnoc(entries, index);
      Assoc(Header, Blocks(entries[..index]), block);
      sql := sql + block;
    }
    assert entries[..|entries|] == entries;
    sql := sql + Footer;
  }

  // ---------------------------------------------------------------------------
  // What the statements say

  /** A record's statement reads back column by column: the uuid, each text
      field's text (empty for a falsy one) and each number (0 for a falsy one),
      provided the uuid has no quote and the numbers are written without a
      comma. */
  lemma AmbassadorInsertReadsBack(uuid: string, d: AmbassadorJson)
    requires '\'' !in uuid
    requires NumericCell(d.revenue) && NumericCell(d.orders) && NumericCell(d.clicks) && NumericCell(d.commission)
    requires NumericCell(d.overall) && NumericCell(d.rankRevenue) && NumericCell(d.rankOrders) && NumericCell(d.rankClicks)
    requires NumericCell(d.totalLogins)
    ensures ReadValues(RenderValues(RowValues(AmbassadorRow(uuid, d)))) == Some(RowExpected(AmbassadorRow(uuid, d)))
    ensures |RowExpected(AmbassadorRow(uuid, d))| == 18
  {
    var front := IdentityColumns(uuid, d) + StatsColumns(d);
    assert ColumnsOk(IdentityColumns(uuid, d)) && ColumnsOk(StatsColumns(d));
    assert ColumnsOk(RankingColumns(d)) && ColumnsOk(DetailColumns(d));
    ColumnsOkAppend(IdentityColumns(uuid, d), StatsColumns(d));
    ColumnsOkAppend(front + RankingColumns(d), DetailColumns(d)) by {
      ColumnsOkAppend(front, RankingColumns(d));
    }
    RowRoundTrip(AmbassadorRow(uuid, d));
  }

  /** A `top_models` row reads back as the uuid, the rank, the model's name and
      its count. */
  lemma TopModelInsertReadsBack(uuid: string, rank: nat, m: TopModelJson)
    requires '\'' !in uuid
    requires BareSafe(Stringify(m.count))
    ensures ReadValues(RenderValues(RowValues(TopModelRow(uuid, rank, m)))) ==
            Some([PText(uuid), PBare(NatToString(rank + 1)), PText(TextOf(m.name)), PBare(Stringify(m.count))])
  {
    var cols := TopModelRow(uuid, rank, m);
    IntTextSafe(rank + 1);
    forall i | 0 <= i < |cols| ensures ColumnOk(cols[i]) {
    }
    RowRoundTrip(cols);
    assert RowExpected(cols) == [PText(uuid), PBare(NatToString(rank + 1)), PText(TextOf(m.name)), PBare(Stringify(m.count))];
  }

  /** The comment embeds the raw name: a name holding a line break ends the
      comment early, and the rest of the name lands on a line of its own. */
  lemma CommentBreaksOut(index: nat, d: AmbassadorJson, k: nat)
    requires d.name.Text? && k < |d.name.s| && d.name.s[k] == '\n'
    ensures var c := CommentLine(index, d);
      exists j :: 0 <= j < |c| - 1 && c[j] == '\n'
  {
    var c := CommentLine(index, d);
    var p := |"-- Ambassador " + NatToString(index + 1) + ": "|;
    assert c[p + k] == d.name.s[k];
  }
}

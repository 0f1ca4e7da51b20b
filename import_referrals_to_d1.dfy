/** The offline script that writes the referral spreadsheet as SQL: one
    transaction holding an `INSERT INTO referrals` per row, in row order, then
    three verification queries. */
module ImportReferralsToD1 {
  import opened Common
  import opened SqlText

  /** A row of the referral spreadsheet; the email column holds text. */
  datatype ReferralRow = ReferralRow(
    orderId: Cell, orderName: Cell, affiliateEmail: Option<string>, date: Cell,
    totalSales: Cell, commission: Cell, quantityProduct: Cell, customerName: Cell)

  const Header: string := "-- Referrals Import\n\n" + "BEGIN TRANSACTION;\n\n"

  const Footer: string :=
    "\nCOMMIT;\n\n" + "-- Verification\n" +
    "SELECT COUNT(*) as total_referrals FROM referrals;\n" +
    "SELECT COUNT(DISTINCT affiliate_email) as unique_ambassadors FROM referrals;\n" +
    "SELECT COUNT(DISTINCT order_id) as unique_orders FROM referrals;\n"

  const ReferralsInto: string :=
    "INSERT INTO referrals (order_id, order_name, affiliate_email, date, total_sales, commission, quantity_product, customer_name)\n"

  /** `ref.order_id?.toString().trim() || ''`: a number is written in decimal
      first, so an id of 0 is kept as "0". */
  function OrderIdText(c: Cell): string {
    if c.Undefined? || c.Null? then "" else Trim(Stringify(c))
  }

  /** `ref.order_name?.toString() || ''`. */
  function OrderNameText(c: Cell): string {
    if c.Undefined? || c.Null? then "" else Stringify(c)
  }

  /** `ref.affiliate_email?.toLowerCase().trim() || ''`. */
  function EmailText(e: Option<string>): string {
    if e.None? then "" else NormalizeEmail(e.value)
  }

  /** The row's columns, in order: the id, name and email normalised before
      they are escaped, the missing numbers written as 0. */
  function ReferralColumns(r: ReferralRow): seq<Column> {
    [ TextField(Text(OrderIdText(r.orderId))), TextField(Text(OrderNameText(r.orderName))),
      TextField(Text(EmailText(r.affiliateEmail))), TextField(r.date),
      NumberField(r.totalSales), NumberField(r.commission), NumberField(r.quantityProduct),
      TextField(r.customerName) ]
  }

  function ReferralInsert(r: ReferralRow): string {
    ReferralsInto + "VALUES (" + RenderValues(RowValues(ReferralColumns(r))) + ");\n"
  }

  /** One INSERT per row, in row order. */
  function Inserts(rows: seq<ReferralRow>): string {
    if rows == [] then "" else Inserts(rows[..|rows| - 1]) + ReferralInsert(rows[|rows| - 1])
  }

  /** The whole script: the INSERTs between BEGIN TRANSACTION and COMMIT, the
      verification queries after. */
  function ImportSql(rows: seq<ReferralRow>): string {
    Header + Inserts(rows) + Footer
  }

  /** `referrals.forEach(...)` growing `sql`. */
  method ImportReferrals(rows: seq<ReferralRow>) returns (sql: string)
    ensures sql == ImportSql(rows)
  {
    sql := "-- Referrals Import\n\n";
    sql := sql + "BEGIN TRANSACTION;\n\n";
    for index := 0 to |rows|
      invariant sql == Header + Inserts(rows[..index])
    {
      InsertsSnoc(rows, index);
      var statement := ReferralInsert(rows[index]);
      Assoc(Header, Inserts(rows[..index]), statement);
      sql := sql + statement;
    }
    assert rows[..|rows|] == rows;
    sql := sql + Footer;
  }

  lemma InsertsSnoc(rows: seq<ReferralRow>, index: nat)
    requires index < |rows|
    ensures Inserts(rows[..index + 1]) == Inserts(rows[..index]) + ReferralInsert(rows[index])
  {
    assert rows[..index + 1][..index] == rows[..index];
  }

  /** A row's statement reads back column by column: the trimmed id, the order
      name, the normalised email, the date and customer name (empty when
      falsy) and the three numbers (0 when falsy), provided the numbers are
      written without a comma. */
  lemma ReferralInsertReadsBack(r: ReferralRow)
    requires NumericCell(r.totalSales) && NumericCell(r.commission) && NumericCell(r.quantityProduct)
    ensures ReadValues(RenderValues(RowValues(ReferralColumns(r)))) == Some([
              PText(OrderIdText(r.orderId)), PText(OrderNameText(r.orderName)),
              PText(EmailText(r.affiliateEmail)), PText(TextOf(r.date)),
              PBare(NumberOrZero(r.totalSales)), PBare(NumberOrZero(r.commission)), PBare(NumberOrZero(r.quantityProduct)),
              PText(TextOf(r.customerName))])
  {
    var cols := ReferralColumns(r);
    forall i | 0 <= i < |cols| ensures ColumnOk(cols[i]) {
    }
    RowRoundTrip(cols);
    ReferralExpected(r);
  }

  lemma ReferralExpected(r: ReferralRow)
    ensures RowExpected(ReferralColumns(r)) == [
              PText(OrderIdText(r.orderId)), PText(OrderNameText(r.orderName)),
              PText(EmailText(r.affiliateEmail)), PText(TextOf(r.date)),
              PBare(NumberOrZero(r.totalSales)), PBare(NumberOrZero(r.commission)), PBare(NumberOrZero(r.quantityProduct)),
              PText(TextOf(r.customerName))]
  {
    TextOfText(OrderIdText(r.orderId));
    TextOfText(OrderNameText(r.orderName));
    TextOfText(EmailText(r.affiliateEmail));
  }

  /** The email written is already normalised: normalising it again changes
      nothing. */
  lemma EmailNormalised(e: Option<string>)
    ensures NormalizeEmail(EmailText(e)) == EmailText(e)
  {
    if e.Some? {
      NormalizeEmailSpec(e.value);
    }
  }
}

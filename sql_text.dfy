/** The pieces both SQL-generating scripts build their INSERT statements from:
    the cells they read, `escapeSql`, and the comma-separated VALUES list whose
    text fields are quoted and whose numeric fields are written bare. */
module SqlText {
  import opened Common
  import opened Quoting

  /** A spreadsheet cell or JSON field as the scripts read it. Numbers are
      modelled as integers. */
  datatype Cell = Undefined | Null | Text(s: string) | Number(n: int)

  /** `!x`. */
  predicate Falsy(c: Cell) {
    c.Undefined? || c.Null? || c == Text("") || c == Number(0)
  }

  /** `String(x)`, which is also what `${x}` writes. */
  function Stringify(c: Cell): string {
    match c
    case Undefined => "undefined"
    case Null => "null"
    case Text(s) => s
    case Number(n) => IntToString(n)
  }

  /** The text `escapeSql` is meant to keep: nothing for a falsy cell. */
  function TextOf(c: Cell): string {
    if Falsy(c) then "" else Stringify(c)
  }

  /** The text of a text cell is the text itself, the empty one included. */
  lemma TextOfText(s: string)
    ensures TextOf(Text(s)) == s
  {
  }

  /** `escapeSql`: `''` for a falsy cell, else `String(x)` with every single
      quote doubled. `escapeSql(x || '')` is the same, since `''` is falsy. */
  function EscapeSql(c: Cell): string {
    if Falsy(c) then "" else Double('\'', Stringify(c))
  }

  /** `${x || 0}`. */
  function NumberOrZero(c: Cell): string {
    if Falsy(c) then "0" else Stringify(c)
  }

  /** The escape can stand between two single quotes, and reading it back
      gives the cell's text. */
  lemma EscapeSqlSpec(c: Cell)
    ensures Falsy(c) ==> EscapeSql(c) == ""
    ensures Escaped('\'', EscapeSql(c))
    ensures Collapse('\'', EscapeSql(c)) == TextOf(c)
  {
    if !Falsy(c) {
      DoubleSpec('\'', Stringify(c));
    }
  }

  // ---------------------------------------------------------------------------
  // VALUES lists

  /** A value as the statement writes it: text between single quotes (already
      escaped, or not) or bare text. */
  datatype SqlValue = Quoted(inner: string) | Bare(text: string)

  /** A value as an SQL reader sees it. */
  datatype Parsed = PText(s: string) | PBare(text: string)

  function RenderValue(v: SqlValue): string {
    match v
    case Quoted(inner) => "'" + inner + "'"
    case Bare(text) => text
  }

  /** The values joined by `", "`. */
  function RenderValues(vs: seq<SqlValue>): string {
    if vs == [] then ""
    else if |vs| == 1 then RenderValue(vs[0])
    else RenderValue(vs[0]) + ", " + RenderValues(vs[1..])
  }

  /** Bare text that a reader cannot mistake: not empty, no comma, no opening quote. */
  predicate BareSafe(t: string) {
    t != [] && t[0] != '\'' && ',' !in t
  }

  predicate Readable(v: SqlValue) {
    match v
    case Quoted(inner) => Escaped('\'', inner)
    case Bare(text) => BareSafe(text)
  }

  function Meaning(v: SqlValue): Parsed {
    match v
    case Quoted(inner) => PText(Collapse('\'', inner))
    case Bare(text) => PBare(text)
  }

  function Meanings(vs: seq<SqlValue>): seq<Parsed> {
    seq(|vs|, i requires 0 <= i < |vs| => Meaning(vs[i]))
  }

  /** Bare text runs up to the first comma. */
  function BareLength(s: string): (n: nat)
    ensures n <= |s|
    ensures forall i :: 0 <= i < n ==> s[i] != ','
    ensures n < |s| ==> s[n] == ','
  {
    if s == [] || s[0] == ',' then 0 else 1 + BareLength(s[1..])
  }

  /** Reads one value: a quoted literal or bare text. */
  function ReadValue(s: string): (r: Option<(Parsed, string)>)
    ensures r.Some? ==> |r.value.1| < |s|
  {
    if s == [] then None
    else if s[0] == '\'' then
      match ReadBody('\'', s[1..])
      case None => None
      case Some(b) => Some((PText(b.0), b.1))
    else if BareLength(s) == 0 then None
    else Some((PBare(s[..BareLength(s)]), s[BareLength(s)..]))
  }

  /** Reads a comma-separated list of values taking the whole text. */
  function ReadValues(s: string): Option<seq<Parsed>>
    decreases |s|
  {
    match ReadValue(s)
    case None => None
    case Some(r) =>
      if r.1 == [] then Some([r.0])
      else if |r.1| >= 2 && r.1[..2] == ", " then
        match ReadValues(r.1[2..])
        case None => None
        case Some(rest) => Some([r.0] + rest)
      else None
  }

  /** Bare text followed by nothing or by a comma reads back whole. */
  lemma BareRead(t: string, rest: string)
    requires BareSafe(t)
    requires rest == [] || rest[0] == ','
    ensures ReadValue(t + rest) == Some((PBare(t), rest))
  {
    BareRun(t, rest);
    assert (t + rest)[..|t|] == t;
    assert (t + rest)[|t|..] == rest;
  }

  lemma {:induction false} BareRun(t: string, rest: string)
    requires ',' !in t
    requires rest == [] || rest[0] == ','
    ensures BareLength(t + rest) == |t|
  {
    if t != [] {
      assert ',' !in t[1..] by {
        assert forall c :: c in t[1..] ==> c in t;
      }
      BareRun(t[1..], rest);
      assert (t + rest)[1..] == t[1..] + rest;
    }
  }

  /** One value followed by nothing or by more of the list reads back as its
      meaning. */
  lemma ValueRead(v: SqlValue, rest: string)
    requires Readable(v)
    requires rest == [] || rest[0] == ','
    ensures ReadValue(RenderValue(v) + rest) == Some((Meaning(v), rest))
  {
    match v
    case Quoted(inner) =>
      var s := RenderValue(v) + rest;
      assert s == "'" + inner + "'" + rest;
      assert s[1..] == inner + ['\''] + rest;
      ReadEscaped('\'', inner, rest);
    case Bare(text) =>
      BareRead(text, rest);
  }

  /** A VALUES list of readable values reads back as the values' meanings, in
      order. */
  lemma {:induction false} ValuesRoundTrip(vs: seq<SqlValue>)
    requires vs != []
    requires forall i :: 0 <= i < |vs| ==> Readable(vs[i])
    ensures ReadValues(RenderValues(vs)) == Some(Meanings(vs))
  {
    var s := RenderValues(vs);
    if |vs| == 1 {
      ValueRead(vs[0], []);
      assert s == RenderValue(vs[0]) + [];
      assert Meanings(vs) == [Meaning(vs[0])];
    } else {
      var tail := RenderValues(vs[1..]);
      var after := ", " + tail;
      ValueRead(vs[0], after);
      assert s == RenderValue(vs[0]) + after;
      assert ReadValue(s) == Some((Meaning(vs[0]), after));
      assert after[..2] == ", " && after[2..] == tail;
      ValuesRoundTrip(vs[1..]);
      assert ReadValues(s) == Some([Meaning(vs[0])] + Meanings(vs[1..]));
      MeaningsCons(vs);
    }
  }

  lemma MeaningsCons(vs: seq<SqlValue>)
    requires vs != []
    ensures Meanings(vs) == [Meaning(vs[0])] + Meanings(vs[1..])
  {
    var m := [Meaning(vs[0])] + Meanings(vs[1..]);
    forall i | 0 <= i < |vs| ensures Meanings(vs)[i] == m[i] {
      if i > 0 {
        assert m[i] == Meanings(vs[1..])[i - 1];
      }
    }
  }

  /** Decimal text is safe to write bare. */
  lemma IntTextSafe(i: int)
    ensures BareSafe(IntToString(i))
  {
    var d := NatToString(if i < 0 then -i else i);
    assert ',' !in d by {
      forall k | 0 <= k < |d| ensures d[k] != ',' {
      }
    }
    if i < 0 {
      assert IntToString(i) == "-" + d;
      assert forall c :: c in "-" + d ==> c == '-' || c in d;
    }
  }

  /** A numeric cell writes bare text that reads back, as long as it holds a
      number (or text that is itself safe to write bare). */
  predicate NumericCell(c: Cell) {
    c.Undefined? || c.Null? || c.Number? || BareSafe(c.s) || c.s == ""
  }

  lemma NumberOrZeroSafe(c: Cell)
    requires NumericCell(c)
    ensures BareSafe(NumberOrZero(c))
  {
    if c.Number? {
      IntTextSafe(c.n);
    }
  }

  // ---------------------------------------------------------------------------
  // Rows of columns

  /** How a statement writes one column: a key quoted as it is, a text field
      escaped and quoted, a number bare with 0 for a falsy one, or text the
      script writes bare as it is. */
  datatype Column = Key(key: string) | TextField(text: Cell) | NumberField(number: Cell) | Verbatim(raw: string)

  function ValueOf(col: Column): SqlValue {
    match col
    case Key(k) => Quoted(k)
    case TextField(c) => Quoted(EscapeSql(c))
    case NumberField(c) => Bare(NumberOrZero(c))
    case Verbatim(t) => Bare(t)
  }

  /** Whether the column reads back: a key without a quote, a number or bare
      text without a comma. */
  predicate ColumnOk(col: Column) {
    match col
    case Key(k) => '\'' !in k
    case TextField(_) => true
    case NumberField(c) => NumericCell(c)
    case Verbatim(t) => BareSafe(t)
  }

  predicate ColumnsOk(cols: seq<Column>) {
    forall i :: 0 <= i < |cols| ==> ColumnOk(cols[i])
  }

  lemma ColumnsOkAppend(a: seq<Column>, b: seq<Column>)
    requires ColumnsOk(a) && ColumnsOk(b)
    ensures ColumnsOk(a + b)
  {
    forall i | 0 <= i < |a + b| ensures ColumnOk((a + b)[i]) {
      if i >= |a| {
        assert (a + b)[i] == b[i - |a|];
      }
    }
  }

  /** What a reader gets back for the column. */
  function Expected(col: Column): Parsed {
    match col
    case Key(k) => PText(k)
    case TextField(c) => PText(TextOf(c))
    case NumberField(c) => PBare(NumberOrZero(c))
    case Verbatim(t) => PBare(t)
  }

  function RowValues(cols: seq<Column>): seq<SqlValue> {
    seq(|cols|, i requires 0 <= i < |cols| => ValueOf(cols[i]))
  }

  function RowExpected(cols: seq<Column>): seq<Parsed> {
    seq(|cols|, i requires 0 <= i < |cols| => Expected(cols[i]))
  }

  lemma ColumnRead(col: Column)
    requires ColumnOk(col)
    ensures Readable(ValueOf(col)) && Meaning(ValueOf(col)) == Expected(col)
  {
    match col
    case Key(k) => PlainEscaped('\'', k);
    case TextField(c) => EscapeSqlSpec(c);
    case NumberField(c) => NumberOrZeroSafe(c);
    case Verbatim(_) =>
  }

  /** A row of columns that read back reads back column by column. */
  lemma RowRoundTrip(cols: seq<Column>)
    requires cols != []
    requires ColumnsOk(cols)
    ensures ReadValues(RenderValues(RowValues(cols))) == Some(RowExpected(cols))
  {
    var vs := RowValues(cols);
    forall i | 0 <= i < |vs|
      ensures Readable(vs[i]) && Meaning(vs[i]) == Expected(cols[i])
    {
      ColumnRead(cols[i]);
    }
    ValuesRoundTrip(vs);
    assert Meanings(vs) == RowExpected(cols);
  }
}

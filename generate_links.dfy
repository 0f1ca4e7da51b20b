/** The offline script that writes one CSV row per entry of the email lookup:
    the ambassador's name, the email and the link to their page. */
module GenerateLinks {
  import opened Common
  import opened Quoting
  import opened SqlText

  const BaseUrl: string := "https://your-domain.pages.dev"

  const CsvHeader: string := "Name,Email,Unique Link\n"

  /** A record of the data file; only `name` is read here. */
  datatype LinkProfile = LinkProfile(name: Cell)

  /** The link of a uuid. */
  function Link(uuid: string): (l: string)
    ensures |l| == |BaseUrl| + 1 + |uuid| && l[..|BaseUrl|] == BaseUrl && l[|BaseUrl|] == '/'
    ensures l[|BaseUrl| + 1..] == uuid
  {
    BaseUrl + "/" + uuid
  }

  // ---------------------------------------------------------------------------
  // CSV records

  /** A field between double quotes: as it is (`doubled` false, as the script
      writes it), or with its quotes doubled as section 2, rule 7 of RFC 4180
      asks. */
  function Field(f: string, doubled: bool): string {
    "\"" + (if doubled then Double('"', f) else f) + "\""
  }

  /** Quoted fields separated by commas, ended by a line break. */
  function Record(fields: seq<string>, doubled: bool): string
    requires fields != []
  {
    if |fields| == 1 then Field(fields[0], doubled) + "\n"
    else Field(fields[0], doubled) + "," + Record(fields[1..], doubled)
  }

  /** Reads a record of quoted fields (section 2 of RFC 4180): a field runs to
      the first quote that is not doubled, and is followed by a comma or by
      the line break that ends the record. */
  function ReadRecord(s: string): Option<seq<string>>
    decreases |s|
  {
    if s == [] || s[0] != '"' then None
    else
      match ReadBody('"', s[1..])
      case None => None
      case Some(b) =>
        if b.1 == "\n" then Some([b.0])
        else if b.1 != [] && b.1[0] == ',' then
          match ReadRecord(b.1[1..])
          case None => None
          case Some(rest) => Some([b.0] + rest)
        else None
  }

  /** With doubled quotes every record reads back as its fields. */
  lemma {:induction false} RecordRoundTrip(fields: seq<string>)
    requires fields != []
    ensures ReadRecord(Record(fields, true)) == Some(fields)
  {
    var f := fields[0];
    DoubleSpec('"', f);
    if |fields| == 1 {
      ReadLastField(Double('"', f));
      assert fields == [f];
    } else {
      RecordRoundTrip(fields[1..]);
      ReadNextField(Double('"', f), Record(fields[1..], true));
      assert fields == [f] + fields[1..];
    }
  }

  /** An escaped field ending the record. */
  lemma ReadLastField(e: string)
    requires Escaped('"', e)
    ensures ReadRecord("\"" + e + "\"" + "\n") == Some([Collapse('"', e)])
  {
    var s := "\"" + e + "\"" + "\n";
    assert s[0] == '"' && s[1..] == e + ['"'] + "\n";
    ReadEscaped('"', e, "\n");
  }

  /** An escaped field followed by a comma and the rest of the record. */
  lemma ReadNextField(e: string, rest: string)
    requires Escaped('"', e)
    ensures ReadRecord("\"" + e + "\"" + "," + rest) ==
            match ReadRecord(rest)
            case None => None
            case Some(r) => Some([Collapse('"', e)] + r)
  {
    var s := "\"" + e + "\"" + "," + rest;
    var after := "," + rest;
    assert s[0] == '"' && s[1..] == e + ['"'] + after;
    ReadEscaped('"', e, after);
    assert after != "\n" && after[0] == ',' && after[1..] == rest;
  }

  /** Without a quote in any field, the record as the script writes it is the
      same text, so it reads back too. */
  lemma {:induction false} PlainRecord(fields: seq<string>)
    requires fields != []
    requires forall i :: 0 <= i < |fields| ==> '"' !in fields[i]
    ensures Record(fields, false) == Record(fields, true)
    ensures ReadRecord(Record(fields, false)) == Some(fields)
  {
    PlainEscaped('"', fields[0]);
    if |fields| > 1 {
      PlainRecord(fields[1..]);
    }
    RecordRoundTrip(fields);
  }

  /** A name with a quote in it: the record the script writes does not read
      back, since the quote closes the field early. */
  lemma QuoteInNameBreaksRecord()
    ensures ReadRecord(Record(["a\"b", "e", "l"], false)) == None
  {
    var s := Record(["a\"b", "e", "l"], false);
    var t := s[1..];
    var u := t[1..];
    var w := u[1..];
    assert s[0] == '"' && t[0] == 'a' && u[0] == '"' && u[1] == 'b' && w[0] == 'b';
    assert ReadBody('"', u) == Some(([], w));
    assert ReadBody('"', t) == Some((['a'] + [], w));
  }

  // ---------------------------------------------------------------------------
  // The file

  /** The row of one lookup entry, as the script writes it. */
  function LinkRow(email: string, uuid: string, p: LinkProfile): string {
    Record([Stringify(p.name), email, Link(uuid)], false)
  }

  /** The rows, in entry order; every uuid has a record. */
  function Rows(entries: seq<(string, string)>, data: map<string, LinkProfile>): string
    requires forall i :: 0 <= i < |entries| ==> entries[i].1 in data
  {
    if entries == [] then ""
    else
      var last := entries[|entries| - 1];
      Rows(entries[..|entries| - 1], data) + LinkRow(last.0, last.1, data[last.1])
  }

  /** The file, or `None` when a uuid has no record: reading `name` of
      `undefined` throws before the file is written. */
  function LinksCsv(entries: seq<(string, string)>, data: map<string, LinkProfile>): Option<string> {
    if forall i :: 0 <= i < |entries| ==> entries[i].1 in data then Some(CsvHeader + Rows(entries, data))
    else None
  }

  /** `Object.entries(emailLookup).forEach(...)` growing `csv`. */
  method WriteLinks(entries: seq<(string, string)>, data: map<string, LinkProfile>) returns (csv: Option<string>)
    ensures csv == LinksCsv(entries, data)
  {
    var text := "Name,Email,Unique Link\n";
    for i := 0 to |entries|
      invariant forall k :: 0 <= k < i ==> entries[k].1 in data
      invariant text == CsvHeader + Rows(entries[..i], data)
    {
      var email := entries[i].0;
      var uuid := entries[i].1;
      if uuid !in data {
        return None;
      }
      var row := LinkRow(email, uuid, data[uuid]);
      assert entries[..i + 1][..i] == entries[..i];
      Assoc(CsvHeader, Rows(entries[..i], data), row);
      text := text + row;
    }
    assert entries[..|entries|] == entries;
    return Some(text);
  }

  /** The file is written exactly when every uuid of the lookup has a record. */
  lemma LinksCsvSpec(entries: seq<(string, string)>, data: map<string, LinkProfile>)
    ensures LinksCsv(entries, data).Some? <==> forall i :: 0 <= i < |entries| ==> entries[i].1 in data
    ensures LinksCsv(entries, data).Some? ==> StartsWith(LinksCsv(entries, data).value, CsvHeader)
  {
    if LinksCsv(entries, data).Some? {
      var v := LinksCsv(entries, data).value;
      assert v[..|CsvHeader|] == CsvHeader;
    }
  }

  /** A row reads back as the name, the email and the uuid's link when none of
      them holds a quote. */
  lemma LinkRowReadsBack(email: string, uuid: string, p: LinkProfile)
    requires '"' !in Stringify(p.name) && '"' !in email && '"' !in uuid
    ensures ReadRecord(LinkRow(email, uuid, p)) == Some([Stringify(p.name), email, Link(uuid)])
  {
    var fields := [Stringify(p.name), email, Link(uuid)];
    assert '"' !in Link(uuid) by {
      assert forall c :: c in Link(uuid) ==> c in BaseUrl || c == '/' || c in uuid;
    }
    PlainRecord(fields);
  }
}

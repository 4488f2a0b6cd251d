/** The export action: separator choice, the download's file name and the CSV
    records written for the first statement of the script. Records are sequences
    of field texts; the byte-level quoting `fputcsv` applies is not modelled. */
module Export {
  import opened Php
  import opened Execution
  import opened SavedQueries

  /** `($_POST['sep'] ?? ',') === ';' ? ';' : ','`. */
  function Separator(posted: Option<string>): (sep: char)
    ensures sep == ';' <==> posted == Some(";")
    ensures sep == ';' || sep == ','
  {
    if posted.Some? && posted.value == ";" then ';' else ','
  }

  const DefaultBase: string := "query"

  /** The match test of the `foreach`: stored and submitted SQL agree once trimmed. */
  predicate SqlMatches(q: SavedQuery, sql: string): (m: bool)
    ensures q.sql == sql ==> m
    ensures m <==> Trim(sql) == Trim(q.sql)
  {
    Trim(q.sql) == Trim(sql)
  }

  /** Entry `i` matches and no earlier entry does. */
  predicate IsFirstMatch(saved: seq<SavedQuery>, sql: string, i: int) {
    0 <= i < |saved| && SqlMatches(saved[i], sql) &&
    forall j :: 0 <= j < i ==> !SqlMatches(saved[j], sql)
  }

  /** Reference definition of the file-name base, by recursion over the catalog:
      the name of the first entry whose SQL matches, or 'query'. */
  function FirstMatchName(saved: seq<SavedQuery>, sql: string): (base: string)
    ensures (forall i :: 0 <= i < |saved| ==> !SqlMatches(saved[i], sql)) ==> base == DefaultBase
    ensures forall i :: IsFirstMatch(saved, sql, i) ==> base == saved[i].name
  {
    if saved == [] then DefaultBase
    else if SqlMatches(saved[0], sql) then saved[0].name
    else
      assert forall i :: IsFirstMatch(saved, sql, i) && i > 0 ==> IsFirstMatch(saved[1..], sql, i - 1);
      FirstMatchName(saved[1..], sql)
  }

  /** `$filenameBase`, computed by the `foreach` that breaks at the first match. */
  method FilenameBase(saved: seq<SavedQuery>, sql: string) returns (base: string)
    ensures base == FirstMatchName(saved, sql)
    ensures (forall i :: 0 <= i < |saved| ==> !SqlMatches(saved[i], sql)) ==> base == DefaultBase
    ensures forall i :: IsFirstMatch(saved, sql, i) ==> base == saved[i].name
  {
    base := DefaultBase;
    var i := 0;
    while i < |saved|
      invariant 0 <= i <= |saved|
      invariant FirstMatchName(saved, sql) == FirstMatchName(saved[i..], sql)
    {
      assert saved[i..][0] == saved[i] && saved[i..][1..] == saved[i + 1..];
      if SqlMatches(saved[i], sql) {
        base := saved[i].name;
        return;
      }
      i := i + 1;
    }
  }

  /** `$rawName`, before sanitising. */
  function RawFilename(base: string, timestamp: string): (name: string)
    ensures |name| == |base| + |timestamp| + 5
    ensures name[..|base|] == base && name[|base|] == '_'
    ensures name[|base| + 1..|base| + 1 + |timestamp|] == timestamp
    ensures name[|name| - 4..] == ".csv"
  {
    base + "_" + timestamp + ".csv"
  }

  /** The character class `[A-Za-z0-9._-]` kept by the sanitiser. */
  predicate FilenameSafe(c: char) {
    ('A' <= c <= 'Z') || ('a' <= c <= 'z') || ('0' <= c <= '9') || c == '.' || c == '_' || c == '-'
  }

  /** `preg_replace('/[^A-Za-z0-9._-]/', '_', $s)`: every character outside the
      class becomes '_', one for one. */
  function Sanitize(s: string): (r: string)
    ensures |r| == |s|
    ensures forall i :: 0 <= i < |s| ==> FilenameSafe(r[i])
    ensures forall i :: 0 <= i < |s| && FilenameSafe(s[i]) ==> r[i] == s[i]
    ensures forall i :: 0 <= i < |s| && !FilenameSafe(s[i]) ==> r[i] == '_'
  {
    if s == [] then []
    else [if FilenameSafe(s[0]) then s[0] else '_'] + Sanitize(s[1..])
  }

  /** Sanitising is idempotent. */
  lemma SanitizeIdempotent(s: string)
    ensures Sanitize(Sanitize(s)) == Sanitize(s)
  {
  }

  /** A string already inside the class is left alone. */
  lemma SanitizeKeepsSafe(s: string)
    requires forall i :: 0 <= i < |s| ==> FilenameSafe(s[i])
    ensures Sanitize(s) == s
  {
  }

  /** Sanitising works character by character, so it distributes over concatenation. */
  lemma SanitizeConcat(a: string, b: string)
    ensures Sanitize(a + b) == Sanitize(a) + Sanitize(b)
  {
    var l, r := Sanitize(a + b), Sanitize(a) + Sanitize(b);
    assert |l| == |r|;
    forall i | 0 <= i < |l| ensures l[i] == r[i] {
      if i < |a| {
        assert (a + b)[i] == a[i];
      } else {
        assert (a + b)[i] == b[i - |a|];
      }
    }
  }

  /** The download's name: the sanitised base, '_', the sanitised timestamp and
      '.csv'; in particular the colons of `HH:MM:SS` become '_' and the extension
      always survives. */
  lemma SafeNameShape(base: string, timestamp: string)
    ensures Sanitize(RawFilename(base, timestamp)) == Sanitize(base) + "_" + Sanitize(timestamp) + ".csv"
  {
    SanitizeConcat(base + "_" + timestamp, ".csv");
    SanitizeConcat(base + "_", timestamp);
    SanitizeConcat(base, "_");
    assert Sanitize("_") == "_";
    assert Sanitize(".csv") == ".csv";
  }

  /** The text `fputcsv` writes for one value; NULL is written as an empty field. */
  function CellText(c: Cell): (t: string)
    ensures c.Null? ==> t == ""
    ensures c.Text? ==> t == c.text
  {
    match c
    case Null => ""
    case Text(t) => t
  }

  /** `array_values($row)`: the row's values, in field order. */
  function CsvRecord(row: seq<Cell>): (record: seq<string>)
    ensures |record| == |row|
    ensures forall i :: 0 <= i < |row| ==> record[i] == CellText(row[i])
  {
    seq(|row|, i requires 0 <= i < |row| => CellText(row[i]))
  }

  /** The records written for the first statement: with a result set, a header
      of field names and then one record per row, in server order; without one,
      the record `info` and the affected-row count as text. */
  function CsvRecords(first: StatementReply): (records: seq<seq<string>>)
    requires !first.Failed?
    ensures first.RowSet? ==>
      |records| == |first.rows| + 1 && records[0] == first.columns &&
      forall i :: 0 <= i < |first.rows| ==> records[i + 1] == CsvRecord(first.rows[i])
    ensures first.NoRowSet? ==>
      |records| == 2 && records[0] == ["info"] && |records[1]| == 1 &&
      IsIntegerText(records[1][0]) && ParseInt(records[1][0]) == first.affected
  {
    if first.RowSet? then
      [first.columns] + seq(|first.rows|, i requires 0 <= i < |first.rows| => CsvRecord(first.rows[i]))
    else
      IntToStringRoundTrip(first.affected);
      [["info"], [IntToString(first.affected)]]
  }

  /** The `fputcsv` calls of the export branch, collected in order. */
  method ExportRecords(first: StatementReply) returns (records: seq<seq<string>>)
    requires !first.Failed?
    ensures records == CsvRecords(first)
  {
    if first.RowSet? {
      records := [first.columns];
      var i := 0;
      // while ($row = $res->fetch_assoc())
      while i < |first.rows|
        invariant 0 <= i <= |first.rows|
        invariant |records| == i + 1 && records[0] == first.columns
        invariant forall k :: 0 <= k < i ==> records[k + 1] == CsvRecord(first.rows[k])
      {
        records := records + [CsvRecord(first.rows[i])];
        i := i + 1;
      }
    } else {
      records := [["info"], [IntToString(first.affected)]];
    }
  }
}

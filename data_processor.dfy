/**
 * The data processor's `lambda_handler`: on an upload notification, take the
 * first record's bucket and key, decode the key, download the object to
 * `/tmp/<basename>`, and write every CSV row, tagged with a fresh
 * `record_id`, through the table's batch writer.
 */
module DataProcessor {
  import opened Wrappers
  import opened Lambda

  // ---------------------------------------------------------------------------
  // The notification event
  // ---------------------------------------------------------------------------

  /** One entry of `event['Records']`: `['s3']['bucket']['name']` and `['s3']['object']['key']`. */
  datatype S3Record = S3Record(bucket: string, key: string)

  datatype Event = Event(records: seq<S3Record>)

  /** `event['Records'][0]`; an empty list has no first entry and the lookup raises. */
  function FirstRecord(e: Event): (r: Option<S3Record>)
    ensures r.Some? <==> |e.records| > 0
    ensures r.Some? ==> r.value == e.records[0]
  {
    if |e.records| == 0 then None else Some(e.records[0])
  }

  // ---------------------------------------------------------------------------
  // `unquote_plus`: form decoding of the object key
  // ---------------------------------------------------------------------------

  predicate IsHex(c: char) {
    ('0' <= c <= '9') || ('A' <= c <= 'F') || ('a' <= c <= 'f')
  }

  function HexValue(c: char): (v: nat)
    requires IsHex(c)
    ensures v < 16
  {
    if '0' <= c <= '9' then c as int - '0' as int
    else if 'A' <= c <= 'F' then c as int - 'A' as int + 10
    else c as int - 'a' as int + 10
  }

  /** The octet `%HH` denotes, as the character with that code. */
  function Octet(hi: char, lo: char): char
    requires IsHex(hi) && IsHex(lo)
  {
    (16 * HexValue(hi) + HexValue(lo)) as char
  }

  /**
   * `unquote_plus(s)`: every `+` becomes a space, every `%` followed by two
   * hex digits (either case) becomes the octet they denote, and every other
   * character, a `%` without two hex digits after it included, is kept.
   */
  function UnquotePlus(s: string): (r: string)
    ensures |r| <= |s|
    decreases |s|
  {
    if s == [] then []
    else if s[0] == '+' then [' '] + UnquotePlus(s[1..])
    else if s[0] == '%' && |s| >= 3 && IsHex(s[1]) && IsHex(s[2]) then [Octet(s[1], s[2])] + UnquotePlus(s[3..])
    else [s[0]] + UnquotePlus(s[1..])
  }

  predicate NoEscapes(s: string) {
    forall i :: 0 <= i < |s| ==> s[i] != '%' && s[i] != '+'
  }

  /** A key with neither `%` nor `+` decodes to itself. */
  lemma {:induction false} UnquotePlusIdentity(s: string)
    requires NoEscapes(s)
    ensures UnquotePlus(s) == s
    decreases |s|
  {
    if s != [] {
      assert NoEscapes(s[1..]) by {
        assert forall i :: 0 <= i < |s[1..]| ==> s[1..][i] == s[i + 1];
      }
      UnquotePlusIdentity(s[1..]);
      assert [s[0]] + s[1..] == s;
    }
  }

  /** A `%` with two hex digits after it is read as one octet. */
  lemma UnquotePlusEscape(hi: char, lo: char, rest: string)
    requires IsHex(hi) && IsHex(lo)
    ensures UnquotePlus(['%', hi, lo] + rest) == [Octet(hi, lo)] + UnquotePlus(rest)
  {
    var s := ['%', hi, lo] + rest;
    assert s[3..] == rest;
  }

  /** `quote_plus`'s characters that are never escaped: ASCII letters, digits and `_.-~`. */
  predicate Unreserved(c: char) {
    ('A' <= c <= 'Z') || ('a' <= c <= 'z') || ('0' <= c <= '9') || c == '_' || c == '.' || c == '-' || c == '~'
  }

  function HexDigit(n: nat): (c: char)
    requires n < 16
    ensures IsHex(c) && HexValue(c) == n
  {
    if n < 10 then ('0' as int + n) as char else ('A' as int + n - 10) as char
  }

  predicate IsAscii(s: string) {
    forall i :: 0 <= i < |s| ==> (s[i] as int) < 128
  }

  /** `quote_plus` on one ASCII character. */
  function QuoteChar(c: char): (q: string)
    requires (c as int) < 128
  {
    if Unreserved(c) then [c]
    else if c == ' ' then ['+']
    else ['%', HexDigit(c as int / 16), HexDigit(c as int % 16)]
  }

  /** `quote_plus` on ASCII text: the form encoding that `unquote_plus` inverts. */
  function QuotePlus(s: string): string
    requires IsAscii(s)
  {
    if s == [] then [] else QuoteChar(s[0]) + QuotePlus(s[1..])
  }

  lemma UnquoteQuoteChar(c: char, rest: string)
    requires (c as int) < 128
    ensures UnquotePlus(QuoteChar(c) + rest) == [c] + UnquotePlus(rest)
  {
    if Unreserved(c) {
      assert ([c] + rest)[1..] == rest;
    } else if c == ' ' {
      assert (['+'] + rest)[1..] == rest;
    } else {
      var hi, lo := HexDigit(c as int / 16), HexDigit(c as int % 16);
      UnquotePlusEscape(hi, lo, rest);
      assert Octet(hi, lo) == c;
    }
  }

  /** Decoding undoes the form encoding of any ASCII key. */
  lemma {:induction false} UnquotePlusRoundTrip(s: string)
    requires IsAscii(s)
    ensures UnquotePlus(QuotePlus(s)) == s
    decreases |s|
  {
    if s != [] {
      assert IsAscii(s[1..]) by {
        assert forall i :: 0 <= i < |s[1..]| ==> s[1..][i] == s[i + 1];
      }
      UnquoteQuoteChar(s[0], QuotePlus(s[1..]));
      UnquotePlusRoundTrip(s[1..]);
      assert [s[0]] + s[1..] == s;
    }
  }

  // ---------------------------------------------------------------------------
  // The download path
  // ---------------------------------------------------------------------------

  /**
   * `key.split('/')[-1]`: the longest suffix of `key` without a `/`, so what
   * follows the last `/`, or all of `key` when it has none.
   */
  function Basename(key: string): (b: string)
    ensures |b| <= |key| && key[|key| - |b|..] == b
    ensures forall i :: 0 <= i < |b| ==> b[i] != '/'
    ensures |b| < |key| ==> key[|key| - |b| - 1] == '/'
    decreases |key|
  {
    if key == [] then []
    else if key[|key| - 1] == '/' then []
    else Basename(key[..|key| - 1]) + [key[|key| - 1]]
  }

  /** A key without `/` is its own basename. */
  lemma BasenameOfPlainKey(key: string)
    requires forall i :: 0 <= i < |key| ==> key[i] != '/'
    ensures Basename(key) == key
  {
    assert key[0..] == key;
  }

  const TmpDir := "/tmp/"

  /** `f"/tmp/{key.split('/')[-1]}"`. */
  function TmpPath(key: string): (p: string)
    ensures |p| >= |TmpDir| && p[..|TmpDir|] == TmpDir
    ensures forall i :: |TmpDir| <= i < |p| ==> p[i] != '/'
  {
    TmpDir + Basename(key)
  }

  /**
   * A last path segment that names a directory rather than a file: none at
   * all (the key ends in `/`), `.` or `..`.
   */
  predicate DirectorySegment(name: string) {
    name == "" || name == "." || name == ".."
  }

  /** The download paths that name a directory: `/tmp/`, `/tmp/.` and `/tmp/..`. */
  predicate NamesDirectory(path: string) {
    path == TmpDir || path == TmpDir + "." || path == TmpDir + ".."
  }

  /** The download path names a directory exactly when the key's last segment does. */
  lemma TmpPathNamesDirectory(key: string)
    ensures NamesDirectory(TmpPath(key)) <==> DirectorySegment(Basename(key))
  {
    var b := Basename(key);
    var p := TmpPath(key);
    assert p[|TmpDir|..] == b;
    assert (TmpDir + ".")[|TmpDir|..] == ".";
    assert (TmpDir + "..")[|TmpDir|..] == "..";
  }

  // ---------------------------------------------------------------------------
  // Tagging rows and the batch writer
  // ---------------------------------------------------------------------------

  const RecordIdColumn := "record_id"

  /** `row['record_id'] = id`: the column is added, or overwritten when the CSV has one. */
  function Tag(row: Row, id: string): (r: Row)
    ensures r.Keys == row.Keys + {RecordIdColumn}
    ensures r[RecordIdColumn] == id
    ensures forall c :: c in row && c != RecordIdColumn ==> r[c] == row[c]
  {
    row[RecordIdColumn := id]
  }

  /**
   * The items the row loop writes, in row order; row `i` gets the `i`-th id
   * of `supply`, which stands for the successive calls of `uuid.uuid4()`.
   */
  function Tagged(rows: seq<Row>, supply: nat -> string): (items: seq<Row>)
    ensures |items| == |rows|
    ensures forall i :: 0 <= i < |rows| ==> items[i] == Tag(rows[i], supply(i))
    decreases |rows|
  {
    if rows == [] then []
    else Tagged(rows[..|rows| - 1], supply) + [Tag(rows[|rows| - 1], supply(|rows| - 1))]
  }

  /** `str(uuid.uuid4())` is always 36 characters long. */
  const UuidLength := 36

  /**
   * Every written item is its row with `record_id` set and nothing else
   * changed, and when the ids drawn for the rows are distinct uuid strings,
   * the ids written are pairwise distinct and non-empty.
   */
  lemma TaggedItems(rows: seq<Row>, supply: nat -> string)
    requires forall m: nat, n: nat :: m < n < |rows| ==> supply(m) != supply(n)
    requires forall n: nat :: n < |rows| ==> |supply(n)| == UuidLength
    ensures forall i :: 0 <= i < |rows| ==> Tagged(rows, supply)[i].Keys == rows[i].Keys + {RecordIdColumn}
    ensures forall i, c :: 0 <= i < |rows| && c in rows[i] && c != RecordIdColumn ==>
              Tagged(rows, supply)[i][c] == rows[i][c]
    ensures forall i :: 0 <= i < |rows| ==> |Tagged(rows, supply)[i][RecordIdColumn]| > 0
    ensures forall i, j :: 0 <= i < j < |rows| ==>
              Tagged(rows, supply)[i][RecordIdColumn] != Tagged(rows, supply)[j][RecordIdColumn]
  {
    var items := Tagged(rows, supply);
    forall i, j | 0 <= i < j < |rows|
      ensures items[i][RecordIdColumn] != items[j][RecordIdColumn]
    {
      assert items[i][RecordIdColumn] == supply(i) && items[j][RecordIdColumn] == supply(j);
    }
  }

  /** `table.batch_writer()`: the items put through it, oldest first. */
  class BatchWriter {
    var puts: seq<Row>

    constructor ()
      ensures puts == []
    {
      puts := [];
    }

    /** `batch.put_item(Item=item)`. */
    method PutItem(item: Row)
      modifies this
      ensures puts == old(puts) + [item]
    {
      puts := puts + [item];
    }
  }

  /** The row loop: `row['record_id'] = str(uuid.uuid4())`, then `batch.put_item(Item=row)`, row by row. */
  method WriteRows(rows: seq<Row>, supply: nat -> string, batch: BatchWriter)
    modifies batch
    ensures batch.puts == old(batch.puts) + Tagged(rows, supply)
  {
    var i := 0;
    while i < |rows|
      invariant 0 <= i <= |rows|
      invariant batch.puts == old(batch.puts) + Tagged(rows[..i], supply)
    {
      var row := rows[i];
      row := row[RecordIdColumn := supply(i)];
      batch.PutItem(row);
      assert rows[..i + 1][..i] == rows[..i];
      i := i + 1;
    }
    assert rows[..i] == rows;
  }

  // ---------------------------------------------------------------------------
  // The handler
  // ---------------------------------------------------------------------------

  /**
   * An object in the upload bucket as the CSV reader sees it: the rows it
   * reads, and the error that stops the reading after them, if any.
   */
  datatype CsvObject = CsvObject(rows: seq<Row>, readError: Option<string>)

  const SuccessBody := "\"Data processed successfully!\""
  const NoRecordError := "IndexError: list index out of range"
  const NotFoundError := "ClientError: An error occurred (404) when calling the HeadObject operation: Not Found"
  const DirectoryError := "IsADirectoryError: the download path names a directory"

  /**
   * What the handler returns or raises, and the items it writes, for the
   * given event, bucket contents and id supply.
   */
  function Process(e: Event, objects: map<(string, string), CsvObject>, supply: nat -> string): (Outcome, seq<Row>) {
    match FirstRecord(e)
    case None => (Raised(NoRecordError), [])
    case Some(rec) =>
      var key := UnquotePlus(rec.key);
      if (rec.bucket, key) !in objects then (Raised(NotFoundError), [])
      else if DirectorySegment(Basename(key)) then (Raised(DirectoryError), [])
      else
        var obj := objects[(rec.bucket, key)];
        var items := Tagged(obj.rows, supply);
        match obj.readError
        case Some(err) => (Raised(err), items)
        case None => (Returned(Response(StatusOk, SuccessBody)), items)
  }

  /**
   * `lambda_handler`: `objects` maps (bucket, key) to the upload bucket's
   * objects, and `batch` receives the puts. A failure is raised after the
   * puts already issued.
   */
  method ProcessUpload(e: Event, objects: map<(string, string), CsvObject>, supply: nat -> string, batch: BatchWriter)
    returns (outcome: Outcome)
    modifies batch
    ensures outcome == Process(e, objects, supply).0
    ensures batch.puts == old(batch.puts) + Process(e, objects, supply).1
  {
    ghost var expected := Process(e, objects, supply);
    if |e.records| == 0 {
      assert expected == (Raised(NoRecordError), []);
      return Raised(NoRecordError);
    }
    var rec := e.records[0];
    var key := UnquotePlus(rec.key);
    if (rec.bucket, key) !in objects {
      assert expected == (Raised(NotFoundError), []);
      return Raised(NotFoundError);
    }
    var path := TmpPath(key);
    TmpPathNamesDirectory(key);
    if path == TmpDir || path == TmpDir + "." || path == TmpDir + ".." {
      assert expected == (Raised(DirectoryError), []);
      return Raised(DirectoryError);
    }
    var obj := objects[(rec.bucket, key)];
    assert expected.1 == Tagged(obj.rows, supply);
    WriteRows(obj.rows, supply, batch);
    if obj.readError.Some? {
      assert expected.0 == Raised(obj.readError.value);
      return Raised(obj.readError.value);
    }
    assert expected.0 == Returned(Response(StatusOk, SuccessBody));
    outcome := Returned(Response(StatusOk, SuccessBody));
  }

  /** Only `event['Records'][0]` matters: events that agree on it are processed alike. */
  lemma OnlyFirstRecordMatters(e1: Event, e2: Event, objects: map<(string, string), CsvObject>, supply: nat -> string)
    requires FirstRecord(e1) == FirstRecord(e2)
    ensures Process(e1, objects, supply) == Process(e2, objects, supply)
  {
  }

  /**
   * A key whose decoded last segment names a directory (it ends in `/`, `/.`
   * or `/..`, escaped or not, or is `.` or `..`) is raised before any put,
   * whatever the bucket holds.
   */
  lemma DirectoryKeyRaises(e: Event, objects: map<(string, string), CsvObject>, supply: nat -> string)
    ensures |e.records| > 0 && DirectorySegment(Basename(UnquotePlus(e.records[0].key))) ==>
              Process(e, objects, supply).0.Raised? && Process(e, objects, supply).1 == []
  {
  }

  /** For example, `a%2F..` decodes to `a/..`, whose last segment is `..`. */
  lemma EscapedParentKeyRaises(bucket: string, objects: map<(string, string), CsvObject>, supply: nat -> string)
    ensures Process(Event([S3Record(bucket, "a%2F..")]), objects, supply).0.Raised?
    ensures Process(Event([S3Record(bucket, "a%2F..")]), objects, supply).1 == []
  {
    var raw := "a%2F..";
    assert raw[1..] == ['%', '2', 'F'] + "..";
    UnquotePlusEscape('2', 'F', "..");
    UnquotePlusIdentity("..");
    assert UnquotePlus(raw) == "a/..";
    var decoded := "a/..";
    assert decoded[..|decoded| - 1] == "a/.";
    assert "a/."[..2] == "a/";
    DirectoryKeyRaises(Event([S3Record(bucket, raw)]), objects, supply);
  }

  /**
   * A run that returns returns status 200 with the success body, after one
   * put per row of the object, in row order. Once the object named by the
   * first record is found at a usable path, every row read is put, and then
   * the read error, if any, is raised, keeping those puts; otherwise the run
   * returns 200.
   */
  lemma ProcessOutcomes(e: Event, objects: map<(string, string), CsvObject>, supply: nat -> string)
    ensures var (outcome, items) := Process(e, objects, supply);
            && (outcome.Returned? ==> outcome.response == Response(StatusOk, SuccessBody))
            && (items != [] ==> |e.records| > 0
                                && (e.records[0].bucket, UnquotePlus(e.records[0].key)) in objects
                                && items == Tagged(objects[(e.records[0].bucket, UnquotePlus(e.records[0].key))].rows, supply))
            && (outcome.Returned? ==> |e.records| > 0
                                      && var obj := objects[(e.records[0].bucket, UnquotePlus(e.records[0].key))];
                                      obj.readError.None? && |items| == |obj.rows|)
    ensures var (outcome, items) := Process(e, objects, supply);
            |e.records| > 0 ==>
              var key := UnquotePlus(e.records[0].key);
              (e.records[0].bucket, key) in objects && !DirectorySegment(Basename(key)) ==>
                var obj := objects[(e.records[0].bucket, key)];
                && items == Tagged(obj.rows, supply)
                && (obj.readError.Some? ==> outcome == Raised(obj.readError.value))
                && (obj.readError.None? ==> outcome == Returned(Response(StatusOk, SuccessBody)))
  {
  }
}

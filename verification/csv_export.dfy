/** The CSV text `exportToCSV` in `src/utils/export.js` builds before handing it to the
    browser as a download. */
module CsvExport {
  import opened Wrappers
  import opened Text
  import opened Collections

  /** A field as a template literal writes it: its text, or `undefined` when it is absent.
      Numbers are given by their `String` form. */
  function Field(f: Option<string>): string
  {
    if f.Some? then f.value else "undefined"
  }

  datatype CommitItem = CommitItem(date: Option<string>, author: Option<string>, repository: Option<string>,
                                   message: Option<string>)

  datatype QualityItem = QualityItem(date: Option<string>, bugs: Option<string>, vulnerabilities: Option<string>,
                                     codeSmells: Option<string>, coverage: Option<string>)

  datatype VelocityItem = VelocityItem(sprint: Option<string>, completed: Option<string>, total: Option<string>,
                                       stories: Option<string>)

  /** The keys of `data` the export reads; `None` is an absent (falsy) key. An empty
      array is truthy, so it still yields its section. */
  datatype ExportData = ExportData(commits: Option<seq<CommitItem>>, quality: Option<seq<QualityItem>>,
                                   velocity: Option<seq<VelocityItem>>)

  /** A field between double quotes, written as it is: an embedded quote is not doubled. */
  function Quoted(f: Option<string>): string
  {
    "\"" + Field(f) + "\""
  }

  function CommitLine(c: CommitItem): string
  {
    Quoted(c.date) + "," + Quoted(c.author) + "," + Quoted(c.repository) + "," + Quoted(c.message)
  }

  function QualityLine(q: QualityItem): string
  {
    Quoted(q.date) + "," + Field(q.bugs) + "," + Field(q.vulnerabilities) + "," + Field(q.codeSmells) + "," +
      Field(q.coverage)
  }

  function VelocityLine(v: VelocityItem): string
  {
    Quoted(v.sprint) + "," + Field(v.completed) + "," + Field(v.total) + "," + Field(v.stories)
  }

  const CommitTitle := "Commit Data"
  const CommitHeader := "Date,Author,Repository,Message"
  const QualityTitle := "Code Quality Data"
  const QualityHeader := "Date,Bugs,Vulnerabilities,Code Smells,Coverage"
  const VelocityTitle := "Sprint Velocity Data"
  const VelocityHeader := "Sprint,Completed,Total,Stories"

  /** A section: its title, its header and one line per row, with a closing blank line
      when `blank` holds. */
  function Section(title: string, header: string, rows: seq<string>, blank: bool): seq<string>
  {
    [title, header] + rows + (if blank then [""] else [])
  }

  function CommitPart(data: ExportData): seq<string>
  {
    if data.commits.Some? then Section(CommitTitle, CommitHeader, Map(data.commits.value, CommitLine), true) else []
  }

  function QualityPart(data: ExportData): seq<string>
  {
    if data.quality.Some? then Section(QualityTitle, QualityHeader, Map(data.quality.value, QualityLine), true) else []
  }

  function VelocityPart(data: ExportData): seq<string>
  {
    if data.velocity.Some? then Section(VelocityTitle, VelocityHeader, Map(data.velocity.value, VelocityLine), false)
    else []
  }

  /** The lines of the export, in order: each present section is its title, its header
      and one line per item; the commit and quality sections end with a blank line and
      the velocity section does not. */
  function CsvLines(data: ExportData): seq<string>
  {
    CommitPart(data) + QualityPart(data) + VelocityPart(data)
  }

  /** Lines each ended by a line feed (not the CR LF of section 2 of RFC 4180). */
  function Lines(ls: seq<string>): string
  {
    if ls == [] then "" else ls[0] + "\n" + Lines(ls[1..])
  }

  /** The text of the export. */
  function Csv(data: ExportData): string
  {
    Lines(CsvLines(data))
  }

  lemma {:induction false} LinesAppend(a: seq<string>, b: seq<string>)
    ensures Lines(a + b) == Lines(a) + Lines(b)
  {
    if a == [] {
      assert a + b == b;
    } else {
      assert (a + b)[1..] == a[1..] + b;
      LinesAppend(a[1..], b);
    }
  }

  /** Reading the text back line by line gives the lines, then the empty remainder after
      the last line feed. */
  lemma {:induction false} LinesSplit(ls: seq<string>)
    requires forall i :: 0 <= i < |ls| ==> '\n' !in ls[i]
    ensures Split(Lines(ls), '\n') == ls + [""]
  {
    if ls != [] {
      LinesSplit(ls[1..]);
      SplitAfterPart(ls[0], Lines(ls[1..]), '\n');
      assert ls == [ls[0]] + ls[1..];
    }
  }

  /** The field holds no line feed. */
  predicate OneLine(f: Option<string>)
  {
    '\n' !in Field(f)
  }

  predicate CommitOneLine(c: CommitItem)
  {
    OneLine(c.date) && OneLine(c.author) && OneLine(c.repository) && OneLine(c.message)
  }

  predicate QualityOneLine(q: QualityItem)
  {
    OneLine(q.date) && OneLine(q.bugs) && OneLine(q.vulnerabilities) && OneLine(q.codeSmells) && OneLine(q.coverage)
  }

  predicate VelocityOneLine(v: VelocityItem)
  {
    OneLine(v.sprint) && OneLine(v.completed) && OneLine(v.total) && OneLine(v.stories)
  }

  /** No field of any item holds a line feed. */
  predicate SingleLineFields(data: ExportData)
  {
    (data.commits.Some? ==> forall c :: c in data.commits.value ==> CommitOneLine(c)) &&
    (data.quality.Some? ==> forall q :: q in data.quality.value ==> QualityOneLine(q)) &&
    (data.velocity.Some? ==> forall v :: v in data.velocity.value ==> VelocityOneLine(v))
  }

  /** When no field holds a line feed, the export reads back as exactly its lines: the
      present sections in the order commits, quality, velocity, each a title, a header
      and one row per item. */
  lemma CsvReadsBack(data: ExportData)
    requires SingleLineFields(data)
    ensures Split(Csv(data), '\n') == CsvLines(data) + [""]
  {
    CommitPartOneLine(data);
    QualityPartOneLine(data);
    VelocityPartOneLine(data);
    PartsOneLine(CommitPart(data), QualityPart(data), VelocityPart(data));
    LinesSplit(CsvLines(data));
  }

  /** Lines that hold no line feed still hold none once the three parts are joined. */
  lemma PartsOneLine(a: seq<string>, b: seq<string>, c: seq<string>)
    requires forall i :: 0 <= i < |a| ==> '\n' !in a[i]
    requires forall i :: 0 <= i < |b| ==> '\n' !in b[i]
    requires forall i :: 0 <= i < |c| ==> '\n' !in c[i]
    ensures forall i :: 0 <= i < |a + b + c| ==> '\n' !in (a + b + c)[i]
  {
    forall i | 0 <= i < |a + b + c| ensures '\n' !in (a + b + c)[i] {
      if i < |a| {
        assert (a + b + c)[i] == a[i];
      } else if i < |a| + |b| {
        assert (a + b + c)[i] == b[i - |a|];
      } else {
        assert (a + b + c)[i] == c[i - |a| - |b|];
      }
    }
  }

  lemma SectionOneLine(title: string, header: string, rows: seq<string>, blank: bool)
    requires '\n' !in title && '\n' !in header
    requires forall i :: 0 <= i < |rows| ==> '\n' !in rows[i]
    ensures forall i :: 0 <= i < |Section(title, header, rows, blank)| ==> '\n' !in Section(title, header, rows, blank)[i]
  {
  }

  lemma CommitPartOneLine(data: ExportData)
    requires SingleLineFields(data)
    ensures forall i :: 0 <= i < |CommitPart(data)| ==> '\n' !in CommitPart(data)[i]
  {
    if data.commits.Some? {
      var items := data.commits.value;
      var rows := Map(items, CommitLine);
      forall i | 0 <= i < |rows| ensures '\n' !in rows[i] {
        assert items[i] in items;
      }
      CommitHeaderOneLine();
      SectionOneLine(CommitTitle, CommitHeader, rows, true);
    }
  }

  lemma CommitHeaderOneLine()
    ensures '\n' !in CommitHeader
  {
  }

  lemma QualityHeaderOneLine()
    ensures '\n' !in QualityHeader
  {
    assert QualityHeader == "Date,Bugs,Vulnerabilities," + "Code Smells,Coverage";
  }

  lemma VelocityHeaderOneLine()
    ensures '\n' !in VelocityHeader
  {
  }

  lemma QualityPartOneLine(data: ExportData)
    requires SingleLineFields(data)
    ensures forall i :: 0 <= i < |QualityPart(data)| ==> '\n' !in QualityPart(data)[i]
  {
    if data.quality.Some? {
      var items := data.quality.value;
      var rows := Map(items, QualityLine);
      forall i | 0 <= i < |rows| ensures '\n' !in rows[i] {
        assert items[i] in items;
      }
      QualityHeaderOneLine();
      SectionOneLine(QualityTitle, QualityHeader, rows, true);
    }
  }

  lemma VelocityPartOneLine(data: ExportData)
    requires SingleLineFields(data)
    ensures forall i :: 0 <= i < |VelocityPart(data)| ==> '\n' !in VelocityPart(data)[i]
  {
    if data.velocity.Some? {
      var items := data.velocity.value;
      var rows := Map(items, VelocityLine);
      forall i | 0 <= i < |rows| ensures '\n' !in rows[i] {
        assert items[i] in items;
      }
      VelocityHeaderOneLine();
      SectionOneLine(VelocityTitle, VelocityHeader, rows, false);
    }
  }

  /** The number of lines: three per commit or quality section plus one per item, two
      per velocity section plus one per item. */
  lemma CsvLineCount(data: ExportData)
    ensures |CsvLines(data)| ==
      (if data.commits.Some? then 3 + |data.commits.value| else 0) +
      (if data.quality.Some? then 3 + |data.quality.value| else 0) +
      (if data.velocity.Some? then 2 + |data.velocity.value| else 0)
  {
  }

  /** The number of `c` in `s`. */
  function Occurrences(s: string, c: char): nat
  {
    if s == [] then 0 else (if s[0] == c then 1 else 0) + Occurrences(s[1..], c)
  }

  lemma {:induction false} OccurrencesAppend(a: string, b: string, c: char)
    ensures Occurrences(a + b, c) == Occurrences(a, c) + Occurrences(b, c)
  {
    if a == [] {
      assert a + b == b;
    } else {
      assert (a + b)[1..] == a[1..] + b;
      OccurrencesAppend(a[1..], b, c);
    }
  }

  /** A commit row holds its eight delimiting quotes plus every quote of its fields, so a
      field with one embedded quote leaves the row with an odd number of them, which
      RFC 4180 (section 2, rule 7) does not allow. */
  lemma CommitLineQuotes(item: CommitItem)
    ensures Occurrences(CommitLine(item), '"') ==
      8 + Occurrences(Field(item.date), '"') + Occurrences(Field(item.author), '"') +
      Occurrences(Field(item.repository), '"') + Occurrences(Field(item.message), '"')
  {
    var q := "\"";
    var comma := ",";
    forall f | f in [item.date, item.author, item.repository, item.message]
      ensures Occurrences(Quoted(f), '"') == 2 + Occurrences(Field(f), '"')
    {
      OccurrencesAppend(q, Field(f), '"');
      OccurrencesAppend(q + Field(f), q, '"');
    }
    var a, b, c, d := Quoted(item.date), Quoted(item.author), Quoted(item.repository), Quoted(item.message);
    assert Occurrences(comma, '"') == 0;
    OccurrencesAppend(a, comma, '"');
    OccurrencesAppend(a + comma, b, '"');
    OccurrencesAppend(a + comma + b, comma, '"');
    OccurrencesAppend(a + comma + b + comma, c, '"');
    OccurrencesAppend(a + comma + b + comma + c, comma, '"');
    OccurrencesAppend(a + comma + b + comma + c + comma, d, '"');
  }

  /** `exportToCSV(data)` up to the download: `csv` grows one `+=` at a time. A missing
      `data` throws on its first read, and the handler swallows it, so nothing is made. */
  method ExportToCsv(data: Option<ExportData>) returns (csv: Option<string>)
    ensures data.None? ==> csv.None?
    ensures data.Some? ==> csv == Some(Csv(data.value))
  {
    if data.None? {
      return None;
    }
    var d := data.value;
    var text := "";
    if d.commits.Some? {
      text := AppendSection(text, CommitTitle, CommitHeader, Map(d.commits.value, CommitLine), true);
    }
    assert text == Lines(CommitPart(d));
    if d.quality.Some? {
      text := AppendSection(text, QualityTitle, QualityHeader, Map(d.quality.value, QualityLine), true);
    }
    assert text == Lines(CommitPart(d)) + Lines(QualityPart(d));
    if d.velocity.Some? {
      text := AppendSection(text, VelocityTitle, VelocityHeader, Map(d.velocity.value, VelocityLine), false);
    }
    assert text == Lines(CommitPart(d)) + Lines(QualityPart(d)) + Lines(VelocityPart(d));
    LinesAppend(CommitPart(d) + QualityPart(d), VelocityPart(d));
    LinesAppend(CommitPart(d), QualityPart(d));
    csv := Some(text);
  }

  /** One `if (data.<key>)` block: the title, the header, each row from its `forEach`,
      then the blank line when the section has one. */
  method AppendSection(text: string, title: string, header: string, rows: seq<string>, blank: bool)
    returns (r: string)
    ensures r == text + Lines(Section(title, header, rows, blank))
  {
    r := text + title + "\n";
    r := r + header + "\n";
    r := AppendRows(r, rows);
    if blank {
      r := r + "\n";
    }
    LinesAppend([title, header], rows);
    LinesAppend([title, header] + rows, if blank then [""] else []);
  }

  /** One `forEach` of a section: each row and its line feed appended in turn. */
  method AppendRows(text: string, rows: seq<string>) returns (r: string)
    ensures r == text + Lines(rows)
  {
    r := text;
    var i := 0;
    while i < |rows|
      invariant 0 <= i <= |rows|
      invariant r == text + Lines(rows[..i])
    {
      LinesAppend(rows[..i], [rows[i]]);
      assert rows[..i + 1] == rows[..i] + [rows[i]];
      r := r + rows[i] + "\n";
      i := i + 1;
    }
    assert rows[..i] == rows;
  }
}

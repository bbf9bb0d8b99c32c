/**
 * The agent's deterministic tool logic: the document key, the cache-or-build
 * retrieval tool over a persisted vector store, and the student-record lookup.
 */
module Tools {
  import opened Wrappers
  import opened Strings

  type Byte = x: int | 0 <= x < 256

  const HexDigits := "0123456789abcdef"

  /** The value of a lower-case hexadecimal digit (0 for any other character). */
  function DigitValue(c: char): (v: nat)
    ensures v < 16
  {
    if '0' <= c <= '9' then c as int - '0' as int
    else if 'a' <= c <= 'f' then c as int - 'a' as int + 10
    else 0
  }

  lemma DigitValueOfHexDigit(n: nat)
    requires n < 16
    ensures DigitValue(HexDigits[n]) == n
  {
  }

  /** `hexdigest()`: two lower-case hexadecimal digits per byte, high nibble first. */
  function Hex(bytes: seq<Byte>): (r: string)
    ensures |r| == 2 * |bytes|
    ensures forall i :: 0 <= i < |r| ==> r[i] in HexDigits
  {
    if |bytes| == 0 then "" else [HexDigits[bytes[0] / 16], HexDigits[bytes[0] % 16]] + Hex(bytes[1..])
  }

  /** Reads a hexadecimal digest back into bytes, two digits at a time. */
  function Unhex(s: string): seq<Byte>
    decreases |s|
  {
    if |s| < 2 then [] else [DigitValue(s[0]) * 16 + DigitValue(s[1])] + Unhex(s[2..])
  }

  /** The digest text determines the digest bytes. */
  lemma {:induction false} UnhexHex(bytes: seq<Byte>)
    ensures Unhex(Hex(bytes)) == bytes
  {
    if |bytes| > 0 {
      var b := bytes[0];
      DigitValueOfHexDigit(b / 16);
      DigitValueOfHexDigit(b % 16);
      var h := Hex(bytes);
      assert h[2..] == Hex(bytes[1..]);
      UnhexHex(bytes[1..]);
    }
  }

  lemma HexInjective(a: seq<Byte>, b: seq<Byte>)
    requires Hex(a) == Hex(b)
    ensures a == b
  {
    UnhexHex(a);
    UnhexHex(b);
  }

  /**
   * The document key: the hexadecimal digest of the path string. `md5` stands for
   * MD5 over the path's encoding; file contents play no part.
   */
  function FileId(path: string, md5: string -> seq<Byte>): (id: string)
    ensures |id| == 2 * |md5(path)|
    ensures forall i :: 0 <= i < |id| ==> id[i] in HexDigits
  {
    Hex(md5(path))
  }

  /** The Chroma collection that holds a document's passages. */
  function CollectionName(path: string, md5: string -> seq<Byte>): (name: string)
    ensures "file_" <= name && name[5..] == FileId(path, md5)
  {
    "file_" + FileId(path, md5)
  }

  /** Paths with different digests never share a collection; equal paths always do. */
  lemma CollectionNameSeparates(p: string, q: string, md5: string -> seq<Byte>)
    ensures CollectionName(p, md5) == CollectionName(q, md5) <==> md5(p) == md5(q)
  {
    var a, b := CollectionName(p, md5), CollectionName(q, md5);
    if a == b {
      assert a[5..] == b[5..];
      HexInjective(md5(p), md5(q));
    }
  }

  /** A loaded page or a split chunk; only its text matters here. */
  datatype Document = Document(pageContent: string)

  /**
   * The collaborators the retrieval tool calls into, as functions: the digest, the
   * PDF and DOCX loaders, the text splitter and the similarity ranking.
   */
  datatype RagEnv = RagEnv(
    md5: string -> seq<Byte>,
    loadPdf: string -> seq<Document>,
    loadDocx: string -> seq<Document>,
    split: seq<Document> -> seq<Document>,
    rank: (seq<Document>, string) -> seq<Document>)

  const PassageCount := 5
  const PassageSeparator := "\n\n---\n\n"
  const UnsupportedFormat := "Error: Only PDF and DOCX files are supported."

  /** The console line the tool prints: which way the index was obtained. */
  datatype IndexAction = Reused | BuiltFromPdf | BuiltFromDocx | Rejected

  /** The retriever with `k` = 5: the best-ranked passages, at most five, in rank order. */
  function Retrieve(index: seq<Document>, query: string, rank: (seq<Document>, string) -> seq<Document>): (passages: seq<Document>)
    ensures |passages| <= PassageCount
    ensures passages <= rank(index, query)
    ensures |rank(index, query)| >= PassageCount ==> |passages| == PassageCount
  {
    Take(rank(index, query), PassageCount)
  }

  function PageContents(docs: seq<Document>): (texts: seq<string>)
    ensures |texts| == |docs|
    ensures forall i :: 0 <= i < |docs| ==> texts[i] == docs[i].pageContent
  {
    if |docs| == 0 then [] else [docs[0].pageContent] + PageContents(docs[1..])
  }

  /** The tool's answer: the passages' texts joined by the separator. */
  function FormatPassages(passages: seq<Document>): (answer: string)
    ensures |passages| == 0 ==> answer == ""
    ensures |passages| == 1 ==> answer == passages[0].pageContent
  {
    JoinWith(PassageSeparator, PageContents(passages))
  }

  /**
   * No passages give the empty answer; otherwise the answer is the passages' texts
   * plus one separator between neighbours, and every passage's text is found in it.
   */
  lemma FormatPassagesContents(passages: seq<Document>)
    ensures |passages| == 0 ==> FormatPassages(passages) == ""
    ensures |passages| > 0 ==>
      |FormatPassages(passages)| == TotalLength(PageContents(passages)) + (|passages| - 1) * |PassageSeparator|
    ensures forall i :: 0 <= i < |passages| ==> Contains(FormatPassages(passages), passages[i].pageContent)
  {
    var texts := PageContents(passages);
    forall i | 0 <= i < |passages|
      ensures Contains(FormatPassages(passages), passages[i].pageContent)
    {
      JoinContainsParts(PassageSeparator, texts, i);
    }
    if |passages| > 0 {
      JoinLength(PassageSeparator, texts);
    }
  }

  /** Opening a collection creates it empty when absent. */
  function OpenCollection(store: map<string, seq<Document>>, name: string): (result: map<string, seq<Document>>)
    ensures name in result && (name in store ==> result == store)
    ensures name !in store ==> result == store[name := []]
  {
    if name in store then store else store[name := []]
  }

  /** What one call of the tool leaves behind: the store, the path taken and the answer. */
  datatype RagOutcome = RagOutcome(store: map<string, seq<Document>>, action: IndexAction, answer: string)

  /** The retrieval tool as a function of the store before the call. */
  function RagStep(store: map<string, seq<Document>>, path: string, query: string, env: RagEnv): (o: RagOutcome)
    ensures CollectionName(path, env.md5) in o.store
    ensures forall n :: n != CollectionName(path, env.md5) ==> (n in o.store <==> n in store)
    ensures forall n :: n != CollectionName(path, env.md5) && n in store ==> o.store[n] == store[n]
  {
    var name := CollectionName(path, env.md5);
    var current := OpenCollection(store, name);
    if |current[name]| > 0 then
      RagOutcome(current, Reused, FormatPassages(Retrieve(current[name], query, env.rank)))
    else if EndsWith(path, ".pdf") then
      var built := current[name := current[name] + env.split(env.loadPdf(path))];
      RagOutcome(built, BuiltFromPdf, FormatPassages(Retrieve(built[name], query, env.rank)))
    else if EndsWith(path, ".docx") then
      var built := current[name := current[name] + env.split(env.loadDocx(path))];
      RagOutcome(built, BuiltFromDocx, FormatPassages(Retrieve(built[name], query, env.rank)))
    else
      RagOutcome(current, Rejected, UnsupportedFormat)
  }

  /** Passages already stored: no loading, splitting or adding, and the store is unchanged. */
  lemma RagReusesIndex(store: map<string, seq<Document>>, path: string, query: string, env: RagEnv)
    requires var name := CollectionName(path, env.md5); name in store && |store[name]| > 0
    ensures var o := RagStep(store, path, query, env);
      && o.action == Reused
      && o.store == store
      && o.answer == FormatPassages(Retrieve(store[CollectionName(path, env.md5)], query, env.rank))
  {
  }

  /**
   * The unsupported-format error happens exactly when the collection is empty and the
   * path ends in neither extension; the collection is then left empty.
   */
  lemma RagRejectsOnlyEmpty(store: map<string, seq<Document>>, path: string, query: string, env: RagEnv)
    ensures var name := CollectionName(path, env.md5);
      var o := RagStep(store, path, query, env);
      && (o.action == Rejected <==>
          (name !in store || |store[name]| == 0) && !EndsWith(path, ".pdf") && !EndsWith(path, ".docx"))
      && (o.action == Rejected ==> o.answer == UnsupportedFormat && o.store[name] == [])
  {
  }

  /** With an empty collection the loader follows the extension, the PDF test coming first. */
  lemma RagLoaderByExtension(store: map<string, seq<Document>>, path: string, query: string, env: RagEnv)
    requires var name := CollectionName(path, env.md5); name !in store || |store[name]| == 0
    ensures var name := CollectionName(path, env.md5);
      var o := RagStep(store, path, query, env);
      && (EndsWith(path, ".pdf") ==> o.action == BuiltFromPdf && o.store[name] == env.split(env.loadPdf(path)))
      && (!EndsWith(path, ".pdf") && EndsWith(path, ".docx") ==>
            o.action == BuiltFromDocx && o.store[name] == env.split(env.loadDocx(path)))
  {
  }

  /**
   * Once a call has left passages in the collection, every later call with the same
   * path, whatever the query, reuses them and changes nothing: the build is done once.
   */
  lemma RagBuildsOnce(store: map<string, seq<Document>>, path: string, q1: string, q2: string, env: RagEnv)
    requires var o := RagStep(store, path, q1, env); |o.store[CollectionName(path, env.md5)]| > 0
    ensures var o := RagStep(store, path, q1, env);
      var o2 := RagStep(o.store, path, q2, env);
      o2.action == Reused && o2.store == o.store
  {
    RagReusesIndex(RagStep(store, path, q1, env).store, path, q2, env);
  }

  /** Every answer other than the error is at most five ranked passages, joined in rank order. */
  lemma RagAnswerIsTopPassages(store: map<string, seq<Document>>, path: string, query: string, env: RagEnv)
    ensures var o := RagStep(store, path, query, env);
      o.action != Rejected ==>
        exists passages ::
          && |passages| <= PassageCount
          && passages <= env.rank(o.store[CollectionName(path, env.md5)], query)
          && o.answer == FormatPassages(passages)
  {
    var o := RagStep(store, path, query, env);
    if o.action != Rejected {
      var passages := Retrieve(o.store[CollectionName(path, env.md5)], query, env.rank);
      assert o.answer == FormatPassages(passages);
    }
  }

  /** The persisted Chroma store: one passage list per collection name. */
  class VectorStore {
    var collections: map<string, seq<Document>>

    /** Opens the persisted store with the collections it already holds. */
    constructor (persisted: map<string, seq<Document>>)
      ensures collections == persisted
    {
      collections := persisted;
    }

    /** The retrieval tool: key the document, build its index only if empty, return the top passages. */
    method Rag(path: string, query: string, env: RagEnv) returns (answer: string, action: IndexAction)
      modifies this
      ensures RagOutcome(collections, action, answer) == RagStep(old(collections), path, query, env)
    {
      var name := CollectionName(path, env.md5);
      if name !in collections {
        collections := collections[name := []];
      }
      if |collections[name]| == 0 {
        var docs;
        if EndsWith(path, ".pdf") {
          docs := env.loadPdf(path);
          action := BuiltFromPdf;
        } else if EndsWith(path, ".docx") {
          docs := env.loadDocx(path);
          action := BuiltFromDocx;
        } else {
          answer, action := UnsupportedFormat, Rejected;
          return;
        }
        var chunks := env.split(docs);
        collections := collections[name := collections[name] + chunks];
      } else {
        action := Reused;
      }
      var passages := Retrieve(collections[name], query, env.rank);
      answer := FormatPassages(passages);
    }
  }

  /** A spreadsheet cell's value; a missing (NaN) cell is `None` in the row. */
  datatype Value = Num(n: int) | Text(s: string)

  datatype Table = Table(columns: set<string>, rows: seq<map<string, Option<Value>>>)

  /** The outcome of reading the workbook. */
  datatype Sheet = Missing | Unreadable(reason: string) | Loaded(table: Table)

  const StudentFile := "FINAL_CONSOLIDATED_STUDENT_DATA.xlsx"
  const RollColumn := "Roll_Number"

  predicate Matches(row: map<string, Option<Value>>, roll: int)
  {
    RollColumn in row && row[RollColumn] == Some(Num(roll))
  }

  /** The index of the first row whose roll number is `roll`. */
  function FirstMatch(rows: seq<map<string, Option<Value>>>, roll: int): (k: Option<nat>)
    ensures k.Some? ==> k.value < |rows| && Matches(rows[k.value], roll)
    ensures k.Some? ==> forall j :: 0 <= j < k.value ==> !Matches(rows[j], roll)
    ensures k.None? ==> forall j :: 0 <= j < |rows| ==> !Matches(rows[j], roll)
  {
    if |rows| == 0 then None
    else if Matches(rows[0], roll) then Some(0)
    else match FirstMatch(rows[1..], roll)
      case None => None
      case Some(k) => Some(k + 1)
  }

  /** The row as a dictionary, with every missing cell replaced by the empty string. */
  function FillBlanks(row: map<string, Option<Value>>): (details: map<string, Value>)
    ensures details.Keys == row.Keys
  {
    map key | key in row :: if row[key].Some? then row[key].value else Text("")
  }

  /** The student-record tool; an error stands for the exception it raises. */
  function GetStudentDetails(sheet: Sheet, roll: int): (r: Result<map<string, Value>, string>)
    ensures r.Ok? <==> sheet.Loaded? && RollColumn in sheet.table.columns
    ensures r.Ok? && r.value != map[] ==> RollColumn in r.value && r.value[RollColumn] == Num(roll)
    ensures r.Ok? ==> (r.value == map[] <==> forall j :: 0 <= j < |sheet.table.rows| ==> !Matches(sheet.table.rows[j], roll))
  {
    match sheet
    case Missing => Err("Excel file '" + StudentFile + "' not found in the current directory")
    case Unreadable(reason) => Err("Error reading student details: " + reason)
    case Loaded(table) =>
      if RollColumn !in table.columns then Err("Error reading student details: '" + RollColumn + "'")
      else match FirstMatch(table.rows, roll)
        case None => Ok(map[])
        case Some(k) => Ok(FillBlanks(table.rows[k]))
  }

  /** No row with the roll number: the empty dictionary, not an error. */
  lemma StudentNotFoundIsEmpty(table: Table, roll: int)
    requires RollColumn in table.columns
    requires forall j :: 0 <= j < |table.rows| ==> !Matches(table.rows[j], roll)
    ensures GetStudentDetails(Loaded(table), roll) == Ok(map[])
  {
  }

  /**
   * The first matching row wins: its every column is kept, a missing cell
   * becomes '' and a present cell keeps its value.
   */
  lemma StudentFirstMatch(table: Table, roll: int, k: nat)
    requires RollColumn in table.columns
    requires k < |table.rows| && Matches(table.rows[k], roll)
    requires forall j :: 0 <= j < k ==> !Matches(table.rows[j], roll)
    ensures GetStudentDetails(Loaded(table), roll).Ok?
    ensures var details := GetStudentDetails(Loaded(table), roll).value;
      && details.Keys == table.rows[k].Keys
      && details[RollColumn] == Num(roll)
      && forall key :: key in table.rows[k] ==>
           details[key] == if table.rows[k][key].None? then Text("") else table.rows[k][key].value
  {
    assert FirstMatch(table.rows, roll) == Some(k);
  }

  /** A workbook that cannot be read, or has no roll-number column, is an error, never `{}`. */
  lemma StudentErrors(sheet: Sheet, roll: int)
    requires sheet.Missing? || sheet.Unreadable? || (sheet.Loaded? && RollColumn !in sheet.table.columns)
    ensures GetStudentDetails(sheet, roll).Err?
  {
  }
}

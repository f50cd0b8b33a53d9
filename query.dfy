/**
 * The read-only API routes, as functions of the stored documents. `getComponent` and
 * `getUtil` are `findOne({ id })`: the first stored document with that id. A missing
 * document, language or file is a 404 reply carrying the route's message; database
 * errors (the 500 replies) are not modelled.
 */
module Query {
  import opened Wrappers
  import opened JsObject
  import opened Catalog
  import opened Ingestion

  /** A 200 reply with its payload, or a 404 reply with its message. */
  datatype Reply<T> = Found(value: T) | Missing(message: string)

  /** `findOne({ id })`. */
  function FindOne(docs: seq<Document>, id: string): (r: Option<Document>)
    ensures r.Some? ==> r.value.id == id && r.value in docs
    ensures r.None? <==> forall i :: 0 <= i < |docs| ==> docs[i].id != id
  {
    if |docs| == 0 then None
    else if docs[0].id == id then Some(docs[0])
    else
      var r := FindOne(docs[1..], id);
      assert forall i :: 1 <= i < |docs| ==> docs[i] == docs[1..][i - 1];
      r
  }

  /** The document found is the first one with the id. */
  lemma {:induction false} FindOneIsFirst(docs: seq<Document>, id: string, i: nat)
    requires i < |docs| && docs[i].id == id
    requires forall j :: 0 <= j < i ==> docs[j].id != id
    ensures FindOne(docs, id) == Some(docs[i])
  {
    if i > 0 {
      FindOneIsFirst(docs[1..], id, i - 1);
    }
  }

  /** `files.find(f => f.filename === filename)`. */
  function FindFile(files: seq<FetchedFile>, filename: string): (r: Option<FetchedFile>)
    ensures r.Some? ==> r.value.filename == filename && r.value in files
    ensures r.None? <==> forall k :: 0 <= k < |files| ==> files[k].filename != filename
  {
    if |files| == 0 then None
    else if files[0].filename == filename then Some(files[0])
    else
      var r := FindFile(files[1..], filename);
      assert forall k :: 1 <= k < |files| ==> files[k] == files[1..][k - 1];
      r
  }

  lemma {:induction false} FindFileIsFirst(files: seq<FetchedFile>, filename: string, k: nat)
    requires k < |files| && files[k].filename == filename
    requires forall j :: 0 <= j < k ==> files[j].filename != filename
    ensures FindFile(files, filename) == Some(files[k])
  {
    if k > 0 {
      FindFileIsFirst(files[1..], filename, k - 1);
    }
  }

  /** Ids are unique when the store was written from a catalog with unique ids. */
  predicate UniqueIds(docs: seq<Document>) {
    forall i, j :: 0 <= i < j < |docs| ==> docs[i].id != docs[j].id
  }

  function NotFoundMessage(kind: Kind): string {
    if kind == ComponentKind then "Component not found" else "Utility not found"
  }

  // ---- The lookup chain: id, then language key, then filename ----

  /** The checks of the raw routes and of the JSON file views, in their order. A language
      is present when its key is (an empty list still counts). */
  function LookupFile(docs: seq<Document>, kind: Kind, id: string, language: string, filename: string): (r: Reply<FetchedFile>)
    ensures r.Found? ==> r.value.filename == filename
  {
    match FindOne(docs, id)
    case None => Missing(NotFoundMessage(kind))
    case Some(doc) =>
      match Get(doc.files, language)
      case None => Missing("Language not found")
      case Some(files) =>
        match FindFile(files, filename)
        case None => Missing("File not found")
        case Some(f) => Found(f)
  }

  /** An id no document has is reported as a missing component (or utility). */
  lemma LookupUnknownId(docs: seq<Document>, kind: Kind, id: string, language: string, filename: string)
    requires forall i :: 0 <= i < |docs| ==> docs[i].id != id
    ensures LookupFile(docs, kind, id, language, filename) == Missing(NotFoundMessage(kind))
  {
  }

  /**
   * For a stored document (ids being unique): the lookup fails with "Language not found"
   * exactly when the document lacks the language key, with "File not found" exactly when
   * its list has no file of that name, and otherwise returns the first file of the list
   * with that name.
   */
  lemma LookupStored(docs: seq<Document>, kind: Kind, i: nat, language: string, filename: string)
    requires UniqueIds(docs) && i < |docs|
    ensures var r := LookupFile(docs, kind, docs[i].id, language, filename);
      && (r == Missing("Language not found") <==> Get(docs[i].files, language).None?)
      && (r == Missing("File not found") <==>
            Get(docs[i].files, language).Some?
            && forall k :: 0 <= k < |Get(docs[i].files, language).value| ==>
                 Get(docs[i].files, language).value[k].filename != filename)
      && (r.Found? ==> r.value in Get(docs[i].files, language).value)
      && (r.Missing? ==> r.message == "Language not found" || r.message == "File not found")
  {
    FindOneIsFirst(docs, docs[i].id, i);
  }

  /** A found file is the first of its list with the requested name. */
  lemma LookupStoredFirst(docs: seq<Document>, kind: Kind, i: nat, language: string, filename: string, k: nat)
    requires UniqueIds(docs) && i < |docs|
    requires Get(docs[i].files, language).Some?
    requires var list := Get(docs[i].files, language).value;
      k < |list| && list[k].filename == filename && forall j :: 0 <= j < k ==> list[j].filename != filename
    ensures LookupFile(docs, kind, docs[i].id, language, filename) == Found(Get(docs[i].files, language).value[k])
  {
    FindOneIsFirst(docs, docs[i].id, i);
    FindFileIsFirst(Get(docs[i].files, language).value, filename, k);
  }

  // ---- Content type ----

  /** Where the text after the last `.` among the first `n` characters starts: 0 when
      there is no dot. */
  function ExtensionStart(filename: string, n: nat): (k: nat)
    requires n <= |filename|
    ensures k <= n
    ensures forall j :: k <= j < n ==> filename[j] != '.'
    ensures k > 0 ==> filename[k - 1] == '.'
  {
    if n == 0 then 0
    else if filename[n - 1] == '.' then n
    else ExtensionStart(filename, n - 1)
  }

  /** `filename.split('.').pop()`: the text after the last `.`, or the whole name. */
  function Extension(filename: string): (r: string)
    ensures '.' !in r
    ensures |r| <= |filename| && r == filename[|filename| - |r|..]
    ensures |r| < |filename| ==> filename[|filename| - |r| - 1] == '.'
  {
    filename[ExtensionStart(filename, |filename|)..]
  }

  function LowerChar(c: char): char {
    if 'A' <= c <= 'Z' then (c as int + 32) as char else c
  }

  /** `toLowerCase()` on the letters A to Z. */
  function Lower(s: string): (r: string)
    ensures |r| == |s| && forall i :: 0 <= i < |s| ==> r[i] == LowerChar(s[i])
  {
    seq(|s|, i requires 0 <= i < |s| => LowerChar(s[i]))
  }

  /** The `contentTypes` table, `|| 'text/plain'` for any other extension. */
  function ContentTypeOf(ext: string): string {
    match ext
    case "js" => "application/javascript"
    case "jsx" => "application/javascript"
    case "ts" => "application/typescript"
    case "tsx" => "application/typescript"
    case "css" => "text/css"
    case "json" => "application/json"
    case "md" => "text/markdown"
    case _ => "text/plain"
  }

  function ContentType(filename: string): string {
    ContentTypeOf(Lower(Extension(filename)))
  }

  lemma ExtensionOfSuffix(base: string, ext: string)
    requires '.' !in ext
    ensures Extension(base + "." + ext) == ext
  {
    var name := base + "." + ext;
    assert forall j :: |base| + 1 <= j < |name| ==> name[j] == ext[j - |base| - 1];
    assert name[|base|] == '.';
    var k := ExtensionStart(name, |name|);
    if k < |base| + 1 {
      assert false;
    } else if k > |base| + 1 {
      assert false;
    }
    assert name[|base| + 1..] == ext;
  }

  /** The type is chosen by the text after the last dot, ignoring the case of A to Z:
      `Button.TSX` is TypeScript, `archive.tar.js` is JavaScript. */
  lemma ContentTypeByLastDot(base: string, ext: string)
    requires '.' !in ext
    ensures ContentType(base + "." + ext) == ContentTypeOf(Lower(ext))
  {
    ExtensionOfSuffix(base, ext);
  }

  /** Case is ignored: `Button.TSX` is TypeScript. */
  lemma ContentTypeUpperCase()
    ensures ContentType("Button.TSX") == "application/typescript"
  {
    assert "Button" + "." + "TSX" == "Button.TSX";
    ContentTypeByLastDot("Button", "TSX");
    assert Lower("TSX") == "tsx";
  }

  /** Only the last extension counts: `archive.tar.js` is JavaScript, `notes.txt` plain text. */
  lemma ContentTypeLastExtension()
    ensures ContentType("archive.tar.js") == "application/javascript"
    ensures ContentType("notes.txt") == "text/plain"
  {
    assert "archive.tar" + "." + "js" == "archive.tar.js";
    ContentTypeByLastDot("archive.tar", "js");
    assert Lower("js") == "js";
    assert "notes" + "." + "txt" == "notes.txt";
    ContentTypeByLastDot("notes", "txt");
    assert Lower("txt") == "txt";
  }

  /** A name without a dot is its own extension: `js` is JavaScript, `README` plain text. */
  lemma ContentTypeWithoutDot(filename: string)
    requires '.' !in filename
    ensures ContentType(filename) == ContentTypeOf(Lower(filename))
  {
    var k := ExtensionStart(filename, |filename|);
    if k > 0 {
      assert false;
    }
  }

  // ---- Raw routes and JSON file views ----

  datatype RawReply = RawReply(contentType: string, body: string)

  /** `GET /api/raw/:id/:language/:filename` (or `/api/raw/utils/...`): the stored content,
      typed by the requested name's extension. */
  function RawFile(docs: seq<Document>, kind: Kind, id: string, language: string, filename: string): Reply<RawReply> {
    match LookupFile(docs, kind, id, language, filename)
    case Missing(m) => Missing(m)
    case Found(f) => Found(RawReply(ContentType(filename), f.content))
  }

  datatype FileView = FileView(
    filename: string, language: string, owner: string,
    url: string, content: string, size: nat, rawUrl: string)

  /** `<protocol>://<host>/api/raw/<id>/<language>/<filename>`, with `utils/` after `raw/`
      for utilities. */
  function RawUrl(protocol: string, host: string, kind: Kind, id: string, language: string, filename: string): string {
    protocol + "://" + host + "/api/raw/" + (if kind == UtilKind then "utils/" else "") + id + "/" + language + "/" + filename
  }

  /** `GET /api/components/:id/files/:language/:filename` and `GET /api/utils/...`: the
      stored record's fields, the request's language and id (`component` or `util`), and
      the raw URL of the same file. */
  function FileViewOf(docs: seq<Document>, kind: Kind, id: string, language: string, filename: string,
                      protocol: string, host: string): Reply<FileView>
  {
    match LookupFile(docs, kind, id, language, filename)
    case Missing(m) => Missing(m)
    case Found(f) =>
      Found(FileView(f.filename, language, id, f.url, f.content, f.size, RawUrl(protocol, host, kind, id, language, filename)))
  }

  /** The `utils/` segment: a utility's raw URL is the component raw URL of the id
      `utils/<id>`, six characters longer than a component's with the same id, so the two
      kinds never share a URL. */
  lemma RawUrlSegment(protocol: string, host: string, id: string, language: string, filename: string)
    ensures RawUrl(protocol, host, ComponentKind, id, language, filename)
         == protocol + "://" + host + "/api/raw/" + id + "/" + language + "/" + filename
    ensures RawUrl(protocol, host, UtilKind, id, language, filename)
         == RawUrl(protocol, host, ComponentKind, "utils/" + id, language, filename)
    ensures |RawUrl(protocol, host, UtilKind, id, language, filename)|
         == |RawUrl(protocol, host, ComponentKind, id, language, filename)| + 6
  {
    var base := protocol + "://" + host + "/api/raw/";
    assert base + "" == base;
    assert base + "utils/" + id == base + ("utils/" + id);
  }

  /** The JSON view and the raw route agree: both fail with the same message, or the view
      carries the content the raw route serves, the stored record's URL and size, the
      request's language and id, and the raw URL of the file. */
  lemma FileViewMatchesRaw(docs: seq<Document>, kind: Kind, id: string, language: string, filename: string,
                           protocol: string, host: string)
    ensures var v := FileViewOf(docs, kind, id, language, filename, protocol, host);
      var raw := RawFile(docs, kind, id, language, filename);
      && v.Found? == raw.Found?
      && (v.Missing? ==> v.message == raw.message)
      && (v.Found? ==> v.value.content == raw.value.body && v.value.filename == filename)
    ensures var v := FileViewOf(docs, kind, id, language, filename, protocol, host);
      var f := LookupFile(docs, kind, id, language, filename);
      v.Found? ==> && f.Found? && v.value.url == f.value.url && v.value.size == f.value.size
                   && v.value.language == language && v.value.owner == id
                   && v.value.rawUrl == RawUrl(protocol, host, kind, id, language, filename)
  {
    match LookupFile(docs, kind, id, language, filename)
    case Missing(m) =>
    case Found(f) =>
  }

  datatype LanguageFiles = LanguageFiles(component: string, language: string, files: seq<FetchedFile>)

  /** `GET /api/components/:id/files/:language`: the whole stored list. */
  function FilesByLanguage(docs: seq<Document>, id: string, language: string): Reply<LanguageFiles> {
    match FindOne(docs, id)
    case None => Missing("Component not found")
    case Some(doc) =>
      match Get(doc.files, language)
      case None => Missing("Language '" + language + "' not available for this component")
      case Some(files) => Found(LanguageFiles(id, language, files))
  }

  /** An id no component has is reported as a missing component. */
  lemma FilesByLanguageUnknownId(docs: seq<Document>, id: string, language: string)
    requires forall i :: 0 <= i < |docs| ==> docs[i].id != id
    ensures FilesByLanguage(docs, id, language) == Missing("Component not found")
  {
  }

  /** With unique ids, the list returned for a stored component is that component's list,
      unchanged, and the route fails only for a language the component lacks. */
  lemma FilesByLanguageOfStored(docs: seq<Document>, i: nat, language: string)
    requires UniqueIds(docs) && i < |docs|
    ensures FilesByLanguage(docs, docs[i].id, language).Found? <==> Get(docs[i].files, language).Some?
    ensures FilesByLanguage(docs, docs[i].id, language).Found? ==>
      FilesByLanguage(docs, docs[i].id, language).value
        == LanguageFiles(docs[i].id, language, Get(docs[i].files, language).value)
    ensures FilesByLanguage(docs, docs[i].id, language).Missing? ==>
      FilesByLanguage(docs, docs[i].id, language).message
        == "Language '" + language + "' not available for this component"
  {
    FindOneIsFirst(docs, docs[i].id, i);
  }

  // ---- The component list ----

  datatype ListEntry = ListEntry(
    id: string, name: string, path: string, dependencies: seq<string>,
    utils: Option<seq<string>>, files: Object<seq<string>>)

  function Filenames(files: seq<FetchedFile>): (r: seq<string>)
    ensures |r| == |files| && forall k :: 0 <= k < |files| ==> r[k] == files[k].filename
  {
    seq(|files|, k requires 0 <= k < |files| => files[k].filename)
  }

  /** `Object.keys(files).reduce((acc, lang) => { acc[lang] = files[lang].map(f => f.filename); ... }, {})`. */
  function ListFiles(files: Object<seq<FetchedFile>>): Object<seq<string>> {
    RebuildByKeys(files, Filenames, |files|)
  }

  /** A list entry: components keep their `utils`, utilities get none. */
  function ListEntryOf(kind: Kind, d: Document): ListEntry {
    ListEntry(d.id, d.name, d.path, d.dependencies, if kind == ComponentKind then d.utils else None, ListFiles(d.files))
  }

  /** `GET /api/components`: every component, then every utility, as list entries. */
  function ListAll(components: seq<Document>, utils: seq<Document>): (seq<ListEntry>, seq<ListEntry>) {
    (seq(|components|, i requires 0 <= i < |components| => ListEntryOf(ComponentKind, components[i])),
     seq(|utils|, i requires 0 <= i < |utils| => ListEntryOf(UtilKind, utils[i])))
  }

  /** The projection keeps each document's language keys in order and maps each list to
      its filenames, keeping order and length; utilities carry no `utils`. */
  lemma ListProjection(kind: Kind, d: Document)
    requires DistinctKeys(d.files)
    ensures var e := ListEntryOf(kind, d);
      && Keys(e.files) == Keys(d.files)
      && (forall j :: 0 <= j < |d.files| ==>
            |e.files[j].1| == |d.files[j].1|
            && forall k :: 0 <= k < |d.files[j].1| ==> e.files[j].1[k] == d.files[j].1[k].filename)
      && (kind == UtilKind ==> e.utils.None?)
  {
    RebuildByKeysIsMapValues(d.files, Filenames, |d.files|);
    assert d.files[..|d.files|] == d.files;
  }

  // ---- Bulk ----

  /** The fields of a component other than its files. */
  datatype Summary = Summary(id: string, name: string, path: string, dependencies: seq<string>, utils: Option<seq<string>>)

  datatype BulkItem = BulkItem(info: Summary, files: seq<FetchedFile>)

  function SummaryOf(d: Document): Summary {
    Summary(d.id, d.name, d.path, d.dependencies, d.utils)
  }

  /** The assignment `result[component.id] = ...` the loop makes for one component, or
      `None` when it skips it. */
  function BulkOp(d: Document, language: string): Option<(string, BulkItem)> {
    match Get(d.files, language)
    case None => None
    case Some(files) => Some((d.id, BulkItem(SummaryOf(d), files)))
  }

  function BulkOps(docs: seq<Document>, language: string): (ops: seq<Option<(string, BulkItem)>>)
    ensures |ops| == |docs| && forall i :: 0 <= i < |docs| ==> ops[i] == BulkOp(docs[i], language)
  {
    seq(|docs|, i requires 0 <= i < |docs| => BulkOp(docs[i], language))
  }

  /** `GET /api/components/bulk/:language`: components without the language are skipped. */
  method Bulk(docs: seq<Document>, language: string) returns (result: Object<BulkItem>)
    ensures result == PutEach(BulkOps(docs, language))
  {
    ghost var ops := BulkOps(docs, language);
    result := [];
    for i := 0 to |docs|
      invariant result == PutEach(ops[..i])
    {
      assert ops[..i + 1][..i] == ops[..i];
      var component := docs[i];
      if Get(component.files, language).None? {
        continue;
      }
      result := Put(result, component.id, BulkItem(SummaryOf(component), Get(component.files, language).value));
    }
    assert ops[..|docs|] == ops;
  }

  /** With unique ids: a component with the language appears under its id carrying that
      language's list unchanged; one without it does not appear. */
  lemma BulkOfStored(docs: seq<Document>, language: string, i: nat)
    requires UniqueIds(docs) && i < |docs|
    ensures Get(PutEach(BulkOps(docs, language)), docs[i].id) ==
      match Get(docs[i].files, language)
      case None => None
      case Some(files) => Some(BulkItem(SummaryOf(docs[i]), files))
  {
    var ops := BulkOps(docs, language);
    assert forall j :: 0 <= j < |ops| && j != i && ops[j].Some? ==> ops[j].value.0 == docs[j].id != docs[i].id;
    if ops[i].Some? {
      PutEachLast(ops, i);
    } else {
      PutEachAbsent(ops, docs[i].id);
    }
  }

  /** Whatever the ids, a key holds the item of the last component with that id and the
      language. */
  lemma BulkLastWins(docs: seq<Document>, language: string, i: nat)
    requires i < |docs| && Get(docs[i].files, language).Some?
    requires forall j :: i < j < |docs| && Get(docs[j].files, language).Some? ==> docs[j].id != docs[i].id
    ensures Get(PutEach(BulkOps(docs, language)), docs[i].id) == Some(BulkItem(SummaryOf(docs[i]), Get(docs[i].files, language).value))
  {
    PutEachLast(BulkOps(docs, language), i);
  }

  /** An id that no component with the language has is absent from the result. */
  lemma BulkAbsent(docs: seq<Document>, language: string, id: string)
    requires forall j :: 0 <= j < |docs| && Get(docs[j].files, language).Some? ==> docs[j].id != id
    ensures Get(PutEach(BulkOps(docs, language)), id).None?
  {
    PutEachAbsent(BulkOps(docs, language), id);
  }

  // ---- Search ----

  /** The MongoDB filter: an optional case-insensitive pattern on name or id, and an
      optional exact dependency. */
  datatype Filter = Filter(pattern: Option<string>, dependency: Option<string>)

  /** A query parameter is used when it is present and non-empty. */
  predicate Truthy(p: Option<string>) {
    p.Some? && p.value != ""
  }

  /** The filter object as the search route builds it, field by field. */
  method BuildFilter(q: Option<string>, dependency: Option<string>) returns (filter: Filter)
    ensures filter.pattern == (if Truthy(q) then q else None)
    ensures filter.dependency == (if Truthy(dependency) then dependency else None)
  {
    filter := Filter(None, None);
    if Truthy(q) {
      filter := filter.(pattern := q);
    }
    if Truthy(dependency) {
      filter := filter.(dependency := dependency);
    }
  }

  /** `regex(pattern, subject)` stands for MongoDB's case-insensitive `$regex` match. */
  predicate Matches(filter: Filter, d: Document, regex: (string, string) -> bool) {
    && (filter.pattern.None? || regex(filter.pattern.value, d.name) || regex(filter.pattern.value, d.id))
    && (filter.dependency.None? || filter.dependency.value in d.dependencies)
  }

  /** `find(filter)` projected to summaries (no `files`), in stored order. */
  function Search(docs: seq<Document>, filter: Filter, regex: (string, string) -> bool): seq<Summary> {
    if |docs| == 0 then []
    else Search(docs[..|docs| - 1], filter, regex)
         + (if Matches(filter, docs[|docs| - 1], regex) then [SummaryOf(docs[|docs| - 1])] else [])
  }

  /** Search returns the summary of every matching component and nothing else. */
  lemma {:induction false} SearchExact(docs: seq<Document>, filter: Filter, regex: (string, string) -> bool)
    ensures forall i :: 0 <= i < |docs| && Matches(filter, docs[i], regex) ==> SummaryOf(docs[i]) in Search(docs, filter, regex)
    ensures forall s :: s in Search(docs, filter, regex) ==>
      exists i :: 0 <= i < |docs| && Matches(filter, docs[i], regex) && s == SummaryOf(docs[i])
  {
    if |docs| > 0 {
      var init := docs[..|docs| - 1];
      SearchExact(init, filter, regex);
      assert forall i :: 0 <= i < |init| ==> init[i] == docs[i];
    }
  }

  /** With neither `q` nor `dependency`, search returns every component. */
  lemma {:induction false} SearchWithoutTerms(docs: seq<Document>, regex: (string, string) -> bool)
    ensures Search(docs, Filter(None, None), regex) == seq(|docs|, i requires 0 <= i < |docs| => SummaryOf(docs[i]))
  {
    if |docs| > 0 {
      SearchWithoutTerms(docs[..|docs| - 1], regex);
    }
  }

  /** With only `dependency`, search keeps exactly the components listing that exact
      dependency. */
  lemma SearchByDependency(docs: seq<Document>, dependency: string, regex: (string, string) -> bool)
    ensures forall s :: s in Search(docs, Filter(None, Some(dependency)), regex) ==> dependency in s.dependencies
    ensures forall i :: 0 <= i < |docs| && dependency in docs[i].dependencies ==>
      SummaryOf(docs[i]) in Search(docs, Filter(None, Some(dependency)), regex)
  {
    SearchExact(docs, Filter(None, Some(dependency)), regex);
  }

  // ---- Languages ----

  datatype LanguagesView = LanguagesView(component: string, languages: seq<string>, filesPerLanguage: Object<nat>)

  function Length(files: seq<FetchedFile>): nat {
    |files|
  }

  /** `GET /api/components/:id/languages`. */
  function LanguagesOf(docs: seq<Document>, id: string): Reply<LanguagesView> {
    match FindOne(docs, id)
    case None => Missing("Component not found")
    case Some(d) => Found(LanguagesView(id, Keys(d.files), RebuildByKeys(d.files, Length, |d.files|)))
  }

  /** The languages are the document's file-map keys, and each count is the length of
      that language's list. */
  lemma LanguagesCounts(docs: seq<Document>, id: string)
    requires FindOne(docs, id).Some? && DistinctKeys(FindOne(docs, id).value.files)
    ensures var d := FindOne(docs, id).value;
      var v := LanguagesOf(docs, id).value;
      && v.languages == Keys(d.files)
      && Keys(v.filesPerLanguage) == v.languages
      && forall j :: 0 <= j < |d.files| ==> v.filesPerLanguage[j].1 == |d.files[j].1|
  {
    var d := FindOne(docs, id).value;
    RebuildByKeysIsMapValues(d.files, Length, |d.files|);
    assert d.files[..|d.files|] == d.files;
  }
}

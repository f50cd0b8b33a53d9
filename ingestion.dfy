/**
 * `fetchAllComponentFiles`: walk the catalog (components, then utilities; entries,
 * languages and filenames in declaration order), build each file's URL, fetch it with
 * the default three attempts, push one record per file, and pause 100 ms after every
 * file. The network is an oracle `net`: `net(url)` lists the responses successive
 * requests for `url` get. Pauses are not slept but returned, in the order they happen:
 * the retry backoff of each fetch, then the pacing pause.
 */
module Ingestion {
  import opened Wrappers
  import opened JsObject
  import opened Catalog
  import Fetcher

  /** One record of `files[language]`. */
  datatype FetchedFile = FetchedFile(filename: string, url: string, content: string, success: bool, size: nat)

  /** A component or utility document; `utils` is absent (`None`) on utilities. */
  datatype Document = Document(
    id: string,
    name: string,
    path: string,
    dependencies: seq<string>,
    utils: Option<seq<string>>,
    files: Object<seq<FetchedFile>>)

  datatype Metadata = Metadata(lastUpdated: string, totalComponents: nat, totalUtils: nat, githubRepo: string)

  /** The assembled tree: `components` and `utils` are objects keyed by entry id. */
  datatype AllData = AllData(components: Object<Document>, utils: Object<Document>, metadata: Metadata)

  type Network = string -> seq<Fetcher.Response>

  const BaseGithubUrl := "https://raw.githubusercontent.com/NafisMahmudAyon/aspect-ui-components-folders"
  const GithubRepo := "NafisMahmudAyon/aspect-ui-components-folders"
  const PacingDelay: nat := 100

  /** `a + "/" + b`. */
  function Slash(a: string, b: string): string {
    a + "/" + b
  }

  /** The folder under a language's directory that holds each kind of entry. */
  function KindFolder(kind: Kind): string {
    if kind == ComponentKind then "components/aspect-ui" else "components"
  }

  /** Components live under `<lang>/components/aspect-ui/<path>/`, utilities under
      `<lang>/components/<path>/`. */
  function FileUrl(kind: Kind, language: string, path: string, filename: string): string {
    Slash(BaseGithubUrl, Slash(language, Slash(KindFolder(kind), Slash(path, filename))))
  }

  function Placeholder(filename: string): string {
    "// Error: Could not fetch content for " + filename
  }

  /** The record for a file whose fetch resolved to `content`: the content if it is a
      non-empty string, else the placeholder; success unless it is `null`; the length of
      a non-empty string, else 0. */
  function MakeRecord(filename: string, url: string, content: Fetcher.Content): FetchedFile {
    var truthy := content.Body? && content.text != "";
    FetchedFile(
      filename, url,
      if truthy then content.text else Placeholder(filename),
      !content.Null?,
      if truthy then |content.text| else 0)
  }

  function FileRun(kind: Kind, path: string, language: string, filename: string, net: Network): Fetcher.FetchRun {
    Fetcher.Fetched(net(FileUrl(kind, language, path, filename)), Fetcher.DefaultRetries)
  }

  function FileRecord(kind: Kind, path: string, language: string, filename: string, net: Network): FetchedFile {
    MakeRecord(filename, FileUrl(kind, language, path, filename), FileRun(kind, path, language, filename, net).content)
  }

  /** The pauses one file costs: its fetch's backoff, then the pacing pause. */
  function FileSleeps(kind: Kind, path: string, language: string, filename: string, net: Network): seq<nat> {
    FileRun(kind, path, language, filename, net).delays + [PacingDelay]
  }

  // ---- The walk, level by level ----

  /** The records pushed for one language, one per filename in order. */
  function LanguageRecords(kind: Kind, path: string, language: string, names: seq<string>, net: Network): seq<FetchedFile> {
    if |names| == 0 then []
    else LanguageRecords(kind, path, language, names[..|names| - 1], net)
         + [FileRecord(kind, path, language, names[|names| - 1], net)]
  }

  function LanguageSleeps(kind: Kind, path: string, language: string, names: seq<string>, net: Network): seq<nat> {
    if |names| == 0 then []
    else LanguageSleeps(kind, path, language, names[..|names| - 1], net)
         + FileSleeps(kind, path, language, names[|names| - 1], net)
  }

  /** The assignments `files[language] = records` an entry's walk makes, in order. */
  function LanguagePairs(kind: Kind, e: Entry, net: Network): seq<(string, seq<FetchedFile>)> {
    seq(|e.files|, j requires 0 <= j < |e.files| =>
      (e.files[j].0, LanguageRecords(kind, e.path, e.files[j].0, e.files[j].1, net)))
  }

  function EntryFiles(kind: Kind, e: Entry, net: Network): Object<seq<FetchedFile>> {
    PutAll(LanguagePairs(kind, e, net))
  }

  /** The pauses of an entry's first `n` languages. */
  function EntrySleeps(kind: Kind, e: Entry, net: Network, n: nat): seq<nat>
    requires n <= |e.files|
  {
    if n == 0 then []
    else EntrySleeps(kind, e, net, n - 1) + LanguageSleeps(kind, e.path, e.files[n - 1].0, e.files[n - 1].1, net)
  }

  function EntryDocument(kind: Kind, e: Entry, net: Network): Document {
    Document(e.id, e.name, e.path, e.dependencies,
             if kind == ComponentKind then e.utils else None,
             EntryFiles(kind, e, net))
  }

  /** The assignments `allData.components[id] = document` (or `allData.utils[id]`). */
  function DocumentPairs(kind: Kind, entries: seq<Entry>, net: Network): seq<(string, Document)> {
    seq(|entries|, i requires 0 <= i < |entries| => (entries[i].id, EntryDocument(kind, entries[i], net)))
  }

  function CatalogDocuments(kind: Kind, entries: seq<Entry>, net: Network): Object<Document> {
    PutAll(DocumentPairs(kind, entries, net))
  }

  /** The pauses of the first `n` entries. */
  function CatalogSleeps(kind: Kind, entries: seq<Entry>, net: Network, n: nat): seq<nat>
    requires n <= |entries|
  {
    if n == 0 then []
    else CatalogSleeps(kind, entries, net, n - 1) + EntrySleeps(kind, entries[n - 1], net, |entries[n - 1].files|)
  }

  // ---- The walk as the source runs it ----

  /** One file: fetch it, build its record, then pause. */
  method FetchOne(kind: Kind, path: string, language: string, filename: string, net: Network)
    returns (record: FetchedFile, sleeps: seq<nat>)
    ensures record == FileRecord(kind, path, language, filename, net)
    ensures sleeps == FileSleeps(kind, path, language, filename, net)
  {
    var url := FileUrl(kind, language, path, filename);
    var run := Fetcher.FetchFileContent(net(url), Fetcher.DefaultRetries);
    record := MakeRecord(filename, url, run.content);
    sleeps := run.delays + [PacingDelay];
  }

  /** The innermost loop: one record per filename. */
  method FetchLanguageFiles(kind: Kind, path: string, language: string, names: seq<string>, net: Network)
    returns (files: seq<FetchedFile>, sleeps: seq<nat>)
    ensures files == LanguageRecords(kind, path, language, names, net)
    ensures sleeps == LanguageSleeps(kind, path, language, names, net)
  {
    files, sleeps := [], [];
    for i := 0 to |names|
      invariant files == LanguageRecords(kind, path, language, names[..i], net)
      invariant sleeps == LanguageSleeps(kind, path, language, names[..i], net)
    {
      var record, s := FetchOne(kind, path, language, names[i], net);
      files := files + [record];
      sleeps := sleeps + s;
      assert names[..i + 1][..i] == names[..i];
    }
    assert names[..|names|] == names;
  }

  /** The loop over one entry's languages. The source stores the document with an empty
      `files` object first and fills it in place; the value reached is the same. */
  method FetchEntry(kind: Kind, e: Entry, net: Network) returns (doc: Document, sleeps: seq<nat>)
    ensures doc == EntryDocument(kind, e, net)
    ensures sleeps == EntrySleeps(kind, e, net, |e.files|)
  {
    ghost var pairs := LanguagePairs(kind, e, net);
    var files: Object<seq<FetchedFile>> := [];
    sleeps := [];
    for j := 0 to |e.files|
      invariant files == PutAll(pairs[..j])
      invariant sleeps == EntrySleeps(kind, e, net, j)
    {
      var language := e.files[j].0;
      var list, s := FetchLanguageFiles(kind, e.path, language, e.files[j].1, net);
      assert pairs[..j + 1][..j] == pairs[..j];
      files := Put(files, language, list);
      sleeps := sleeps + s;
    }
    assert pairs[..|e.files|] == pairs;
    doc := Document(e.id, e.name, e.path, e.dependencies,
                    if kind == ComponentKind then e.utils else None, files);
  }

  /** The loop over the entries of one catalog object. */
  method FetchCatalog(kind: Kind, entries: seq<Entry>, net: Network) returns (docs: Object<Document>, sleeps: seq<nat>)
    ensures docs == CatalogDocuments(kind, entries, net)
    ensures sleeps == CatalogSleeps(kind, entries, net, |entries|)
  {
    docs, sleeps := [], [];
    for i := 0 to |entries|
      invariant docs == PutAll(DocumentPairs(kind, entries, net)[..i])
      invariant sleeps == CatalogSleeps(kind, entries, net, i)
    {
      var doc, s := FetchEntry(kind, entries[i], net);
      assert DocumentPairs(kind, entries, net)[..i + 1][..i] == DocumentPairs(kind, entries, net)[..i];
      docs := Put(docs, entries[i].id, doc);
      sleeps := sleeps + s;
    }
    assert DocumentPairs(kind, entries, net)[..|entries|] == DocumentPairs(kind, entries, net);
  }

  /** Components first, then utilities; `now` is the run's start time. The totals are the
      numbers of keys of the two catalog objects. */
  method FetchAllComponentFiles(components: seq<Entry>, utils: seq<Entry>, net: Network, now: string)
    returns (data: AllData, sleeps: seq<nat>)
    ensures data.metadata == Metadata(now, |components|, |utils|, GithubRepo)
    ensures data.components == CatalogDocuments(ComponentKind, components, net)
    ensures data.utils == CatalogDocuments(UtilKind, utils, net)
    ensures sleeps == CatalogSleeps(ComponentKind, components, net, |components|)
                      + CatalogSleeps(UtilKind, utils, net, |utils|)
  {
    var metadata := Metadata(now, |components|, |utils|, GithubRepo);
    var componentDocs, s1 := FetchCatalog(ComponentKind, components, net);
    var utilDocs, s2 := FetchCatalog(UtilKind, utils, net);
    data := AllData(componentDocs, utilDocs, metadata);
    sleeps := s1 + s2;
  }

  // ---- What the walk produces ----

  predicate DistinctIds(entries: seq<Entry>) {
    forall i, j :: 0 <= i < j < |entries| ==> entries[i].id != entries[j].id
  }

  /** What a catalog object guarantees: property names are unique at both levels. */
  predicate WellFormedCatalog(entries: seq<Entry>) {
    DistinctIds(entries) && forall i :: 0 <= i < |entries| ==> DistinctKeys(entries[i].files)
  }

  /** The catalog as declared: distinct ids, and distinct languages in each entry. */
  lemma CatalogWellFormed()
    ensures WellFormedCatalog(ComponentList) && WellFormedCatalog(Utils)
  {
    ComponentIdsDistinct();
    assert forall i :: 0 <= i < |ComponentList| ==> ComponentList[i].id == Ids(ComponentList)[i];
    ComponentFilesDistinct();
  }

  /** How a record is filled: a `null` fetch gives the placeholder, failure and size 0; a
      non-empty body is kept with success and its length; an empty body (or `undefined`)
      gives the placeholder yet success, and size 0. */
  lemma RecordFill(filename: string, url: string, content: Fetcher.Content)
    ensures var r := MakeRecord(filename, url, content);
      && r.filename == filename && r.url == url
      && (content.Null? ==> r.content == Placeholder(filename) && !r.success && r.size == 0)
      && (content.Body? && content.text != "" ==> r.content == content.text && r.success && r.size == |content.text|)
      && (content == Fetcher.Body("") || content.Undefined? ==> r.content == Placeholder(filename) && r.success && r.size == 0)
  {
  }

  /** A language's records: one per declared filename, in order. */
  lemma {:induction false} LanguageRecordsShape(kind: Kind, path: string, language: string, names: seq<string>, net: Network)
    ensures |LanguageRecords(kind, path, language, names, net)| == |names|
    ensures forall k :: 0 <= k < |names| ==>
      LanguageRecords(kind, path, language, names, net)[k] == FileRecord(kind, path, language, names[k], net)
  {
    if |names| > 0 {
      LanguageRecordsShape(kind, path, language, names[..|names| - 1], net);
      forall k | 0 <= k < |names| - 1
        ensures LanguageRecords(kind, path, language, names, net)[k] == FileRecord(kind, path, language, names[k], net)
      {
        assert names[..|names| - 1][k] == names[k];
      }
    }
  }

  /** A document's `files` are its entry's languages, in the same order, each holding that
      language's records. */
  lemma EntryFilesShape(kind: Kind, e: Entry, net: Network)
    requires DistinctKeys(e.files)
    ensures EntryFiles(kind, e, net) == LanguagePairs(kind, e, net)
    ensures Keys(EntryDocument(kind, e, net).files) == Keys(e.files)
  {
    var pairs := LanguagePairs(kind, e, net);
    assert Keys(pairs) == Keys(e.files) by {
      assert forall j :: 0 <= j < |pairs| ==> Keys(pairs)[j] == pairs[j].0 == e.files[j].0 == Keys(e.files)[j];
    }
    assert Distinct(Keys(e.files)) by {
      assert forall j :: 0 <= j < |e.files| ==> Keys(e.files)[j] == e.files[j].0;
    }
    PutAllKeyed(pairs, Keys(e.files));
  }

  /** The documents object holds one document per entry, under its id, in catalog order. */
  lemma CatalogDocumentsShape(kind: Kind, entries: seq<Entry>, net: Network)
    requires DistinctIds(entries)
    ensures CatalogDocuments(kind, entries, net) == DocumentPairs(kind, entries, net)
    ensures Keys(CatalogDocuments(kind, entries, net)) == Ids(entries)
  {
    var pairs := DocumentPairs(kind, entries, net);
    DocumentPairsKeys(kind, entries, net);
    PutAllKeyed(pairs, Ids(entries));
  }

  lemma DocumentPairsKeys(kind: Kind, entries: seq<Entry>, net: Network)
    requires DistinctIds(entries)
    ensures Keys(DocumentPairs(kind, entries, net)) == Ids(entries)
    ensures Distinct(Ids(entries))
  {
    var pairs := DocumentPairs(kind, entries, net);
    assert forall i :: 0 <= i < |pairs| ==> Keys(pairs)[i] == pairs[i].0 == entries[i].id;
  }

  /**
   * Assembly yields one record per (entry, language, filename) triple of a well-formed
   * catalog: looking up the entry's id and then the language gives a list of the same
   * length as the declared filenames, whose `k`-th record was built for the `k`-th
   * filename from that file's URL and fetch.
   */
  lemma OneRecordPerTriple(kind: Kind, entries: seq<Entry>, net: Network, i: nat, j: nat, k: nat)
    requires WellFormedCatalog(entries)
    requires i < |entries| && j < |entries[i].files| && k < |entries[i].files[j].1|
    ensures Get(CatalogDocuments(kind, entries, net), entries[i].id) == Some(EntryDocument(kind, entries[i], net))
    ensures Get(EntryDocument(kind, entries[i], net).files, entries[i].files[j].0).Some?
    ensures var records := Get(EntryDocument(kind, entries[i], net).files, entries[i].files[j].0).value;
      && |records| == |entries[i].files[j].1|
      && records[k] == FileRecord(kind, entries[i].path, entries[i].files[j].0, entries[i].files[j].1[k], net)
      && records[k].filename == entries[i].files[j].1[k]
      && records[k].url == FileUrl(kind, entries[i].files[j].0, entries[i].path, entries[i].files[j].1[k])
  {
    DocumentAt(kind, entries, net, i);
    var e := entries[i];
    LanguageAt(kind, e, net, j);
    LanguageRecordsShape(kind, e.path, e.files[j].0, e.files[j].1, net);
  }

  lemma DocumentAt(kind: Kind, entries: seq<Entry>, net: Network, i: nat)
    requires DistinctIds(entries) && i < |entries|
    ensures Get(CatalogDocuments(kind, entries, net), entries[i].id) == Some(EntryDocument(kind, entries[i], net))
  {
    CatalogDocumentsShape(kind, entries, net);
    GetAt(DocumentPairs(kind, entries, net), i);
  }

  lemma LanguageAt(kind: Kind, e: Entry, net: Network, j: nat)
    requires DistinctKeys(e.files) && j < |e.files|
    ensures Get(EntryDocument(kind, e, net).files, e.files[j].0) == Some(LanguageRecords(kind, e.path, e.files[j].0, e.files[j].1, net))
  {
    EntryFilesShape(kind, e, net);
    GetAt(LanguagePairs(kind, e, net), j);
  }

  /** A documents object has as many keys as its catalog has entries. */
  lemma MetadataTotalsAreKeyCounts(kind: Kind, entries: seq<Entry>, net: Network)
    requires DistinctIds(entries)
    ensures |Keys(CatalogDocuments(kind, entries, net))| == |entries|
  {
    CatalogDocumentsShape(kind, entries, net);
  }

  // ---- Pacing ----

  /** The files the first `n` languages of `e` declare. */
  function EntryFileCount(e: Entry, n: nat): nat
    requires n <= |e.files|
  {
    if n == 0 then 0 else EntryFileCount(e, n - 1) + |e.files[n - 1].1|
  }

  /** The files the first `n` entries declare. */
  function CatalogFileCount(entries: seq<Entry>, n: nat): nat
    requires n <= |entries|
  {
    if n == 0 then 0 else CatalogFileCount(entries, n - 1) + EntryFileCount(entries[n - 1], |entries[n - 1].files|)
  }

  /** How many of the pauses are pacing pauses. */
  function CountPacing(sleeps: seq<nat>): nat {
    if |sleeps| == 0 then 0
    else CountPacing(sleeps[..|sleeps| - 1]) + (if sleeps[|sleeps| - 1] == PacingDelay then 1 else 0)
  }

  lemma {:induction false} CountPacingAppend(a: seq<nat>, b: seq<nat>)
    ensures CountPacing(a + b) == CountPacing(a) + CountPacing(b)
    decreases |b|
  {
    if |b| > 0 {
      assert (a + b)[..|a + b| - 1] == a + b[..|b| - 1];
      CountPacingAppend(a, b[..|b| - 1]);
    } else {
      assert a + b == a;
    }
  }

  /** Retry pauses are multiples of 1000 ms, never a pacing pause. */
  lemma {:induction false} NoPacingInBackoff(k: nat)
    ensures CountPacing(Fetcher.Backoff(k)) == 0
  {
    if k > 0 {
      assert Fetcher.Backoff(k)[..k - 1] == Fetcher.Backoff(k - 1);
      NoPacingInBackoff(k - 1);
    }
  }

  /** Every file contributes exactly one pacing pause, whatever its fetch did. */
  lemma FilePacedOnce(kind: Kind, path: string, language: string, filename: string, net: Network)
    ensures CountPacing(FileSleeps(kind, path, language, filename, net)) == 1
  {
    var run := FileRun(kind, path, language, filename, net);
    Fetcher.AttemptsBounded(net(FileUrl(kind, language, path, filename)), Fetcher.DefaultRetries);
    assert run.delays == Fetcher.Backoff(|run.delays|);
    NoPacingInBackoff(|run.delays|);
    CountPacingAppend(run.delays, [PacingDelay]);
    assert CountPacing([PacingDelay]) == 1 by {
      assert [PacingDelay][..0] == [];
    }
  }

  lemma LanguagePacingStep(kind: Kind, path: string, language: string, names: seq<string>, net: Network)
    requires |names| > 0
    requires CountPacing(LanguageSleeps(kind, path, language, names[..|names| - 1], net)) == |names| - 1
    ensures CountPacing(LanguageSleeps(kind, path, language, names, net)) == |names|
  {
    FilePacedOnce(kind, path, language, names[|names| - 1], net);
    CountPacingAppend(LanguageSleeps(kind, path, language, names[..|names| - 1], net), FileSleeps(kind, path, language, names[|names| - 1], net));
  }

  lemma {:induction false} LanguagePacing(kind: Kind, path: string, language: string, names: seq<string>, net: Network)
    ensures CountPacing(LanguageSleeps(kind, path, language, names, net)) == |names|
  {
    if |names| > 0 {
      LanguagePacing(kind, path, language, names[..|names| - 1], net);
      LanguagePacingStep(kind, path, language, names, net);
    }
  }

  lemma EntryPacingStep(kind: Kind, e: Entry, net: Network, n: nat)
    requires 0 < n <= |e.files|
    requires CountPacing(EntrySleeps(kind, e, net, n - 1)) == EntryFileCount(e, n - 1)
    ensures CountPacing(EntrySleeps(kind, e, net, n)) == EntryFileCount(e, n)
  {
    LanguagePacing(kind, e.path, e.files[n - 1].0, e.files[n - 1].1, net);
    CountPacingAppend(EntrySleeps(kind, e, net, n - 1), LanguageSleeps(kind, e.path, e.files[n - 1].0, e.files[n - 1].1, net));
  }

  lemma {:induction false} EntryPacing(kind: Kind, e: Entry, net: Network, n: nat)
    requires n <= |e.files|
    ensures CountPacing(EntrySleeps(kind, e, net, n)) == EntryFileCount(e, n)
  {
    if n > 0 {
      EntryPacing(kind, e, net, n - 1);
      EntryPacingStep(kind, e, net, n);
    }
  }

  lemma CatalogPacingStep(kind: Kind, entries: seq<Entry>, net: Network, n: nat)
    requires 0 < n <= |entries|
    requires CountPacing(CatalogSleeps(kind, entries, net, n - 1)) == CatalogFileCount(entries, n - 1)
    ensures CountPacing(CatalogSleeps(kind, entries, net, n)) == CatalogFileCount(entries, n)
  {
    EntryPacing(kind, entries[n - 1], net, |entries[n - 1].files|);
    CountPacingAppend(CatalogSleeps(kind, entries, net, n - 1), EntrySleeps(kind, entries[n - 1], net, |entries[n - 1].files|));
  }

  /** One 100 ms pacing pause per declared file, whatever each fetch returned: the count
      of pacing pauses equals the number of declared files. Retry pauses (1000 ms and
      more) are never mistaken for pacing. */
  lemma {:induction false} PacingAfterEveryFile(kind: Kind, entries: seq<Entry>, net: Network, n: nat)
    requires n <= |entries|
    ensures CountPacing(CatalogSleeps(kind, entries, net, n)) == CatalogFileCount(entries, n)
  {
    if n > 0 {
      PacingAfterEveryFile(kind, entries, net, n - 1);
      CatalogPacingStep(kind, entries, net, n);
    }
  }

  // ---- URLs ----

  /** `a + "/" + s` splits uniquely at its first slash when `a` has none. */
  lemma SplitAtFirstSlash(a: string, s: string, b: string, t: string)
    requires '/' !in a && '/' !in b
    requires Slash(a, s) == Slash(b, t)
    ensures a == b && s == t
  {
    var w := Slash(a, s);
    assert w[|a|] == '/' && w[|b|] == '/';
    assert forall i :: 0 <= i < |a| ==> w[i] == a[i];
    assert forall i :: 0 <= i < |b| ==> w[i] == b[i];
    assert forall i :: 0 <= i < |a| ==> w[i] != '/';
    assert forall i :: 0 <= i < |b| ==> w[i] != '/';
    assert |a| == |b| by {
      if |a| < |b| {
        assert false;
      } else if |b| < |a| {
        assert false;
      }
    }
    assert a == w[..|a|] == b;
    assert s == w[|a| + 1..] == t;
  }

  lemma SlashCancel(a: string, s: string, t: string)
    requires Slash(a, s) == Slash(a, t)
    ensures s == t
  {
    assert s == Slash(a, s)[|a| + 1..];
    assert t == Slash(a, t)[|a| + 1..];
  }

  /** Distinct declared files get distinct URLs, when languages and paths contain no `/`:
      the URL determines the language, the path and the filename. */
  lemma FileUrlInjective(kind: Kind, l1: string, p1: string, f1: string, l2: string, p2: string, f2: string)
    requires '/' !in l1 && '/' !in l2 && '/' !in p1 && '/' !in p2
    requires FileUrl(kind, l1, p1, f1) == FileUrl(kind, l2, p2, f2)
    ensures l1 == l2 && p1 == p2 && f1 == f2
  {
    var folder := KindFolder(kind);
    SlashCancel(BaseGithubUrl, Slash(l1, Slash(folder, Slash(p1, f1))), Slash(l2, Slash(folder, Slash(p2, f2))));
    SplitAtFirstSlash(l1, Slash(folder, Slash(p1, f1)), l2, Slash(folder, Slash(p2, f2)));
    SlashCancel(folder, Slash(p1, f1), Slash(p2, f2));
    SplitAtFirstSlash(p1, f1, p2, f2);
  }
}

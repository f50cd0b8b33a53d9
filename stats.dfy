/**
 * `calculateStats`: one pass over every document of `data.components`, then of
 * `data.utils`, language by language and file by file, counting files, successful files
 * and bytes, overall and per language. A language gets its `{files: 0, size: 0}` entry
 * when it is first met, even when its file list is empty.
 *
 * The pass is specified as a fold (`Run`) over the stream of steps it takes: meeting a
 * language key, or counting one file under a language.
 */
module Stats {
  import opened Wrappers
  import opened JsObject
  import opened Ingestion

  datatype LangStat = LangStat(files: nat, size: nat)

  /** The counters while the pass runs. */
  datatype Tally = Tally(totalFiles: nat, successfulFiles: nat, totalSize: nat, languageStats: Object<LangStat>)

  /** The object `calculateStats` returns. */
  datatype Stats = Stats(totalFiles: nat, successfulFiles: nat, failedFiles: int, totalSize: nat, languageStats: Object<LangStat>)

  datatype Event = LangKey(language: string) | File(language: string, file: FetchedFile)

  const Zero := Tally(0, 0, 0, [])

  /** `languageStats[language]`, reading a missing entry as zero. */
  function StatOf(o: Object<LangStat>, language: string): LangStat {
    Get(o, language).GetOr(LangStat(0, 0))
  }

  /** A language key is met: it gets a zero entry unless it has one. */
  function MeetLanguage(t: Tally, language: string): Tally {
    if Get(t.languageStats, language).None? then t.(languageStats := Put(t.languageStats, language, LangStat(0, 0)))
    else t
  }

  /** One file is counted, overall and under its language. */
  function CountFile(t: Tally, language: string, f: FetchedFile): Tally {
    Tally(t.totalFiles + 1,
          t.successfulFiles + (if f.success then 1 else 0),
          t.totalSize + f.size,
          Put(t.languageStats, language, Bump(StatOf(t.languageStats, language), f.size)))
  }

  /** A language's entry after one more file of `size` bytes. */
  function Bump(s: LangStat, size: nat): LangStat {
    LangStat(s.files + 1, s.size + size)
  }

  /** One step of the pass. */
  function Step(t: Tally, ev: Event): Tally {
    match ev
    case LangKey(language) => MeetLanguage(t, language)
    case File(language, f) => CountFile(t, language, f)
  }

  function Run(t: Tally, evs: seq<Event>): Tally {
    if |evs| == 0 then t else Step(Run(t, evs[..|evs| - 1]), evs[|evs| - 1])
  }

  // ---- The steps the pass takes ----

  function FileEvents(language: string, files: seq<FetchedFile>): seq<Event> {
    if |files| == 0 then [] else FileEvents(language, files[..|files| - 1]) + [File(language, files[|files| - 1])]
  }

  /** `Object.entries(files)`: each language key, then its files. */
  function DocumentEvents(files: Object<seq<FetchedFile>>): seq<Event> {
    if |files| == 0 then []
    else DocumentEvents(files[..|files| - 1]) + [LangKey(files[|files| - 1].0)] + FileEvents(files[|files| - 1].0, files[|files| - 1].1)
  }

  function Events(docs: seq<Document>): seq<Event> {
    if |docs| == 0 then [] else Events(docs[..|docs| - 1]) + DocumentEvents(docs[|docs| - 1].files)
  }

  /** The steps over `data.components`, then `data.utils`. */
  function DataEvents(data: AllData): seq<Event> {
    Events(Values(data.components)) + Events(Values(data.utils))
  }

  function Report(t: Tally): Stats {
    Stats(t.totalFiles, t.successfulFiles, t.totalFiles - t.successfulFiles, t.totalSize, t.languageStats)
  }

  // ---- The pass as the source runs it ----

  /** The innermost loop, over one language's files. */
  method TallyFiles(t0: Tally, language: string, files: seq<FetchedFile>) returns (t: Tally)
    ensures t == Run(t0, FileEvents(language, files))
  {
    t := t0;
    for k := 0 to |files|
      invariant t == Run(t0, FileEvents(language, files[..k]))
    {
      var f := files[k];
      t := CountFile(t, language, f);
      assert files[..k + 1][..k] == files[..k];
      assert FileEvents(language, files[..k + 1]) == FileEvents(language, files[..k]) + [File(language, f)];
      RunSnoc(t0, FileEvents(language, files[..k]), File(language, f));
    }
    assert files[..|files|] == files;
  }

  /** The loop over one document's languages. */
  method TallyDocument(t0: Tally, files: Object<seq<FetchedFile>>) returns (t: Tally)
    ensures t == Run(t0, DocumentEvents(files))
  {
    t := t0;
    for j := 0 to |files|
      invariant t == Run(t0, DocumentEvents(files[..j]))
    {
      var language := files[j].0;
      t := MeetLanguage(t, language);
      RunSnoc(t0, DocumentEvents(files[..j]), LangKey(language));
      t := TallyFiles(t, language, files[j].1);
      RunAppend(t0, DocumentEvents(files[..j]) + [LangKey(language)], FileEvents(language, files[j].1));
      assert files[..j + 1][..j] == files[..j];
    }
    assert files[..|files|] == files;
  }

  /** The loop over the documents of one object. */
  method TallyDocuments(t0: Tally, docs: seq<Document>) returns (t: Tally)
    ensures t == Run(t0, Events(docs))
  {
    t := t0;
    for i := 0 to |docs|
      invariant t == Run(t0, Events(docs[..i]))
    {
      t := TallyDocument(t, docs[i].files);
      RunAppend(t0, Events(docs[..i]), DocumentEvents(docs[i].files));
      assert docs[..i + 1][..i] == docs[..i];
    }
    assert docs[..|docs|] == docs;
  }

  method CalculateStats(data: AllData) returns (stats: Stats)
    ensures stats == Report(Run(Zero, DataEvents(data)))
  {
    var t := TallyDocuments(Zero, Values(data.components));
    t := TallyDocuments(t, Values(data.utils));
    RunAppend(Zero, Events(Values(data.components)), Events(Values(data.utils)));
    stats := Report(t);
  }

  // ---- Reference counts over the steps ----

  function FileCount(evs: seq<Event>): nat {
    if |evs| == 0 then 0 else FileCount(evs[..|evs| - 1]) + (if evs[|evs| - 1].File? then 1 else 0)
  }

  function SuccessCount(evs: seq<Event>): nat {
    if |evs| == 0 then 0
    else SuccessCount(evs[..|evs| - 1]) + (if evs[|evs| - 1].File? && evs[|evs| - 1].file.success then 1 else 0)
  }

  function SizeSum(evs: seq<Event>): nat {
    if |evs| == 0 then 0 else SizeSum(evs[..|evs| - 1]) + (if evs[|evs| - 1].File? then evs[|evs| - 1].file.size else 0)
  }

  function FileCountOf(evs: seq<Event>, language: string): nat {
    if |evs| == 0 then 0
    else FileCountOf(evs[..|evs| - 1], language) + (if evs[|evs| - 1].File? && evs[|evs| - 1].language == language then 1 else 0)
  }

  function SizeSumOf(evs: seq<Event>, language: string): nat {
    if |evs| == 0 then 0
    else SizeSumOf(evs[..|evs| - 1], language)
         + (if evs[|evs| - 1].File? && evs[|evs| - 1].language == language then evs[|evs| - 1].file.size else 0)
  }

  /** The languages the steps mention. */
  function Languages(evs: seq<Event>): set<string> {
    if |evs| == 0 then {} else Languages(evs[..|evs| - 1]) + {evs[|evs| - 1].language}
  }

  /** The sums over the language entries. */
  function SumFiles(o: Object<LangStat>): nat {
    if |o| == 0 then 0 else SumFiles(o[..|o| - 1]) + o[|o| - 1].1.files
  }

  function SumSizes(o: Object<LangStat>): nat {
    if |o| == 0 then 0 else SumSizes(o[..|o| - 1]) + o[|o| - 1].1.size
  }

  /** The counters agree: the language entries split the totals, and no more files
      succeeded than were counted. */
  predicate Balanced(t: Tally) {
    && DistinctKeys(t.languageStats)
    && SumFiles(t.languageStats) == t.totalFiles
    && SumSizes(t.languageStats) == t.totalSize
    && t.successfulFiles <= t.totalFiles
  }

  // ---- Lemmas ----

  lemma RunSnoc(t: Tally, evs: seq<Event>, ev: Event)
    ensures Run(t, evs + [ev]) == Step(Run(t, evs), ev)
  {
    assert (evs + [ev])[..|evs|] == evs;
  }

  /** The pass over two stretches of steps is the pass over the second, started from where
      the first ended. */
  lemma {:induction false} RunAppend(t: Tally, a: seq<Event>, b: seq<Event>)
    ensures Run(t, a + b) == Run(Run(t, a), b)
    decreases |b|
  {
    if |b| == 0 {
      assert a + b == a;
    } else {
      var init, last := b[..|b| - 1], b[|b| - 1];
      assert a + b == (a + init) + [last];
      assert init + [last] == b;
      RunAppend(t, a, init);
      RunSnoc(t, a + init, last);
      RunSnoc(Run(t, a), init, last);
    }
  }

  /** The totals count every file step, the successful ones, and their sizes. */
  lemma {:induction false} RunTotals(t: Tally, evs: seq<Event>)
    ensures Run(t, evs).totalFiles == t.totalFiles + FileCount(evs)
    ensures Run(t, evs).successfulFiles == t.successfulFiles + SuccessCount(evs)
    ensures Run(t, evs).totalSize == t.totalSize + SizeSum(evs)
  {
    if |evs| > 0 {
      RunTotals(t, evs[..|evs| - 1]);
    }
  }

  lemma StepLanguage(t: Tally, ev: Event, language: string)
    ensures language in Keys(Step(t, ev).languageStats) <==> language in Keys(t.languageStats) || language == ev.language
    ensures StatOf(Step(t, ev).languageStats, language)
         == if ev.File? && ev.language == language
            then LangStat(StatOf(t.languageStats, language).files + 1, StatOf(t.languageStats, language).size + ev.file.size)
            else StatOf(t.languageStats, language)
  {
    if ev.LangKey? && Get(t.languageStats, ev.language).Some? {
      assert ev.language in Keys(t.languageStats);
    }
  }

  /** Each language's entry exists exactly when the language was met, and counts the files
      and bytes of that language's steps. */
  lemma {:induction false} RunLanguage(t: Tally, evs: seq<Event>, language: string)
    ensures language in Keys(Run(t, evs).languageStats) <==> language in Keys(t.languageStats) || language in Languages(evs)
    ensures StatOf(Run(t, evs).languageStats, language)
         == LangStat(StatOf(t.languageStats, language).files + FileCountOf(evs, language),
                     StatOf(t.languageStats, language).size + SizeSumOf(evs, language))
  {
    if |evs| > 0 {
      RunLanguage(t, evs[..|evs| - 1], language);
      StepLanguage(Run(t, evs[..|evs| - 1]), evs[|evs| - 1], language);
    }
  }

  lemma {:induction false} SumsOfUpdate(o: Object<LangStat>, i: nat, v: LangStat)
    requires i < |o|
    ensures SumFiles(o[i := (o[i].0, v)]) + o[i].1.files == SumFiles(o) + v.files
    ensures SumSizes(o[i := (o[i].0, v)]) + o[i].1.size == SumSizes(o) + v.size
  {
    var r := o[i := (o[i].0, v)];
    if i < |o| - 1 {
      assert r[..|r| - 1] == o[..|o| - 1][i := (o[i].0, v)];
      SumsOfUpdate(o[..|o| - 1], i, v);
    } else {
      assert r[..|r| - 1] == o[..|o| - 1];
    }
  }

  /** Assigning a language's entry changes the sums by the change of that entry. */
  lemma SumsOfPut(o: Object<LangStat>, language: string, v: LangStat)
    ensures SumFiles(Put(o, language, v)) + StatOf(o, language).files == SumFiles(o) + v.files
    ensures SumSizes(Put(o, language, v)) + StatOf(o, language).size == SumSizes(o) + v.size
  {
    match IndexOf(o, language)
    case Some(i) =>
      SumsOfUpdate(o, i, v);
    case None =>
      PutNew(o, language, v);
      assert (o + [(language, v)])[..|o|] == o;
  }

  lemma LangKeyBalanced(t: Tally, language: string)
    requires Balanced(t)
    ensures Balanced(MeetLanguage(t, language))
  {
    if Get(t.languageStats, language).None? {
      SumsOfPut(t.languageStats, language, LangStat(0, 0));
    }
  }

  lemma FileBalanced(t: Tally, language: string, f: FetchedFile)
    requires Balanced(t)
    ensures Balanced(CountFile(t, language, f))
  {
    SumsOfPut(t.languageStats, language, Bump(StatOf(t.languageStats, language), f.size));
  }

  lemma StepBalanced(t: Tally, ev: Event)
    requires Balanced(t)
    ensures Balanced(Step(t, ev))
  {
    match ev
    case LangKey(language) => LangKeyBalanced(t, language);
    case File(language, f) => FileBalanced(t, language, f);
  }

  /** The pass keeps the counters balanced. */
  lemma {:induction false} RunBalanced(t: Tally, evs: seq<Event>)
    requires Balanced(t)
    ensures Balanced(Run(t, evs))
  {
    if |evs| > 0 {
      RunBalanced(t, evs[..|evs| - 1]);
      StepBalanced(Run(t, evs[..|evs| - 1]), evs[|evs| - 1]);
    }
  }

  /**
   * What `calculateStats` reports about `data`: the totals count every file of every
   * document, the successful ones and their sizes; `failedFiles` is the rest and is never
   * negative; the per-language entries add up to the totals; a language has an entry
   * exactly when some document lists it, and that entry counts that language's files and
   * bytes.
   */
  lemma CalculateStatsReport(data: AllData, language: string)
    ensures var s := Report(Run(Zero, DataEvents(data)));
      var evs := DataEvents(data);
      && s.totalFiles == FileCount(evs)
      && s.successfulFiles == SuccessCount(evs)
      && s.totalSize == SizeSum(evs)
      && s.failedFiles == s.totalFiles - s.successfulFiles >= 0
      && SumFiles(s.languageStats) == s.totalFiles
      && SumSizes(s.languageStats) == s.totalSize
      && DistinctKeys(s.languageStats)
      && (language in Keys(s.languageStats) <==> language in Languages(evs))
      && StatOf(s.languageStats, language) == LangStat(FileCountOf(evs, language), SizeSumOf(evs, language))
  {
    var evs := DataEvents(data);
    RunTotals(Zero, evs);
    RunBalanced(Zero, evs);
    RunLanguage(Zero, evs, language);
  }

  // ---- The steps, read back as documents ----

  lemma {:induction false} LanguagesAppend(a: seq<Event>, b: seq<Event>)
    ensures Languages(a + b) == Languages(a) + Languages(b)
    decreases |b|
  {
    if |b| == 0 {
      assert a + b == a;
    } else {
      assert (a + b)[..|a + b| - 1] == a + b[..|b| - 1];
      LanguagesAppend(a, b[..|b| - 1]);
    }
  }

  lemma {:induction false} FileEventsLanguages(language: string, files: seq<FetchedFile>)
    ensures Languages(FileEvents(language, files)) <= {language}
  {
    if |files| > 0 {
      FileEventsLanguages(language, files[..|files| - 1]);
      LanguagesAppend(FileEvents(language, files[..|files| - 1]), [File(language, files[|files| - 1])]);
    }
  }

  /** The languages met in a document are its language keys, lists empty or not. */
  lemma {:induction false} DocumentLanguages(files: Object<seq<FetchedFile>>)
    ensures forall language :: language in Languages(DocumentEvents(files)) <==> language in Keys(files)
  {
    if |files| > 0 {
      var init, last := files[..|files| - 1], files[|files| - 1];
      DocumentLanguages(init);
      FileEventsLanguages(last.0, last.1);
      LanguagesAppend(DocumentEvents(init) + [LangKey(last.0)], FileEvents(last.0, last.1));
      LanguagesAppend(DocumentEvents(init), [LangKey(last.0)]);
      assert Languages([LangKey(last.0)]) == {last.0} by {
        assert [LangKey(last.0)][..0] == [];
      }
      assert Keys(files) == Keys(init) + [last.0];
    }
  }

  /** The number of file steps of a language's list is its length. */
  lemma {:induction false} FileEventsCount(language: string, files: seq<FetchedFile>)
    ensures FileCount(FileEvents(language, files)) == |files|
  {
    if |files| > 0 {
      FileEventsCount(language, files[..|files| - 1]);
    }
  }

  /** The stored records of a document: the lengths of its lists, added up. */
  function DocumentRecords(files: Object<seq<FetchedFile>>): nat {
    if |files| == 0 then 0 else DocumentRecords(files[..|files| - 1]) + |files[|files| - 1].1|
  }

  /** The stored records of a documents object. */
  function Records(docs: seq<Document>): nat {
    if |docs| == 0 then 0 else Records(docs[..|docs| - 1]) + DocumentRecords(docs[|docs| - 1].files)
  }

  lemma {:induction false} FileCountAppend(a: seq<Event>, b: seq<Event>)
    ensures FileCount(a + b) == FileCount(a) + FileCount(b)
    decreases |b|
  {
    if |b| == 0 {
      assert a + b == a;
    } else {
      assert (a + b)[..|a + b| - 1] == a + b[..|b| - 1];
      FileCountAppend(a, b[..|b| - 1]);
    }
  }

  /** A document's file steps are its records. */
  lemma {:induction false} DocumentEventsCount(files: Object<seq<FetchedFile>>)
    ensures FileCount(DocumentEvents(files)) == DocumentRecords(files)
  {
    if |files| > 0 {
      var init, last := files[..|files| - 1], files[|files| - 1];
      DocumentEventsCount(init);
      FileEventsCount(last.0, last.1);
      FileCountAppend(DocumentEvents(init) + [LangKey(last.0)], FileEvents(last.0, last.1));
      FileCountAppend(DocumentEvents(init), [LangKey(last.0)]);
      assert FileCount([LangKey(last.0)]) == 0 by {
        assert [LangKey(last.0)][..0] == [];
      }
    }
  }

  lemma {:induction false} EventsCount(docs: seq<Document>)
    ensures FileCount(Events(docs)) == Records(docs)
  {
    if |docs| > 0 {
      EventsCount(docs[..|docs| - 1]);
      DocumentEventsCount(docs[|docs| - 1].files);
      FileCountAppend(Events(docs[..|docs| - 1]), DocumentEvents(docs[|docs| - 1].files));
    }
  }

  /** `totalFiles` is the number of records stored under `components` and `utils`. */
  lemma TotalFilesAreRecords(data: AllData)
    ensures Report(Run(Zero, DataEvents(data))).totalFiles == Records(Values(data.components)) + Records(Values(data.utils))
  {
    RunTotals(Zero, DataEvents(data));
    FileCountAppend(Events(Values(data.components)), Events(Values(data.utils)));
    EventsCount(Values(data.components));
    EventsCount(Values(data.utils));
  }

  /** The languages met in a documents object are those some document lists. */
  lemma {:induction false} EventsLanguages(docs: seq<Document>, language: string)
    ensures language in Languages(Events(docs)) <==> Listed(docs, language)
  {
    if |docs| > 0 {
      var init := docs[..|docs| - 1];
      EventsLanguages(init, language);
      DocumentLanguages(docs[|docs| - 1].files);
      LanguagesAppend(Events(init), DocumentEvents(docs[|docs| - 1].files));
      if exists i :: 0 <= i < |init| && language in Keys(init[i].files) {
        var i :| 0 <= i < |init| && language in Keys(init[i].files);
        assert docs[i] == init[i];
      }
      if exists i :: 0 <= i < |docs| && language in Keys(docs[i].files) {
        var i :| 0 <= i < |docs| && language in Keys(docs[i].files);
        if i < |init| {
          assert docs[i] == init[i];
        }
      }
    }
  }

  /** Some document of the object lists the language. */
  predicate Listed(docs: seq<Document>, language: string) {
    exists i :: 0 <= i < |docs| && language in Keys(docs[i].files)
  }

  /** `languageStats` has an entry for a language exactly when some component or utility
      document lists that language. */
  lemma StatsLanguagesAreListed(data: AllData, language: string)
    ensures language in Keys(Report(Run(Zero, DataEvents(data))).languageStats)
        <==> Listed(Values(data.components), language) || Listed(Values(data.utils), language)
  {
    var comps, utils := Values(data.components), Values(data.utils);
    RunLanguage(Zero, DataEvents(data), language);
    LanguagesAppend(Events(comps), Events(utils));
    EventsLanguages(comps, language);
    EventsLanguages(utils, language);
  }
}

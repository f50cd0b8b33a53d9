/**
 * `DatabaseUpdater` and the command line around it: load the fetched data, then replace
 * the `components`, `utils` and `static_files` collections and upsert the metadata
 * document, stopping at the first exception. The database is a map from collection
 * name to its documents in natural order. Which operations the database refuses is a
 * parameter (`faults`); reading the file is an input (`None` when reading or parsing
 * fails), and so is the clock (`now`, the ISO timestamp of the run).
 */
module Persistence {
  import opened Wrappers
  import opened JsObject
  import opened Json

  /** The database operations an update performs. */
  datatype Op =
    | Connect
    | CreateIndexes
    | DeleteMany(collection: string)
    | InsertMany(collection: string)
    | ReplaceOne(collection: string)

  /** The exceptions that end an update. */
  datatype Error =
    | ReadFailed          // the file could not be read or parsed
    | TypeError           // a property read or `Object.values` on `null` or `undefined`
    | Rejected(op: Op)    // the database refused an operation
    | DuplicateKey        // the unique index on the metadata `type` refused the write

  /** A finished call: its value, or the exception it threw. */
  datatype Outcome<T> = Ok(value: T) | Err(error: Error)

  const Components := "components"
  const Utils := "utils"
  const StaticFiles := "static_files"
  const MetadataCollection := "metadata"
  const MetadataTag := "app_metadata"

  type Store = map<string, seq<Json>>

  /** `find({})`: a collection never written is empty. */
  function Collection(store: Store, name: string): seq<Json> {
    if name in store then store[name] else []
  }

  /** The database after a call, and what the call returned. */
  datatype Step<T> = Step(store: Store, outcome: Outcome<T>)

  // ---- Replacing a collection ----

  /**
   * `updateComponents`, `updateUtils` and `updateStaticFiles`: `deleteMany({})`, then
   * `Object.values` of the input, then `insertMany` when there is something to insert;
   * the count of values is returned. A refused delete changes nothing; once the delete
   * went through, the collection holds what `Written` says, whatever happens next.
   */
  function Replace(store: Store, faults: set<Op>, name: string, value: Value): Step<nat> {
    if DeleteMany(name) in faults then Step(store, Err(Rejected(DeleteMany(name))))
    else Step(store[name := Written(faults, name, value)], Inserted(faults, name, value))
  }

  /** `insertMany` takes only objects as documents: on any other value the driver throws
      its `TypeError` while preparing the batch, before anything is sent. */
  predicate AllObjects(items: seq<Json>) {
    forall i :: 0 <= i < |items| ==> items[i].JObj?
  }

  /** The collection after the delete: empty when `Object.values` throws, when there is
      nothing to insert or when the insert is refused; the values otherwise. */
  function Written(faults: set<Op>, name: string, value: Value): seq<Json> {
    match ObjectValues(value)
    case None => []
    case Some(items) => if |items| == 0 || !AllObjects(items) || InsertMany(name) in faults then [] else items
  }

  /** What the call returns after the delete: the `TypeError` of `Object.values` or of a
      value that is no document, the refused insert, or the count of values. */
  function Inserted(faults: set<Op>, name: string, value: Value): Outcome<nat> {
    match ObjectValues(value)
    case None => Err(TypeError)
    case Some(items) =>
      if |items| == 0 then Ok(0)
      else if !AllObjects(items) then Err(TypeError)
      else if InsertMany(name) in faults then Err(Rejected(InsertMany(name)))
      else Ok(|items|)
  }

  /** A successful replacement leaves exactly the input's values, in order, forgets
      everything the collection held before, returns their count, and touches no other
      collection. */
  lemma ReplaceExact(store: Store, faults: set<Op>, name: string, value: Value)
    requires DeleteMany(name) !in faults && InsertMany(name) !in faults
    requires ObjectValues(value).Some? && AllObjects(ObjectValues(value).value)
    ensures var r := Replace(store, faults, name, value);
      && r.outcome == Ok(|ObjectValues(value).value|)
      && Collection(r.store, name) == ObjectValues(value).value
      && forall other :: other != name ==> Collection(r.store, other) == Collection(store, other)
  {
  }

  /** An input without values empties the collection and succeeds with 0 without
      inserting: a refused `insertMany` makes no difference. */
  lemma ReplaceWithNothing(store: Store, faults: set<Op>, name: string, value: Value)
    requires DeleteMany(name) !in faults
    requires ObjectValues(value) == Some([])
    ensures Replace(store, faults, name, value) == Step(store[name := []], Ok(0))
    ensures Replace(store, faults + {InsertMany(name)}, name, value) == Replace(store, faults - {InsertMany(name)}, name, value)
  {
  }

  /** An `undefined` or `null` input is only found out after the delete: the collection
      is emptied and the call throws. */
  lemma ReplaceWithUndefined(store: Store, faults: set<Op>, name: string, value: Value)
    requires DeleteMany(name) !in faults
    requires value.None? || value == Some(JNull)
    ensures Replace(store, faults, name, value) == Step(store[name := []], Err(TypeError))
  {
  }

  /** A value that is no document among the values empties the collection and throws,
      whatever else the database refuses: nothing is inserted. */
  lemma ReplaceRefusesNonObjects(store: Store, faults: set<Op>, name: string, value: Value, i: nat)
    requires DeleteMany(name) !in faults
    requires ObjectValues(value).Some? && i < |ObjectValues(value).value| && !ObjectValues(value).value[i].JObj?
    ensures Replace(store, faults, name, value) == Step(store[name := []], Err(TypeError))
  {
  }

  /** Replacing twice with the same input is replacing once, whatever the database
      refuses: same collections, same return value. */
  lemma ReplaceIdempotent(store: Store, faults: set<Op>, name: string, value: Value)
    ensures var once := Replace(store, faults, name, value);
      Replace(once.store, faults, name, value) == once
  {
    var once := Replace(store, faults, name, value);
    if DeleteMany(name) !in faults {
      assert once.store[name := []] == store[name := []];
      if ObjectValues(value).Some? && |ObjectValues(value).value| > 0 && AllObjects(ObjectValues(value).value)
         && InsertMany(name) !in faults {
        assert once.store[name := ObjectValues(value).value] == once.store;
      }
    }
  }

  /** `staticFiles || {}`. */
  function OrEmpty(v: Value): (r: Value)
    ensures !Truthy(v) ==> r == Some(JObj([]))
    ensures Truthy(v) ==> r == v
  {
    if Truthy(v) then v else Some(JObj([]))
  }

  /** A missing or falsy `static` empties `static_files` and counts 0, where the other
      two collections would throw. */
  lemma StaticDefaultsToEmpty(store: Store, faults: set<Op>, value: Value)
    requires DeleteMany(StaticFiles) !in faults && !Truthy(value)
    ensures Replace(store, faults, StaticFiles, OrEmpty(value)) == Step(store[StaticFiles := []], Ok(0))
  {
  }

  // ---- The metadata document ----

  /** Whether a document matches `{ type: "app_metadata" }`. */
  predicate Tagged(doc: Json) {
    Field(doc, "type") == Some(JStr(MetadataTag))
  }

  /** `{ type: "app_metadata", ...metadata, databaseUpdatedAt: now }`: each property is
      defined in turn, a repeated name keeping its first position. */
  function MetadataDoc(metadata: Value, now: string): Json {
    JObj(Put(PutAll([("type", JStr(MetadataTag))] + Spread(metadata)), "databaseUpdatedAt", JStr(now)))
  }

  /** The metadata document carries the input's fields, and `databaseUpdatedAt` is this
      run's time whatever the input says. It matches its own filter exactly when the input
      has no `type` of its own, or has the same one. */
  lemma MetadataDocFields(metadata: Object<Json>, now: string, k: string)
    requires DistinctKeys(metadata)
    ensures var doc := MetadataDoc(Some(JObj(metadata)), now);
      && Field(doc, "databaseUpdatedAt") == Some(JStr(now))
      && (k != "type" && k != "databaseUpdatedAt" ==> Field(doc, k) == Get(metadata, k))
      && (Get(metadata, "type").None? ==> Tagged(doc))
      && (Get(metadata, "type").Some? ==> Field(doc, "type") == Get(metadata, "type"))
  {
    var pairs := [("type", JStr(MetadataTag))] + metadata;
    assert forall j :: 0 < j < |pairs| ==> pairs[j] == metadata[j - 1];
    FieldFromSpread(metadata, pairs, k);
    FieldFromSpread(metadata, pairs, "type");
    if Get(metadata, "type").None? {
      assert forall j :: 0 <= j < |metadata| ==> metadata[j].0 != "type";
      PutAllLast(pairs, 0);
    }
  }

  lemma FieldFromSpread(metadata: Object<Json>, pairs: seq<(string, Json)>, k: string)
    requires DistinctKeys(metadata)
    requires |pairs| == |metadata| + 1 && forall j :: 0 < j < |pairs| ==> pairs[j] == metadata[j - 1]
    ensures Get(metadata, k).Some? ==> Get(PutAll(pairs), k) == Get(metadata, k)
    ensures k != pairs[0].0 && Get(metadata, k).None? ==> Get(PutAll(pairs), k).None?
  {
    match IndexOf(metadata, k)
    case Some(i) =>
      assert pairs[i + 1] == metadata[i];
      PutAllLast(pairs, i + 1);
    case None =>
      if k != pairs[0].0 {
        PutAllAbsent(pairs, k);
      }
  }

  /** The position of the first tagged document. */
  function FirstTagged(docs: seq<Json>): (r: Option<nat>)
    ensures r.Some? ==> r.value < |docs| && Tagged(docs[r.value])
    ensures r.Some? ==> forall j :: 0 <= j < r.value ==> !Tagged(docs[j])
    ensures r.None? <==> forall j :: 0 <= j < |docs| ==> !Tagged(docs[j])
  {
    if |docs| == 0 then None
    else if Tagged(docs[0]) then Some(0)
    else match FirstTagged(docs[1..])
      case None => None
      case Some(i) => Some(i + 1)
  }

  /** The first tagged document is the first document that is tagged. */
  lemma {:induction false} FirstTaggedAt(docs: seq<Json>, i: nat)
    requires i < |docs| && Tagged(docs[i])
    requires forall j :: 0 <= j < i ==> !Tagged(docs[j])
    ensures FirstTagged(docs) == Some(i)
  {
    if i > 0 {
      assert !Tagged(docs[0]);
      assert forall j :: 0 <= j < i - 1 ==> docs[1..][j] == docs[j + 1];
      FirstTaggedAt(docs[1..], i - 1);
    }
  }

  /** `replaceOne({ type: "app_metadata" }, doc, { upsert: true })`. */
  function Upsert(docs: seq<Json>, doc: Json): seq<Json> {
    match FirstTagged(docs)
    case Some(i) => docs[i := doc]
    case None => docs + [doc]
  }

  function TaggedCount(docs: seq<Json>): nat {
    if |docs| == 0 then 0
    else TaggedCount(docs[..|docs| - 1]) + (if Tagged(docs[|docs| - 1]) then 1 else 0)
  }

  lemma {:induction false} TaggedCountUpdate(docs: seq<Json>, i: nat, doc: Json)
    requires i < |docs|
    ensures TaggedCount(docs[i := doc]) + (if Tagged(docs[i]) then 1 else 0)
         == TaggedCount(docs) + (if Tagged(doc) then 1 else 0)
  {
    var n := |docs|;
    if i < n - 1 {
      TaggedCountUpdate(docs[..n - 1], i, doc);
      assert docs[i := doc][..n - 1] == docs[..n - 1][i := doc];
    } else {
      assert docs[i := doc][..n - 1] == docs[..n - 1];
    }
  }

  lemma {:induction false} TaggedCountZero(docs: seq<Json>)
    requires forall j :: 0 <= j < |docs| ==> !Tagged(docs[j])
    ensures TaggedCount(docs) == 0
  {
    if |docs| > 0 {
      TaggedCountZero(docs[..|docs| - 1]);
    }
  }

  lemma {:induction false} TaggedCountPositive(docs: seq<Json>, i: nat)
    requires i < |docs| && Tagged(docs[i])
    ensures TaggedCount(docs) >= 1
  {
    if i < |docs| - 1 {
      TaggedCountPositive(docs[..|docs| - 1], i);
    }
  }

  /**
   * With at most one tagged document before (the unique index on `type`), a tagged
   * replacement leaves exactly one tagged document, and it is the new one.
   */
  lemma UpsertKeepsOne(docs: seq<Json>, doc: Json)
    requires TaggedCount(docs) <= 1 && Tagged(doc)
    ensures TaggedCount(Upsert(docs, doc)) == 1
    ensures FirstTagged(Upsert(docs, doc)).Some? && Upsert(docs, doc)[FirstTagged(Upsert(docs, doc)).value] == doc
  {
    match FirstTagged(docs)
    case Some(i) =>
      TaggedCountUpdate(docs, i, doc);
      TaggedCountPositive(docs, i);
      FirstTaggedAt(docs[i := doc], i);
    case None =>
      TaggedCountZero(docs);
      assert (docs + [doc])[..|docs|] == docs;
      FirstTaggedAt(docs + [doc], |docs|);
  }

  /** An input whose own `type` overrides the tag writes a document its own filter
      cannot find: into a collection without a tagged document it is appended, and the
      collection still has none. */
  lemma UntaggedUpsertAppends(docs: seq<Json>, doc: Json)
    requires TaggedCount(docs) == 0 && !Tagged(doc)
    ensures Upsert(docs, doc) == docs + [doc]
    ensures TaggedCount(Upsert(docs, doc)) == 0
  {
    if FirstTagged(docs).Some? {
      TaggedCountPositive(docs, FirstTagged(docs).value);
    }
    assert (docs + [doc])[..|docs|] == docs;
  }

  /** Upserting a tagged document after another tagged one is upserting it alone: the
      second replaces what the first wrote. */
  lemma UpsertAgain(docs: seq<Json>, doc: Json, later: Json)
    requires Tagged(doc) && Tagged(later)
    ensures Upsert(Upsert(docs, doc), later) == Upsert(docs, later)
  {
    match FirstTagged(docs)
    case Some(i) =>
      FirstTaggedAt(docs[i := doc], i);
    case None =>
      FirstTaggedAt(docs + [doc], |docs|);
  }

  /** The unique index on `type`: a document other than the one the filter finds already
      has `doc`'s `type`, so the replacement or the insert is a duplicate key. */
  predicate TypeTaken(docs: seq<Json>, doc: Json) {
    exists j :: 0 <= j < |docs| && FirstTagged(docs) != Some(j) && Field(docs[j], "type") == Field(doc, "type")
  }

  /** What the unique index on `type` keeps: no two documents share a `type`. */
  predicate UniqueTypes(docs: seq<Json>) {
    forall i, j :: 0 <= i < j < |docs| ==> Field(docs[i], "type") != Field(docs[j], "type")
  }

  /** Into a collection the index keeps, a tagged document is never a duplicate. */
  lemma UniqueTypesAdmitTagged(docs: seq<Json>, doc: Json)
    requires UniqueTypes(docs) && Tagged(doc)
    ensures !TypeTaken(docs, doc)
  {
  }

  /** An upsert the index lets through keeps the types unique. */
  lemma UpsertKeepsUniqueTypes(docs: seq<Json>, doc: Json)
    requires UniqueTypes(docs) && !TypeTaken(docs, doc)
    ensures UniqueTypes(Upsert(docs, doc))
  {
    var after := Upsert(docs, doc);
    match FirstTagged(docs)
    case Some(p) =>
      forall i, j | 0 <= i < j < |after|
        ensures Field(after[i], "type") != Field(after[j], "type")
      {
        if i == p {
          assert after[j] == docs[j];
        } else if j == p {
          assert after[i] == docs[i];
        } else {
          assert after[i] == docs[i] && after[j] == docs[j];
        }
      }
    case None =>
      forall i, j | 0 <= i < j < |after|
        ensures Field(after[i], "type") != Field(after[j], "type")
      {
        assert after[i] == docs[i];
      }
  }

  /** `updateMetadata`. */
  function MetadataWrite(store: Store, faults: set<Op>, doc: Json): Step<()> {
    if ReplaceOne(MetadataCollection) in faults then Step(store, Err(Rejected(ReplaceOne(MetadataCollection))))
    else if TypeTaken(Collection(store, MetadataCollection), doc) then Step(store, Err(DuplicateKey))
    else Step(store[MetadataCollection := Upsert(Collection(store, MetadataCollection), doc)], Ok(()))
  }

  /** A metadata write keeps the index's guarantee. */
  lemma MetadataWriteKeepsUniqueTypes(store: Store, faults: set<Op>, doc: Json)
    requires UniqueTypes(Collection(store, MetadataCollection))
    ensures UniqueTypes(Collection(MetadataWrite(store, faults, doc).store, MetadataCollection))
  {
    if ReplaceOne(MetadataCollection) !in faults && !TypeTaken(Collection(store, MetadataCollection), doc) {
      UpsertKeepsUniqueTypes(Collection(store, MetadataCollection), doc);
    }
  }

  /** After a tagged upsert that the index let through, the only tagged document is the
      new one, so a later tagged upsert is let through too. */
  lemma TypeFreeAfterUpsert(docs: seq<Json>, doc: Json, later: Json)
    requires Tagged(doc) && Tagged(later) && !TypeTaken(docs, doc)
    ensures !TypeTaken(Upsert(docs, doc), later)
  {
    var after := Upsert(docs, doc);
    var p := if FirstTagged(docs).Some? then FirstTagged(docs).value else |docs|;
    assert after == if FirstTagged(docs).Some? then docs[p := doc] else docs + [doc];
    FirstTaggedAfterUpsert(docs, doc);
    forall j | 0 <= j < |after| && j != p
      ensures Field(after[j], "type") != Field(later, "type")
    {
      assert after[j] == docs[j];
      assert FirstTagged(docs) != Some(j);
    }
  }

  /** A tagged upsert is found where it was written. */
  lemma FirstTaggedAfterUpsert(docs: seq<Json>, doc: Json)
    requires Tagged(doc)
    ensures FirstTagged(Upsert(docs, doc)) == Some(if FirstTagged(docs).Some? then FirstTagged(docs).value else |docs|)
  {
    if FirstTagged(docs).Some? {
      FirstTaggedAt(docs[FirstTagged(docs).value := doc], FirstTagged(docs).value);
    } else {
      FirstTaggedAt(docs + [doc], |docs|);
    }
  }

  /** Writing the metadata document again with a later timestamp is writing it once with
      that timestamp, refusals included. */
  lemma MetadataWriteAgain(store: Store, faults: set<Op>, doc: Json, later: Json)
    requires Tagged(doc) && Tagged(later)
    ensures MetadataWrite(MetadataWrite(store, faults, doc).store, faults, later) == MetadataWrite(store, faults, later)
  {
    var docs := Collection(store, MetadataCollection);
    assert TypeTaken(docs, doc) == TypeTaken(docs, later);
    if ReplaceOne(MetadataCollection) !in faults && !TypeTaken(docs, doc) {
      TypeFreeAfterUpsert(docs, doc, later);
      UpsertAgain(docs, doc, later);
    }
  }

  /** An untagged metadata document cannot be written twice: its own filter does not find
      it, and the unique index refuses the second copy of its `type`. */
  lemma UntaggedRewriteRefused(store: Store, faults: set<Op>, doc: Json)
    requires !Tagged(doc) && MetadataWrite(store, faults, doc).outcome.Ok?
    ensures MetadataWrite(MetadataWrite(store, faults, doc).store, faults, doc)
         == Step(MetadataWrite(store, faults, doc).store, Err(DuplicateKey))
  {
    var docs := Collection(store, MetadataCollection);
    var after := Upsert(docs, doc);
    assert Collection(MetadataWrite(store, faults, doc).store, MetadataCollection) == after;
    var p := if FirstTagged(docs).Some? then FirstTagged(docs).value else |docs|;
    assert after[p] == doc;
    assert FirstTagged(after) != Some(p);
    assert TypeTaken(after, doc);
  }

  // ---- The whole update ----

  datatype Counts = Counts(componentsCount: nat, utilsCount: nat, staticCount: nat)

  /** What the four writes write: `data.components`, `data.utils` and `data.static`, and
      the metadata document built from `data.metadata`. */
  datatype Sections = Sections(components: Value, utils: Value, staticFiles: Value, document: Json)

  function SectionsOf(data: Json, now: string): Sections {
    Sections(Field(data, "components"), Field(data, "utils"), Field(data, "static"), MetadataDoc(Field(data, "metadata"), now))
  }

  /** `updateDatabase`: read, connect, create the indexes, then the four writes in order;
      the first exception ends the run and is its result. */
  function UpdateRun(store: Store, faults: set<Op>, file: Option<Json>, now: string): Step<Counts> {
    if file.None? then Step(store, Err(ReadFailed))
    else if Connect in faults then Step(store, Err(Rejected(Connect)))
    else if CreateIndexes in faults then Step(store, Err(Rejected(CreateIndexes)))
    else if file.value == JNull then Step(store, Err(TypeError))
    else Writes(store, faults, SectionsOf(file.value, now))
  }

  /** The four writes. Each stage below receives what the previous write did and goes on
      only when it succeeded. */
  function Writes(store: Store, faults: set<Op>, input: Sections): Step<Counts> {
    AfterComponents(Replace(store, faults, Components, input.components), faults, input)
  }

  function AfterComponents(c: Step<nat>, faults: set<Op>, input: Sections): Step<Counts> {
    match c.outcome
    case Err(e) => Step(c.store, Err(e))
    case Ok(nc) => AfterUtils(nc, Replace(c.store, faults, Utils, input.utils), faults, input)
  }

  function AfterUtils(nc: nat, u: Step<nat>, faults: set<Op>, input: Sections): Step<Counts> {
    match u.outcome
    case Err(e) => Step(u.store, Err(e))
    case Ok(nu) => AfterStatic(nc, nu, Replace(u.store, faults, StaticFiles, OrEmpty(input.staticFiles)), faults, input)
  }

  function AfterStatic(nc: nat, nu: nat, s: Step<nat>, faults: set<Op>, input: Sections): Step<Counts> {
    match s.outcome
    case Err(e) => Step(s.store, Err(e))
    case Ok(ns) => AfterMetadata(Counts(nc, nu, ns), MetadataWrite(s.store, faults, input.document))
  }

  function AfterMetadata(counts: Counts, m: Step<()>): Step<Counts> {
    match m.outcome
    case Err(e) => Step(m.store, Err(e))
    case Ok(_) => Step(m.store, Ok(counts))
  }

  /** The four collection names differ. */
  lemma NamesDiffer()
    ensures Components != Utils && Components != StaticFiles && Components != MetadataCollection
    ensures Utils != StaticFiles && Utils != MetadataCollection && StaticFiles != MetadataCollection
  {
    assert Components[0] == 'c' && Utils[0] == 'u' && StaticFiles[0] == 's' && MetadataCollection[0] == 'm';
  }

  /** A successful update leaves each collection holding exactly its input's values,
      reports their counts, and upserts the metadata document. */
  lemma SuccessfulWrites(store: Store, faults: set<Op>, input: Sections)
    requires Writes(store, faults, input).outcome.Ok?
    ensures ObjectValues(input.components).Some? && ObjectValues(input.utils).Some?
    ensures ObjectValues(OrEmpty(input.staticFiles)).Some?
    ensures Collection(Writes(store, faults, input).store, Components) == ObjectValues(input.components).value
    ensures Collection(Writes(store, faults, input).store, Utils) == ObjectValues(input.utils).value
    ensures Collection(Writes(store, faults, input).store, StaticFiles) == ObjectValues(OrEmpty(input.staticFiles)).value
    ensures Collection(Writes(store, faults, input).store, MetadataCollection)
         == Upsert(Collection(store, MetadataCollection), input.document)
    ensures Writes(store, faults, input).outcome.value
         == Counts(|ObjectValues(input.components).value|, |ObjectValues(input.utils).value|,
                   |ObjectValues(OrEmpty(input.staticFiles)).value|)
  {
    NamesDiffer();
  }

  /** The same, for the whole run: a successful run read an object from the file. */
  lemma SuccessfulRun(store: Store, faults: set<Op>, file: Option<Json>, now: string)
    requires UpdateRun(store, faults, file, now).outcome.Ok?
    ensures file.Some? && file.value != JNull
    ensures UpdateRun(store, faults, file, now) == Writes(store, faults, SectionsOf(file.value, now))
  {
  }

  /** A failed run never reaches the metadata write, so the metadata is as before. */
  lemma FailedRunKeepsMetadata(store: Store, faults: set<Op>, file: Option<Json>, now: string)
    requires UpdateRun(store, faults, file, now).outcome.Err?
    ensures Collection(UpdateRun(store, faults, file, now).store, MetadataCollection) == Collection(store, MetadataCollection)
  {
    if file.Some? && file.value != JNull && Connect !in faults && CreateIndexes !in faults {
      FailedWritesKeepMetadata(store, faults, SectionsOf(file.value, now));
    }
  }

  lemma FailedWritesKeepMetadata(store: Store, faults: set<Op>, input: Sections)
    requires Writes(store, faults, input).outcome.Err?
    ensures Collection(Writes(store, faults, input).store, MetadataCollection) == Collection(store, MetadataCollection)
  {
    NamesDiffer();
  }

  /** A run writes only its four collections. */
  lemma RunFrame(store: Store, faults: set<Op>, file: Option<Json>, now: string, other: string)
    requires other != Components && other != Utils && other != StaticFiles && other != MetadataCollection
    ensures Collection(UpdateRun(store, faults, file, now).store, other) == Collection(store, other)
  {
    if file.Some? && file.value != JNull && Connect !in faults && CreateIndexes !in faults {
      RunIsWrites(store, faults, file, now);
      WritesFrame(store, faults, SectionsOf(file.value, now), other);
    }
  }

  lemma WritesFrame(store: Store, faults: set<Op>, input: Sections, other: string)
    requires other != Components && other != Utils && other != StaticFiles && other != MetadataCollection
    ensures Collection(Writes(store, faults, input).store, other) == Collection(store, other)
  {
    AfterComponentsFrame(Replace(store, faults, Components, input.components), faults, input, other);
  }

  lemma AfterComponentsFrame(c: Step<nat>, faults: set<Op>, input: Sections, other: string)
    requires other != Utils && other != StaticFiles && other != MetadataCollection
    ensures Collection(AfterComponents(c, faults, input).store, other) == Collection(c.store, other)
  {
    if c.outcome.Ok? {
      AfterUtilsFrame(c.outcome.value, Replace(c.store, faults, Utils, input.utils), faults, input, other);
    }
  }

  lemma AfterUtilsFrame(nc: nat, u: Step<nat>, faults: set<Op>, input: Sections, other: string)
    requires other != StaticFiles && other != MetadataCollection
    ensures Collection(AfterUtils(nc, u, faults, input).store, other) == Collection(u.store, other)
  {
    if u.outcome.Ok? {
      AfterStaticFrame(nc, u.outcome.value, Replace(u.store, faults, StaticFiles, OrEmpty(input.staticFiles)), faults, input, other);
    }
  }

  lemma AfterStaticFrame(nc: nat, nu: nat, s: Step<nat>, faults: set<Op>, input: Sections, other: string)
    requires other != MetadataCollection
    ensures Collection(AfterStatic(nc, nu, s, faults, input).store, other) == Collection(s.store, other)
  {
  }

  /** Nothing is written when the file cannot be read, the connection or the indexes
      fail, or the file holds `null`. */
  lemma EarlyFailureWritesNothing(store: Store, faults: set<Op>, file: Option<Json>, now: string)
    requires file.None? || Connect in faults || CreateIndexes in faults || file == Some(JNull)
    ensures UpdateRun(store, faults, file, now).store == store
    ensures UpdateRun(store, faults, file, now).outcome.Err?
  {
  }

  /** When the utilities step is refused, the components replacement already made stays,
      and `static_files` and `metadata` are untouched. */
  lemma UtilsFailureKeepsComponents(store: Store, faults: set<Op>, input: Sections)
    requires DeleteMany(Components) !in faults && InsertMany(Components) !in faults
    requires Documents(input.components)
    requires DeleteMany(Utils) in faults
    ensures Writes(store, faults, input).outcome == Err(Rejected(DeleteMany(Utils)))
    ensures Collection(Writes(store, faults, input).store, Components) == ObjectValues(input.components).value
    ensures Collection(Writes(store, faults, input).store, Utils) == Collection(store, Utils)
    ensures Collection(Writes(store, faults, input).store, StaticFiles) == Collection(store, StaticFiles)
    ensures Collection(Writes(store, faults, input).store, MetadataCollection) == Collection(store, MetadataCollection)
  {
    NamesDiffer();
  }

  /** `Object.values` turns the input into documents `insertMany` takes. */
  predicate Documents(v: Value) {
    ObjectValues(v).Some? && AllObjects(ObjectValues(v).value)
  }

  /** Without refusals, a file holding an object whose `components`, `utils` and
      `static || {}` are collections of objects, and whose metadata document keeps its
      tag, always updates successfully on a database the indexes kept. */
  lemma FaultFreeRunSucceeds(store: Store, data: Object<Json>, now: string)
    requires Documents(Get(data, "components")) && Documents(Get(data, "utils"))
    requires Documents(OrEmpty(Get(data, "static")))
    requires UniqueTypes(Collection(store, MetadataCollection))
    requires Tagged(MetadataDoc(Get(data, "metadata"), now))
    ensures UpdateRun(store, {}, Some(JObj(data)), now).outcome.Ok?
  {
    RunIsWrites(store, {}, Some(JObj(data)), now);
    UniqueTypesAdmitTagged(Collection(store, MetadataCollection), MetadataDoc(Get(data, "metadata"), now));
    FaultFreeWritesSucceed(store, SectionsOf(JObj(data), now));
  }

  lemma FaultFreeWritesSucceed(store: Store, input: Sections)
    requires Documents(input.components) && Documents(input.utils) && Documents(OrEmpty(input.staticFiles))
    requires !TypeTaken(Collection(store, MetadataCollection), input.document)
    ensures Writes(store, {}, input).outcome.Ok?
  {
    NamesDiffer();
  }

  /** Past the read, the connection and the indexes, a run is its four writes. */
  lemma RunIsWrites(store: Store, faults: set<Op>, file: Option<Json>, now: string)
    requires file.Some? && file.value != JNull && Connect !in faults && CreateIndexes !in faults
    ensures UpdateRun(store, faults, file, now) == Writes(store, faults, SectionsOf(file.value, now))
  {
  }

  /** The collection `name` already holds what the replacement writes, so running it again
      changes nothing. */
  predicate Settled(store: Store, faults: set<Op>, name: string, value: Value) {
    DeleteMany(name) in faults || (name in store && store[name] == Written(faults, name, value))
  }

  /** A replacement settles its own collection. */
  lemma ReplaceSettles(store: Store, faults: set<Op>, name: string, value: Value)
    ensures Settled(Replace(store, faults, name, value).store, faults, name, value)
  {
  }

  /** On a settled collection a replacement changes nothing, and it returns what it
      returns on any database. */
  lemma ReplaceAgain(store: Store, other: Store, faults: set<Op>, name: string, value: Value)
    requires Settled(store, faults, name, value)
    ensures Replace(store, faults, name, value) == Step(store, Replace(other, faults, name, value).outcome)
  {
  }

  /** A replacement keeps the other settled collections settled. */
  lemma ReplaceKeepsSettled(store: Store, faults: set<Op>, name: string, value: Value, other: string, v: Value)
    requires other != name && Settled(store, faults, other, v)
    ensures Settled(Replace(store, faults, name, value).store, faults, other, v)
  {
  }

  /** Two runs' writes that differ at most in the metadata document, which both tag. */
  predicate Rerun(input: Sections, again: Sections) {
    && input.components == again.components && input.utils == again.utils && input.staticFiles == again.staticFiles
    && Tagged(input.document) && Tagged(again.document)
  }

  lemma StaticAgain(nc: nat, nu: nat, s: Step<nat>, faults: set<Op>, input: Sections, again: Sections)
    requires Rerun(input, again)
    ensures AfterStatic(nc, nu, Step(AfterStatic(nc, nu, s, faults, input).store, s.outcome), faults, again)
         == AfterStatic(nc, nu, s, faults, again)
  {
    if s.outcome.Ok? {
      MetadataWriteAgain(s.store, faults, input.document, again.document);
    }
  }

  lemma SettledAfterStatic(nc: nat, nu: nat, s: Step<nat>, faults: set<Op>, input: Sections, name: string, v: Value)
    requires name != MetadataCollection && Settled(s.store, faults, name, v)
    ensures Settled(AfterStatic(nc, nu, s, faults, input).store, faults, name, v)
  {
  }

  lemma UtilsAgain(nc: nat, u: Step<nat>, faults: set<Op>, input: Sections, again: Sections)
    requires Rerun(input, again)
    ensures AfterUtils(nc, Step(AfterUtils(nc, u, faults, input).store, u.outcome), faults, again)
         == AfterUtils(nc, u, faults, again)
  {
    if u.outcome.Ok? {
      NamesDiffer();
      ReplaceSettles(u.store, faults, StaticFiles, OrEmpty(input.staticFiles));
      SettledAfterStatic(nc, u.outcome.value, Replace(u.store, faults, StaticFiles, OrEmpty(input.staticFiles)),
                         faults, input, StaticFiles, OrEmpty(input.staticFiles));
      ReplaceAgain(AfterUtils(nc, u, faults, input).store, u.store, faults, StaticFiles, OrEmpty(input.staticFiles));
      StaticAgain(nc, u.outcome.value, Replace(u.store, faults, StaticFiles, OrEmpty(input.staticFiles)), faults, input, again);
    }
  }

  lemma SettledAfterUtils(nc: nat, u: Step<nat>, faults: set<Op>, input: Sections, name: string, v: Value)
    requires name != StaticFiles && name != MetadataCollection && Settled(u.store, faults, name, v)
    ensures Settled(AfterUtils(nc, u, faults, input).store, faults, name, v)
  {
    if u.outcome.Ok? {
      ReplaceKeepsSettled(u.store, faults, StaticFiles, OrEmpty(input.staticFiles), name, v);
      SettledAfterStatic(nc, u.outcome.value, Replace(u.store, faults, StaticFiles, OrEmpty(input.staticFiles)),
                         faults, input, name, v);
    }
  }

  lemma ComponentsAgain(c: Step<nat>, faults: set<Op>, input: Sections, again: Sections)
    requires Rerun(input, again)
    ensures AfterComponents(Step(AfterComponents(c, faults, input).store, c.outcome), faults, again)
         == AfterComponents(c, faults, again)
  {
    if c.outcome.Ok? {
      NamesDiffer();
      ReplaceSettles(c.store, faults, Utils, input.utils);
      SettledAfterUtils(c.outcome.value, Replace(c.store, faults, Utils, input.utils), faults, input, Utils, input.utils);
      ReplaceAgain(AfterComponents(c, faults, input).store, c.store, faults, Utils, input.utils);
      UtilsAgain(c.outcome.value, Replace(c.store, faults, Utils, input.utils), faults, input, again);
    }
  }

  lemma SettledAfterComponents(c: Step<nat>, faults: set<Op>, input: Sections, name: string, v: Value)
    requires name != Utils && name != StaticFiles && name != MetadataCollection && Settled(c.store, faults, name, v)
    ensures Settled(AfterComponents(c, faults, input).store, faults, name, v)
  {
    if c.outcome.Ok? {
      ReplaceKeepsSettled(c.store, faults, Utils, input.utils, name, v);
      SettledAfterUtils(c.outcome.value, Replace(c.store, faults, Utils, input.utils), faults, input, name, v);
    }
  }

  /** Running the four writes again, with the same collections and another tagged
      metadata document, leaves the database as running the second alone, and fails or
      succeeds the same way. */
  lemma WritesTwice(store: Store, faults: set<Op>, input: Sections, again: Sections)
    requires Rerun(input, again)
    ensures Writes(Writes(store, faults, input).store, faults, again) == Writes(store, faults, again)
  {
    NamesDiffer();
    ReplaceSettles(store, faults, Components, input.components);
    SettledAfterComponents(Replace(store, faults, Components, input.components), faults, input, Components, input.components);
    ReplaceAgain(Writes(store, faults, input).store, store, faults, Components, input.components);
    ComponentsAgain(Replace(store, faults, Components, input.components), faults, input, again);
  }

  /** Running the update from the same file again, at any later time, leaves the database
      as running it once at that time, refusals included, when the metadata document
      keeps its tag. */
  lemma UpdateTwice(store: Store, faults: set<Op>, file: Option<Json>, now: string, later: string)
    requires file.Some? ==> Tagged(MetadataDoc(Field(file.value, "metadata"), now))
    requires file.Some? ==> Tagged(MetadataDoc(Field(file.value, "metadata"), later))
    ensures UpdateRun(UpdateRun(store, faults, file, now).store, faults, file, later) == UpdateRun(store, faults, file, later)
  {
    if file.Some? && Connect !in faults && CreateIndexes !in faults && file.value != JNull {
      RunIsWrites(store, faults, file, now);
      RunIsWrites(UpdateRun(store, faults, file, now).store, faults, file, later);
      RunIsWrites(store, faults, file, later);
      WritesTwice(store, faults, SectionsOf(file.value, now), SectionsOf(file.value, later));
    }
  }

  /** `process.exit(result.success ? 0 : 1)`. */
  function ExitCode(result: Outcome<Counts>): (code: int)
    ensures code == 0 <==> result.Ok?
    ensures code == 0 || code == 1
  {
    if result.Ok? then 0 else 1
  }

  // ---- The updater object ----

  class DatabaseUpdater {
    /** Whether `client` holds an open connection. */
    var connected: bool
    /** The database behind the client. */
    var store: Store
    /** The operations the database refuses. */
    const faults: set<Op>

    constructor (store: Store, faults: set<Op>)
      ensures !connected && this.store == store && this.faults == faults
    {
      connected := false;
      this.store := store;
      this.faults := faults;
    }

    method Connect() returns (r: Outcome<()>)
      modifies this
      ensures r == if Op.Connect in faults then Err(Rejected(Op.Connect)) else Ok(())
      ensures connected == (old(connected) || Op.Connect !in faults)
      ensures store == old(store)
    {
      if Op.Connect in faults {
        return Err(Rejected(Op.Connect));
      }
      connected := true;
      r := Ok(());
    }

    method Disconnect()
      modifies this
      ensures !connected && store == old(store)
    {
      connected := false;
    }

    method CreateIndexes() returns (r: Outcome<()>)
      ensures r == if Op.CreateIndexes in faults then Err(Rejected(Op.CreateIndexes)) else Ok(())
    {
      r := if Op.CreateIndexes in faults then Err(Rejected(Op.CreateIndexes)) else Ok(());
    }

    /** The shared body of the three collection updates. */
    method ReplaceCollection(name: string, value: Value) returns (r: Outcome<nat>)
      modifies this
      ensures Step(store, r) == Replace(old(store), faults, name, value)
      ensures connected == old(connected)
    {
      if DeleteMany(name) in faults {
        return Err(Rejected(DeleteMany(name)));
      }
      store := store[name := []];
      var items := ObjectValues(value);
      if items.None? {
        return Err(TypeError);
      }
      if |items.value| > 0 {
        if !AllObjects(items.value) {
          return Err(TypeError);
        }
        if InsertMany(name) in faults {
          return Err(Rejected(InsertMany(name)));
        }
        store := store[name := items.value];
      }
      r := Ok(|items.value|);
    }

    method UpdateComponents(components: Value) returns (r: Outcome<nat>)
      modifies this
      ensures Step(store, r) == Replace(old(store), faults, Components, components)
      ensures connected == old(connected)
    {
      r := ReplaceCollection(Components, components);
    }

    method UpdateUtils(utils: Value) returns (r: Outcome<nat>)
      modifies this
      ensures Step(store, r) == Replace(old(store), faults, Utils, utils)
      ensures connected == old(connected)
    {
      r := ReplaceCollection(Utils, utils);
    }

    method UpdateStaticFiles(staticFiles: Value) returns (r: Outcome<nat>)
      modifies this
      ensures Step(store, r) == Replace(old(store), faults, StaticFiles, OrEmpty(staticFiles))
      ensures connected == old(connected)
    {
      r := ReplaceCollection(StaticFiles, OrEmpty(staticFiles));
    }

    method UpdateMetadata(metadata: Value, now: string) returns (r: Outcome<()>)
      modifies this
      ensures Step(store, r) == MetadataWrite(old(store), faults, MetadataDoc(metadata, now))
      ensures connected == old(connected)
    {
      if ReplaceOne(MetadataCollection) in faults {
        return Err(Rejected(ReplaceOne(MetadataCollection)));
      }
      var metadataDoc := MetadataDoc(metadata, now);
      var docs := Collection(store, MetadataCollection);
      if TypeTaken(docs, metadataDoc) {
        return Err(DuplicateKey);
      }
      store := store[MetadataCollection := Upsert(docs, metadataDoc)];
      r := Ok(());
    }

    /** The steps in order; every exit disconnects. */
    method UpdateDatabase(file: Option<Json>, now: string) returns (result: Outcome<Counts>)
      modifies this
      ensures Step(store, result) == UpdateRun(old(store), faults, file, now)
      ensures !connected
    {
      if file.None? {
        Disconnect();
        return Err(ReadFailed);
      }
      var data := file.value;
      var connection := Connect();
      if connection.Err? {
        Disconnect();
        return Err(connection.error);
      }
      var indexes := CreateIndexes();
      if indexes.Err? {
        Disconnect();
        return Err(indexes.error);
      }
      if data == JNull {
        Disconnect();
        return Err(TypeError);
      }
      var componentsCount := UpdateComponents(Field(data, "components"));
      if componentsCount.Err? {
        Disconnect();
        return Err(componentsCount.error);
      }
      var utilsCount := UpdateUtils(Field(data, "utils"));
      if utilsCount.Err? {
        Disconnect();
        return Err(utilsCount.error);
      }
      var staticCount := UpdateStaticFiles(Field(data, "static"));
      if staticCount.Err? {
        Disconnect();
        return Err(staticCount.error);
      }
      var written := UpdateMetadata(Field(data, "metadata"), now);
      if written.Err? {
        Disconnect();
        return Err(written.error);
      }
      Disconnect();
      result := Ok(Counts(componentsCount.value, utilsCount.value, staticCount.value));
    }
  }

  /** `main`: one update, then the exit status. */
  method Cli(updater: DatabaseUpdater, file: Option<Json>, now: string) returns (code: int)
    modifies updater
    ensures code == ExitCode(UpdateRun(old(updater.store), updater.faults, file, now).outcome)
    ensures updater.store == UpdateRun(old(updater.store), updater.faults, file, now).store
  {
    var result := updater.UpdateDatabase(file, now);
    code := if result.Ok? then 0 else 1;
  }

  // ---- Backup ----

  /** Each document under the property name of its `id`. */
  function ById(docs: seq<Json>): seq<(string, Json)> {
    seq(|docs|, i requires 0 <= i < |docs| => (PropertyName(Field(docs[i], "id")), docs[i]))
  }

  /** `docs.reduce((acc, doc) => { acc[doc.id] = doc; return acc; }, {})`. */
  function Rekey(docs: seq<Json>): Object<Json> {
    PutAll(ById(docs))
  }

  /** `findOne({ type: "app_metadata" }) || {}`. */
  function FoundMetadata(docs: seq<Json>): Json {
    match FirstTagged(docs)
    case Some(i) => docs[i]
    case None => JObj([])
  }

  /** The backup object of `backupDatabase`. */
  function Backup(store: Store): Json {
    JObj([
      ("components", JObj(Rekey(Collection(store, Components)))),
      ("utils", JObj(Rekey(Collection(store, Utils)))),
      ("static", JObj(Rekey(Collection(store, StaticFiles)))),
      ("metadata", FoundMetadata(Collection(store, MetadataCollection)))])
  }

  /** The backup's four properties. */
  lemma BackupFields(store: Store)
    ensures Field(Backup(store), "components") == Some(JObj(Rekey(Collection(store, Components))))
    ensures Field(Backup(store), "utils") == Some(JObj(Rekey(Collection(store, Utils))))
    ensures Field(Backup(store), "static") == Some(JObj(Rekey(Collection(store, StaticFiles))))
    ensures Field(Backup(store), "metadata") == Some(FoundMetadata(Collection(store, MetadataCollection)))
  {
    var props := Backup(store).props;
    assert props[0].0[0] == 'c' && props[1].0[0] == 'u' && props[2].0[0] == 's' && props[3].0[0] == 'm';
    GetAt(props, 0);
    GetAt(props, 1);
    GetAt(props, 2);
    GetAt(props, 3);
  }

  /** Under each id is the last document with that id. */
  lemma RekeyLastWins(docs: seq<Json>, i: nat)
    requires i < |docs|
    requires forall j :: i < j < |docs| ==> PropertyName(Field(docs[j], "id")) != PropertyName(Field(docs[i], "id"))
    ensures Get(Rekey(docs), PropertyName(Field(docs[i], "id"))) == Some(docs[i])
  {
    PutAllLast(ById(docs), i);
  }

  /** An id no document has is absent. */
  lemma RekeyAbsent(docs: seq<Json>, k: string)
    requires forall j :: 0 <= j < |docs| ==> PropertyName(Field(docs[j], "id")) != k
    ensures Get(Rekey(docs), k).None?
  {
    PutAllAbsent(ById(docs), k);
  }

  /** Without a metadata document the backup's `metadata` is `{}`. */
  lemma BackupWithoutMetadata(store: Store)
    requires forall j :: 0 <= j < |Collection(store, MetadataCollection)| ==> !Tagged(Collection(store, MetadataCollection)[j])
    ensures Field(Backup(store), "metadata") == Some(JObj([]))
  {
    BackupFields(store);
  }

  /** With distinct ids, a backed-up collection restores exactly: `Object.values` of its
      backup object is the collection, so an update from the backup rewrites it as it was. */
  lemma BackupRestores(store: Store, faults: set<Op>, name: string, docs: seq<Json>)
    requires Distinct(Keys(ById(docs))) && AllObjects(docs)
    requires DeleteMany(name) !in faults && InsertMany(name) !in faults
    ensures ObjectValues(Some(JObj(Rekey(docs)))) == Some(docs)
    ensures Collection(Replace(store, faults, name, Some(JObj(Rekey(docs)))).store, name) == docs
  {
    PutAllKeyed(ById(docs), Keys(ById(docs)));
    assert Values(ById(docs)) == docs;
  }
}

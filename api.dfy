/**
 * The service layer of `backend/app/main.py`: the scheduled ingestion of the
 * two JSON files, the training endpoint with its global lock, and the read
 * endpoints that reshape stored rows for the frontend.
 */
module Api {
  import opened Wrappers
  import opened Models
  import opened Crud
  import opened NlpPipeline

  // ---------------------------------------------------------------------
  // ingest_data_from_files
  // ---------------------------------------------------------------------

  /** A record as read from a JSON file: `published_at` is still the ISO string. */
  type RawItem = Item<string>

  /** `str.replace('Z', '+00:00')`: every `Z` becomes an explicit UTC offset. */
  function ReplaceZ(s: string): (r: string)
    ensures 'Z' !in r
    ensures 'Z' !in s ==> r == s
    ensures |s| <= |r|
  {
    if s == [] then []
    else (if s[0] == 'Z' then "+00:00" else [s[0]]) + ReplaceZ(s[1..])
  }

  /** One character: a `Z` becomes `+00:00`, any other character stays. */
  lemma ReplaceZChar(c: char)
    ensures ReplaceZ([c]) == if c == 'Z' then "+00:00" else [c]
  {
    assert [c][1..] == [];
  }

  /** The rewrite of a non-empty string: its first character rewritten, then the rest. */
  lemma ReplaceZHead(s: string)
    requires s != []
    ensures ReplaceZ(s) == (if s[0] == 'Z' then "+00:00" else [s[0]]) + ReplaceZ(s[1..])
  {
  }

  lemma TailOfConcat<T>(a: seq<T>, b: seq<T>)
    requires a != []
    ensures (a + b)[0] == a[0] && (a + b)[1..] == a[1..] + b
  {
  }

  lemma ConcatAssoc<T>(x: seq<T>, y: seq<T>, z: seq<T>)
    ensures x + (y + z) == (x + y) + z
  {
  }

  /** The rewrite works character by character, so it distributes over concatenation. */
  lemma {:induction false} ReplaceZConcat(a: string, b: string)
    ensures ReplaceZ(a + b) == ReplaceZ(a) + ReplaceZ(b)
  {
    if a == [] {
      assert a + b == b;
    } else {
      var h := if a[0] == 'Z' then "+00:00" else [a[0]];
      ReplaceZConcat(a[1..], b);
      TailOfConcat(a, b);
      ReplaceZHead(a);
      ReplaceZHead(a + b);
      ConcatAssoc(h, ReplaceZ(a[1..]), ReplaceZ(b));
    }
  }

  /** The parsed record keeps every field of the raw one but `published_at`. */
  predicate SameFields(x: Record, raw: RawItem) {
    x.url == raw.url && x.title == raw.title && x.fullContent == raw.fullContent
    && x.sourceType == raw.sourceType && x.extra == raw.extra
  }

  /**
   * The conversion loop over `articles + videos`: `parse` is `fromisoformat`,
   * `None` where it raises. Any failure aborts the whole batch.
   */
  function ConvertAll(items: seq<RawItem>, parse: string -> Option<Timestamp>): (r: Option<seq<Record>>)
    ensures r.Some? <==> forall i :: 0 <= i < |items| ==> parse(ReplaceZ(items[i].publishedAt)).Some?
    ensures r.Some? ==> |r.value| == |items|
  {
    if items == [] then Some([])
    else
      var prefix := items[..|items| - 1];
      var last := items[|items| - 1];
      assert forall i :: 0 <= i < |prefix| ==> prefix[i] == items[i];
      match (ConvertAll(prefix, parse), parse(ReplaceZ(last.publishedAt)))
      case (Some(done), Some(ts)) =>
        Some(done + [Item(last.url, last.title, ts, last.fullContent, last.sourceType, last.extra)])
      case _ => None
  }

  /** Each converted record is its raw item with the parsed date. */
  lemma {:induction false} ConvertAllFields(items: seq<RawItem>, parse: string -> Option<Timestamp>)
    requires ConvertAll(items, parse).Some?
    ensures var r := ConvertAll(items, parse).value;
            forall i :: 0 <= i < |items| ==>
              SameFields(r[i], items[i]) && Some(r[i].publishedAt) == parse(ReplaceZ(items[i].publishedAt))
  {
    if items != [] {
      var prefix := items[..|items| - 1];
      assert forall i :: 0 <= i < |prefix| ==> prefix[i] == items[i];
      ConvertAllFields(prefix, parse);
    }
  }

  method ConvertPublishedAt(items: seq<RawItem>, parse: string -> Option<Timestamp>) returns (r: Option<seq<Record>>)
    ensures r == ConvertAll(items, parse)
  {
    var done: seq<Record> := [];
    for i := 0 to |items|
      invariant ConvertAll(items[..i], parse) == Some(done)
    {
      var item := items[i];
      var published := parse(ReplaceZ(item.publishedAt));
      if published.None? {
        return None;
      }
      assert items[..i + 1] == items[..i] + [item];
      done := done + [Item(item.url, item.title, published.value, item.fullContent, item.sourceType, item.extra)];
    }
    assert items[..|items|] == items;
    return Some(done);
  }

  datatype IngestOutcome =
    | FilesMissing                 // FileNotFoundError: caught, nothing ingested
    | ParseFailed                  // fromisoformat raised before any insert
    | ArticlesRejected             // the article batch failed to commit
    | VideosRejected(articles: nat) // the articles were committed, the video batch failed
    | Ingested(articles: nat, videos: nat)

  /** The outcomes that leave `ingest_data_from_files` by an exception. */
  predicate IngestRaises(outcome: IngestOutcome) {
    outcome.ParseFailed? || outcome.ArticlesRejected? || outcome.VideosRejected?
  }

  /**
   * The effect of `ingest_data_from_files` on the documents. A file that is
   * absent is `None`; the articles are inserted, then the videos.
   */
  function Ingest(docs: seq<Document>, articles: Option<seq<RawItem>>, videos: Option<seq<RawItem>>,
                  parse: string -> Option<Timestamp>): (seq<Document>, IngestOutcome)
  {
    if articles.None? || videos.None? then (docs, FilesMissing)
    else
      match ConvertAll(articles.value + videos.value, parse)
      case None => (docs, ParseFailed)
      case Some(all) =>
        var n := |articles.value|;
        match BulkCreate(docs, all[..n])
        case None => (docs, ArticlesRejected)
        case Some(a) =>
          match BulkCreate(a.docs, all[n..])
          case None => (a.docs, VideosRejected(a.count))
          case Some(v) => (v.docs, Ingested(a.count, v.count))
  }

  method IngestDataFromFiles(db: Store, articles: Option<seq<RawItem>>, videos: Option<seq<RawItem>>,
                             parse: string -> Option<Timestamp>) returns (outcome: IngestOutcome)
    requires db.Valid()
    modifies db
    ensures db.Valid()
    ensures db.topics == old(db.topics) && db.temporal == old(db.temporal)
    ensures (db.docs, outcome) == Ingest(old(db.docs), articles, videos, parse)
  {
    if articles.None? || videos.None? {
      return FilesMissing;
    }
    var all := ConvertPublishedAt(articles.value + videos.value, parse);
    if all.None? {
      return ParseFailed;
    }
    var n := |articles.value|;
    var insertedArticles := db.BulkCreateDocuments(all.value[..n]);
    if insertedArticles.None? {
      return ArticlesRejected;
    }
    var insertedVideos := db.BulkCreateDocuments(all.value[n..]);
    if insertedVideos.None? {
      return VideosRejected(insertedArticles.value);
    }
    return Ingested(insertedArticles.value, insertedVideos.value);
  }

  /** The conversion fails exactly when some item's date does not parse. */
  lemma ConvertAllFails(items: seq<RawItem>, parse: string -> Option<Timestamp>)
    ensures ConvertAll(items, parse).None? <==> exists x :: x in items && parse(ReplaceZ(x.publishedAt)).None?
  {
    if ConvertAll(items, parse).None? {
      var i :| 0 <= i < |items| && parse(ReplaceZ(items[i].publishedAt)).None?;
      assert items[i] in items;
    } else {
      forall x | x in items ensures parse(ReplaceZ(x.publishedAt)).Some? {
        var i :| 0 <= i < |items| && items[i] == x;
      }
    }
  }

  /**
   * A missing file is the only caught failure; a date that does not parse is
   * the only reason for `ParseFailed`; and every failure before the article
   * commit leaves the stored documents as they were.
   */
  lemma IngestErrorCases(docs: seq<Document>, articles: Option<seq<RawItem>>, videos: Option<seq<RawItem>>,
                         parse: string -> Option<Timestamp>)
    ensures var (after, outcome) := Ingest(docs, articles, videos, parse);
            && (outcome.FilesMissing? <==> articles.None? || videos.None?)
            && (outcome.ParseFailed? <==>
                  articles.Some? && videos.Some? &&
                  exists x :: x in articles.value + videos.value && parse(ReplaceZ(x.publishedAt)).None?)
            && (outcome.FilesMissing? || outcome.ParseFailed? || outcome.ArticlesRejected? ==> after == docs)
  {
    if articles.Some? && videos.Some? {
      ConvertAllFails(articles.value + videos.value, parse);
    }
  }

  /** Urls are kept by the conversion. */
  lemma ConvertedUrls(conv: seq<Record>, items: seq<RawItem>)
    requires |conv| == |items|
    requires forall i :: 0 <= i < |items| ==> conv[i].url == items[i].url
    ensures ItemUrls(conv) == ItemUrls(items)
  {
    forall x | x in items ensures x.url in (set y | y in conv :: y.url) {
      var i :| 0 <= i < |items| && items[i] == x;
      assert conv[i] in conv;
    }
    forall x | x in conv ensures x.url in (set y | y in items :: y.url) {
      var i :| 0 <= i < |conv| && conv[i] == x;
      assert items[i] in items;
    }
  }

  /** A row added by a commit has a url that was not stored before it. */
  lemma AddedUrlsWereFree(docs: seq<Document>, records: seq<Record>, k: nat)
    requires BulkCreate(docs, records).Some?
    requires |docs| <= k < |BulkCreate(docs, records).value.docs|
    ensures BulkCreate(docs, records).value.docs[k].url !in Urls(docs)
  {
    BulkCreateAppendsNewRows(docs, records);
    var newRecs := NewRecords(Urls(docs), records);
    assert newRecs[k - |docs|] in newRecs;
  }

  /** Two batches committed one after the other: the second adds no row for a url of the first. */
  lemma TwoBatches(docs: seq<Document>, first: seq<Record>, second: seq<Record>)
    requires BulkCreate(docs, first).Some?
    requires BulkCreate(BulkCreate(docs, first).value.docs, second).Some?
    ensures var a := BulkCreate(docs, first).value;
            var v := BulkCreate(a.docs, second).value;
            var firstUrls := ItemUrls(first);
            && |v.docs| == |docs| + a.count + v.count
            && v.docs[..|docs|] == docs
            && Urls(v.docs) == Urls(docs) + firstUrls + ItemUrls(second)
            && (forall k :: |docs| + a.count <= k < |v.docs| ==> v.docs[k].url !in firstUrls)
  {
    var a := BulkCreate(docs, first).value;
    var v := BulkCreate(a.docs, second).value;
    BulkCreateAppendsNewRows(docs, first);
    BulkCreateStoresUrls(docs, first);
    BulkCreateAppendsNewRows(a.docs, second);
    BulkCreateStoresUrls(a.docs, second);
    assert v.docs[..|docs|] == a.docs[..|a.docs|][..|docs|];
    forall k | |a.docs| <= k < |v.docs| ensures v.docs[k].url !in Urls(a.docs) {
      AddedUrlsWereFree(a.docs, second, k);
    }
  }

  /** The converted batch splits into the converted articles and the converted videos. */
  lemma ConvertedSplit(articles: seq<RawItem>, videos: seq<RawItem>, all: seq<Record>)
    requires |all| == |articles| + |videos|
    requires forall i :: 0 <= i < |articles| ==> all[i].url == articles[i].url
    requires forall i :: 0 <= i < |videos| ==> all[|articles| + i].url == videos[i].url
    ensures ItemUrls(all[..|articles|]) == ItemUrls(articles)
    ensures ItemUrls(all[|articles|..]) == ItemUrls(videos)
  {
    var n := |articles|;
    var convA, convV := all[..n], all[n..];
    assert forall i :: 0 <= i < n ==> convA[i] == all[i];
    assert forall i :: 0 <= i < |videos| ==> convV[i] == all[n + i];
    ConvertedUrls(convA, articles);
    ConvertedUrls(convV, videos);
  }

  /** The conversion of `articles + videos` keeps each item's url at its position. */
  lemma ConvertedBatchUrls(articles: seq<RawItem>, videos: seq<RawItem>, parse: string -> Option<Timestamp>)
    requires ConvertAll(articles + videos, parse).Some?
    ensures var all := ConvertAll(articles + videos, parse).value;
            && |all| == |articles| + |videos|
            && (forall i :: 0 <= i < |articles| ==> all[i].url == articles[i].url)
            && (forall i :: 0 <= i < |videos| ==> all[|articles| + i].url == videos[i].url)
  {
    var items := articles + videos;
    ConvertAllFields(items, parse);
    assert forall i :: 0 <= i < |articles| ==> items[i] == articles[i];
    assert forall i :: 0 <= i < |videos| ==> items[|articles| + i] == videos[i];
  }

  /** Committing the converted articles, then the converted videos, stores both url sets and adds no article url twice. */
  lemma ArticlesThenVideos(docs: seq<Document>, articles: seq<RawItem>, videos: seq<RawItem>, all: seq<Record>)
    requires |all| == |articles| + |videos|
    requires forall i :: 0 <= i < |articles| ==> all[i].url == articles[i].url
    requires forall i :: 0 <= i < |videos| ==> all[|articles| + i].url == videos[i].url
    requires BulkCreate(docs, all[..|articles|]).Some?
    requires BulkCreate(BulkCreate(docs, all[..|articles|]).value.docs, all[|articles|..]).Some?
    ensures var a := BulkCreate(docs, all[..|articles|]).value;
            var v := BulkCreate(a.docs, all[|articles|..]).value;
            var articleUrls := ItemUrls(articles);
            && |v.docs| == |docs| + a.count + v.count
            && v.docs[..|docs|] == docs
            && Urls(v.docs) == Urls(docs) + articleUrls + ItemUrls(videos)
            && (forall k :: |docs| + a.count <= k < |v.docs| ==> v.docs[k].url !in articleUrls)
  {
    ConvertedSplit(articles, videos, all);
    TwoBatches(docs, all[..|articles|], all[|articles|..]);
  }

  /**
   * A full ingestion appends rows after the stored ones, every url of both
   * files is stored afterwards, and since the articles go in first, no video
   * row is added for a url that an article carries.
   */
  lemma IngestStoresArticlesBeforeVideos(docs: seq<Document>, articles: Option<seq<RawItem>>,
                                         videos: Option<seq<RawItem>>, parse: string -> Option<Timestamp>)
    requires Ingest(docs, articles, videos, parse).1.Ingested?
    ensures var (after, outcome) := Ingest(docs, articles, videos, parse);
            var articleUrls := ItemUrls(articles.value);
            && |after| == |docs| + outcome.articles + outcome.videos
            && after[..|docs|] == docs
            && Urls(after) == Urls(docs) + articleUrls + ItemUrls(videos.value)
            && (forall k :: |docs| + outcome.articles <= k < |after| ==> after[k].url !in articleUrls)
  {
    IngestedParts(docs, articles, videos, parse);
    ConvertedThenCommitted(docs, articles.value, videos.value, parse);
  }

  lemma ConvertedThenCommitted(docs: seq<Document>, articles: seq<RawItem>, videos: seq<RawItem>,
                               parse: string -> Option<Timestamp>)
    requires ConvertAll(articles + videos, parse).Some?
    requires var all := ConvertAll(articles + videos, parse).value;
             && |articles| <= |all|
             && BulkCreate(docs, all[..|articles|]).Some?
             && BulkCreate(BulkCreate(docs, all[..|articles|]).value.docs, all[|articles|..]).Some?
    ensures var all := ConvertAll(articles + videos, parse).value;
            var a := BulkCreate(docs, all[..|articles|]).value;
            var v := BulkCreate(a.docs, all[|articles|..]).value;
            var articleUrls := ItemUrls(articles);
            && |v.docs| == |docs| + a.count + v.count
            && v.docs[..|docs|] == docs
            && Urls(v.docs) == Urls(docs) + articleUrls + ItemUrls(videos)
            && (forall k :: |docs| + a.count <= k < |v.docs| ==> v.docs[k].url !in articleUrls)
  {
    ConvertedBatchUrls(articles, videos, parse);
    ArticlesThenVideos(docs, articles, videos, ConvertAll(articles + videos, parse).value);
  }

  /** A full ingestion is the conversion of both files followed by two successful commits. */
  lemma IngestedParts(docs: seq<Document>, articles: Option<seq<RawItem>>,
                      videos: Option<seq<RawItem>>, parse: string -> Option<Timestamp>)
    requires Ingest(docs, articles, videos, parse).1.Ingested?
    ensures articles.Some? && videos.Some? && ConvertAll(articles.value + videos.value, parse).Some?
    ensures var all := ConvertAll(articles.value + videos.value, parse).value;
            var n := |articles.value|;
            && n <= |all|
            && BulkCreate(docs, all[..n]).Some?
            && BulkCreate(BulkCreate(docs, all[..n]).value.docs, all[n..]).Some?
            && var a := BulkCreate(docs, all[..n]).value;
               var v := BulkCreate(a.docs, all[n..]).value;
               Ingest(docs, articles, videos, parse) == (v.docs, Ingested(a.count, v.count))
  {
  }

  // ---------------------------------------------------------------------
  // POST /api/train
  // ---------------------------------------------------------------------

  /** `training_lock`, a process-wide non-reentrant lock. */
  class TrainingLock {
    var locked: bool

    constructor ()
      ensures !locked
    {
      locked := false;
    }

    /** `acquire(blocking=False)`: succeeds exactly when the lock was free, and then holds it. */
    method Acquire() returns (acquired: bool)
      modifies this
      ensures acquired == !old(locked)
      ensures locked
    {
      acquired := !locked;
      locked := true;
    }

    method Release()
      modifies this
      ensures !locked
    {
      locked := false;
    }
  }

  datatype TrainResponse =
    | Accepted(train: TrainOutcome)   // 202
    | Conflict                        // 409: training already in progress
    | ServerError                     // an exception escaped the handler

  /** The effect of `trigger_initial_training`, given whether the lock was held on entry. */
  function Trigger(locked: bool, t: Tables, saved: Option<Model>, o: Oracle,
                   articles: Option<seq<RawItem>>, videos: Option<seq<RawItem>>,
                   parse: string -> Option<Timestamp>): Run<TrainResponse>
  {
    if locked then Run(t, saved, Conflict)
    else
      var (docs, ingest) := Ingest(t.docs, articles, videos, parse);
      var ingested := t.(docs := docs);
      if IngestRaises(ingest) then Run(ingested, saved, ServerError)
      else
        var r := Train(ingested, saved, o);
        if r.outcome.FitFailed? || r.outcome.TopicWriteFailed? then Run(r.tables, r.saved, ServerError)
        else Run(r.tables, r.saved, Accepted(r.outcome))
  }

  /**
   * A held lock refuses the request and changes nothing; an ingestion that
   * raises stops before training; an accepted request ran the training
   * either on an empty store or to the end.
   */
  lemma TriggerResponses(locked: bool, t: Tables, saved: Option<Model>, o: Oracle,
                         articles: Option<seq<RawItem>>, videos: Option<seq<RawItem>>,
                         parse: string -> Option<Timestamp>)
    ensures var r := Trigger(locked, t, saved, o, articles, videos, parse);
            && (r.outcome.Conflict? <==> locked)
            && (locked ==> r.tables == t && r.saved == saved)
            && (!locked && IngestRaises(Ingest(t.docs, articles, videos, parse).1) ==>
                  r.outcome.ServerError? && r.saved == saved && r.tables.topics == t.topics
                  && r.tables.temporal == t.temporal)
            && (r.outcome.Accepted? ==> r.outcome.train.NoDocuments? || r.outcome.train.Trained?)
  {
  }

  /**
   * `trigger_initial_training`. The check of `locked()` and the non-blocking
   * acquire that follows it coincide when requests do not interleave, so the
   * acquire alone decides the 409. The lock is released on every path.
   */
  method TriggerInitialTraining(lock: TrainingLock, db: Store, disk: ModelFile, o: Oracle,
                                articles: Option<seq<RawItem>>, videos: Option<seq<RawItem>>,
                                parse: string -> Option<Timestamp>) returns (response: TrainResponse)
    requires db.Valid()
    modifies lock, db, disk
    ensures db.Valid()
    ensures lock.locked == old(lock.locked)
    ensures Run(db.Snapshot(), disk.saved, response) ==
            Trigger(old(lock.locked), old(db.Snapshot()), old(disk.saved), o, articles, videos, parse)
  {
    var acquired := lock.Acquire();
    if !acquired {
      return Conflict;
    }
    var ingest := IngestDataFromFiles(db, articles, videos, parse);
    if IngestRaises(ingest) {
      lock.Release();
      return ServerError;
    }
    var train := TrainInitialModel(db, disk, o);
    lock.Release();
    if train.FitFailed? || train.TopicWriteFailed? {
      return ServerError;
    }
    return Accepted(train);
  }

  // ---------------------------------------------------------------------
  // GET /api/topics/temporal
  // ---------------------------------------------------------------------

  /** The JSON values of the reshaped rows: a date string or a frequency. */
  datatype JsonValue = JStr(s: string) | JNum(n: int)

  type JsonObject = map<string, JsonValue>

  const TimestampKey: string := "timestamp"

  /** The most topics whose names are looked up. */
  const NameLimit: nat := 1000

  /** The `topic_names` dict comprehension: a later topic with the same id overrides an earlier one. */
  function NameMap(topics: seq<Topic>): (r: map<int, string>)
    ensures r.Keys == TopicIds(topics)
  {
    if topics == [] then map[]
    else
      var prefix := topics[..|topics| - 1];
      var last := topics[|topics| - 1];
      assert topics == prefix + [last];
      NameMap(prefix)[last.id := last.name]
  }

  /** With distinct ids, each topic's id maps to that topic's name. */
  lemma {:induction false} NameMapDistinct(topics: seq<Topic>)
    requires TopicIdsDistinct(topics)
    ensures forall t :: t in topics ==> NameMap(topics)[t.id] == t.name
  {
    if topics != [] {
      var prefix := topics[..|topics| - 1];
      var last := topics[|topics| - 1];
      assert NameMap(topics) == NameMap(prefix)[last.id := last.name];
      assert TopicIdsDistinct(prefix) by {
        assert forall i :: 0 <= i < |prefix| ==> prefix[i] == topics[i];
      }
      NameMapDistinct(prefix);
      forall t | t in topics ensures NameMap(topics)[t.id] == t.name {
        var i :| 0 <= i < |topics| && topics[i] == t;
        if i < |prefix| {
          assert prefix[i] == t;
          assert t.id != last.id;
        }
      }
    }
  }

  /** `reshaped_data`: the dates in insertion order and one object per date. */
  datatype Chart = Chart(order: seq<string>, objects: map<string, JsonObject>)

  /** One iteration of the reshaping loop. */
  function ChartStep(c: Chart, row: TemporalRow, names: map<int, string>, dayOf: Timestamp -> string): Chart {
    var day := dayOf(row.timestamp);
    var c1 := if day in c.objects then c
              else Chart(c.order + [day], c.objects[day := map[TimestampKey := JStr(day)]]);
    if row.topicId in names && names[row.topicId] != "" then
      c1.(objects := c1.objects[day := c1.objects[day][names[row.topicId] := JNum(row.frequency)]])
    else c1
  }

  /** Row `k` writes `n` into the object of `day`. */
  ghost predicate Hit(rows: seq<TemporalRow>, names: map<int, string>, dayOf: Timestamp -> string,
                      k: int, day: string, n: string) {
    0 <= k < |rows| && dayOf(rows[k].timestamp) == day
    && rows[k].topicId in names && names[rows[k].topicId] == n && n != ""
  }

  /** The facts `ChartAll` states about a chart of `rows`. */
  ghost predicate ChartOf(c: Chart, rows: seq<TemporalRow>, dayOf: Timestamp -> string) {
    && (forall d :: d in c.order <==> d in c.objects)
    && (forall d :: d in c.objects <==> exists k :: 0 <= k < |rows| && dayOf(rows[k].timestamp) == d)
    && (forall i, j :: 0 <= i < j < |c.order| ==> c.order[i] != c.order[j])
  }

  /** One step adds the row's date to the dates listed and keeps each listed once. */
  lemma StepChartOf(c: Chart, prefix: seq<TemporalRow>, x: TemporalRow, names: map<int, string>,
                    dayOf: Timestamp -> string)
    requires ChartOf(c, prefix, dayOf)
    ensures ChartOf(ChartStep(c, x, names, dayOf), prefix + [x], dayOf)
  {
    var rows := prefix + [x];
    var c' := ChartStep(c, x, names, dayOf);
    StepOrder(c, x, names, dayOf);
    assert c'.objects.Keys == c.objects.Keys + {dayOf(x.timestamp)};
    assert forall k :: 0 <= k < |prefix| ==> rows[k] == prefix[k];
    assert rows[|prefix|] == x;
  }

  /**
   * The reshaping loop over `rows`. There is one object per date that some
   * row falls on, whether or not its topic has a name, and each date is
   * listed once.
   */
  function ChartAll(rows: seq<TemporalRow>, names: map<int, string>, dayOf: Timestamp -> string): (r: Chart)
    ensures forall d :: d in r.order <==> d in r.objects
    ensures forall d :: d in r.objects <==> exists k :: 0 <= k < |rows| && dayOf(rows[k].timestamp) == d
    ensures forall i, j :: 0 <= i < j < |r.order| ==> r.order[i] != r.order[j]
  {
    if rows == [] then Chart([], map[])
    else
      var prefix := rows[..|rows| - 1];
      assert rows == prefix + [rows[|rows| - 1]];
      StepChartOf(ChartAll(prefix, names, dayOf), prefix, rows[|rows| - 1], names, dayOf);
      ChartStep(ChartAll(prefix, names, dayOf), rows[|rows| - 1], names, dayOf)
  }

  /** `list(reshaped_data.values())`: the objects in the order their dates first appeared. */
  function Render(c: Chart): (r: seq<JsonObject>)
    requires forall d :: d in c.order ==> d in c.objects
    ensures |r| == |c.order|
    ensures forall i :: 0 <= i < |r| ==> r[i] == c.objects[c.order[i]]
  {
    seq(|c.order|, i requires 0 <= i < |c.order| => c.objects[c.order[i]])
  }

  /** One step lists a date that has no object yet at the end, and otherwise keeps the list. */
  lemma StepOrder(c: Chart, x: TemporalRow, names: map<int, string>, dayOf: Timestamp -> string)
    ensures var day := dayOf(x.timestamp);
            ChartStep(c, x, names, dayOf).order == if day in c.objects then c.order else c.order + [day]
  {
  }

  /** One step sets the row's topic name in its date's object and leaves every other name as it was. */
  lemma StepEntry(c: Chart, x: TemporalRow, names: map<int, string>, dayOf: Timestamp -> string, day: string, n: string)
    requires n != TimestampKey
    requires day in ChartStep(c, x, names, dayOf).objects
    ensures var obj := ChartStep(c, x, names, dayOf).objects[day];
            var hit := dayOf(x.timestamp) == day && x.topicId in names && names[x.topicId] == n && n != "";
            && (hit ==> n in obj && obj[n] == JNum(x.frequency))
            && (!hit && day in c.objects ==> (n in obj <==> n in c.objects[day]) && (n in obj ==> obj[n] == c.objects[day][n]))
            && (!hit && day !in c.objects ==> n !in obj)
  {
  }

  ghost predicate Dated(c: Chart) {
    forall d :: d in c.objects ==> TimestampKey in c.objects[d] && c.objects[d][TimestampKey] == JStr(d)
  }

  /** A step writes no topic called `timestamp`, so it keeps every object's date. */
  lemma StepDated(c: Chart, x: TemporalRow, names: map<int, string>, dayOf: Timestamp -> string)
    requires forall id :: id in names ==> names[id] != TimestampKey
    requires Dated(c)
    ensures Dated(ChartStep(c, x, names, dayOf))
  {
  }

  /** The reshaping of one more row is one more step. */
  lemma ChartAllSnoc(prefix: seq<TemporalRow>, x: TemporalRow, names: map<int, string>, dayOf: Timestamp -> string)
    ensures ChartAll(prefix + [x], names, dayOf) == ChartStep(ChartAll(prefix, names, dayOf), x, names, dayOf)
  {
    assert (prefix + [x])[..|prefix|] == prefix;
  }

  /** Each date of `order` has a row before the first row of any date listed after it. */
  ghost predicate FirstAppearance(order: seq<string>, rows: seq<TemporalRow>, dayOf: Timestamp -> string) {
    forall i, j, k :: 0 <= i < j < |order| && 0 <= k < |rows| && dayOf(rows[k].timestamp) == order[j] ==>
      exists k' :: 0 <= k' < k && dayOf(rows[k'].timestamp) == order[i]
  }

  /** A date listed before the step has a row among the rows before the step. */
  lemma ListedDateHasRow(c: Chart, prefix: seq<TemporalRow>, x: TemporalRow, dayOf: Timestamp -> string, i: nat)
    requires i < |c.order|
    requires forall d :: d in c.order ==> d in c.objects
    requires forall d :: d in c.objects ==> exists k :: 0 <= k < |prefix| && dayOf(prefix[k].timestamp) == d
    ensures exists k' :: 0 <= k' < |prefix| && dayOf((prefix + [x])[k'].timestamp) == c.order[i]
  {
    assert c.order[i] in c.objects;
    var k' :| 0 <= k' < |prefix| && dayOf(prefix[k'].timestamp) == c.order[i];
    assert (prefix + [x])[k'] == prefix[k'];
  }

  /** For a row before the step, the order before the step already answers. */
  lemma OldRowFirstAppearance(c: Chart, prefix: seq<TemporalRow>, x: TemporalRow, dayOf: Timestamp -> string,
                              order: seq<string>, i: nat, j: nat, k: nat)
    requires FirstAppearance(c.order, prefix, dayOf)
    requires forall k :: 0 <= k < |prefix| ==> dayOf(prefix[k].timestamp) in c.objects
    requires order == if dayOf(x.timestamp) in c.objects then c.order else c.order + [dayOf(x.timestamp)]
    requires i < j < |order| && k < |prefix| && dayOf(prefix[k].timestamp) == order[j]
    ensures exists k' :: 0 <= k' < k && dayOf((prefix + [x])[k'].timestamp) == order[i]
  {
    assert order[j] in c.objects;
    assert j < |c.order|;
    assert c.order[j] == order[j] && c.order[i] == order[i];
    var k' :| 0 <= k' < k && dayOf(prefix[k'].timestamp) == c.order[i];
    assert (prefix + [x])[k'] == prefix[k'];
  }

  /** One step, which lists `order`, keeps the dates in first-appearance order. */
  lemma StepFirstAppearance(c: Chart, prefix: seq<TemporalRow>, x: TemporalRow, dayOf: Timestamp -> string,
                            order: seq<string>)
    requires ChartOf(c, prefix, dayOf)
    requires FirstAppearance(c.order, prefix, dayOf)
    requires order == if dayOf(x.timestamp) in c.objects then c.order else c.order + [dayOf(x.timestamp)]
    ensures FirstAppearance(order, prefix + [x], dayOf)
  {
    var rows := prefix + [x];
    forall i, j, k | 0 <= i < j < |order| && 0 <= k < |rows| && dayOf(rows[k].timestamp) == order[j]
      ensures exists k' :: 0 <= k' < k && dayOf(rows[k'].timestamp) == order[i]
    {
      if k < |prefix| {
        assert rows[k] == prefix[k];
        OldRowFirstAppearance(c, prefix, x, dayOf, order, i, j, k);
      } else {
        ListedDateHasRow(c, prefix, x, dayOf, i);
      }
    }
  }

  /** The dates are listed in the order in which their first rows come. */
  lemma {:induction false} ChartFirstAppearance(rows: seq<TemporalRow>, names: map<int, string>, dayOf: Timestamp -> string)
    ensures FirstAppearance(ChartAll(rows, names, dayOf).order, rows, dayOf)
  {
    if rows != [] {
      var prefix := rows[..|rows| - 1];
      var x := rows[|rows| - 1];
      ChartFirstAppearance(prefix, names, dayOf);
      var c := ChartAll(prefix, names, dayOf);
      assert rows == prefix + [x];
      ChartAllSnoc(prefix, x, names, dayOf);
      StepOrder(c, x, names, dayOf);
      StepFirstAppearance(c, prefix, x, dayOf, ChartStep(c, x, names, dayOf).order);
    }
  }

  /**
   * `obj` holds the name `n` exactly when a row of `day` has a topic of that
   * name, and then the frequency of the last such row.
   */
  ghost predicate Entry(obj: JsonObject, rows: seq<TemporalRow>, names: map<int, string>, dayOf: Timestamp -> string,
                        day: string, n: string) {
    && (n in obj <==> exists k :: Hit(rows, names, dayOf, k, day, n))
    && (n in obj ==> exists k :: Hit(rows, names, dayOf, k, day, n) && obj[n] == JNum(rows[k].frequency)
                       && forall k' :: k < k' < |rows| ==> !Hit(rows, names, dayOf, k', day, n))
  }

  /** One step keeps `Entry` for every date and every name but the date field. */
  lemma StepEntries(c: Chart, prefix: seq<TemporalRow>, x: TemporalRow, names: map<int, string>,
                    dayOf: Timestamp -> string, day: string, n: string)
    requires ChartOf(c, prefix, dayOf)
    requires n != TimestampKey
    requires day in ChartStep(c, x, names, dayOf).objects
    requires day in c.objects ==> Entry(c.objects[day], prefix, names, dayOf, day, n)
    ensures Entry(ChartStep(c, x, names, dayOf).objects[day], prefix + [x], names, dayOf, day, n)
  {
    var rows := prefix + [x];
    StepEntry(c, x, names, dayOf, day, n);
    assert forall k :: 0 <= k < |prefix| ==> rows[k] == prefix[k];
    assert forall k :: Hit(prefix, names, dayOf, k, day, n) ==> Hit(rows, names, dayOf, k, day, n);
    if Hit(rows, names, dayOf, |prefix|, day, n) {
    } else if day in c.objects {
      assert forall k :: Hit(rows, names, dayOf, k, day, n) ==> Hit(prefix, names, dayOf, k, day, n);
    } else {
      assert forall k :: 0 <= k < |prefix| ==> dayOf(prefix[k].timestamp) != day;
      assert forall k :: !Hit(rows, names, dayOf, k, day, n);
    }
  }

  /**
   * Besides its date, the object of a date holds a topic name exactly when a
   * row of that date has a topic of that name, and then the frequency of the
   * last such row.
   */
  lemma {:induction false} ChartEntries(rows: seq<TemporalRow>, names: map<int, string>, dayOf: Timestamp -> string,
                                        day: string, n: string)
    requires exists k :: 0 <= k < |rows| && dayOf(rows[k].timestamp) == day
    requires n != TimestampKey
    ensures day in ChartAll(rows, names, dayOf).objects
    ensures Entry(ChartAll(rows, names, dayOf).objects[day], rows, names, dayOf, day, n)
  {
    var prefix := rows[..|rows| - 1];
    var x := rows[|rows| - 1];
    assert rows == prefix + [x];
    var c := ChartAll(prefix, names, dayOf);
    ChartAllSnoc(prefix, x, names, dayOf);
    if day in c.objects {
      ChartEntries(prefix, names, dayOf, day, n);
    }
    StepEntries(c, prefix, x, names, dayOf, day, n);
  }

  /** When no topic is called `timestamp`, every object carries its own date under that key. */
  lemma {:induction false} ChartTimestamps(rows: seq<TemporalRow>, names: map<int, string>, dayOf: Timestamp -> string)
    requires forall id :: id in names ==> names[id] != TimestampKey
    ensures Dated(ChartAll(rows, names, dayOf))
  {
    if rows != [] {
      var prefix := rows[..|rows| - 1];
      ChartTimestamps(prefix, names, dayOf);
      assert rows == prefix + [rows[|rows| - 1]];
      ChartAllSnoc(prefix, rows[|rows| - 1], names, dayOf);
      StepDated(ChartAll(prefix, names, dayOf), rows[|rows| - 1], names, dayOf);
    }
  }

  /** The response of `read_temporal_data` for the stored tables. */
  function TemporalChart(t: Tables, dayOf: Timestamp -> string): seq<JsonObject> {
    Render(ChartAll(GetTemporalData(t.temporal), NameMap(GetTopics(t.topics, 0, NameLimit)), dayOf))
  }

  /** The reshaping loop of `read_temporal_data` and the list it returns. */
  method Reshape(rows: seq<TemporalRow>, names: map<int, string>, dayOf: Timestamp -> string) returns (r: seq<JsonObject>)
    ensures r == Render(ChartAll(rows, names, dayOf))
  {
    var order: seq<string> := [];
    var objects: map<string, JsonObject> := map[];
    for i := 0 to |rows|
      invariant Chart(order, objects) == ChartAll(rows[..i], names, dayOf)
    {
      var row := rows[i];
      assert rows[..i + 1] == rows[..i] + [row];
      ChartAllSnoc(rows[..i], row, names, dayOf);
      var day := dayOf(row.timestamp);
      if day !in objects {
        order := order + [day];
        objects := objects[day := map[TimestampKey := JStr(day)]];
      }
      if row.topicId in names && names[row.topicId] != "" {
        objects := objects[day := objects[day][names[row.topicId] := JNum(row.frequency)]];
      }
    }
    assert rows[..|rows|] == rows;
    r := Render(Chart(order, objects));
  }

  /** `read_temporal_data`; `dayOf` is `strftime("%Y-%m-%d")`. */
  method ReadTemporalData(db: Store, dayOf: Timestamp -> string) returns (r: seq<JsonObject>)
    ensures r == TemporalChart(db.Snapshot(), dayOf)
  {
    var rows := GetTemporalData(db.temporal);
    var names := NameMap(GetTopics(db.topics, 0, NameLimit));
    r := Reshape(rows, names, dayOf);
  }

  // ---------------------------------------------------------------------
  // GET /api/documents/{topic_id}
  // ---------------------------------------------------------------------

  datatype DocumentsResponse = Found(documents: seq<Document>) | NotFound

  /** `read_documents_for_topic`: the documents of the topic, or 404 when there are none. */
  function ReadDocumentsForTopic(docs: seq<Document>, topicId: int): (r: DocumentsResponse)
    ensures r.NotFound? <==> forall d :: d in docs ==> d.topicId != Some(topicId)
    ensures r.Found? ==> r.documents != []
    ensures r.Found? ==> forall d :: d in r.documents <==> d in docs && d.topicId == Some(topicId)
  {
    var found := GetDocumentsByTopic(docs, topicId);
    assert found != [] ==> found[0] in found;
    if found == [] then NotFound else Found(found)
  }
}

/**
 * The store operations of backend/app/crud.py: pure queries over the tables,
 * and a `Store` whose methods update the tables in place. Every mutator is tied
 * to a pure function of the old tables; the lemmas below say what those
 * functions change and what they leave alone.
 */
module Crud {
  import opened Wrappers
  import opened Models

  /** Default LIMIT of `get_documents` and `get_topics`. */
  const DefaultLimit: nat := 100

  // ---------------------------------------------------------------------
  // Ordering and paging
  // ---------------------------------------------------------------------

  /** The window that `OFFSET skip LIMIT limit` selects from `s`. */
  function Page<T>(s: seq<T>, skip: nat, limit: nat): (r: seq<T>)
    ensures |r| <= limit
    ensures skip + limit <= |s| ==> |r| == limit
    ensures skip + limit > |s| ==> |r| == if skip < |s| then |s| - skip else 0
    ensures forall i :: 0 <= i < |r| ==> skip + i < |s| && r[i] == s[skip + i]
  {
    if skip >= |s| then [] else s[skip .. skip + Min(limit, |s| - skip)]
  }

  ghost predicate SortedBy<T>(s: seq<T>, key: T -> int) {
    forall i, j :: 0 <= i < j < |s| ==> key(s[i]) <= key(s[j])
  }

  /** A lower bound on the keys of `s` and on `key(x)` bounds every key of a permutation of `s + [x]`. */
  lemma BoundedByMultiset<T>(r: seq<T>, s: seq<T>, x: T, key: T -> int, lo: int)
    requires multiset(r) == multiset(s) + multiset{x}
    requires lo <= key(x) && forall i :: 0 <= i < |s| ==> lo <= key(s[i])
    ensures forall i :: 0 <= i < |r| ==> lo <= key(r[i])
  {
    forall i | 0 <= i < |r| ensures lo <= key(r[i]) {
      assert r[i] in multiset(r);
      if r[i] != x {
        assert r[i] in multiset(s);
        var j :| 0 <= j < |s| && s[j] == r[i];
      }
    }
  }

  /** An element no larger than every key of a sorted sequence can go in front of it. */
  lemma SortedCons<T>(h: T, t: seq<T>, key: T -> int)
    requires SortedBy(t, key) && forall i :: 0 <= i < |t| ==> key(h) <= key(t[i])
    ensures SortedBy([h] + t, key)
  {
    var q := [h] + t;
    assert forall i :: 0 < i < |q| ==> q[i] == t[i - 1];
  }

  /** Puts `x` after every element of `s` whose key is not larger, so equal keys keep their order. */
  function InsertBy<T(==)>(x: T, s: seq<T>, key: T -> int): (r: seq<T>)
    requires SortedBy(s, key)
    ensures SortedBy(r, key)
    ensures multiset(r) == multiset(s) + multiset{x}
  {
    if s == [] then [x]
    else if key(x) < key(s[0]) then SortedCons(x, s, key); [x] + s
    else
      var tail := InsertBy(x, s[1..], key);
      assert s == [s[0]] + s[1..];
      BoundedByMultiset(tail, s[1..], x, key, key(s[0]));
      SortedCons(s[0], tail, key);
      [s[0]] + tail
  }

  /** A stable sort by an integer key: the model's reading of `ORDER BY` (SQL leaves ties unordered). */
  function SortBy<T(==)>(s: seq<T>, key: T -> int): (r: seq<T>)
    ensures SortedBy(r, key)
    ensures multiset(r) == multiset(s)
    ensures |r| == |s|
  {
    if s == [] then []
    else
      assert s == s[..|s| - 1] + [s[|s| - 1]];
      var r := InsertBy(s[|s| - 1], SortBy(s[..|s| - 1], key), key);
      assert |r| == |multiset(r)| == |multiset(s)|;
      r
  }

  // ---------------------------------------------------------------------
  // Document queries
  // ---------------------------------------------------------------------

  /** `get_document`: the row with the given primary key, if any. */
  function GetDocument(docs: seq<Document>, id: int): (r: Option<Document>)
    ensures r.Some? <==> exists d :: d in docs && d.id == id
    ensures r.Some? ==> r.value in docs && r.value.id == id
  {
    if docs == [] then None
    else if docs[0].id == id then Some(docs[0])
    else GetDocument(docs[1..], id)
  }

  /** `get_documents`: the rows in table order, after OFFSET and LIMIT (default LIMIT 100). */
  function GetDocuments(docs: seq<Document>, skip: nat, limit: nat): (r: seq<Document>)
    ensures |r| == if skip < |docs| then Min(limit, |docs| - skip) else 0
    ensures forall i :: 0 <= i < |r| ==> r[i] == docs[skip + i]
  {
    Page(docs, skip, limit)
  }

  /** `get_documents_by_topic`: exactly the documents assigned to `topicId`, in table order. */
  function GetDocumentsByTopic(docs: seq<Document>, topicId: int): (r: seq<Document>)
    ensures forall d :: d in r <==> d in docs && d.topicId == Some(topicId)
    ensures |r| <= |docs|
  {
    if docs == [] then []
    else
      var rest := GetDocumentsByTopic(docs[1..], topicId);
      assert forall d :: d in docs <==> d == docs[0] || d in docs[1..];
      if docs[0].topicId == Some(topicId) then [docs[0]] + rest else rest
  }

  /** One `(id, full_content, published_at)` tuple, as the pipeline reads documents. */
  datatype ContentRow = ContentRow(id: int, fullContent: string, publishedAt: Timestamp)

  function ContentOf(d: Document): ContentRow {
    ContentRow(d.id, d.fullContent, d.publishedAt)
  }

  /** `get_all_documents_content`: one tuple per document, in table order. */
  function GetAllDocumentsContent(docs: seq<Document>): (r: seq<ContentRow>)
    ensures |r| == |docs|
    ensures forall i :: 0 <= i < |r| ==> r[i].id == docs[i].id && r[i].fullContent == docs[i].fullContent
                                         && r[i].publishedAt == docs[i].publishedAt
  {
    seq(|docs|, i requires 0 <= i < |docs| => ContentOf(docs[i]))
  }

  // ---------------------------------------------------------------------
  // Topic and temporal queries
  // ---------------------------------------------------------------------

  function DescendingCount(t: Topic): int {
    -t.count
  }

  function AscendingTimestamp(r: TemporalRow): int {
    r.timestamp
  }

  /** A page holds elements of `s` only, and the first page is all of `s` when `s` fits. */
  lemma PageWithin<T>(s: seq<T>, skip: nat, limit: nat)
    ensures forall x :: x in Page(s, skip, limit) ==> x in s
    ensures skip == 0 && |s| <= limit ==> Page(s, skip, limit) == s
  {
    var r := Page(s, skip, limit);
    forall x | x in r ensures x in s {
      var i :| 0 <= i < |r| && r[i] == x;
      assert s[skip + i] == x;
    }
  }

  /** A page of a permutation of `s` holds elements of `s` only, and is all of it when `s` fits. */
  lemma PermutedPage<T>(p: seq<T>, s: seq<T>, skip: nat, limit: nat)
    requires multiset(p) == multiset(s)
    ensures forall x :: x in Page(p, skip, limit) ==> x in s
    ensures skip == 0 && |s| <= limit ==> multiset(Page(p, skip, limit)) == multiset(s)
  {
    PageWithin(p, skip, limit);
    assert |p| == |multiset(p)| == |multiset(s)| == |s|;
    assert forall x :: x in p ==> x in multiset(s);
  }

  /** `get_topics`: topics by descending count, then OFFSET and LIMIT. */
  function GetTopics(topics: seq<Topic>, skip: nat, limit: nat): (r: seq<Topic>)
    ensures |r| == if skip < |topics| then Min(limit, |topics| - skip) else 0
    ensures forall i, j :: 0 <= i < j < |r| ==> r[i].count >= r[j].count
    ensures forall t :: t in r ==> t in topics
    ensures skip == 0 && |topics| <= limit ==> multiset(r) == multiset(topics)
  {
    var sorted := SortBy(topics, DescendingCount);
    PermutedPage(sorted, topics, skip, limit);
    Page(sorted, skip, limit)
  }

  /** A prefix of a list sorted by descending count holds the largest counts of the list. */
  lemma PrefixIsTop(s: seq<Topic>, m: nat)
    requires m <= |s|
    requires forall i, j :: 0 <= i < j < |s| ==> s[i].count >= s[j].count
    ensures forall i, u :: 0 <= i < m && u in multiset(s) - multiset(s[..m]) ==> u.count <= s[i].count
  {
    assert s == s[..m] + s[m..];
    assert multiset(s) - multiset(s[..m]) == multiset(s[m..]);
    forall i, u | 0 <= i < m && u in multiset(s) - multiset(s[..m]) ensures u.count <= s[i].count {
      assert u in s[m..];
      var j :| 0 <= j < |s[m..]| && s[m..][j] == u;
      assert s[m + j] == u;
    }
  }

  /** The first page of `get_topics` holds the topics of largest count: no topic left out counts more. */
  lemma GetTopicsFirstPageIsTop(topics: seq<Topic>, limit: nat)
    ensures var r := GetTopics(topics, 0, limit);
            forall i, u :: 0 <= i < |r| && u in multiset(topics) - multiset(r) ==> u.count <= r[i].count
  {
    var sorted := SortBy(topics, DescendingCount);
    var m := Min(limit, |sorted|);
    assert GetTopics(topics, 0, limit) == sorted[..m];
    PrefixIsTop(sorted, m);
  }

  /** `get_temporal_data`: all temporal rows, ordered by timestamp. */
  function GetTemporalData(rows: seq<TemporalRow>): (r: seq<TemporalRow>)
    ensures forall i, j :: 0 <= i < j < |r| ==> r[i].timestamp <= r[j].timestamp
    ensures multiset(r) == multiset(rows)
  {
    SortBy(rows, AscendingTimestamp)
  }

  // ---------------------------------------------------------------------
  // bulk_create_documents
  // ---------------------------------------------------------------------

  /**
   * An ingested record. `D` is the type of `published_at`: the raw string
   * read from the JSON file, or the parsed timestamp. `extra` holds the keys
   * that are not columns of `documents` (`source_name`, `video_id`).
   */
  datatype Item<D> = Item(
    url: string,
    title: string,
    publishedAt: D,
    fullContent: string,
    sourceType: string,
    extra: map<string, string>)

  /** The urls a batch of items carries. */
  function ItemUrls<D(==)>(items: seq<Item<D>>): set<string> {
    set x | x in items :: x.url
  }

  type Record = Item<Timestamp>

  /** The `new_docs` list: the records whose url is not in `stored`, in input order. */
  function NewRecords(stored: set<string>, records: seq<Record>): (r: seq<Record>)
    ensures forall x :: x in r <==> x in records && x.url !in stored
    ensures |r| <= |records|
  {
    if records == [] then []
    else
      var prefix := records[..|records| - 1];
      var last := records[|records| - 1];
      assert records == prefix + [last];
      NewRecords(stored, prefix) + if last.url in stored then [] else [last]
  }

  predicate DistinctUrls(records: seq<Record>) {
    forall i, j | 0 <= i < j < |records| :: records[i].url != records[j].url
  }

  /** The id the database gives the next inserted row. */
  function NextId(docs: seq<Document>): int {
    if docs == [] then 1 else docs[|docs| - 1].id + 1
  }

  /** The rows built from `records`: the column keys only, new ids from `first`, no topic. */
  function Materialize(records: seq<Record>, first: int): seq<Document> {
    seq(|records|, i requires 0 <= i < |records| =>
      Document(first + i, records[i].title, records[i].url, records[i].publishedAt,
               records[i].fullContent, records[i].sourceType, None))
  }

  datatype Insertion = Insertion(docs: seq<Document>, count: nat)

  /**
   * The effect of `bulk_create_documents`: `None` when the commit fails on the
   * unique url constraint (two new records of one batch share a url).
   */
  function BulkCreate(docs: seq<Document>, records: seq<Record>): Option<Insertion> {
    var newRecs := NewRecords(Urls(docs), records);
    if DistinctUrls(newRecs) then Some(Insertion(docs + Materialize(newRecs, NextId(docs)), |newRecs|))
    else None
  }

  lemma DistinctUrlsSnoc(p: seq<Record>, x: Record)
    ensures DistinctUrls(p + [x]) <==> DistinctUrls(p) && forall k :: 0 <= k < |p| ==> p[k].url != x.url
  {
    var q := p + [x];
    assert forall k :: 0 <= k < |p| ==> q[k] == p[k];
    assert q[|p|] == x;
    if DistinctUrls(q) {
      forall k | 0 <= k < |p| ensures p[k].url != x.url {
        assert q[k].url != q[|p|].url;
      }
    }
  }

  /** No two records of the batch share a url that is not stored yet. */
  ghost predicate NoNewClash(stored: set<string>, records: seq<Record>) {
    forall i, j :: 0 <= i < j < |records| && records[i].url == records[j].url ==> records[i].url in stored
  }

  lemma NoNewClashSnoc(stored: set<string>, prefix: seq<Record>, last: Record)
    ensures NoNewClash(stored, prefix + [last]) <==>
            NoNewClash(stored, prefix) && forall i :: 0 <= i < |prefix| && prefix[i].url == last.url ==> last.url in stored
  {
    var q := prefix + [last];
    assert forall i :: 0 <= i < |prefix| ==> q[i] == prefix[i];
    assert q[|prefix|] == last;
    if NoNewClash(stored, q) {
      forall i | 0 <= i < |prefix| && prefix[i].url == last.url ensures last.url in stored {
        assert q[i].url == q[|prefix|].url;
      }
    }
  }

  /** A url that is not stored occurs among the new records exactly when it occurs in the batch. */
  lemma NewRecordsUrlFree(stored: set<string>, records: seq<Record>, u: string)
    requires u !in stored
    ensures (forall k :: 0 <= k < |NewRecords(stored, records)| ==> NewRecords(stored, records)[k].url != u) <==>
            (forall i :: 0 <= i < |records| ==> records[i].url != u)
  {
    var p := NewRecords(stored, records);
    if forall i :: 0 <= i < |records| ==> records[i].url != u {
      forall k | 0 <= k < |p| ensures p[k].url != u {
        assert p[k] in records;
        var i :| 0 <= i < |records| && records[i] == p[k];
      }
    }
    if forall k :: 0 <= k < |p| ==> p[k].url != u {
      forall i | 0 <= i < |records| ensures records[i].url != u {
        if records[i].url !in stored {
          assert records[i] in p;
          var k :| 0 <= k < |p| && p[k] == records[i];
        }
      }
    }
  }

  lemma {:induction false} NewRecordsDistinct(stored: set<string>, records: seq<Record>)
    ensures DistinctUrls(NewRecords(stored, records)) <==> NoNewClash(stored, records)
  {
    if records != [] {
      var prefix := records[..|records| - 1];
      var last := records[|records| - 1];
      assert records == prefix + [last];
      NewRecordsDistinct(stored, prefix);
      NoNewClashSnoc(stored, prefix, last);
      var p := NewRecords(stored, prefix);
      if last.url !in stored {
        assert NewRecords(stored, records) == p + [last];
        DistinctUrlsSnoc(p, last);
        NewRecordsUrlFree(stored, prefix, last.url);
      } else {
        assert NewRecords(stored, records) == p;
      }
    }
  }

  lemma UrlsConcat(a: seq<Document>, b: seq<Document>)
    ensures Urls(a + b) == Urls(a) + Urls(b)
  {
    forall u | u in Urls(a + b) ensures u in Urls(a) + Urls(b) {
      var d :| d in a + b && d.url == u;
      assert d in a || d in b;
    }
  }

  lemma MaterializeUrls(records: seq<Record>, first: int)
    ensures Urls(Materialize(records, first)) == ItemUrls(records)
  {
    var added := Materialize(records, first);
    forall u | u in Urls(added) ensures u in ItemUrls(records) {
      var d :| d in added && d.url == u;
      var k :| 0 <= k < |added| && added[k] == d;
      assert records[k] in records;
    }
    forall u | u in ItemUrls(records) ensures u in Urls(added) {
      var x :| x in records && x.url == u;
      var k :| 0 <= k < |records| && records[k] == x;
      assert added[k] in added;
    }
  }

  /**
   * The old rows stay as they were; one new unassigned row is added per new
   * record, built from its column fields only.
   */
  lemma BulkCreateAppendsNewRows(docs: seq<Document>, records: seq<Record>)
    requires BulkCreate(docs, records).Some?
    ensures var ins := BulkCreate(docs, records).value;
            var newRecs := NewRecords(Urls(docs), records);
            && |ins.docs| == |docs| + |newRecs|
            && ins.docs[..|docs|] == docs
            && ins.count == |newRecs|
            && (forall k :: 0 <= k < |newRecs| ==>
                  var d := ins.docs[|docs| + k];
                  && d.topicId.None? && d.id >= NextId(docs)
                  && d.url == newRecs[k].url && d.title == newRecs[k].title
                  && d.publishedAt == newRecs[k].publishedAt && d.fullContent == newRecs[k].fullContent
                  && d.sourceType == newRecs[k].sourceType)
  {
    var ins := BulkCreate(docs, records).value;
    var added := Materialize(NewRecords(Urls(docs), records), NextId(docs));
    assert ins.docs == docs + added;
    assert ins.docs[..|docs|] == docs;
    assert forall k :: 0 <= k < |added| ==> ins.docs[|docs| + k] == added[k];
  }

  /** The urls added are exactly the batch's urls not stored before; afterwards every url of the batch is stored. */
  lemma BulkCreateStoresUrls(docs: seq<Document>, records: seq<Record>)
    requires BulkCreate(docs, records).Some?
    ensures var ins := BulkCreate(docs, records).value;
            && |docs| <= |ins.docs|
            && Urls(ins.docs[|docs|..]) == (set x | x in records && x.url !in Urls(docs) :: x.url)
            && Urls(ins.docs) == Urls(docs) + ItemUrls(records)
  {
    var newRecs := NewRecords(Urls(docs), records);
    var ins := BulkCreate(docs, records).value;
    var added := Materialize(newRecs, NextId(docs));
    assert ins.docs == docs + added;
    assert ins.docs[|docs|..] == added;
    MaterializeUrls(newRecs, NextId(docs));
    UrlsConcat(docs, added);
    assert ItemUrls(newRecs) == (set x | x in records && x.url !in Urls(docs) :: x.url);
  }

  /** A successful insert keeps the primary key and the unique url constraint. */
  lemma BulkCreateKeepsKeys(docs: seq<Document>, records: seq<Record>)
    requires IdsIncreasing(docs) && UrlsUnique(docs)
    requires BulkCreate(docs, records).Some?
    ensures IdsIncreasing(BulkCreate(docs, records).value.docs)
    ensures UrlsUnique(BulkCreate(docs, records).value.docs)
  {
    var newRecs := NewRecords(Urls(docs), records);
    var added := Materialize(newRecs, NextId(docs));
    var all := docs + added;
    assert forall d :: d in docs ==> d.id < NextId(docs) by {
      forall d | d in docs ensures d.id < NextId(docs) {
        var k :| 0 <= k < |docs| && docs[k] == d;
        assert k == |docs| - 1 || docs[k].id < docs[|docs| - 1].id;
      }
    }
    forall i, j | 0 <= i < j < |all| ensures all[i].id < all[j].id && all[i].url != all[j].url {
      if j >= |docs| {
        assert all[j] == added[j - |docs|];
        assert newRecs[j - |docs|] in newRecs;
        if i < |docs| {
          assert all[i] in docs;
        } else {
          assert all[i] == added[i - |docs|];
        }
      }
    }
  }

  /** A batch is rejected exactly when two of its records with the same url are both new. */
  lemma BulkCreateRejectsBatchDuplicates(docs: seq<Document>, records: seq<Record>)
    ensures BulkCreate(docs, records).None? <==> !NoNewClash(Urls(docs), records)
  {
    NewRecordsDistinct(Urls(docs), records);
  }

  // ---------------------------------------------------------------------
  // clear_and_create_topics
  // ---------------------------------------------------------------------

  /** One entry of a topic's `Representation`; `word[0]` in the source is its `head`. */
  datatype RepEntry = RepEntry(head: string, rest: seq<string>)

  /** One row of the topic model's topic-info table. */
  datatype TopicInfoRow = TopicInfoRow(topic: int, count: int, name: string, representation: seq<RepEntry>)

  /** `sep.join(words)`. */
  function Join(sep: string, words: seq<string>): string {
    if words == [] then ""
    else if |words| == 1 then words[0]
    else Join(sep, words[..|words| - 1]) + sep + words[|words| - 1]
  }

  function Heads(rep: seq<RepEntry>): seq<string> {
    seq(|rep|, i requires 0 <= i < |rep| => rep[i].head)
  }

  /** The topic row written for one info row: the topicId is the id. */
  function TopicOf(row: TopicInfoRow): Topic {
    Topic(row.topic, row.name, row.count, Join(", ", Heads(row.representation)))
  }

  /** The topic rows added, in table order, skipping the outlier row. */
  function NewTopics(info: seq<TopicInfoRow>): seq<Topic> {
    if info == [] then []
    else
      var last := info[|info| - 1];
      NewTopics(info[..|info| - 1]) + if last.topic == Outlier then [] else [TopicOf(last)]
  }

  /** The committed first half: every assignment nulled, temporal rows and topics deleted. */
  function Wipe(t: Tables): Tables {
    Tables(seq(|t.docs|, i requires 0 <= i < |t.docs| => t.docs[i].(topicId := None)), [], [])
  }

  /**
   * The effect of `clear_and_create_topics`, and whether the second commit
   * succeeds. It fails on the primary key when two non-outlier rows carry the
   * same topicId; the wipe was committed before and stays.
   */
  function ClearAndCreate(t: Tables, info: seq<TopicInfoRow>): (Tables, bool) {
    var w := Wipe(t);
    var created := NewTopics(info);
    if TopicIdsDistinct(created) then (w.(topics := created), true) else (w, false)
  }

  /** The topic ids written are exactly the non-outlier labels, each with its row's name, count and keywords. */
  lemma {:induction false} NewTopicsFromInfo(info: seq<TopicInfoRow>)
    ensures TopicIds(NewTopics(info)) == set r | r in info && r.topic != Outlier :: r.topic
    ensures forall r :: r in info && r.topic != Outlier ==> TopicOf(r) in NewTopics(info)
    ensures forall t :: t in NewTopics(info) ==> exists r :: r in info && r.topic != Outlier && t == TopicOf(r)
  {
    if info != [] {
      var prefix := info[..|info| - 1];
      var last := info[|info| - 1];
      assert info == prefix + [last];
      NewTopicsFromInfo(prefix);
    }
  }

  /** After the wipe-and-recreate no document is assigned and no temporal row is left, so both foreign keys hold. */
  lemma ClearAndCreateResets(t: Tables, info: seq<TopicInfoRow>)
    requires KeysValid(t)
    ensures var (w, ok) := ClearAndCreate(t, info);
            && KeysValid(w)
            && RefsValid(w)
            && w.temporal == []
            && |w.docs| == |t.docs|
            && (forall i :: 0 <= i < |w.docs| ==> w.docs[i] == t.docs[i].(topicId := None))
            && w.topics == (if ok then NewTopics(info) else [])
            && (ok <==> TopicIdsDistinct(NewTopics(info)))
  {
    var w := ClearAndCreate(t, info).0;
    assert forall i, j :: 0 <= i < j < |w.docs| ==> w.docs[i].id == t.docs[i].id && w.docs[j].url == t.docs[j].url;
  }

  // ---------------------------------------------------------------------
  // assign_documents_to_topics
  // ---------------------------------------------------------------------

  /** One iteration: the UPDATE of the row with id `id`, unless the topicId is the outlier. */
  function AssignOne(docs: seq<Document>, id: int, topicId: int): seq<Document> {
    if topicId == Outlier then docs
    else seq(|docs|, i requires 0 <= i < |docs| => if docs[i].id == id then docs[i].(topicId := Some(topicId)) else docs[i])
  }

  /** The first `n` pairs of `zip(ids, labels)` applied in order. */
  function Assigned(docs: seq<Document>, ids: seq<int>, labels: seq<int>, n: nat): seq<Document>
    requires n <= |ids| && n <= |labels|
  {
    if n == 0 then docs else AssignOne(Assigned(docs, ids, labels, n - 1), ids[n - 1], labels[n - 1])
  }

  /** The effect of `assign_documents_to_topics`: `zip` stops at the shorter list. */
  function AssignAll(docs: seq<Document>, ids: seq<int>, labels: seq<int>): seq<Document> {
    Assigned(docs, ids, labels, Min(|ids|, |labels|))
  }

  /** Assignment changes only `topicId`, row by row. */
  lemma {:induction false} AssignedShape(docs: seq<Document>, ids: seq<int>, labels: seq<int>, n: nat)
    requires n <= |ids| && n <= |labels|
    ensures |Assigned(docs, ids, labels, n)| == |docs|
    ensures forall j :: 0 <= j < |docs| ==>
              Assigned(docs, ids, labels, n)[j] == docs[j].(topicId := Assigned(docs, ids, labels, n)[j].topicId)
  {
    if n > 0 {
      AssignedShape(docs, ids, labels, n - 1);
    }
  }

  /** A row that no pair with a non-outlier topicId names keeps its old value. */
  lemma {:induction false} AssignedUntouched(docs: seq<Document>, ids: seq<int>, labels: seq<int>, n: nat, j: nat)
    requires n <= |ids| && n <= |labels| && j < |docs|
    requires forall k :: 0 <= k < n ==> ids[k] != docs[j].id || labels[k] == Outlier
    ensures |Assigned(docs, ids, labels, n)| == |docs|
    ensures Assigned(docs, ids, labels, n)[j] == docs[j]
  {
    AssignedShape(docs, ids, labels, n);
    if n > 0 {
      AssignedUntouched(docs, ids, labels, n - 1, j);
      AssignedShape(docs, ids, labels, n - 1);
    }
  }

  /**
   * With distinct ids, the row named at position `k` gets the topicId at
   * position `k`, unless that topicId is the outlier.
   */
  lemma {:induction false} AssignedAt(docs: seq<Document>, ids: seq<int>, labels: seq<int>, n: nat, k: nat, j: nat)
    requires n <= |ids| && n <= |labels| && k < n && j < |docs|
    requires forall a, b :: 0 <= a < b < n ==> ids[a] != ids[b]
    requires ids[k] == docs[j].id
    ensures |Assigned(docs, ids, labels, n)| == |docs|
    ensures Assigned(docs, ids, labels, n)[j].topicId == if labels[k] == Outlier then docs[j].topicId else Some(labels[k])
  {
    AssignedShape(docs, ids, labels, n);
    AssignedShape(docs, ids, labels, n - 1);
    if k == n - 1 {
      AssignedUntouched(docs, ids, labels, n - 1, j);
    } else {
      AssignedAt(docs, ids, labels, n - 1, k, j);
      assert Assigned(docs, ids, labels, n - 1)[j].id == docs[j].id;
    }
  }

  /** Labels that are outliers or existing topic ids keep the document foreign key valid. */
  lemma {:induction false} AssignedKeepsRefs(docs: seq<Document>, ids: seq<int>, labels: seq<int>, n: nat, topics: seq<Topic>)
    requires n <= |ids| && n <= |labels|
    requires DocRefsValid(docs, topics)
    requires forall k :: 0 <= k < n ==> labels[k] == Outlier || labels[k] in TopicIds(topics)
    ensures DocRefsValid(Assigned(docs, ids, labels, n), topics)
  {
    if n > 0 {
      AssignedKeepsRefs(docs, ids, labels, n - 1, topics);
    }
  }

  /** Assignment keeps the primary key and the unique url constraint. */
  lemma AssignedKeepsKeys(docs: seq<Document>, ids: seq<int>, labels: seq<int>, n: nat)
    requires n <= |ids| && n <= |labels|
    requires IdsIncreasing(docs) && UrlsUnique(docs)
    ensures IdsIncreasing(Assigned(docs, ids, labels, n)) && UrlsUnique(Assigned(docs, ids, labels, n))
  {
    AssignedShape(docs, ids, labels, n);
  }

  // ---------------------------------------------------------------------
  // create_temporal_data
  // ---------------------------------------------------------------------

  /** One row of the topic model's topics-over-time table. */
  datatype OverTimeRow = OverTimeRow(topic: int, words: string, frequency: int, timestamp: Timestamp)

  function TemporalOf(row: OverTimeRow): TemporalRow {
    TemporalRow(row.topic, row.timestamp, row.frequency)
  }

  /** The rows `create_temporal_data` appends: one per input row, outlier rows included. */
  function TemporalRows(rows: seq<OverTimeRow>): (r: seq<TemporalRow>)
    ensures |r| == |rows|
    ensures forall i :: 0 <= i < |r| ==> r[i].topicId == rows[i].topic && r[i].timestamp == rows[i].timestamp
                                         && r[i].frequency == rows[i].frequency
  {
    seq(|rows|, i requires 0 <= i < |rows| => TemporalOf(rows[i]))
  }

  /** Rows for the outlier topicId are stored too, and then refer to no topic. */
  lemma OutlierRowBreaksTemporalRefs(temporal: seq<TemporalRow>, topics: seq<Topic>, rows: seq<OverTimeRow>, k: nat)
    requires k < |rows| && rows[k].topic == Outlier
    requires Outlier !in TopicIds(topics)
    ensures !TemporalRefsValid(temporal + TemporalRows(rows), topics)
  {
    assert (temporal + TemporalRows(rows))[|temporal| + k] in temporal + TemporalRows(rows);
  }

  // ---------------------------------------------------------------------
  // The store
  // ---------------------------------------------------------------------

  class Store {
    var docs: seq<Document>
    var topics: seq<Topic>
    var temporal: seq<TemporalRow>

    function Snapshot(): Tables
      reads this
    {
      Tables(docs, topics, temporal)
    }

    ghost predicate Valid()
      reads this
    {
      KeysValid(Snapshot())
    }

    constructor ()
      ensures Valid() && Snapshot() == Tables([], [], [])
    {
      docs, topics, temporal := [], [], [];
    }

    /**
     * `bulk_create_documents`: inserts the records whose url is not stored
     * yet and returns how many; `None` is the failed commit.
     */
    method BulkCreateDocuments(records: seq<Record>) returns (inserted: Option<nat>)
      requires Valid()
      modifies this
      ensures Valid()
      ensures topics == old(topics) && temporal == old(temporal)
      ensures BulkCreate(old(docs), records) == if inserted.Some? then Some(Insertion(docs, inserted.value)) else None
      ensures inserted.None? ==> docs == old(docs)
    {
      var existing := Urls(docs);
      var newDocs: seq<Record> := [];
      var i := 0;
      while i < |records|
        invariant 0 <= i <= |records|
        invariant newDocs == NewRecords(existing, records[..i])
      {
        assert records[..i + 1][..i] == records[..i];
        if records[i].url !in existing {
          newDocs := newDocs + [records[i]];
        }
        i := i + 1;
      }
      assert records[..|records|] == records;
      if !DistinctUrls(newDocs) {
        return None;
      }
      BulkCreateKeepsKeys(docs, records);
      docs := docs + Materialize(newDocs, NextId(docs));
      inserted := Some(|newDocs|);
    }

    /**
     * `clear_and_create_topics`: the wipe is committed first; `ok` is false
     * when the commit of the new topics fails.
     */
    method ClearAndCreateTopics(info: seq<TopicInfoRow>) returns (ok: bool)
      requires Valid()
      modifies this
      ensures Valid()
      ensures (Snapshot(), ok) == ClearAndCreate(old(Snapshot()), info)
    {
      ClearAndCreateResets(Snapshot(), info);
      var rows := docs;
      docs := seq(|rows|, i requires 0 <= i < |rows| => rows[i].(topicId := None));
      temporal := [];
      topics := [];
      var pending: seq<Topic> := [];
      for i := 0 to |info|
        invariant Snapshot() == Wipe(old(Snapshot()))
        invariant pending == NewTopics(info[..i])
      {
        assert info[..i + 1][..i] == info[..i];
        if info[i].topic != Outlier {
          pending := pending + [TopicOf(info[i])];
        }
      }
      assert info[..|info|] == info;
      ok := TopicIdsDistinct(pending);
      if ok {
        topics := pending;
      }
    }

    /** `assign_documents_to_topics`: sets each listed document's topic unless its topicId is the outlier. */
    method AssignDocumentsToTopics(ids: seq<int>, labels: seq<int>)
      requires Valid()
      modifies this
      ensures Valid()
      ensures topics == old(topics) && temporal == old(temporal)
      ensures docs == AssignAll(old(docs), ids, labels)
    {
      var n := Min(|ids|, |labels|);
      ghost var start := docs;
      for i := 0 to n
        invariant topics == old(topics) && temporal == old(temporal)
        invariant docs == Assigned(start, ids, labels, i)
      {
        var docId, topicId := ids[i], labels[i];
        if topicId != Outlier {
          var rows := docs;
          docs := seq(|rows|, j requires 0 <= j < |rows| =>
            if rows[j].id == docId then rows[j].(topicId := Some(topicId)) else rows[j]);
        }
      }
      AssignedKeepsKeys(start, ids, labels, n);
    }

    /** `create_temporal_data`: appends one row per input row and removes none. */
    method CreateTemporalData(rows: seq<OverTimeRow>)
      requires Valid()
      modifies this
      ensures Valid()
      ensures docs == old(docs) && topics == old(topics)
      ensures temporal == old(temporal) + TemporalRows(rows)
    {
      for i := 0 to |rows|
        invariant docs == old(docs) && topics == old(topics)
        invariant temporal == old(temporal) + TemporalRows(rows[..i])
      {
        assert TemporalRows(rows[..i + 1]) == TemporalRows(rows[..i]) + [TemporalOf(rows[i])];
        temporal := temporal + [TemporalOf(rows[i])];
      }
      assert rows[..|rows|] == rows;
    }
  }
}

/**
 * The three tables of the corpus store (backend/app/models.py) and the key,
 * uniqueness and reference constraints declared on them.
 */
module Models {
  import opened Wrappers

  /** A point in time; the code modelled only compares timestamps and maps them to a calendar day. */
  type Timestamp = int

  /** The cluster label the topic model gives to documents that fit no topic. */
  const Outlier: int := -1

  /** A row of `documents`; `topicId == None` means not yet classified. */
  datatype Document = Document(
    id: int,
    title: string,
    url: string,
    publishedAt: Timestamp,
    fullContent: string,
    sourceType: string,
    topicId: Option<int>)

  /** A row of `topics`; `id` is the cluster label of the training run that wrote it. */
  datatype Topic = Topic(id: int, name: string, count: int, keywords: string)

  /** A row of `temporal_data` (its surrogate id is its position in the table). */
  datatype TemporalRow = TemporalRow(topicId: int, timestamp: Timestamp, frequency: int)

  /** The whole store. Documents are kept in ascending id order, which the model takes as the order of a scan without ORDER BY. */
  datatype Tables = Tables(docs: seq<Document>, topics: seq<Topic>, temporal: seq<TemporalRow>)

  /** `Document.id` is the primary key: ids are unique, and the rows are kept sorted by it. */
  ghost predicate IdsIncreasing(docs: seq<Document>) {
    forall i, j :: 0 <= i < j < |docs| ==> docs[i].id < docs[j].id
  }

  /** `Document.url` is declared unique. */
  ghost predicate UrlsUnique(docs: seq<Document>) {
    forall i, j :: 0 <= i < j < |docs| ==> docs[i].url != docs[j].url
  }

  /** `Topic.id` is the primary key. */
  predicate TopicIdsDistinct(topics: seq<Topic>) {
    forall i, j | 0 <= i < j < |topics| :: topics[i].id != topics[j].id
  }

  /** The constraints the database itself enforces. */
  ghost predicate KeysValid(t: Tables) {
    IdsIncreasing(t.docs) && UrlsUnique(t.docs) && TopicIdsDistinct(t.topics)
  }

  function TopicIds(topics: seq<Topic>): set<int> {
    set t | t in topics :: t.id
  }

  function Urls(docs: seq<Document>): set<string> {
    set d | d in docs :: d.url
  }

  /** Every assigned document refers to an existing topic (`documents.topic_id` references `topics.id`). */
  ghost predicate DocRefsValid(docs: seq<Document>, topics: seq<Topic>) {
    forall d :: d in docs && d.topicId.Some? ==> d.topicId.value in TopicIds(topics)
  }

  /** Every temporal row refers to an existing topic (`temporal_data.topic_id` references `topics.id`). */
  ghost predicate TemporalRefsValid(rows: seq<TemporalRow>, topics: seq<Topic>) {
    forall r :: r in rows ==> r.topicId in TopicIds(topics)
  }

  /** Both declared foreign keys hold. */
  ghost predicate RefsValid(t: Tables) {
    DocRefsValid(t.docs, t.topics) && TemporalRefsValid(t.temporal, t.topics)
  }
}

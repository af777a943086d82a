# Topic-store reconciliation model

The modelled service ingests tech articles and videos into a small relational
store, fits a topic model on their text, and writes the resulting taxonomy
back to the store. Every document then refers to a discovered topic. The
per-topic frequencies over time go into a table of temporal rows. Read
endpoints page through topics, reshape the temporal rows into chart objects,
and list the documents of one topic.

This project models the part of the service that decides what the store
holds. The topic model library is an uninterpreted oracle.

- `models.dfy` (module `Models`): the three tables `documents`, `topics` and
  `temporal_data`. Each has a value datatype, and the store is the
  `Tables` triple. Predicates give the declared keys (id primary key, unique
  url, topic id primary key) and the two foreign keys (a document's topic
  and a temporal row's topic).
- `crud.dfy` (module `Crud`): the CRUD layer.
  - The queries are pure functions: by id, paged, by topic, content tuples,
    topics by descending count, temporal rows by timestamp.
  - The mutators are methods of the `Store` class:
    - the url-deduplicating bulk insert;
    - the committed wipe followed by the re-creation of the taxonomy;
    - positional label assignment that skips the outlier label `-1`;
    - append-only temporal rows.
  - Each mutator is tied to a pure function of the old tables. Lemmas say
    what that function changes and what it leaves alone.
- `nlp_pipeline.dfy` (module `NlpPipeline`): the training and update
  pipeline.
  - The library is an `Oracle` with four functions; a call that raises is
    `None`.
  - The pickled model file is the `ModelFile` class.
  - `TrainInitialModel` and `UpdateModel` are step-by-step methods with
    early returns. They are proved equal to the pure functions `Train` and
    `Update`, whose properties are lemmas.
- `api.dfy` (module `Api`): the service layer.
  - The scheduled ingestion: both files, the `Z` rewrite, parsing, then
    articles before videos.
  - The training endpoint, with its non-blocking lock released on every
    path.
  - The reshaping of temporal rows into one JSON object per date, in
    first-appearance order.
  - The 404 rule of the documents endpoint.
- `wrappers.dfy` (module `Wrappers`): `Option` and `Min`.

Some things are parameters rather than modelled code:
- the presence and contents of the two JSON files (`Option<seq<RawItem>>`);
- ISO date parsing (`parse: string -> Option<Timestamp>`);
- date formatting (`dayOf: Timestamp -> string`);
- every call into the topic model library (`Oracle`).

The model follows the code where a reader might expect something different:
- Replacing the taxonomy looks like one step, but the code commits
  the wipe before it inserts the new topics (`backend/app/crud.py:63`, `:78`).
  A failed insert therefore leaves the wiped store (`TopicWriteFailureKeepsWipe`).
- Labels are not validated against existing topics before they
  are written: the code writes any non-outlier label
  (`backend/app/crud.py:84-86`). Reference validity is therefore only proved
  when the labels are known to be topics (`TrainKeepsReferencesValid`,
  `UpdateKeepsReferencesValid`).
- The docstring of `bulk_create_documents` promises "avoiding duplicates
  based on URL" (`backend/app/crud.py:30`), but the code removes only urls that
  were stored before the batch (`backend/app/crud.py:31`). Two new records of
  one batch with the same url make the commit fail on the unique key
  (`BulkCreateRejectsBatchDuplicates`).
- The outlier label is never a topic, but temporal rows for it are stored
  (`backend/app/crud.py:97-103`) and then refer to no topic
  (`OutlierRowBreaksTemporalRefs`).
- The incremental update classifies only the unassigned documents among the
  first 100 rows (`backend/app/nlp_pipeline.py:92`,
  `backend/app/crud.py:12-13`).
- During training, documents are assigned before the temporal rows are
  written (`backend/app/nlp_pipeline.py:76-79`).
- The scheduled update job does not take the training lock
  (`backend/app/main.py:61-69`).
- Topic terms are filtered only with the library's English stop-word list
  (`backend/app/nlp_pipeline.py:27`). No extra denylist exists, so none is
  claimed.

## Model

| member | source | states |
|---|---|---|
| Crud.Page | backend/app/crud.py:12-13 | OFFSET/LIMIT: at most `limit` rows, exactly `limit` when they exist, otherwise what is left after `skip`; row `i` of the page is row `skip + i` |
| Crud.SortBy | backend/app/crud.py:55 | the result is ordered by the key and is a permutation of the input |
| Crud.InsertBy | backend/app/crud.py:55 | inserting into a sorted list keeps it sorted and adds exactly that element |
| Crud.GetDocument | backend/app/crud.py:9-10 | a row is found exactly when some document has the id, and the row found is that document |
| Crud.GetDocumentsByTopic | backend/app/crud.py:15-16 | the result holds exactly the documents assigned to the topic |
| Crud.GetAllDocumentsContent | backend/app/crud.py:18-20 | one `(id, full_content, published_at)` tuple per document, position by position |
| Crud.GetDocuments | backend/app/crud.py:12-13 | the page has `min(limit, rows after skip)` rows, and row `i` of the page is table row `skip + i` |
| Crud.GetTopics | backend/app/crud.py:54-55 | exactly `min(limit, topics after skip)` topics, by count descending, all stored topics; the first page is a permutation of all topics when they fit |
| Crud.PrefixIsTop | backend/app/crud.py:55 | a prefix of a list sorted by descending count holds its largest counts |
| Crud.GetTopicsFirstPageIsTop | backend/app/crud.py:54-55 | no topic left off the first page counts more than any topic on it, so a page of `limit` topics is the top `limit` by count |
| Crud.GetTemporalData | backend/app/crud.py:92-93 | all temporal rows, no more and no fewer, in ascending timestamp order |
| Crud.NewRecords | backend/app/crud.py:31-41 | the queued records are exactly the input records whose url is not stored, never more than the input |
| Crud.NewRecordsDistinct | backend/app/crud.py:31-45 | the queued records have distinct urls exactly when no two input records share a url that is not stored |
| Crud.BulkCreateAppendsNewRows | backend/app/crud.py:29-46 | existing rows stay unchanged; one unassigned row per queued record is appended, built from its column fields only; the count returned is the number queued |
| Crud.BulkCreateStoresUrls | backend/app/crud.py:29-46 | the urls added are exactly the batch's urls not stored before; afterwards every url of the batch is stored |
| Crud.BulkCreateKeepsKeys | backend/app/crud.py:43-45 | a successful commit keeps ids ascending (primary key) and urls unique |
| Crud.BulkCreateRejectsBatchDuplicates | backend/app/crud.py:31-45 | the commit fails exactly when two records of the batch share a url that was not stored |
| Crud.Store.BulkCreateDocuments | backend/app/crud.py:29-46 | the loop builds the queue; the new documents and the count are those of `BulkCreate`; topics and temporal rows are untouched; a failed commit changes nothing |
| Crud.NewTopicsFromInfo | backend/app/crud.py:66-78 | the topic ids written are exactly the non-outlier labels of the info table; each such row's topic, with its name, count and joined keywords, is written; nothing else is written |
| Crud.ClearAndCreateResets | backend/app/crud.py:57-78 | afterwards no document has a topic, no temporal row is left, both keys and both foreign keys hold; the new topics are stored exactly when their ids are distinct |
| Crud.Store.ClearAndCreateTopics | backend/app/crud.py:57-78 | the new tables and the commit result are those of `ClearAndCreate`; the store stays valid |
| Crud.AssignedShape | backend/app/crud.py:80-87 | assignment changes only `topicId`, row by row |
| Crud.AssignedUntouched | backend/app/crud.py:82-86 | a document that no pair with a non-outlier label names keeps its row |
| Crud.AssignedAt | backend/app/crud.py:82-86 | with distinct ids, the document named at position `k` gets label `k`, or keeps its topic if that label is `-1` |
| Crud.AssignedKeepsRefs | backend/app/crud.py:84-86 | labels that are `-1` or existing topic ids keep the document foreign key valid |
| Crud.AssignedKeepsKeys | backend/app/crud.py:80-87 | assignment keeps the primary key and the unique url constraint |
| Crud.Store.AssignDocumentsToTopics | backend/app/crud.py:80-87 | the loop over `zip(ids, labels)` gives the documents of `AssignAll`; topics and temporal rows are untouched |
| Crud.TemporalRows | backend/app/crud.py:97-103 | one temporal row per input row, with the same topic, timestamp and frequency |
| Crud.OutlierRowBreaksTemporalRefs | backend/app/crud.py:95-104 | an input row for topic `-1` is stored too, and then the temporal foreign key fails |
| Crud.Store.CreateTemporalData | backend/app/crud.py:95-104 | the rows are appended to the temporal rows; documents and topics are untouched |
| NlpPipeline.ModelFile.Load | backend/app/nlp_pipeline.py:37-42 | the loaded model is the saved one, `None` when none was saved |
| NlpPipeline.ModelFile.Save | backend/app/nlp_pipeline.py:44-47 | the file holds the given model, whatever it held before |
| NlpPipeline.Unassigned | backend/app/nlp_pipeline.py:92 | the rows collected are exactly the content tuples of documents without a topic |
| NlpPipeline.UnassignedEmpty | backend/app/nlp_pipeline.py:92-95 | nothing is collected exactly when every document has a topic |
| NlpPipeline.UnassignedIdsIncrease | backend/app/nlp_pipeline.py:92 | with ascending document ids the collected ids ascend, so no document is named twice |
| NlpPipeline.UpdateDatabaseWithModelResults | backend/app/nlp_pipeline.py:125-138 | replace the taxonomy, then assign the labels only if the topics committed: the result is `WriteResults`; the store stays valid |
| NlpPipeline.RunTemporalAnalysis | backend/app/nlp_pipeline.py:111-122 | a failing analysis is swallowed and changes nothing; otherwise its rows are appended with 20 bins: the result is `TemporalAnalysis` |
| NlpPipeline.TrainInitialModel | backend/app/nlp_pipeline.py:51-79 | empty-corpus return, fit, save, replace, temporal, in that order: the tables, model file and outcome are those of `Train` |
| NlpPipeline.UpdateModel | backend/app/nlp_pipeline.py:81-109 | bootstrap, no-op, transform, save, assign: the tables, model file and outcome are those of `Update` |
| NlpPipeline.TrainEmptyCorpusIsNoOp | backend/app/nlp_pipeline.py:56-59 | training reports no documents exactly when the store is empty, and then touches neither tables nor model file |
| NlpPipeline.FitFailureChangesNothing | backend/app/nlp_pipeline.py:69-72 | a fit that raises leaves the tables and the model file as they were |
| NlpPipeline.TopicWriteFailureKeepsWipe | backend/app/nlp_pipeline.py:72-76 | a failed topic commit after the save leaves the new model saved, no topics, no temporal rows and every document unassigned |
| NlpPipeline.TrainAssignsByPosition | backend/app/nlp_pipeline.py:61-76 | after training the file holds the fit, the topics are the new taxonomy, and each document has the label at its position, or none for `-1` |
| NlpPipeline.ClearedAssignedByPosition | backend/app/nlp_pipeline.py:125-137 | assigning a full batch of labels to the cleared rows gives each row the label at its position |
| NlpPipeline.TrainKeepsReferencesValid | backend/app/nlp_pipeline.py:75-79 | when every label is `-1` or a label of the info table, no document refers to a missing topic; the temporal rows are valid exactly when none is for `-1` and each is for a label of the info table |
| NlpPipeline.TemporalFailureKeepsAssignments | backend/app/nlp_pipeline.py:111-122 | a failed analysis keeps the taxonomy and assignments just written, with no temporal rows |
| NlpPipeline.UpdateWithoutModelTrains | backend/app/nlp_pipeline.py:85-89 | with no saved model the update is the initial training |
| NlpPipeline.ScannedRowsAreFirstPageUnassigned | backend/app/nlp_pipeline.py:92 | every collected id belongs to an unassigned document among the first 100 rows |
| NlpPipeline.UpdateLeavesTaxonomyAndAssigned | backend/app/nlp_pipeline.py:97-109 | with a saved model, no topic or temporal row changes, and no document that had a topic or lies beyond row 100 changes |
| NlpPipeline.UpdateNothingNewIsNoOp | backend/app/nlp_pipeline.py:92-95 | the update does nothing exactly when every document among the first 100 rows has a topic |
| NlpPipeline.UpdateClassifiesByPosition | backend/app/nlp_pipeline.py:97-108 | after a transform the new model is saved and the document collected at position `k` gets label `k`, unless it is `-1` |
| NlpPipeline.UpdateKeepsReferencesValid | backend/app/nlp_pipeline.py:108 | labels that are `-1` or existing topics keep every document reference valid during an update |
| Api.ReplaceZ | backend/app/main.py:50 | the result has no `Z`, is the input when it had none, and is never shorter |
| Api.ReplaceZChar | backend/app/main.py:50 | a `Z` becomes `+00:00` and any other character stays as it is |
| Api.ReplaceZConcat | backend/app/main.py:50 | the rewrite distributes over concatenation, so with `ReplaceZChar` every character is rewritten in place and in order |
| Api.ConvertAll | backend/app/main.py:49-50 | the conversion succeeds exactly when every item's rewritten date parses, and then yields one record per item |
| Api.ConvertAllFields | backend/app/main.py:49-50 | each record keeps its item's fields and carries the parsed date |
| Api.ConvertPublishedAt | backend/app/main.py:49-50 | the loop stops at the first date that does not parse; its result is `ConvertAll` |
| Api.ConvertAllFails | backend/app/main.py:49-50 | the conversion fails exactly when some item's date does not parse |
| Api.IngestDataFromFiles | backend/app/main.py:36-59 | the documents and outcome are those of `Ingest`; topics and temporal rows are untouched; the store stays valid |
| Api.IngestErrorCases | backend/app/main.py:43-57 | `FilesMissing` exactly when a file is absent; `ParseFailed` exactly when both files are present and some date does not parse; neither, nor a rejected article batch, changes the documents |
| Api.ConvertedUrls | backend/app/main.py:49-50 | a url-preserving conversion keeps the set of urls |
| Api.ConvertedBatchUrls | backend/app/main.py:49-50 | the converted batch has the articles' urls first, then the videos', position by position |
| Api.ConvertedSplit | backend/app/main.py:53-54 | the two halves of the converted batch carry the articles' urls and the videos' urls |
| Api.AddedUrlsWereFree | backend/app/crud.py:37-41 | a row added by a commit has a url that was not stored before it |
| Api.TwoBatches | backend/app/main.py:53-54 | two successive commits keep the old rows, store both batches' urls, and the second adds no row for a url of the first |
| Api.ArticlesThenVideos | backend/app/main.py:53-54 | committing the converted articles and then the converted videos keeps the old rows, stores both files' urls, and adds no video row for an article's url |
| Api.IngestedParts | backend/app/main.py:43-58 | a full ingestion means both files were read, every date parsed, and both commits succeeded; its documents and counts are those of the two commits |
| Api.ConvertedThenCommitted | backend/app/main.py:49-54 | converting both files and committing the two halves keeps the old rows, stores both files' urls, and adds no video row for an article's url |
| Api.IngestStoresArticlesBeforeVideos | backend/app/main.py:53-54 | a full ingestion appends after the stored rows, stores every url of both files, and adds no video row whose url an article carries |
| Api.TrainingLock.Acquire | backend/app/main.py:100-101 | a non-blocking acquire succeeds exactly when the lock was free, and the lock is held afterwards |
| Api.TrainingLock.Release | backend/app/main.py:109 | the lock is free afterwards |
| Api.TriggerResponses | backend/app/main.py:94-111 | 409 exactly when the lock is held, and then nothing changes; an ingestion that raises stops before training; an accepted request trained on an empty store or to the end |
| Api.TriggerInitialTraining | backend/app/main.py:88-111 | the lock is released on every path; the tables, model file and response are those of `Trigger` |
| Api.NameMap | backend/app/main.py:129 | the name map has exactly the topic ids as keys |
| Api.NameMapDistinct | backend/app/main.py:129 | with distinct ids, each topic's id maps to its name |
| Api.ChartAll | backend/app/main.py:128-138 | one object per date that some row falls on, whether or not its topic has a name; each date listed once; dates and objects agree |
| Api.StepOrder | backend/app/main.py:133-134 | a date seen for the first time is listed at the end; otherwise the list is unchanged |
| Api.StepEntry | backend/app/main.py:136-138 | one row sets its topic name's frequency in its date's object and leaves every other entry as it was |
| Api.ChartFirstAppearance | backend/app/main.py:131-140 | the dates are listed in the order their first rows come |
| Api.ChartEntries | backend/app/main.py:131-138 | a date that some row falls on has an object, which holds a topic name exactly when a row of that date has a topic of that non-empty name, and then the frequency of the last such row |
| Api.ChartTimestamps | backend/app/main.py:133-134 | when no topic is called `timestamp`, every object's `timestamp` field is its own date |
| Api.Render | backend/app/main.py:140 | the list has one object per listed date, in listing order |
| Api.Reshape | backend/app/main.py:128-140 | the reshaping loop returns `Render(ChartAll(...))` |
| Api.ReadTemporalData | backend/app/main.py:119-140 | the temporal rows by timestamp, the names of the top 1000 topics by count, then the reshape: the response is `TemporalChart` of the store |
| Api.ReadDocumentsForTopic | backend/app/main.py:143-149 | 404 exactly when no document has the topic; otherwise a non-empty list of exactly the topic's documents |

## Left out

- The ingestion scripts under `scripts/` are not part of this model. They are vendor API clients, thread pools and JSON writers.
- Topic model internals (embeddings, UMAP, clustering, term weighting, floats) are not modelled. The library is an oracle whose only assumed promise is one label per input document (`OneLabelPerDocument`); the temporal analysis may fail.
- Pickle and the filesystem are reduced to one optional model value (`ModelFile`).
- SQLAlchemy sessions and commits are plain state updates.
  - A commit failure is modelled only where the code can hit a declared key: duplicate new urls in one insert batch, and duplicate topic ids in one taxonomy.
  - Foreign keys are predicates proved about the state, not constraints the store enforces.
- Concurrency is not modelled: `threading.Lock` atomicity, interleaved requests, the APScheduler intervals, and a second request arriving while training runs.
- TriggerInitialTraining: the `locked()` test and the non-blocking acquire after it become the acquire alone. They agree whenever requests do not interleave.
- FastAPI routing, dependency injection, CORS and the pydantic response schemas are not modelled. HTTP results are the `TrainResponse` and `DocumentsResponse` datatypes.
- ISO date parsing and `strftime` are function parameters (`parse`, `dayOf`). Timestamps are integers.
- JSON decoding errors and a missing key in an item are not modelled. Items have the five fields the ingestion scripts write, plus a map of extra keys that the insert drops.
- Crud.SortBy: SQL leaves the order of equal keys unspecified; the model fixes a stable order, so tie order in `get_topics` and `get_temporal_data` is a model choice.
- Crud.GetDocuments: `get_documents` and `get_all_documents_content` have no ORDER BY. The model stores the documents in ascending id order and takes that as the scan order, so "the first 100 rows" of the update properties (`ScannedRowsAreFirstPageUnassigned`, `UpdateLeavesTaxonomyAndAssigned`, `UpdateNothingNewIsNoOp`) are the 100 lowest ids, which is a model choice.
- Crud.GetTopics: `skip` and `limit` are natural numbers. Negative query values that `/api/topics` passes on to the database (`backend/app/main.py:114`) are not modelled. For a later page (`skip > 0`) the contract states length, order and membership, but not which topics the page holds.
- `get_topic` (`backend/app/crud.py:51-52`) is a primary-key lookup no core path calls. It has the shape of `Crud.GetDocument` and is not modelled separately.
- `create_document` (`backend/app/crud.py:22-27`) is not modelled. No core path calls it.
- `read_topics` (`backend/app/main.py:113-117`) only calls `Crud.GetTopics`, with default limit 50. It is not a separate member.
- `update_nlp_model_job` (`backend/app/main.py:61-69`) only calls `NlpPipeline.UpdateModel`, without the training lock. It is not a separate member.
- Crud.TopicOf: a `Representation` entry is modelled as a `RepEntry` whose `head` is `word[0]`. The model is neutral about what an entry is: for `(word, weight)` pairs the head is the word, and for plain strings it is their first character.

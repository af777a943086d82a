/**
 * The training and update pipeline of backend/app/nlp_pipeline.py. The topic
 * model library is an `Oracle`: four functions whose only promise is one label
 * per input document. Each pipeline method is tied to a pure function of the
 * old tables and the old model file; the lemmas state what those functions do.
 */
module NlpPipeline {
  import opened Wrappers
  import opened Models
  import opened Crud

  /** The number of time bins asked of the temporal analysis. */
  const NrBins: nat := 20

  /** A fitted topic model, as the pickled blob holds it; the pipeline never looks inside. */
  datatype Model = Model(state: seq<int>)

  /**
   * The topic model library: `fit_transform`, `transform`, `get_topic_info`
   * and `topics_over_time`. `None` stands for a call that raises.
   */
  datatype Oracle = Oracle(
    fitTransform: seq<string> -> Option<(Model, seq<int>)>,
    transform: (Model, seq<string>) -> Option<(Model, seq<int>)>,
    topicInfo: Model -> seq<TopicInfoRow>,
    topicsOverTime: (Model, seq<string>, seq<Timestamp>, nat) -> Option<seq<OverTimeRow>>)

  /** The library's contract: fitting and transforming give one label per input document. */
  ghost predicate OneLabelPerDocument(o: Oracle) {
    && (forall corpus :: o.fitTransform(corpus).Some? ==> |o.fitTransform(corpus).value.1| == |corpus|)
    && (forall m, corpus :: o.transform(m, corpus).Some? ==> |o.transform(m, corpus).value.1| == |corpus|)
  }

  /** The model file: at most one model, overwritten in place. */
  class ModelFile {
    var saved: Option<Model>

    constructor (initial: Option<Model>)
      ensures saved == initial
    {
      saved := initial;
    }

    /** `load_model`: `None` exactly when no model has been saved. */
    method Load() returns (m: Option<Model>)
      ensures m == saved
    {
      m := saved;
    }

    /** `save_model`: replaces whatever was saved before. */
    method Save(m: Model)
      modifies this
      ensures saved == Some(m)
    {
      saved := Some(m);
    }
  }

  // ---------------------------------------------------------------------
  // The columns of `zip(*rows)`
  // ---------------------------------------------------------------------

  function IdsOf(rows: seq<ContentRow>): seq<int> {
    seq(|rows|, i requires 0 <= i < |rows| => rows[i].id)
  }

  function CorpusOf(rows: seq<ContentRow>): seq<string> {
    seq(|rows|, i requires 0 <= i < |rows| => rows[i].fullContent)
  }

  function StampsOf(rows: seq<ContentRow>): seq<Timestamp> {
    seq(|rows|, i requires 0 <= i < |rows| => rows[i].publishedAt)
  }

  /** The documents `update_model` classifies: those of `docs` without a topic, in order. */
  function Unassigned(docs: seq<Document>): (r: seq<ContentRow>)
    ensures |r| <= |docs|
    ensures forall c :: c in r ==> exists d :: d in docs && d.topicId.None? && c == ContentOf(d)
    ensures forall d :: d in docs && d.topicId.None? ==> ContentOf(d) in r
  {
    if docs == [] then []
    else
      assert forall d :: d in docs <==> d == docs[0] || d in docs[1..];
      (if docs[0].topicId.None? then [ContentOf(docs[0])] else []) + Unassigned(docs[1..])
  }

  /** Nothing is left to classify exactly when every document already has a topic. */
  lemma {:induction false} UnassignedEmpty(docs: seq<Document>)
    ensures Unassigned(docs) == [] <==> forall d :: d in docs ==> d.topicId.Some?
  {
    if docs != [] {
      UnassignedEmpty(docs[1..]);
      assert forall d :: d in docs <==> d == docs[0] || d in docs[1..];
    }
  }

  /** A bound below every document id bounds every collected id. */
  lemma UnassignedIdsAbove(docs: seq<Document>, lo: int)
    requires forall i :: 0 <= i < |docs| ==> lo < docs[i].id
    ensures forall k :: 0 <= k < |Unassigned(docs)| ==> lo < Unassigned(docs)[k].id
  {
    var r := Unassigned(docs);
    forall k | 0 <= k < |r| ensures lo < r[k].id {
      assert r[k] in r;
      var d :| d in docs && d.topicId.None? && r[k] == ContentOf(d);
      var i :| 0 <= i < |docs| && docs[i] == d;
    }
  }

  /** A row below every row of an ascending list keeps it ascending when put in front. */
  lemma ConsIncreasing(h: ContentRow, rest: seq<ContentRow>)
    requires forall k :: 0 <= k < |rest| ==> h.id < rest[k].id
    requires forall a, b :: 0 <= a < b < |rest| ==> rest[a].id < rest[b].id
    ensures forall a, b :: 0 <= a < b < |[h] + rest| ==> ([h] + rest)[a].id < ([h] + rest)[b].id
  {
    var r := [h] + rest;
    forall a, b | 0 <= a < b < |r| ensures r[a].id < r[b].id {
      assert r[b] == rest[b - 1];
      if 0 < a {
        assert r[a] == rest[a - 1];
      }
    }
  }

  /** Dropping the first document keeps the ids ascending, all above the dropped one. */
  lemma TailIncreasing(docs: seq<Document>)
    requires docs != [] && IdsIncreasing(docs)
    ensures IdsIncreasing(docs[1..])
    ensures forall i :: 0 <= i < |docs[1..]| ==> docs[0].id < docs[1..][i].id
  {
    var tail := docs[1..];
    forall i, j | 0 <= i < j < |tail| ensures tail[i].id < tail[j].id {
      assert tail[i] == docs[i + 1] && tail[j] == docs[j + 1];
    }
    forall i | 0 <= i < |tail| ensures docs[0].id < tail[i].id {
      assert tail[i] == docs[i + 1];
    }
  }

  /** With ascending document ids, the classified ids ascend too, so no document is named twice. */
  lemma {:induction false} UnassignedIdsIncrease(docs: seq<Document>)
    requires IdsIncreasing(docs)
    ensures forall a, b :: 0 <= a < b < |Unassigned(docs)| ==> Unassigned(docs)[a].id < Unassigned(docs)[b].id
  {
    if docs != [] {
      var tail := docs[1..];
      TailIncreasing(docs);
      UnassignedIdsIncrease(tail);
      UnassignedIdsAbove(tail, docs[0].id);
      if docs[0].topicId.None? {
        ConsIncreasing(ContentOf(docs[0]), Unassigned(tail));
      }
    }
  }

  // ---------------------------------------------------------------------
  // Specification of the pipeline steps
  // ---------------------------------------------------------------------

  datatype TrainOutcome =
    | NoDocuments                    // empty corpus: returns without doing anything
    | FitFailed                      // fit_transform raised
    | TopicWriteFailed               // the commit of the new topics raised, after the wipe
    | Trained(temporalSaved: bool)   // temporal rows written, or the analysis failed and was logged

  datatype UpdateOutcome =
    | Bootstrapped(train: TrainOutcome)  // no saved model: the initial training ran instead
    | NothingNew                         // no unassigned document in the scanned page
    | TransformFailed                    // transform raised
    | Updated(classified: nat)

  /** The tables and model file after a pipeline run, and how it ended. */
  datatype Run<O> = Run(tables: Tables, saved: Option<Model>, outcome: O)

  /** `update_database_with_model_results`: replace the taxonomy, then assign by position. */
  function WriteResults(t: Tables, info: seq<TopicInfoRow>, ids: seq<int>, labels: seq<int>): (Tables, bool) {
    var (w, ok) := ClearAndCreate(t, info);
    if ok then (w.(docs := AssignAll(w.docs, ids, labels)), true) else (w, false)
  }

  /** `run_temporal_analysis`: best effort; a failure leaves the tables as they are. */
  function TemporalAnalysis(t: Tables, o: Oracle, m: Model, corpus: seq<string>, stamps: seq<Timestamp>): (Tables, bool) {
    match o.topicsOverTime(m, corpus, stamps, NrBins)
    case None => (t, false)
    case Some(rows) => (t.(temporal := t.temporal + TemporalRows(rows)), true)
  }

  /** `train_initial_model`: fit, save, replace the taxonomy, then the temporal rows. */
  function Train(t: Tables, saved: Option<Model>, o: Oracle): Run<TrainOutcome> {
    var rows := GetAllDocumentsContent(t.docs);
    if rows == [] then Run(t, saved, NoDocuments)
    else
      match o.fitTransform(CorpusOf(rows))
      case None => Run(t, saved, FitFailed)
      case Some((m, labels)) =>
        var (w, ok) := WriteResults(t, o.topicInfo(m), IdsOf(rows), labels);
        if !ok then Run(w, Some(m), TopicWriteFailed)
        else
          var (t2, temporalSaved) := TemporalAnalysis(w, o, m, CorpusOf(rows), StampsOf(rows));
          Run(t2, Some(m), Trained(temporalSaved))
  }

  /** `update_model`: classify the unassigned documents of the first page against the saved model. */
  function Update(t: Tables, saved: Option<Model>, o: Oracle): Run<UpdateOutcome> {
    match saved
    case None =>
      var r := Train(t, saved, o);
      Run(r.tables, r.saved, Bootstrapped(r.outcome))
    case Some(m) =>
      var rows := Unassigned(GetDocuments(t.docs, 0, DefaultLimit));
      if rows == [] then Run(t, saved, NothingNew)
      else
        match o.transform(m, CorpusOf(rows))
        case None => Run(t, saved, TransformFailed)
        case Some((m2, labels)) => Run(t.(docs := AssignAll(t.docs, IdsOf(rows), labels)), Some(m2), Updated(|rows|))
  }

  // ---------------------------------------------------------------------
  // The pipeline methods
  // ---------------------------------------------------------------------

  method UpdateDatabaseWithModelResults(db: Store, o: Oracle, m: Model, ids: seq<int>, labels: seq<int>) returns (ok: bool)
    requires db.Valid()
    modifies db
    ensures db.Valid()
    ensures (db.Snapshot(), ok) == WriteResults(old(db.Snapshot()), o.topicInfo(m), ids, labels)
  {
    var info := o.topicInfo(m);
    ok := db.ClearAndCreateTopics(info);
    if !ok {
      return;
    }
    db.AssignDocumentsToTopics(ids, labels);
  }

  method RunTemporalAnalysis(db: Store, o: Oracle, m: Model, corpus: seq<string>, stamps: seq<Timestamp>)
    returns (temporalSaved: bool)
    requires db.Valid()
    modifies db
    ensures db.Valid()
    ensures (db.Snapshot(), temporalSaved) == TemporalAnalysis(old(db.Snapshot()), o, m, corpus, stamps)
  {
    var overTime := o.topicsOverTime(m, corpus, stamps, NrBins);
    if overTime.None? {
      // the exception is caught and only logged
      return false;
    }
    db.CreateTemporalData(overTime.value);
    return true;
  }

  method TrainInitialModel(db: Store, disk: ModelFile, o: Oracle) returns (outcome: TrainOutcome)
    requires db.Valid()
    modifies db, disk
    ensures db.Valid()
    ensures Run(db.Snapshot(), disk.saved, outcome) == Train(old(db.Snapshot()), old(disk.saved), o)
  {
    var rows := GetAllDocumentsContent(db.docs);
    if rows == [] {
      return NoDocuments;
    }
    var ids, corpus, stamps := IdsOf(rows), CorpusOf(rows), StampsOf(rows);
    var fit := o.fitTransform(corpus);
    if fit.None? {
      return FitFailed;
    }
    var (model, labels) := fit.value;
    disk.Save(model);
    var ok := UpdateDatabaseWithModelResults(db, o, model, ids, labels);
    if !ok {
      return TopicWriteFailed;
    }
    var temporalSaved := RunTemporalAnalysis(db, o, model, corpus, stamps);
    return Trained(temporalSaved);
  }

  method UpdateModel(db: Store, disk: ModelFile, o: Oracle) returns (outcome: UpdateOutcome)
    requires db.Valid()
    modifies db, disk
    ensures db.Valid()
    ensures Run(db.Snapshot(), disk.saved, outcome) == Update(old(db.Snapshot()), old(disk.saved), o)
  {
    var topicModel := disk.Load();
    if topicModel.None? {
      var trained := TrainInitialModel(db, disk, o);
      return Bootstrapped(trained);
    }
    var rows := Unassigned(GetDocuments(db.docs, 0, DefaultLimit));
    if rows == [] {
      return NothingNew;
    }
    var result := o.transform(topicModel.value, CorpusOf(rows));
    if result.None? {
      return TransformFailed;
    }
    var (model, labels) := result.value;
    disk.Save(model);
    db.AssignDocumentsToTopics(IdsOf(rows), labels);
    return Updated(|rows|);
  }

  // ---------------------------------------------------------------------
  // Properties of training
  // ---------------------------------------------------------------------

  /** Training an empty corpus touches neither the tables nor the model file, and is the only no-op. */
  lemma TrainEmptyCorpusIsNoOp(t: Tables, saved: Option<Model>, o: Oracle)
    ensures Train(t, saved, o).outcome == NoDocuments <==> t.docs == []
    ensures t.docs == [] ==> Train(t, saved, o) == Run(t, saved, NoDocuments)
  {
  }

  /** A fit that raises happens before the save and the wipe, so nothing changes. */
  lemma FitFailureChangesNothing(t: Tables, saved: Option<Model>, o: Oracle)
    requires Train(t, saved, o).outcome == FitFailed
    ensures Train(t, saved, o).tables == t && Train(t, saved, o).saved == saved
  {
  }

  /** A failed commit of the new topics leaves the committed wipe and the already saved model. */
  lemma TopicWriteFailureKeepsWipe(t: Tables, saved: Option<Model>, o: Oracle)
    requires KeysValid(t)
    requires Train(t, saved, o).outcome == TopicWriteFailed
    ensures var r := Train(t, saved, o);
            && r.saved.Some?
            && r.tables.topics == [] && r.tables.temporal == []
            && |r.tables.docs| == |t.docs|
            && (forall j :: 0 <= j < |t.docs| ==> r.tables.docs[j] == t.docs[j].(topicId := None))
  {
    var m := o.fitTransform(CorpusOf(GetAllDocumentsContent(t.docs))).value.0;
    ClearAndCreateResets(t, o.topicInfo(m));
  }

  /**
   * After a successful training the model file holds the new fit, the topics
   * are the new taxonomy, and each document carries the label at its
   * position, or none if that label is the outlier.
   */
  lemma TrainAssignsByPosition(t: Tables, saved: Option<Model>, o: Oracle)
    requires KeysValid(t) && OneLabelPerDocument(o)
    requires Train(t, saved, o).outcome.Trained?
    ensures var rows := GetAllDocumentsContent(t.docs);
            var (m, labels) := o.fitTransform(CorpusOf(rows)).value;
            var r := Train(t, saved, o);
            && r.saved == Some(m)
            && r.tables.topics == NewTopics(o.topicInfo(m))
            && |labels| == |t.docs| == |r.tables.docs|
            && (forall j :: 0 <= j < |t.docs| ==>
                  r.tables.docs[j] == t.docs[j].(topicId := if labels[j] == Outlier then None else Some(labels[j])))
  {
    var rows := GetAllDocumentsContent(t.docs);
    var (m, labels) := o.fitTransform(CorpusOf(rows)).value;
    var ids := IdsOf(rows);
    var info := o.topicInfo(m);
    ClearAndCreateResets(t, info);
    var w := ClearAndCreate(t, info).0;
    assert |CorpusOf(rows)| == |t.docs|;
    ClearedAssignedByPosition(t.docs, w.docs, ids, labels);
  }

  /** Assigning labels to the cleared rows, one per row and in row order, gives each row its own label. */
  lemma ClearedAssignedByPosition(docs: seq<Document>, cleared: seq<Document>, ids: seq<int>, labels: seq<int>)
    requires IdsIncreasing(docs)
    requires |cleared| == |docs| == |ids| == |labels|
    requires forall i :: 0 <= i < |docs| ==> cleared[i] == docs[i].(topicId := None) && ids[i] == docs[i].id
    ensures |AssignAll(cleared, ids, labels)| == |docs|
    ensures forall j :: 0 <= j < |docs| ==>
              AssignAll(cleared, ids, labels)[j] == docs[j].(topicId := if labels[j] == Outlier then None else Some(labels[j]))
  {
    var n := |docs|;
    AssignedShape(cleared, ids, labels, n);
    forall j | 0 <= j < n
      ensures AssignAll(cleared, ids, labels)[j] == docs[j].(topicId := if labels[j] == Outlier then None else Some(labels[j]))
    {
      AssignedAt(cleared, ids, labels, n, j, j);
    }
  }

  /**
   * When every label of the fit is the outlier or a label of the topic-info
   * table, no document refers to a missing topic after training; the
   * temporal rows refer to existing topics exactly when none of them is for
   * the outlier and each is for a label of the topic-info table.
   */
  lemma TrainKeepsReferencesValid(t: Tables, saved: Option<Model>, o: Oracle)
    requires KeysValid(t)
    requires Train(t, saved, o).outcome.Trained?
    requires var (m, labels) := o.fitTransform(CorpusOf(GetAllDocumentsContent(t.docs))).value;
             forall l :: l in labels ==> l == Outlier || exists row :: row in o.topicInfo(m) && row.topic == l
    ensures DocRefsValid(Train(t, saved, o).tables.docs, Train(t, saved, o).tables.topics)
    ensures var r := Train(t, saved, o);
            var info := o.topicInfo(r.saved.value);
            TemporalRefsValid(r.tables.temporal, r.tables.topics) <==>
            forall row :: row in r.tables.temporal ==>
              row.topicId != Outlier && exists x :: x in info && x.topic == row.topicId
  {
    var rows := GetAllDocumentsContent(t.docs);
    var (m, labels) := o.fitTransform(CorpusOf(rows)).value;
    var ids := IdsOf(rows);
    var info := o.topicInfo(m);
    ClearAndCreateResets(t, info);
    NewTopicsFromInfo(info);
    var w := ClearAndCreate(t, info).0;
    var n := Min(|ids|, |labels|);
    forall k | 0 <= k < n ensures labels[k] == Outlier || labels[k] in TopicIds(w.topics) {
      assert labels[k] in labels;
    }
    AssignedKeepsRefs(w.docs, ids, labels, n, w.topics);
  }

  /** A failed temporal analysis is swallowed: the new taxonomy and assignments stay, with no temporal rows. */
  lemma TemporalFailureKeepsAssignments(t: Tables, saved: Option<Model>, o: Oracle)
    requires KeysValid(t)
    requires Train(t, saved, o).outcome == Trained(false)
    ensures var rows := GetAllDocumentsContent(t.docs);
            var (m, labels) := o.fitTransform(CorpusOf(rows)).value;
            && Train(t, saved, o).tables == WriteResults(t, o.topicInfo(m), IdsOf(rows), labels).0
            && Train(t, saved, o).tables.temporal == []
  {
    var rows := GetAllDocumentsContent(t.docs);
    var m := o.fitTransform(CorpusOf(rows)).value.0;
    ClearAndCreateResets(t, o.topicInfo(m));
  }

  // ---------------------------------------------------------------------
  // Properties of the update
  // ---------------------------------------------------------------------

  /** Without a saved model the update is the initial training. */
  lemma UpdateWithoutModelTrains(t: Tables, o: Oracle)
    ensures Update(t, None, o).tables == Train(t, None, o).tables
    ensures Update(t, None, o).saved == Train(t, None, o).saved
    ensures Update(t, None, o).outcome == Bootstrapped(Train(t, None, o).outcome)
  {
  }

  /** Each classified id belongs to an unassigned document among the first `DefaultLimit` rows. */
  lemma ScannedRowsAreFirstPageUnassigned(docs: seq<Document>, k: nat)
    requires k < |Unassigned(GetDocuments(docs, 0, DefaultLimit))|
    ensures exists j :: 0 <= j < |docs| && j < DefaultLimit && docs[j].topicId.None?
                        && Unassigned(GetDocuments(docs, 0, DefaultLimit))[k].id == docs[j].id
  {
    var page := GetDocuments(docs, 0, DefaultLimit);
    assert Unassigned(page)[k] in Unassigned(page);
    var d :| d in page && d.topicId.None? && Unassigned(page)[k] == ContentOf(d);
    var j :| 0 <= j < |page| && page[j] == d;
    assert page[j] == docs[j];
  }

  /**
   * With a saved model the update creates and deletes no topic or temporal
   * row, and changes no document that already had a topic or lies beyond the
   * first `DefaultLimit` rows.
   */
  lemma UpdateLeavesTaxonomyAndAssigned(t: Tables, m: Model, o: Oracle)
    requires KeysValid(t)
    ensures var r := Update(t, Some(m), o);
            && r.tables.topics == t.topics
            && r.tables.temporal == t.temporal
            && |r.tables.docs| == |t.docs|
            && (forall j :: 0 <= j < |t.docs| && (t.docs[j].topicId.Some? || j >= DefaultLimit) ==>
                  r.tables.docs[j] == t.docs[j])
  {
    var rows := Unassigned(GetDocuments(t.docs, 0, DefaultLimit));
    if rows != [] && o.transform(m, CorpusOf(rows)).Some? {
      var labels := o.transform(m, CorpusOf(rows)).value.1;
      var ids := IdsOf(rows);
      var n := Min(|ids|, |labels|);
      AssignedShape(t.docs, ids, labels, n);
      forall j | 0 <= j < |t.docs| && (t.docs[j].topicId.Some? || j >= DefaultLimit)
        ensures Assigned(t.docs, ids, labels, n)[j] == t.docs[j]
      {
        forall k | 0 <= k < n ensures ids[k] != t.docs[j].id || labels[k] == Outlier {
          ScannedRowsAreFirstPageUnassigned(t.docs, k);
          var j' :| 0 <= j' < |t.docs| && j' < DefaultLimit && t.docs[j'].topicId.None? && rows[k].id == t.docs[j'].id;
          assert j' != j;
          assert t.docs[j'].id != t.docs[j].id;
        }
        AssignedUntouched(t.docs, ids, labels, n, j);
      }
    }
  }

  /** The update is a no-op exactly when every document of the first page already has a topic. */
  lemma UpdateNothingNewIsNoOp(t: Tables, m: Model, o: Oracle)
    ensures Update(t, Some(m), o).outcome == NothingNew <==>
            forall j :: 0 <= j < |t.docs| && j < DefaultLimit ==> t.docs[j].topicId.Some?
    ensures Update(t, Some(m), o).outcome == NothingNew ==> Update(t, Some(m), o) == Run(t, Some(m), NothingNew)
  {
    var page := GetDocuments(t.docs, 0, DefaultLimit);
    if j :| 0 <= j < |t.docs| && j < DefaultLimit && t.docs[j].topicId.None? {
      assert page[j] == t.docs[j];
      assert ContentOf(page[j]) in Unassigned(page);
    } else {
      assert forall d :: d in page ==> d.topicId.Some? by {
        forall d | d in page ensures d.topicId.Some? {
          var j :| 0 <= j < |page| && page[j] == d;
          assert page[j] == t.docs[j];
        }
      }
      UnassignedEmpty(page);
    }
  }

  /**
   * After a successful transform the model is saved, and the document named
   * at position `k` of the scanned rows gets label `k`, unless it is the outlier.
   */
  lemma UpdateClassifiesByPosition(t: Tables, m: Model, o: Oracle, k: nat, j: nat)
    requires KeysValid(t) && OneLabelPerDocument(o)
    requires Update(t, Some(m), o).outcome.Updated?
    requires k < |Unassigned(GetDocuments(t.docs, 0, DefaultLimit))|
    requires j < |t.docs| && t.docs[j].id == Unassigned(GetDocuments(t.docs, 0, DefaultLimit))[k].id
    ensures var rows := Unassigned(GetDocuments(t.docs, 0, DefaultLimit));
            var (m2, labels) := o.transform(m, CorpusOf(rows)).value;
            var r := Update(t, Some(m), o);
            && r.saved == Some(m2)
            && |labels| == |rows|
            && |r.tables.docs| == |t.docs|
            && r.tables.docs[j].topicId == if labels[k] == Outlier then t.docs[j].topicId else Some(labels[k])
  {
    var page := GetDocuments(t.docs, 0, DefaultLimit);
    var rows := Unassigned(page);
    var labels := o.transform(m, CorpusOf(rows)).value.1;
    var ids := IdsOf(rows);
    assert |CorpusOf(rows)| == |rows|;
    assert IdsIncreasing(page);
    UnassignedIdsIncrease(page);
    AssignedAt(t.docs, ids, labels, |rows|, k, j);
  }

  /** Labels that are outliers or existing topics keep every document reference valid during an update. */
  lemma UpdateKeepsReferencesValid(t: Tables, saved: Option<Model>, o: Oracle)
    requires saved.Some?
    requires DocRefsValid(t.docs, t.topics)
    requires forall m, c, l :: o.transform(m, c).Some? && l in o.transform(m, c).value.1 ==>
               l == Outlier || l in TopicIds(t.topics)
    ensures DocRefsValid(Update(t, saved, o).tables.docs, Update(t, saved, o).tables.topics)
  {
    var rows := Unassigned(GetDocuments(t.docs, 0, DefaultLimit));
    if rows != [] && o.transform(saved.value, CorpusOf(rows)).Some? {
      var labels := o.transform(saved.value, CorpusOf(rows)).value.1;
      var n := Min(|rows|, |labels|);
      forall k | 0 <= k < n ensures labels[k] == Outlier || labels[k] in TopicIds(t.topics) {
        assert labels[k] in labels;
      }
      AssignedKeepsRefs(t.docs, IdsOf(rows), labels, n, t.topics);
    }
  }
}

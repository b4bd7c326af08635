/** `BookkeepingVectorDB` of src/python/utils/vector_db.py: the same append-only
    ingestion as the backend copy, without `add_record`, classifying by the single
    nearest neighbour. */
module UtilsVectorDb {
  import opened Common
  import opened VectorIndex
  import BackendVectorDb

  const DatasetCollectionName := "bookkeeping-vector-db"
  const Unknown := "unknown"

  /** The decision of `predict_category` (lines 207-222) over the neighbours of a
      query for one: accept the first neighbour iff its similarity reaches the
      threshold; every rejection, an empty index included, reports no category,
      confidence 0.0 and source "unknown". The comparison with an absent threshold
      raises. */
  function DecideNearest(neighbours: seq<Neighbour>, threshold: Option<real>): (r: Result<Prediction, string>)
    ensures neighbours == [] ==> r == Ok(Prediction(None, 0.0, Unknown))
    ensures neighbours != [] && threshold.None? ==> r.Err?
    ensures neighbours != [] && threshold.Some? ==>
              && r.Ok?
              && (r.value.category.Some? <==> neighbours[0].similarity >= threshold.value)
              && (r.value.category.Some? ==>
                    r.value == Prediction(Some(neighbours[0].category), neighbours[0].similarity, DatasetCollectionName))
              && (r.value.category.None? ==> r.value == Prediction(None, 0.0, Unknown))
  {
    if neighbours == [] then Ok(Prediction(None, 0.0, Unknown))
    else if threshold.None? then Err("'>=' not supported between instances of 'float' and 'NoneType'")
    else if neighbours[0].similarity >= threshold.value then
      Ok(Prediction(Some(neighbours[0].category), neighbours[0].similarity, DatasetCollectionName))
    else Ok(Prediction(None, 0.0, Unknown))
  }

  /** The single-nearest rule and the backend's best-of-top rule accept the same
      neighbour lists with the same category and confidence; they differ only in the
      source and in what a rejection reports (0.0 here, the best similarity there). */
  lemma NearestAgreesWithBestOfTop(neighbours: seq<Neighbour>, threshold: Option<real>)
    ensures DecideNearest(neighbours, threshold).Err? <==> BackendVectorDb.DecideBestOfTop(neighbours, threshold).Err?
    ensures var a := DecideNearest(neighbours, threshold);
            var b := BackendVectorDb.DecideBestOfTop(neighbours, threshold);
            a.Ok? && b.Ok? ==>
              && (a.value.category == b.value.category)
              && (a.value.category.Some? ==> a.value.confidence == b.value.confidence)
              && a.value.source != b.value.source
  {
  }

  class BookkeepingVectorDb {
    var collection: Collection
    /** Ids handed out so far; the model of `uuid.uuid4()` draws the next one. */
    var issued: nat
    /** `output.similarity_threshold` of the settings, possibly absent. */
    const similarityThreshold: Option<real>

    /** Unique ids, matching documents, and (only `_add_batch` adds here) no stored
        record with an empty category. */
    ghost predicate Valid()
      reads this, collection
    {
      && collection.Valid()
      && (forall k :: 0 <= k < |collection.records| ==> collection.records[k].id < issued)
      && DocumentsMatch(collection.records)
      && (forall k :: 0 <= k < |collection.records| ==> collection.records[k].metadata.category != "")
    }

    constructor(similarityThreshold: Option<real>)
      ensures Valid() && fresh(collection) && collection.records == []
      ensures this.similarityThreshold == similarityThreshold
    {
      this.similarityThreshold := similarityThreshold;
      collection := new Collection();
      issued := 0;
    }

    /** `_add_batch` (lines 120-163), the same code as the backend copy. */
    method AddBatch(t: BackendVectorDb.Table)
      requires Valid()
      modifies this, collection
      ensures Valid() && collection == old(collection)
      ensures MetadataOf(collection.records) == old(MetadataOf(collection.records)) + BackendVectorDb.TableAdmitted(t)
      ensures collection.addCalls == old(collection.addCalls) + (if BackendVectorDb.TableAdmitted(t) == [] then 0 else 1)
    {
      var documents, metadatas := BackendVectorDb.BuildBatch(t);
      if documents != [] {
        RangeFresh(collection.records, issued, |documents|);
        AppendBatch(collection.records, documents, metadatas, issued);
        var ids := Range(issued, |documents|);
        issued := issued + |documents|;
        var zipped := Zip(documents, metadatas, ids);
        collection.Add(documents, metadatas, ids);
        assert forall k :: 0 <= k < |zipped| ==> zipped[k].metadata == metadatas[k];
      }
    }

    /** `initialize_from_dataset` (lines 93-118): appended on top of what is stored in
        slices of 1000; an unreadable dataset adds nothing. */
    method InitializeFromDataset(dataset: Option<BackendVectorDb.Table>)
      requires Valid()
      modifies this, collection
      ensures Valid() && collection == old(collection)
      ensures MetadataOf(collection.records) ==
              old(MetadataOf(collection.records)) + (if dataset.None? then [] else BackendVectorDb.TableAdmitted(dataset.value))
    {
      if dataset.None? {
        return;
      }
      var t := dataset.value;
      ghost var base := MetadataOf(collection.records);
      var i := 0;
      while i < |t.rows|
        invariant 0 <= i <= |t.rows|
        invariant Valid() && collection == old(collection)
        invariant MetadataOf(collection.records) == base + BackendVectorDb.TableAdmitted(BackendVectorDb.Slice(t, 0, i))
        decreases |t.rows| - i
      {
        var end := BackendVectorDb.Min(i + BackendVectorDb.BatchSize, |t.rows|);
        var batch := BackendVectorDb.Slice(t, i, end);
        ghost var before := MetadataOf(collection.records);
        AddBatch(batch);
        BackendVectorDb.LoadStep(base, before, MetadataOf(collection.records), t, i, end);
        i := end;
      }
      assert t.rows[0..i] == t.rows;
      assert BackendVectorDb.Slice(t, 0, i) == t;
    }

    /** `search_similar` (lines 165-194). */
    method SearchSimilar(merchant: string, product: string, topK: nat, query: (string, nat) -> seq<Hit>)
      returns (neighbours: seq<Neighbour>)
      ensures var hits := query(DocumentText(merchant, product), topK);
              |neighbours| == |hits|
              && forall i :: 0 <= i < |hits| ==>
                   neighbours[i].category == hits[i].metadata.category
                   && neighbours[i].similarity == 1.0 - hits[i].distance
    {
      neighbours := ToNeighbours(query(DocumentText(merchant, product), topK));
    }

    /** `predict_category` (lines 196-222): a query for one neighbour, then the
        single-nearest decision. */
    method PredictCategory(merchant: string, product: string, query: (string, nat) -> seq<Hit>)
      returns (r: Result<Prediction, string>)
      ensures var hits := query(DocumentText(merchant, product), 1);
              && (hits == [] ==> r == Ok(Prediction(None, 0.0, Unknown)))
              && (hits != [] && similarityThreshold.None? ==> r.Err?)
              && (hits != [] && similarityThreshold.Some? ==>
                    && r.Ok?
                    && (r.value.category.Some? <==> 1.0 - hits[0].distance >= similarityThreshold.value)
                    && (r.value.category.Some? ==>
                          r.value == Prediction(Some(hits[0].metadata.category), 1.0 - hits[0].distance, DatasetCollectionName))
                    && (r.value.category.None? ==> r.value == Prediction(None, 0.0, Unknown)))
    {
      var results := SearchSimilar(merchant, product, 1, query);
      r := DecideNearest(results, similarityThreshold);
    }

    /** `get_all_categories` (lines 224-240). */
    method GetAllCategories() returns (categories: seq<string>)
      ensures forall c :: c in categories <==> c in Categories(collection.records)
      ensures forall i, j :: 0 <= i < j < |categories| ==> categories[i] != categories[j]
    {
      categories := AllCategories(collection.records);
    }

    /** `get_collection_stats` (lines 242-263). */
    method GetCollectionStats() returns (totalRecords: nat, categoryCounts: map<string, nat>)
      ensures totalRecords == |collection.records|
      ensures forall c :: c in categoryCounts <==> c in Categories(collection.records)
      ensures forall c :: c in categoryCounts ==> categoryCounts[c] == CategoryCount(collection.records, c)
    {
      totalRecords, categoryCounts := CollectionStats(collection.records);
    }
  }
}

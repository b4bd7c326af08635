/** `BookkeepingVectorDB` of src/python/models/vector_db.py: the index that excludes
    configured categories, rebuilds itself from scratch, and classifies by the
    neighbour vote of `get_predicted_category` with a second threshold gate. */
module ModelsVectorDb {
  import opened Common
  import opened VectorIndex
  import Voting
  import Features

  const DatasetCollectionName := "bookkeeping-vector-db"
  const BatchSize := 1000

  /** The fields of a dataset row that `_add_batch` reads through
      `extract_transaction_fields`: the category and the amount may be missing. */
  datatype RowFields = RowFields(category: Option<string>, merchant: string, product: string, amount: Option<real>)

  const ValueError := "ValueError"

  /** Python's `[a, b] = values`: exactly two values unpack, any other number raises
      ValueError. */
  function UnpackPair(values: seq<real>): (r: Result<(real, real), string>)
    ensures r.Ok? <==> |values| == 2
    ensures r.Ok? ==> r.value == (values[0], values[1])
  {
    if |values| == 2 then Ok((values[0], values[1])) else Err(ValueError)
  }

  /** Line 114 unpacks the amount features into two names, but there are four of them
      whatever the amount, so the unpacking always raises. */
  lemma AmountFeaturesNeverUnpack(amount: Option<real>)
    ensures UnpackPair(Features.AmountFeatures(amount)) == Err(ValueError)
  {
  }

  /** `_add_batch` stores a row iff its category is truthy and not excluded. */
  predicate Admits(row: RowFields, excluded: seq<string>)
  {
    row.category.Some? && row.category.value != "" && row.category.value !in excluded
  }

  /** What `_add_batch` stores for one row: its metadata when admitted, else nothing. */
  function AdmitRow(row: RowFields, excluded: seq<string>): seq<Metadata>
  {
    if Admits(row, excluded) then [Metadata(row.category.value, row.merchant, row.product)] else []
  }

  /** The metadata `_add_batch` stores for `rows`, in row order. */
  function Admitted(rows: seq<RowFields>, excluded: seq<string>): seq<Metadata>
  {
    if rows == [] then [] else Admitted(rows[..|rows| - 1], excluded) + AdmitRow(rows[|rows| - 1], excluded)
  }

  /** Every admitted record has a non-empty category outside the exclusion list, and
      comes from some row. */
  lemma {:induction false} AdmittedClean(rows: seq<RowFields>, excluded: seq<string>)
    ensures forall k :: 0 <= k < |Admitted(rows, excluded)| ==>
              var m := Admitted(rows, excluded)[k];
              m.category != "" && m.category !in excluded
              && exists i :: 0 <= i < |rows| && rows[i].category == Some(m.category)
  {
    if rows != [] {
      var init, last := rows[..|rows| - 1], rows[|rows| - 1];
      AdmittedClean(init, excluded);
      var r := Admitted(rows, excluded);
      assert r == Admitted(init, excluded) + AdmitRow(last, excluded);
      forall k | 0 <= k < |r|
        ensures exists i :: 0 <= i < |rows| && rows[i].category == Some(r[k].category)
      {
        if k < |Admitted(init, excluded)| {
          var i :| 0 <= i < |init| && init[i].category == Some(Admitted(init, excluded)[k].category);
          assert rows[i] == init[i];
        } else {
          assert rows[|rows| - 1].category == Some(r[k].category);
        }
      }
    }
  }

  /** Admitting rows batch by batch admits the same records as one pass. */
  lemma {:induction false} AdmittedAppend(a: seq<RowFields>, b: seq<RowFields>, excluded: seq<string>)
    ensures Admitted(a + b, excluded) == Admitted(a, excluded) + Admitted(b, excluded)
  {
    if b != [] {
      var ab := a + b;
      var bInit := b[..|b| - 1];
      assert ab[..|ab| - 1] == a + bInit;
      AdmittedAppend(a, bInit, excluded);
      var x, y, z := Admitted(a, excluded), Admitted(bInit, excluded), AdmitRow(b[|b| - 1], excluded);
      assert x + y + z == x + (y + z);
    } else {
      assert a + b == a;
    }
  }

  /** A single admitted row shows the gap: the intended load stores its metadata, but
      the load as written fails at once, having gone through no slice. */
  lemma LoadFailsOnAdmittedRow()
    ensures var row := RowFields(Some("餐饮"), "食堂", "午餐", Some(12.0));
            && Admitted([row], []) == [Metadata("餐饮", "食堂", "午餐")]
            && LoadStopped([row], [], 0, true)
            && !LoadStopped([row], [], 1, false)
  {
    var row := RowFields(Some("餐饮"), "食堂", "午餐", Some(12.0));
    assert [row][..0] == [] && [row][..1] == [row] && [row][0..Min(0 + BatchSize, 1)] == [row];
  }

  /** The row loop of `_add_batch` as written: rows that are not admitted are skipped,
      and the first admitted row reaches the unpacking of line 114, which raises. So
      the loop either raises or builds nothing. */
  method BuildBatch(rows: seq<RowFields>, excluded: seq<string>) returns (r: Result<(seq<string>, seq<Metadata>), string>)
    ensures r.Err? <==> Admitted(rows, excluded) != []
    ensures r.Err? ==> r.error == ValueError
    ensures r.Ok? ==> r.value == ([], [])
  {
    var k := 0;
    while k < |rows|
      invariant 0 <= k <= |rows|
      invariant Admitted(rows[..k], excluded) == []
    {
      var row := rows[k];
      assert rows[..k + 1][..k] == rows[..k];
      if Admits(row, excluded) {
        var unpacked := UnpackPair(Features.AmountFeatures(row.amount));
        AmountFeaturesNeverUnpack(row.amount);
        AdmittedSlices(rows, k, k + 1, excluded);
        AdmittedSlices(rows, 0, k + 1, excluded);
        return Err(unpacked.error);
      }
      k := k + 1;
    }
    assert rows[..|rows|] == rows;
    r := Ok(([], []));
  }

  /** The row loop of `_add_batch` as evidently intended, with the amount features
      read without the failing unpacking: the documents and metadatas of the admitted
      rows, document `j` being the "merchant:product" text of metadata `j`. */
  method BuildBatchIntended(rows: seq<RowFields>, excluded: seq<string>) returns (documents: seq<string>, metadatas: seq<Metadata>)
    ensures metadatas == Admitted(rows, excluded)
    ensures |documents| == |metadatas|
    ensures forall j :: 0 <= j < |metadatas| ==> documents[j] == DocumentText(metadatas[j].merchant, metadatas[j].product)
    ensures forall j :: 0 <= j < |metadatas| ==> metadatas[j].category != "" && metadatas[j].category !in excluded
  {
    documents := [];
    metadatas := [];
    var k := 0;
    while k < |rows|
      invariant 0 <= k <= |rows|
      invariant |documents| == |metadatas|
      invariant metadatas == Admitted(rows[..k], excluded)
      invariant forall j :: 0 <= j < |metadatas| ==>
                  documents[j] == DocumentText(metadatas[j].merchant, metadatas[j].product)
      invariant forall j :: 0 <= j < |metadatas| ==> metadatas[j].category != "" && metadatas[j].category !in excluded
    {
      var row := rows[k];
      assert rows[..k + 1][..k] == rows[..k];
      if Admits(row, excluded) {
        documents := documents + [DocumentText(row.merchant, row.product)];
        metadatas := metadatas + [Metadata(row.category.value, row.merchant, row.product)];
      }
      k := k + 1;
    }
    assert rows[..|rows|] == rows;
  }

  /** One more slice loaded on top of the slices before it, in the intended load. */
  lemma LoadStep(base: seq<Metadata>, before: seq<Metadata>, after: seq<Metadata>,
                 rows: seq<RowFields>, i: nat, end: nat, excluded: seq<string>)
    requires i <= end <= |rows|
    requires before == base + Admitted(rows[..i], excluded)
    requires after == before + Admitted(rows[i..end], excluded)
    ensures after == base + Admitted(rows[..end], excluded)
  {
    var p, q := rows[..i], rows[i..end];
    assert rows[..end] == p + q;
    AdmittedAppend(p, q, excluded);
    var x, y := Admitted(p, excluded), Admitted(q, excluded);
    assert before + y == base + (x + y);
  }

  /** Admitting the rows up to `end` is admitting those up to `i`, then the slice
      between; and all the rows is the rows up to `end`, then the rest. */
  lemma AdmittedSlices(rows: seq<RowFields>, i: nat, end: nat, excluded: seq<string>)
    requires i <= end <= |rows|
    ensures Admitted(rows[..end], excluded) == Admitted(rows[..i], excluded) + Admitted(rows[i..end], excluded)
    ensures Admitted(rows, excluded) == Admitted(rows[..end], excluded) + Admitted(rows[end..], excluded)
  {
    assert rows[..i] + rows[i..end] == rows[..end];
    AdmittedAppend(rows[..i], rows[i..end], excluded);
    assert rows[..end] + rows[end..] == rows;
    AdmittedAppend(rows[..end], rows[end..], excluded);
  }

  function Min(a: int, b: int): int
  {
    if a <= b then a else b
  }

  /** How the load as written ends after `processed` rows: the slices before held no
      admitted row; it fails exactly when the dataset admits some row, and then at the
      start of the first slice that admits one; otherwise it has gone through every
      row. */
  predicate LoadStopped(rows: seq<RowFields>, excluded: seq<string>, processed: nat, failed: bool)
  {
    && processed <= |rows|
    && Admitted(rows[..processed], excluded) == []
    && (failed <==> Admitted(rows, excluded) != [])
    && (failed ==> processed % BatchSize == 0
                   && Admitted(rows[processed..Min(processed + BatchSize, |rows|)], excluded) != [])
    && (!failed ==> processed == |rows|)
  }

  lemma StopAtFailure(rows: seq<RowFields>, excluded: seq<string>, i: nat, slices: nat)
    requires i == slices * BatchSize && i < |rows|
    requires Admitted(rows[..i], excluded) == []
    requires Admitted(rows[i..Min(i + BatchSize, |rows|)], excluded) != []
    ensures LoadStopped(rows, excluded, i, true)
  {
    AdmittedSlices(rows, i, Min(i + BatchSize, |rows|), excluded);
    WholeSlices(slices);
  }

  lemma {:induction false} WholeSlices(n: nat)
    ensures (n * BatchSize) % BatchSize == 0
  {
    if n > 0 {
      WholeSlices(n - 1);
      assert n * BatchSize == (n - 1) * BatchSize + BatchSize;
    }
  }

  class BookkeepingVectorDb {
    var collection: Collection
    /** Ids handed out so far; the model of `uuid.uuid4()` draws the next one. */
    var issued: nat
    /** `model.similarity_threshold` of the configuration, possibly absent. */
    const similarityThreshold: Option<real>
    /** `model.excluded_categories` of the configuration. */
    const excludedCategories: seq<string>

    /** Every stored record has a unique id drawn from `issued`, the document text of
        its metadata, and a non-empty category outside the exclusion list. */
    ghost predicate Valid()
      reads this, collection
    {
      && collection.Valid()
      && (forall k :: 0 <= k < |collection.records| ==> collection.records[k].id < issued)
      && DocumentsMatch(collection.records)
      && (forall k :: 0 <= k < |collection.records| ==>
            collection.records[k].metadata.category != ""
            && collection.records[k].metadata.category !in excludedCategories)
    }

    /** `__init__` with the configured threshold and exclusions, over an empty store. */
    constructor(similarityThreshold: Option<real>, excludedCategories: seq<string>)
      ensures Valid() && fresh(collection)
      ensures collection.records == [] && this.similarityThreshold == similarityThreshold
      ensures this.excludedCategories == excludedCategories
    {
      this.similarityThreshold := similarityThreshold;
      this.excludedCategories := excludedCategories;
      collection := new Collection();
      issued := 0;
    }

    /** `_add_batch` (lines 96-143) as written: it raises at line 114 when some row is
        admitted, before `collection.add` is reached, and otherwise has nothing to add;
        either way the store is left as it is. */
    method AddBatch(rows: seq<RowFields>) returns (r: Result<(), string>)
      ensures r.Err? <==> Admitted(rows, excludedCategories) != []
    {
      var built := BuildBatch(rows, excludedCategories);
      if built.Err? {
        return Err(built.error);
      }
      r := Ok(());
    }

    /** `add_data_from_csv` (lines 66-94) as written: slices of 1000 rows go through
        `_add_batch` until one raises; the `except` of line 93 ends the whole load.
        `processed` counts the rows of the slices that went through, and `failed`
        says whether the load was ended by an exception (or the dataset could not be
        read). Nothing is stored. */
    method AddDataFromCsv(dataset: Option<seq<RowFields>>) returns (processed: nat, failed: bool)
      ensures dataset.None? ==> processed == 0 && failed
      ensures dataset.Some? ==> LoadStopped(dataset.value, excludedCategories, processed, failed)
    {
      if dataset.None? {
        return 0, true;
      }
      var rows := dataset.value;
      var i := 0;
      ghost var slices := 0;
      while i < |rows|
        invariant 0 <= i <= |rows| && (i == slices * BatchSize || i == |rows|)
        invariant Admitted(rows[..i], excludedCategories) == []
        decreases |rows| - i
      {
        var end := Min(i + BatchSize, |rows|);
        var added := AddBatch(rows[i..end]);
        AdmittedSlices(rows, i, end, excludedCategories);
        if added.Err? {
          StopAtFailure(rows, excludedCategories, i, slices);
          return i, true;
        }
        i, slices := end, slices + 1;
      }
      assert rows[..i] == rows;
      return i, false;
    }

    /** `_add_batch` as evidently intended: the admitted rows go to the collection in
        one `add` call with one document, metadata and id each; nothing is added when
        no row is admitted. */
    method AddBatchIntended(rows: seq<RowFields>)
      requires Valid()
      modifies this, collection
      ensures Valid() && collection == old(collection)
      ensures MetadataOf(collection.records) == old(MetadataOf(collection.records)) + Admitted(rows, excludedCategories)
      ensures collection.addCalls == old(collection.addCalls) + (if Admitted(rows, excludedCategories) == [] then 0 else 1)
    {
      var documents, metadatas := BuildBatchIntended(rows, excludedCategories);
      if documents != [] {
        RangeFresh(collection.records, issued, |documents|);
        AppendBatch(collection.records, documents, metadatas, issued);
        var ids := Range(issued, |documents|);
        issued := issued + |documents|;
        var zipped := Zip(documents, metadatas, ids);
        collection.Add(documents, metadatas, ids);
        assert forall k :: 0 <= k < |zipped| ==> zipped[k].metadata == metadatas[k];
      }
    }

    /** `add_data_from_csv` over the intended `_add_batch`: the rows are added in slices
        of 1000, every row exactly once; an unreadable dataset (`None`) adds nothing. */
    method AddDataFromCsvIntended(dataset: Option<seq<RowFields>>)
      requires Valid()
      modifies this, collection
      ensures Valid() && collection == old(collection)
      ensures MetadataOf(collection.records) ==
              old(MetadataOf(collection.records)) + (if dataset.None? then [] else Admitted(dataset.value, excludedCategories))
    {
      if dataset.None? {
        return;
      }
      var rows := dataset.value;
      ghost var base := MetadataOf(collection.records);
      var i := 0;
      while i < |rows|
        invariant 0 <= i <= |rows|
        invariant Valid() && collection == old(collection)
        invariant MetadataOf(collection.records) == base + Admitted(rows[..i], excludedCategories)
        decreases |rows| - i
      {
        var end := Min(i + BatchSize, |rows|);
        ghost var before := MetadataOf(collection.records);
        AddBatchIntended(rows[i..end]);
        LoadStep(base, before, MetadataOf(collection.records), rows, i, end, excludedCategories);
        i := end;
      }
      assert rows[..i] == rows;
    }

    /** `clear_database` (lines 271-286): the collection is deleted and created anew. */
    method ClearDatabase()
      requires Valid()
      modifies this
      ensures Valid() && fresh(collection) && collection.records == []
      ensures issued == old(issued)
    {
      collection := new Collection();
    }

    /** `initialize_from_dataset` (lines 62-64) as written: clear, then load. The load
        stores nothing, so the index is left empty whatever the dataset; the load fails
        exactly when the dataset admits some row (or cannot be read). */
    method InitializeFromDataset(dataset: Option<seq<RowFields>>) returns (failed: bool)
      requires Valid()
      modifies this
      ensures Valid() && fresh(collection) && collection.records == []
      ensures failed <==> dataset.None? || Admitted(dataset.value, excludedCategories) != []
    {
      ClearDatabase();
      var _, f := AddDataFromCsv(dataset);
      failed := f;
    }

    /** `initialize_from_dataset` over the intended load: clear, then load; the index
        then holds exactly the admitted rows of the dataset, and nothing if it cannot
        be read. */
    method InitializeFromDatasetIntended(dataset: Option<seq<RowFields>>)
      requires Valid()
      modifies this
      ensures Valid() && fresh(collection)
      ensures MetadataOf(collection.records) == (if dataset.None? then [] else Admitted(dataset.value, excludedCategories))
    {
      ClearDatabase();
      AddDataFromCsvIntended(dataset);
    }

    /** `search_similar` (lines 145-172): the query text is "merchant:product" and each
        hit becomes a neighbour with similarity `1 - distance`, in hit order. */
    method SearchSimilar(merchant: string, product: string, topK: nat, query: (string, nat) -> seq<Hit>)
      returns (neighbours: seq<Neighbour>)
      ensures var hits := query(DocumentText(merchant, product), topK);
              |neighbours| == |hits|
              && forall i :: 0 <= i < |hits| ==>
                   neighbours[i].category == hits[i].metadata.category
                   && neighbours[i].similarity == 1.0 - hits[i].distance
    {
      neighbours := ToNeighbours(query(DocumentText(merchant, product), topK));
    }

    /** `predict_category` (lines 174-208): no neighbour gives no category with
        confidence 0.0; otherwise the vote of `get_predicted_category` over the
        neighbours is taken, its category is reported only when its confidence reaches
        the threshold (the argument, or the configured one when the argument is
        absent), and its confidence is reported either way. Comparing with an absent
        threshold raises. */
    method PredictCategory(merchant: string, product: string, threshold: Option<real>, topK: nat,
                           query: (string, nat) -> seq<Hit>)
      returns (r: Result<Prediction, string>)
      ensures var t := if threshold.Some? then threshold else similarityThreshold;
              var hits := query(DocumentText(merchant, product), topK);
              && (hits == [] ==> r == Ok(Prediction(None, 0.0, DatasetCollectionName)))
              && (hits != [] && t.None? ==> r.Err?)
              && (hits != [] && t.Some? ==>
                    && r.Ok? && r.value.source == DatasetCollectionName
                    && (exists vote :: Voting.IsVote(HitCategories(hits), HitSimilarities(hits), t.value, vote, r.value.confidence)
                                       && r.value.category == (if r.value.confidence >= t.value then vote else None))
                    && (r.value.category.Some? <==> r.value.confidence >= t.value)
                    && (r.value.category.Some? ==>
                          exists i :: 0 <= i < |hits| && hits[i].metadata.category == r.value.category.value
                                                     && 1.0 - hits[i].distance >= t.value))
    {
      var t := if threshold.Some? then threshold else similarityThreshold;
      var hits := query(DocumentText(merchant, product), topK);
      var results := SearchSimilar(merchant, product, topK, query);
      if results == [] {
        return Ok(Prediction(None, 0.0, DatasetCollectionName));
      }
      if t.None? {
        return Err("'<' not supported between instances of 'float' and 'NoneType'");
      }
      var categories := seq(|results|, i requires 0 <= i < |results| => results[i].category);
      var similarities := seq(|results|, i requires 0 <= i < |results| => results[i].similarity);
      assert categories == HitCategories(hits) && similarities == HitSimilarities(hits);
      var best, confidence := Voting.GetPredictedCategory(categories, similarities, t.value);
      if confidence >= t.value {
        if best.Some? {
          var m := Voting.ArgMax(similarities);
          if similarities[m] >= t.value {
            Voting.KeptMembers(categories, similarities, t.value, best.value);
          }
        }
        r := Ok(Prediction(best, confidence, DatasetCollectionName));
      } else {
        r := Ok(Prediction(None, confidence, DatasetCollectionName));
      }
    }

    /** `get_all_categories` (lines 210-224). */
    method GetAllCategories() returns (categories: seq<string>)
      ensures forall c :: c in categories <==> c in Categories(collection.records)
      ensures forall i, j :: 0 <= i < j < |categories| ==> categories[i] != categories[j]
    {
      categories := AllCategories(collection.records);
    }

    /** `get_collection_stats` (lines 226-247). */
    method GetCollectionStats() returns (totalRecords: nat, categoryCounts: map<string, nat>)
      ensures totalRecords == |collection.records|
      ensures forall c :: c in categoryCounts <==> c in Categories(collection.records)
      ensures forall c :: c in categoryCounts ==> categoryCounts[c] == CategoryCount(collection.records, c)
    {
      totalRecords, categoryCounts := CollectionStats(collection.records);
    }
  }
}

/** `BookkeepingVectorDB` of src/backend/models/vector_db.py: an append-only index
    loaded from a dataset table, with single-record additions, that classifies by the
    best of the three nearest neighbours. The table ingestion defined here is also
    the code of src/python/utils/vector_db.py, which imports it. */
module BackendVectorDb {
  import opened Common
  import opened VectorIndex

  const BatchSize := 1000
  const Source := "vector_db"

  /** The three columns `_add_batch` reads; a missing cell (NaN) is `None`. */
  datatype SourceRow = SourceRow(merchant: Option<string>, product: Option<string>, category: Option<string>)

  /** A dataset frame: its column names and its rows. */
  datatype Table = Table(columns: set<string>, rows: seq<SourceRow>)

  predicate HasIndexColumns(t: Table)
  {
    "交易对方" in t.columns && "商品名称" in t.columns && "类型" in t.columns
  }

  /** A cell as `_add_batch` reads it: NaN becomes "". */
  function CellText(cell: Option<string>): string
  {
    if cell.Some? then cell.value else ""
  }

  /** What `_add_batch` stores for one row of a table that has the three columns:
      its metadata when its category is non-empty, else nothing. */
  function AdmitRow(row: SourceRow): seq<Metadata>
  {
    if CellText(row.category) == "" then []
    else [Metadata(CellText(row.category), CellText(row.merchant), CellText(row.product))]
  }

  /** The metadata `_add_batch` stores for the rows of a table that has the three
      columns, in row order. */
  function AdmitRows(rows: seq<SourceRow>): seq<Metadata>
  {
    if rows == [] then [] else AdmitRows(rows[..|rows| - 1]) + AdmitRow(rows[|rows| - 1])
  }

  /** What a table contributes: nothing at all without the three columns. */
  function TableAdmitted(t: Table): seq<Metadata>
  {
    if HasIndexColumns(t) then AdmitRows(t.rows) else []
  }

  /** Every admitted record has a non-empty category, which is the category of some
      row; when every row has a category, every row is admitted. */
  lemma {:induction false} AdmitRowsSpec(rows: seq<SourceRow>)
    ensures forall k :: 0 <= k < |AdmitRows(rows)| ==> AdmitRows(rows)[k].category != ""
    ensures forall k :: 0 <= k < |AdmitRows(rows)| ==>
              exists i :: 0 <= i < |rows| && rows[i].category == Some(AdmitRows(rows)[k].category)
    ensures (forall i :: 0 <= i < |rows| ==> CellText(rows[i].category) != "") ==> |AdmitRows(rows)| == |rows|
  {
    if rows != [] {
      var init, last := rows[..|rows| - 1], rows[|rows| - 1];
      AdmitRowsSpec(init);
      var r := AdmitRows(rows);
      assert r == AdmitRows(init) + AdmitRow(last);
      forall k | 0 <= k < |r|
        ensures r[k].category != ""
        ensures exists i :: 0 <= i < |rows| && rows[i].category == Some(r[k].category)
      {
        if k < |AdmitRows(init)| {
          var i :| 0 <= i < |init| && init[i].category == Some(AdmitRows(init)[k].category);
          assert rows[i] == init[i];
        } else {
          assert rows[|rows| - 1].category == Some(r[k].category);
        }
      }
      if forall i :: 0 <= i < |rows| ==> CellText(rows[i].category) != "" {
        assert forall i :: 0 <= i < |init| ==> init[i] == rows[i];
        assert CellText(rows[|rows| - 1].category) != "";
        assert |AdmitRow(last)| == 1;
      }
    } else {
      assert AdmitRows(rows) == [];
    }
  }

  lemma {:induction false} AdmitRowsAppend(a: seq<SourceRow>, b: seq<SourceRow>)
    ensures AdmitRows(a + b) == AdmitRows(a) + AdmitRows(b)
  {
    if b != [] {
      var ab := a + b;
      var bInit := b[..|b| - 1];
      assert ab[..|ab| - 1] == a + bInit;
      AdmitRowsAppend(a, bInit);
      var x, y, z := AdmitRows(a), AdmitRows(bInit), AdmitRow(b[|b| - 1]);
      assert x + y + z == x + (y + z);
    } else {
      assert a + b == a;
    }
  }

  /** The row loop of `_add_batch`: the documents and metadatas of the admitted rows,
      document `i` being the "merchant:product" text of metadata `i`. */
  method BuildBatch(t: Table) returns (documents: seq<string>, metadatas: seq<Metadata>)
    ensures metadatas == TableAdmitted(t)
    ensures |documents| == |metadatas|
    ensures forall j :: 0 <= j < |metadatas| ==> documents[j] == DocumentText(metadatas[j].merchant, metadatas[j].product)
    ensures forall j :: 0 <= j < |metadatas| ==> metadatas[j].category != ""
  {
    documents := [];
    metadatas := [];
    var k := 0;
    while k < |t.rows|
      invariant 0 <= k <= |t.rows|
      invariant |documents| == |metadatas|
      invariant metadatas == if HasIndexColumns(t) then AdmitRows(t.rows[..k]) else []
      invariant forall j :: 0 <= j < |metadatas| ==>
                  documents[j] == DocumentText(metadatas[j].merchant, metadatas[j].product)
      invariant forall j :: 0 <= j < |metadatas| ==> metadatas[j].category != ""
    {
      var row := t.rows[k];
      assert t.rows[..k + 1][..k] == t.rows[..k];
      if HasIndexColumns(t) {
        var merchant := CellText(row.merchant);
        var product := CellText(row.product);
        var category := CellText(row.category);
        if category != "" {
          documents := documents + [DocumentText(merchant, product)];
          metadatas := metadatas + [Metadata(category, merchant, product)];
        }
      }
      k := k + 1;
    }
    assert t.rows[..|t.rows|] == t.rows;
  }

  /** The slice `df.iloc[i:i+1000]` keeps the columns. */
  function Slice(t: Table, i: nat, j: nat): Table
    requires i <= j <= |t.rows|
  {
    Table(t.columns, t.rows[i..j])
  }

  lemma TableAdmittedSplit(t: Table, i: nat, j: nat)
    requires i <= j <= |t.rows|
    ensures TableAdmitted(Slice(t, 0, j)) == TableAdmitted(Slice(t, 0, i)) + TableAdmitted(Slice(t, i, j))
  {
    assert t.rows[0..j] == t.rows[0..i] + t.rows[i..j];
    AdmitRowsAppend(t.rows[0..i], t.rows[i..j]);
  }

  /** One more slice loaded on top of the slices before it. */
  lemma LoadStep(base: seq<Metadata>, before: seq<Metadata>, after: seq<Metadata>, t: Table, i: nat, end: nat)
    requires i <= end <= |t.rows|
    requires before == base + TableAdmitted(Slice(t, 0, i))
    requires after == before + TableAdmitted(Slice(t, i, end))
    ensures after == base + TableAdmitted(Slice(t, 0, end))
  {
    var x, y := TableAdmitted(Slice(t, 0, i)), TableAdmitted(Slice(t, i, end));
    TableAdmittedSplit(t, i, end);
    assert before + y == base + (x + y);
  }

  function Min(a: int, b: int): int
  {
    if a <= b then a else b
  }

  /** The decision of `predict_category` (lines 210-238) over the neighbours of a
      query for three: the first neighbour decides alone. */
  function DecideBestOfTop(neighbours: seq<Neighbour>, threshold: Option<real>): (r: Result<Prediction, string>)
    ensures neighbours == [] ==> r == Ok(Prediction(None, 0.0, Source))
    ensures neighbours != [] && threshold.None? ==> r.Err?
    ensures neighbours != [] && threshold.Some? ==>
              && r.Ok? && r.value.source == Source
              && r.value.confidence == neighbours[0].similarity
              && (r.value.category.Some? <==> neighbours[0].similarity >= threshold.value)
              && (r.value.category.Some? ==> r.value.category.value == neighbours[0].category)
  {
    if neighbours == [] then Ok(Prediction(None, 0.0, Source))
    else if threshold.None? then Err("float() argument must be a string or a real number, not 'NoneType'")
    else if neighbours[0].similarity < threshold.value then Ok(Prediction(None, neighbours[0].similarity, Source))
    else Ok(Prediction(Some(neighbours[0].category), neighbours[0].similarity, Source))
  }

  /** When the neighbours come nearest first, an accepted answer is the most similar
      neighbour's category, and a rejection means no neighbour reaches the threshold. */
  lemma BestOfTopIsMostSimilar(neighbours: seq<Neighbour>, t: real)
    requires neighbours != [] && DescendingSimilarity(neighbours)
    ensures var r := DecideBestOfTop(neighbours, Some(t));
            r.value.category.None? <==> forall i :: 0 <= i < |neighbours| ==> neighbours[i].similarity < t
  {
  }

  class BookkeepingVectorDb {
    var collection: Collection
    /** Ids handed out so far; the model of `uuid.uuid4()` draws the next one. */
    var issued: nat
    /** `config["similarity_threshold"]`, which `__init__` always sets, to the
        `output.similarity_threshold` of the settings or to `None` when absent. */
    const similarityThreshold: Option<real>

    ghost predicate Valid()
      reads this, collection
    {
      && collection.Valid()
      && (forall k :: 0 <= k < |collection.records| ==> collection.records[k].id < issued)
      && DocumentsMatch(collection.records)
    }

    constructor(similarityThreshold: Option<real>)
      ensures Valid() && fresh(collection) && collection.records == []
      ensures this.similarityThreshold == similarityThreshold
    {
      this.similarityThreshold := similarityThreshold;
      collection := new Collection();
      issued := 0;
    }

    /** Draws `count` fresh ids. */
    method NewIds(count: nat) returns (ids: seq<nat>)
      modifies this
      ensures ids == Range(old(issued), count) && issued == old(issued) + count && collection == old(collection)
    {
      ids := Range(issued, count);
      issued := issued + count;
    }

    /** `_add_batch` (lines 97-140): one `add` call holding the admitted rows, none
        when there are none. */
    method AddBatch(t: Table)
      requires Valid()
      modifies this, collection
      ensures Valid() && collection == old(collection)
      ensures MetadataOf(collection.records) == old(MetadataOf(collection.records)) + TableAdmitted(t)
      ensures collection.addCalls == old(collection.addCalls) + (if TableAdmitted(t) == [] then 0 else 1)
    {
      var documents, metadatas := BuildBatch(t);
      if documents != [] {
        RangeFresh(collection.records, issued, |documents|);
        AppendBatch(collection.records, documents, metadatas, issued);
        var ids := NewIds(|documents|);
        collection.Add(documents, metadatas, ids);
      }
    }

    /** `initialize_from_dataset` (lines 63-95): the table is added in slices of 1000
        on top of what is stored; nothing is cleared, so loading twice stores every
        record twice. An unreadable dataset (`None`) adds nothing. */
    method InitializeFromDataset(dataset: Option<Table>)
      requires Valid()
      modifies this, collection
      ensures Valid() && collection == old(collection)
      ensures MetadataOf(collection.records) ==
              old(MetadataOf(collection.records)) + (if dataset.None? then [] else TableAdmitted(dataset.value))
    {
      if dataset.None? {
        return;
      }
      var t := dataset.value;
      ghost var base := MetadataOf(collection.records);
      var i := 0;
      while i < |t.rows|
        invariant 0 <= i <= |t.rows|
        invariant Valid() && collection == old(collection)
        invariant MetadataOf(collection.records) == base + TableAdmitted(Slice(t, 0, i))
        decreases |t.rows| - i
      {
        var end := Min(i + BatchSize, |t.rows|);
        var batch := Slice(t, i, end);
        ghost var before := MetadataOf(collection.records);
        AddBatch(batch);
        LoadStep(base, before, MetadataOf(collection.records), t, i, end);
        i := end;
      }
      assert t.rows[0..i] == t.rows;
      assert Slice(t, 0, i) == t;
    }

    /** `add_record` (lines 142-164): exactly one record is appended, whatever the
        category, even an empty one. */
    method AddRecord(merchant: string, product: string, category: string)
      requires Valid()
      modifies this, collection
      ensures Valid() && collection == old(collection)
      ensures MetadataOf(collection.records) == old(MetadataOf(collection.records)) + [Metadata(category, merchant, product)]
      ensures |collection.records| == old(|collection.records|) + 1
    {
      var documents := [DocumentText(merchant, product)];
      var metadatas := [Metadata(category, merchant, product)];
      RangeFresh(collection.records, issued, |documents|);
      AppendBatch(collection.records, documents, metadatas, issued);
      var ids := NewIds(1);
      collection.Add(documents, metadatas, ids);
    }

    /** `search_similar` (lines 166-197). */
    method SearchSimilar(merchant: string, product: string, topK: nat, query: (string, nat) -> seq<Hit>)
      returns (neighbours: seq<Neighbour>)
      ensures var hits := query(DocumentText(merchant, product), topK);
              |neighbours| == |hits|
              && forall i :: 0 <= i < |hits| ==>
                   neighbours[i].category == hits[i].metadata.category
                   && neighbours[i].similarity == 1.0 - hits[i].distance
    {
      neighbours := ToNeighbours(query(DocumentText(merchant, product), topK));
    }

    /** `predict_category` (lines 199-238): query for three neighbours, then decide on
        the first. */
    method PredictCategory(merchant: string, product: string, query: (string, nat) -> seq<Hit>)
      returns (r: Result<Prediction, string>)
      ensures var hits := query(DocumentText(merchant, product), 3);
              && (hits == [] ==> r == Ok(Prediction(None, 0.0, Source)))
              && (hits != [] && similarityThreshold.None? ==> r.Err?)
              && (hits != [] && similarityThreshold.Some? ==>
                    && r.Ok? && r.value.source == Source && r.value.confidence == 1.0 - hits[0].distance
                    && (r.value.category.Some? <==> 1.0 - hits[0].distance >= similarityThreshold.value)
                    && (r.value.category.Some? ==> r.value.category.value == hits[0].metadata.category))
    {
      var similar := SearchSimilar(merchant, product, 3, query);
      r := DecideBestOfTop(similar, similarityThreshold);
    }

    /** `get_all_categories` (lines 240-256). */
    method GetAllCategories() returns (categories: seq<string>)
      ensures forall c :: c in categories <==> c in Categories(collection.records)
      ensures forall i, j :: 0 <= i < j < |categories| ==> categories[i] != categories[j]
    {
      categories := AllCategories(collection.records);
    }

    /** `get_collection_stats` (lines 258-279). */
    method GetCollectionStats() returns (totalRecords: nat, categoryCounts: map<string, nat>)
      ensures totalRecords == |collection.records|
      ensures forall c :: c in categoryCounts <==> c in Categories(collection.records)
      ensures forall c :: c in categoryCounts ==> categoryCounts[c] == CategoryCount(collection.records, c)
    {
      totalRecords, categoryCounts := CollectionStats(collection.records);
    }
  }
}

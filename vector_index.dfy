/** The vector index shared by the three `BookkeepingVectorDB` copies: the stored
    records of the ChromaDB collection, the "merchant:product" document text, the
    conversion of query distances to similarities, and the statistics computed
    from the stored metadata. Embedding and nearest-neighbour search are foreign:
    a query's answer arrives as a list of hits. */
module VectorIndex {
  import opened Common
  import TextSplit

  /** The metadata stored with a record; `type` of the sources is `category` here. */
  datatype Metadata = Metadata(category: string, merchant: string, product: string)

  /** One stored record: its id (a `uuid4` in the sources), document and metadata. */
  datatype IndexedRecord = IndexedRecord(id: nat, document: string, metadata: Metadata)

  /** One hit of `collection.query`: the stored metadata and document, and the cosine
      distance to the query. */
  datatype Hit = Hit(metadata: Metadata, document: string, distance: real)

  /** One entry of `search_similar`'s result. */
  datatype Neighbour = Neighbour(category: string, document: string, similarity: real)

  /** The dict returned by every `predict_category`. */
  datatype Prediction = Prediction(category: Option<string>, confidence: real, source: string)

  /** `f"{merchant}:{product}"`, the text stored for a record and the text of a query. */
  function DocumentText(merchant: string, product: string): (text: string)
    ensures |text| == |merchant| + |product| + 1
  {
    merchant + ":" + product
  }

  /** A merchant without ':' can be read back from the document text: it is the text
      before the first ':', and the product is everything after it. */
  lemma DocumentTextRoundTrip(merchant: string, product: string)
    requires ':' !in merchant
    ensures var text := DocumentText(merchant, product);
            var i := TextSplit.IndexOf(text, ':');
            i == |merchant| && text[..i] == merchant && text[i + 1..] == product
  {
    var text := DocumentText(merchant, product);
    TextSplit.IndexOfAbsent(merchant, ':', ":" + product);
    assert text == merchant + (":" + product);
  }

  /** The records built from parallel lists of documents, metadatas and ids. */
  function Zip(documents: seq<string>, metadatas: seq<Metadata>, ids: seq<nat>): (r: seq<IndexedRecord>)
    requires |documents| == |metadatas| == |ids|
    ensures |r| == |ids|
    ensures forall k :: 0 <= k < |r| ==> r[k] == IndexedRecord(ids[k], documents[k], metadatas[k])
  {
    seq(|ids|, k requires 0 <= k < |ids| => IndexedRecord(ids[k], documents[k], metadatas[k]))
  }

  /** `count` consecutive ids from `first`: the model of `count` calls to `uuid4()`. */
  function Range(first: nat, count: nat): (ids: seq<nat>)
    ensures |ids| == count
    ensures forall j :: 0 <= j < count ==> ids[j] == first + j
  {
    seq(count, j => first + j)
  }

  /** The metadata of the stored records, in storage order. */
  function MetadataOf(records: seq<IndexedRecord>): (r: seq<Metadata>)
    ensures |r| == |records|
    ensures forall k :: 0 <= k < |r| ==> r[k] == records[k].metadata
  {
    seq(|records|, k requires 0 <= k < |records| => records[k].metadata)
  }

  lemma MetadataOfAppend(a: seq<IndexedRecord>, b: seq<IndexedRecord>)
    ensures MetadataOf(a + b) == MetadataOf(a) + MetadataOf(b)
  {
  }

  /** Every record's document is the "merchant:product" text of its metadata. */
  ghost predicate DocumentsMatch(records: seq<IndexedRecord>)
  {
    forall k :: 0 <= k < |records| ==>
      records[k].document == DocumentText(records[k].metadata.merchant, records[k].metadata.product)
  }

  /** No two records share an id. */
  ghost predicate DistinctIds(records: seq<IndexedRecord>)
  {
    forall i, j :: 0 <= i < j < |records| ==> records[i].id != records[j].id
  }

  /** Consecutive ids from `first`, above every stored id, are distinct and new. */
  lemma RangeFresh(records: seq<IndexedRecord>, first: nat, count: nat)
    requires forall k :: 0 <= k < |records| ==> records[k].id < first
    ensures var ids := Range(first, count);
            && (forall i, j :: 0 <= i < j < |ids| ==> ids[i] != ids[j])
            && (forall k, r :: 0 <= k < |ids| && 0 <= r < |records| ==> ids[k] != records[r].id)
  {
  }

  /** Appending a batch under consecutive ids from `first`, above every stored id,
      keeps ids distinct and below the next free id, keeps documents matching their
      metadata, and appends exactly the batch's metadata. */
  lemma AppendBatch(records: seq<IndexedRecord>, documents: seq<string>, metadatas: seq<Metadata>, first: nat)
    requires DistinctIds(records) && DocumentsMatch(records)
    requires forall k :: 0 <= k < |records| ==> records[k].id < first
    requires |documents| == |metadatas|
    requires forall j :: 0 <= j < |metadatas| ==> documents[j] == DocumentText(metadatas[j].merchant, metadatas[j].product)
    ensures var all := records + Zip(documents, metadatas, Range(first, |documents|));
            && DistinctIds(all) && DocumentsMatch(all)
            && (forall k :: 0 <= k < |all| ==> all[k].id < first + |documents|)
            && MetadataOf(all) == MetadataOf(records) + metadatas
  {
    var z := Zip(documents, metadatas, Range(first, |documents|));
    var all := records + z;
    assert forall k :: 0 <= k < |z| ==> z[k].id == first + k;
    assert forall k :: |records| <= k < |all| ==> all[k] == z[k - |records|];
    MetadataOfAppend(records, z);
    assert MetadataOf(z) == metadatas;
  }

  /** A ChromaDB collection: the records added so far, in order. */
  class Collection {
    var records: seq<IndexedRecord>
    /** Number of calls to `add`, to state how often a batch reaches the store. */
    ghost var addCalls: nat

    ghost predicate Valid()
      reads this
    {
      DistinctIds(records)
    }

    /** `get_or_create_collection` on a deleted (or never created) collection. */
    constructor()
      ensures Valid() && records == [] && addCalls == 0
    {
      records := [];
      addCalls := 0;
    }

    /** `collection.add(documents=..., metadatas=..., ids=...)`: the three lists must
        have one entry per record, at least one record, and new distinct ids. */
    method Add(documents: seq<string>, metadatas: seq<Metadata>, ids: seq<nat>)
      requires Valid()
      requires |documents| == |metadatas| == |ids| && ids != []
      requires forall i, j :: 0 <= i < j < |ids| ==> ids[i] != ids[j]
      requires forall k, r :: 0 <= k < |ids| && 0 <= r < |records| ==> ids[k] != records[r].id
      modifies this
      ensures Valid()
      ensures records == old(records) + Zip(documents, metadatas, ids)
      ensures addCalls == old(addCalls) + 1
    {
      records := records + Zip(documents, metadatas, ids);
      addCalls := addCalls + 1;
    }
  }

  // ---------------------------------------------------------------------------
  // search_similar

  /** The loop of `search_similar`: one neighbour per hit, in hit order, with
      similarity `1 - distance`. */
  method ToNeighbours(hits: seq<Hit>) returns (neighbours: seq<Neighbour>)
    ensures |neighbours| == |hits|
    ensures forall i :: 0 <= i < |hits| ==>
              neighbours[i] == Neighbour(hits[i].metadata.category, hits[i].document, 1.0 - hits[i].distance)
  {
    neighbours := [];
    var i := 0;
    while i < |hits|
      invariant 0 <= i <= |hits|
      invariant |neighbours| == i
      invariant forall k :: 0 <= k < i ==>
                  neighbours[k] == Neighbour(hits[k].metadata.category, hits[k].document, 1.0 - hits[k].distance)
    {
      neighbours := neighbours + [Neighbour(hits[i].metadata.category, hits[i].document, 1.0 - hits[i].distance)];
      i := i + 1;
    }
  }

  /** The `categories` list built from the neighbours of a query. */
  function HitCategories(hits: seq<Hit>): (cs: seq<string>)
    ensures |cs| == |hits| && forall i :: 0 <= i < |hits| ==> cs[i] == hits[i].metadata.category
  {
    seq(|hits|, i requires 0 <= i < |hits| => hits[i].metadata.category)
  }

  /** The `similarities` array built from the neighbours of a query. */
  function HitSimilarities(hits: seq<Hit>): (ss: seq<real>)
    ensures |ss| == |hits| && forall i :: 0 <= i < |hits| ==> ss[i] == 1.0 - hits[i].distance
  {
    seq(|hits|, i requires 0 <= i < |hits| => 1.0 - hits[i].distance)
  }

  predicate AscendingDistance(hits: seq<Hit>)
  {
    forall i, j :: 0 <= i < j < |hits| ==> hits[i].distance <= hits[j].distance
  }

  predicate DescendingSimilarity(ns: seq<Neighbour>)
  {
    forall i, j :: 0 <= i < j < |ns| ==> ns[i].similarity >= ns[j].similarity
  }

  /** Hits ordered nearest first give neighbours ordered most similar first, so the
      first neighbour is the most similar one. */
  lemma NeighboursOrdered(hits: seq<Hit>, ns: seq<Neighbour>)
    requires |ns| == |hits|
    requires forall i :: 0 <= i < |hits| ==> ns[i].similarity == 1.0 - hits[i].distance
    requires AscendingDistance(hits)
    ensures DescendingSimilarity(ns)
    ensures forall i :: 0 <= i < |ns| ==> ns[i].similarity <= ns[0].similarity
  {
  }

  // ---------------------------------------------------------------------------
  // get_collection_stats and get_all_categories

  /** Number of records whose `type` is `c`. */
  function CategoryCount(records: seq<IndexedRecord>, c: string): nat
  {
    if records == [] then 0
    else (if records[0].metadata.category == c then 1 else 0) + CategoryCount(records[1..], c)
  }

  /** The set of stored `type` values. */
  function Categories(records: seq<IndexedRecord>): set<string>
  {
    set k | 0 <= k < |records| :: records[k].metadata.category
  }

  /** Counts add up over concatenation: appending a batch adds its own counts. */
  lemma {:induction false} CategoryCountAppend(a: seq<IndexedRecord>, b: seq<IndexedRecord>, c: string)
    ensures CategoryCount(a + b, c) == CategoryCount(a, c) + CategoryCount(b, c)
  {
    if a == [] {
      assert a + b == b;
    } else {
      assert (a + b)[1..] == a[1..] + b;
      CategoryCountAppend(a[1..], b, c);
    }
  }

  /** A category is counted at least once iff some record has it. */
  lemma {:induction false} CategoryCountPositive(records: seq<IndexedRecord>, c: string)
    ensures CategoryCount(records, c) > 0 <==> c in Categories(records)
  {
    if records != [] {
      CategoryCountPositive(records[1..], c);
      assert Categories(records) == {records[0].metadata.category} + Categories(records[1..]) by {
        forall x | x in Categories(records)
          ensures x in {records[0].metadata.category} + Categories(records[1..])
        {
          var k :| 0 <= k < |records| && records[k].metadata.category == x;
          if k > 0 {
            assert records[1..][k - 1].metadata.category == x;
          }
        }
        forall x | x in Categories(records[1..])
          ensures x in Categories(records)
        {
          var k :| 0 <= k < |records| - 1 && records[1..][k].metadata.category == x;
          assert records[k + 1].metadata.category == x;
        }
      }
    }
  }

  /** The counting loop of `get_collection_stats`: one key per stored category, with
      the number of records of that category; `total` is the number of ids. */
  method CollectionStats(records: seq<IndexedRecord>) returns (total: nat, counts: map<string, nat>)
    ensures total == |records|
    ensures forall c :: c in counts <==> c in Categories(records)
    ensures forall c :: c in counts ==> counts[c] == CategoryCount(records, c) && counts[c] > 0
  {
    counts := map[];
    var i := 0;
    while i < |records|
      invariant 0 <= i <= |records|
      invariant forall c :: c in counts <==> c in Categories(records[..i])
      invariant forall c :: c in counts ==> counts[c] == CategoryCount(records[..i], c)
    {
      var c := records[i].metadata.category;
      assert records[..i + 1] == records[..i] + [records[i]];
      CategoryCountAppend(records[..i], [records[i]], c);
      assert CategoryCount([records[i]], c) == 1;
      CategoryCountPositive(records[..i], c);
      forall d | d != c
        ensures CategoryCount(records[..i + 1], d) == CategoryCount(records[..i], d)
      {
        CategoryCountAppend(records[..i], [records[i]], d);
        assert CategoryCount([records[i]], d) == 0;
      }
      CategoriesSnoc(records, i);
      counts := counts[c := if c in counts then counts[c] + 1 else 1];
      i := i + 1;
    }
    assert records[..|records|] == records;
    forall c | c in counts
      ensures counts[c] > 0
    {
      CategoryCountPositive(records, c);
    }
    total := |records|;
  }

  lemma CategoriesSnoc(records: seq<IndexedRecord>, i: nat)
    requires i < |records|
    ensures Categories(records[..i + 1]) == Categories(records[..i]) + {records[i].metadata.category}
  {
    var p := records[..i + 1];
    forall x | x in Categories(p)
      ensures x in Categories(records[..i]) + {records[i].metadata.category}
    {
      var k :| 0 <= k < |p| && p[k].metadata.category == x;
      if k < i {
        assert records[..i][k].metadata.category == x;
      }
    }
    forall x | x in Categories(records[..i])
      ensures x in Categories(p)
    {
      var k :| 0 <= k < i && records[..i][k].metadata.category == x;
      assert p[k].metadata.category == x;
    }
    assert p[i].metadata.category == records[i].metadata.category;
  }

  /** `get_all_categories`: every stored category exactly once, in the unspecified
      order of `list(set)`. */
  method AllCategories(records: seq<IndexedRecord>) returns (categories: seq<string>)
    ensures forall c :: c in categories <==> c in Categories(records)
    ensures forall i, j :: 0 <= i < j < |categories| ==> categories[i] != categories[j]
  {
    var found: set<string> := {};
    var i := 0;
    while i < |records|
      invariant 0 <= i <= |records|
      invariant found == Categories(records[..i])
    {
      CategoriesSnoc(records, i);
      found := found + {records[i].metadata.category};
      i := i + 1;
    }
    assert records[..|records|] == records;
    // list(set): the elements in some order
    categories := [];
    var rest := found;
    while rest != {}
      invariant rest <= found
      invariant forall c :: c in categories <==> c in found - rest
      invariant forall a, b :: 0 <= a < b < |categories| ==> categories[a] != categories[b]
      decreases |rest|
    {
      var c :| c in rest;
      assert c !in categories;
      categories := categories + [c];
      rest := rest - {c};
    }
  }
}

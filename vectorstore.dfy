/** The vector store (app/services/vectorstore.py): a client and a
    collection that are created once and then reused, the build of the
    collection from the embedding files in batches of 2000, and the reading
    of a nearest-neighbour query's ids and distances. The vector database
    itself is not modelled: a collection is the log of the batches added to
    it, and the nearest-neighbour query is a function passed in. */
module VectorStore {
  import opened Values
  import Decimal

  const PersistDir: string := "data/processed/persist"
  const CollectionName: string := "recipes"
  const BatchSize: nat := 2000

  /** An embedding: a vector of floats. */
  type Vector = seq<Float>

  /** The persistent client, opened on a directory. */
  datatype Client = Client(path: string)

  /** The ids and embeddings given to one add() call. */
  datatype Batch = Batch(ids: seq<string>, embeddings: seq<Vector>)

  /** A collection: its name, its distance space and the batches added to it. */
  datatype Collection = Collection(name: string, space: string, batches: seq<Batch>)

  /** A query's answer: one list of ids and one of distances per query
      vector; either may be missing. */
  datatype QueryResult = QueryResult(ids: Option<seq<seq<string>>>, distances: Option<seq<seq<Float>>>)

  /** The nearest-neighbour query of the vector database (normalisation of
      the query vector included): None when it raises. */
  type NearestNeighbours = (Collection, Vector, nat) -> Option<QueryResult>

  datatype StoreError =
    | EmbeddingFilesMissing
    | AddRejected
    | QueryFailed
    | NotAnInteger(literal: string)

  /** What lies on disk: the collection the persistent client already holds,
      if any, and the two embedding files, if present. */
  datatype Disk = Disk(persisted: Option<Collection>, idsFile: Option<seq<int>>, embeddingsFile: Option<seq<Vector>>)

  /** The module globals _client and _collection. */
  datatype Globals = Globals(client: Option<Client>, collection: Option<Collection>)

  /** Python's s[lo:hi] for 0 <= lo <= hi: the bounds are clipped to the
      length. */
  function Slice<T>(s: seq<T>, lo: nat, hi: nat): (r: seq<T>)
    requires lo <= hi
    ensures |r| == Min(hi, |s|) - Min(lo, |s|)
  {
    s[Min(lo, |s|)..Min(hi, |s|)]
  }

  /** All ids added to a collection, batch after batch. */
  function AllIds(bs: seq<Batch>): seq<string>
  {
    if bs == [] then [] else AllIds(bs[..|bs| - 1]) + bs[|bs| - 1].ids
  }

  /** All embeddings added to a collection, batch after batch. */
  function AllEmbeddings(bs: seq<Batch>): seq<Vector>
  {
    if bs == [] then [] else AllEmbeddings(bs[..|bs| - 1]) + bs[|bs| - 1].embeddings
  }

  /** collection.add(ids, embeddings): refused when the two lists differ in
      length. */
  function AddBatch(c: Collection, ids: seq<string>, embs: seq<Vector>): (r: Result<Collection, StoreError>)
    ensures r.Ok? <==> |ids| == |embs|
    ensures r.Ok? ==> r.value == c.(batches := c.batches + [Batch(ids, embs)])
  {
    if |ids| != |embs| then Err(AddRejected)
    else Ok(c.(batches := c.batches + [Batch(ids, embs)]))
  }

  /** The batch loop from position i on: the outcome, and the collection as
      it stands when the loop ends or the failing add raises. */
  function BuildFrom(c: Collection, ids: seq<string>, embs: seq<Vector>, i: nat): (r: (Result<Collection, StoreError>, Collection))
    ensures r.0.Ok? ==> r.0.value == r.1
    ensures r.0.Err? ==> r.0.error == AddRejected
    ensures r.1.name == c.name && r.1.space == c.space
    ensures |c.batches| <= |r.1.batches| && r.1.batches[..|c.batches|] == c.batches
    decreases |ids| - i
  {
    if i >= |ids| then (Ok(c), c)
    else
      var end := Min(i + BatchSize, |ids|);
      match AddBatch(c, ids[i..end], Slice(embs, i, end))
      case Err(e) => (Err(e), c)
      case Ok(c') =>
        var rest := BuildFrom(c', ids, embs, i + BatchSize);
        assert rest.1.batches[..|c.batches|] == c'.batches[..|c.batches|];
        rest
  }

  /** The batches of a collection cover its ids without gap or overlap:
      each holds between 1 and 2000 ids and as many embeddings, and every
      batch but the last holds exactly 2000. */
  predicate WellBatched(bs: seq<Batch>)
  {
    forall k :: 0 <= k < |bs| ==>
      && 0 < |bs[k].ids| <= BatchSize
      && |bs[k].ids| == |bs[k].embeddings|
      && (k < |bs| - 1 ==> |bs[k].ids| == BatchSize)
  }

  /** Every batch is full. */
  predicate AllFull(bs: seq<Batch>)
  {
    forall k :: 0 <= k < |bs| ==> |bs[k].ids| == BatchSize && |bs[k].embeddings| == BatchSize
  }

  lemma AppendBatch(bs: seq<Batch>, b: Batch)
    ensures AllIds(bs + [b]) == AllIds(bs) + b.ids
    ensures AllEmbeddings(bs + [b]) == AllEmbeddings(bs) + b.embeddings
  {
    assert (bs + [b])[..|bs|] == bs;
  }

  lemma {:induction false} BuildFromEnough(c: Collection, ids: seq<string>, embs: seq<Vector>, i: nat)
    requires |embs| >= |ids| && i <= |ids|
    requires AllIds(c.batches) == ids[..i] && AllEmbeddings(c.batches) == embs[..i]
    requires AllFull(c.batches)
    ensures var (r, final) := BuildFrom(c, ids, embs, i);
      && r == Ok(final)
      && final.name == c.name && final.space == c.space
      && AllIds(final.batches) == ids
      && AllEmbeddings(final.batches) == embs[..|ids|]
      && WellBatched(final.batches)
    decreases |ids| - i
  {
    if i == |ids| {
      assert ids[..i] == ids;
    } else {
      var end := Min(i + BatchSize, |ids|);
      var b := Batch(ids[i..end], Slice(embs, i, end));
      var c' := c.(batches := c.batches + [b]);
      assert Slice(embs, i, end) == embs[i..end];
      AppendBatch(c.batches, b);
      assert ids[..i] + ids[i..end] == ids[..end];
      assert embs[..i] + embs[i..end] == embs[..end];
      if end == i + BatchSize {
        assert AllFull(c'.batches);
        BuildFromEnough(c', ids, embs, i + BatchSize);
      } else {
        assert end == |ids|;
        assert BuildFrom(c', ids, embs, i + BatchSize) == (Ok(c'), c');
        assert ids[..end] == ids;
      }
    }
  }

  lemma {:induction false} BuildFromShort(c: Collection, ids: seq<string>, embs: seq<Vector>, i: nat)
    requires |embs| < |ids| && i < |ids|
    ensures BuildFrom(c, ids, embs, i).0.Err?
    decreases |ids| - i
  {
    var end := Min(i + BatchSize, |ids|);
    var added := AddBatch(c, ids[i..end], Slice(embs, i, end));
    if added.Ok? {
      assert |embs| >= end;
      BuildFromShort(added.value, ids, embs, i + BatchSize);
    }
  }

  /** The collection built from the files: named "recipes", with cosine
      distance, and no batch added yet. */
  function FreshCollection(): Collection
  {
    Collection(CollectionName, "cosine", [])
  }

  /** Building succeeds exactly when there are at least as many embeddings
      as ids; the batches then hold the ids in order, and the embeddings
      with the same bounds. */
  lemma BuildOutcome(ids: seq<string>, embs: seq<Vector>)
    ensures var (r, final) := BuildFrom(FreshCollection(), ids, embs, 0);
      && (r.Ok? <==> |embs| >= |ids|)
      && (r.Ok? ==>
            && r.value == final
            && AllIds(final.batches) == ids
            && AllEmbeddings(final.batches) == embs[..|ids|]
            && WellBatched(final.batches))
  {
    if |embs| >= |ids| {
      BuildFromEnough(FreshCollection(), ids, embs, 0);
    } else {
      BuildFromShort(FreshCollection(), ids, embs, 0);
    }
  }

  /** get_client(): the cached client, or a new one on the persist
      directory. */
  function ClientOf(st: Globals): Client
  {
    if st.client.Some? then st.client.value else Client(PersistDir)
  }

  /** load_or_build_collection(): the outcome and the globals afterwards. */
  function LoadOutcome(disk: Disk, st: Globals): (r: (Result<Collection, StoreError>, Globals))
    ensures st.collection.Some? ==> r == (Ok(st.collection.value), st)
    ensures st.collection.None? ==> r.1.client == Some(ClientOf(st))
    ensures r.0.Ok? ==> r.1.collection == Some(r.0.value)
    ensures r.0.Err? ==> r.0.error == EmbeddingFilesMissing || r.0.error == AddRejected
    ensures r.0 == Err(EmbeddingFilesMissing) ==> r.1.collection.None?
  {
    if st.collection.Some? then (Ok(st.collection.value), st)
    else
      var st1 := st.(client := Some(ClientOf(st)));
      match disk.persisted
      case Some(c) => (Ok(c), st1.(collection := Some(c)))
      case None =>
        if disk.idsFile.None? || disk.embeddingsFile.None? then (Err(EmbeddingFilesMissing), st1)
        else
          var (r, c) := BuildFrom(FreshCollection(), Decimal.FormatAll(disk.idsFile.value), disk.embeddingsFile.value, 0);
          (r, st1.(collection := Some(c)))
  }

  /** `results[key][0] if results[key] else []`: the row of the first
      query vector, or [] when the list is missing or empty. */
  function FirstQueryRow<T>(rows: Option<seq<seq<T>>>): seq<T>
  {
    if rows.Some? && rows.value != [] then rows.value[0] else []
  }

  /** The ids and distances of the first query row, the ids parsed back to
      integers; an id that is not an integer literal raises. */
  function Extract(res: QueryResult): (r: Result<(seq<int>, seq<Float>), StoreError>)
    ensures r.Err? ==> r.error.NotAnInteger? && r.error.literal in FirstQueryRow(res.ids)
                       && Decimal.ParseInt(r.error.literal).None?
    ensures r.Ok? ==> |r.value.0| == |FirstQueryRow(res.ids)| && r.value.1 == FirstQueryRow(res.distances)
  {
    match Decimal.ParseAll(FirstQueryRow(res.ids))
    case Err(s) => Err(NotAnInteger(s))
    case Ok(ids) => Ok((ids, FirstQueryRow(res.distances)))
  }

  /** search_collection(): the outcome and the globals afterwards. */
  function SearchOutcome(disk: Disk, st: Globals, query: Vector, topK: nat, nn: NearestNeighbours)
    : (r: (Result<(seq<int>, seq<Float>), StoreError>, Globals))
    ensures r.1 == LoadOutcome(disk, st).1
    ensures LoadOutcome(disk, st).0.Err? ==> r.0 == Err(LoadOutcome(disk, st).0.error)
    ensures r.0.Ok? ==>
      && LoadOutcome(disk, st).0.Ok?
      && nn(LoadOutcome(disk, st).0.value, query, topK).Some?
      && r.0 == Extract(nn(LoadOutcome(disk, st).0.value, query, topK).value)
  {
    var (c, st1) := LoadOutcome(disk, st);
    match c
    case Err(e) => (Err(e), st1)
    case Ok(coll) =>
      match nn(coll, query, topK)
      case None => (Err(QueryFailed), st1)
      case Some(res) => (Extract(res), st1)
  }

  /** Once a load has produced a collection, every later load returns that
      same collection and changes nothing; a successful load returns the
      collection it caches. */
  lemma LoadIsCached(disk: Disk, st: Globals)
    ensures var (r1, st1) := LoadOutcome(disk, st);
      st1.collection.Some? ==> LoadOutcome(disk, st1) == (Ok(st1.collection.value), st1)
    ensures var (r1, st1) := LoadOutcome(disk, st);
      r1.Ok? ==> st1.collection == Some(r1.value)
  {
  }

  /** The client is created at most once: after a load the client is set,
      and a client that was set stays the same. */
  lemma ClientCreatedOnce(disk: Disk, st: Globals)
    ensures var (_, st1) := LoadOutcome(disk, st);
      (st.client.Some? ==> st1.client == st.client)
      && (st.collection.None? ==> st1.client.Some?)
  {
  }

  /** With no stored collection and an embedding file missing, the load
      raises FileNotFoundError and caches no collection. */
  lemma MissingFilesRaise(disk: Disk, st: Globals)
    requires st.collection.None? && disk.persisted.None?
    requires disk.idsFile.None? || disk.embeddingsFile.None?
    ensures LoadOutcome(disk, st).0 == Err(EmbeddingFilesMissing)
    ensures LoadOutcome(disk, st).1.collection.None?
  {
  }

  /** A collection built from the files answers with the same integer ids
      that were stored: each id went in as str(id) and comes back as
      int(str(id)). */
  lemma BuiltIdsRoundTrip(disk: Disk, st: Globals)
    requires st.collection.None? && disk.persisted.None?
    requires disk.idsFile.Some? && disk.embeddingsFile.Some?
    requires |disk.embeddingsFile.value| >= |disk.idsFile.value|
    ensures var (r, _) := LoadOutcome(disk, st);
      r.Ok? && Decimal.ParseAll(AllIds(r.value.batches)) == Ok(disk.idsFile.value)
  {
    var ids := disk.idsFile.value;
    BuildOutcome(Decimal.FormatAll(ids), disk.embeddingsFile.value);
    Decimal.FormatParseAll(ids);
  }

  /** The search returns the ids of the first query row, each parsed,
      and the distances of the first row, one for one and in order; a
      missing or empty list gives []. A failed parse names the first id
      that is not an integer literal. */
  lemma ExtractFirstRow(res: QueryResult)
    ensures res.ids.None? || res.ids == Some([]) ==> Extract(res) == Ok(([], FirstQueryRow(res.distances)))
    ensures (res.distances.None? || res.distances == Some([])) && Extract(res).Ok? ==> Extract(res).value.1 == []
    ensures res.distances.Some? && res.distances.value != [] && Extract(res).Ok? ==>
      Extract(res).value.1 == res.distances.value[0]
    ensures res.ids.Some? && res.ids.value != [] && Extract(res).Ok? ==>
      && |Extract(res).value.0| == |res.ids.value[0]|
      && forall i :: 0 <= i < |res.ids.value[0]| ==>
           Decimal.ParseInt(res.ids.value[0][i]) == Some(Extract(res).value.0[i])
    ensures Extract(res).Err? ==>
      exists k :: 0 <= k < |FirstQueryRow(res.ids)| && Extract(res).error == NotAnInteger(FirstQueryRow(res.ids)[k])
                  && forall j :: 0 <= j < k ==> Decimal.ParseInt(FirstQueryRow(res.ids)[j]).Some?
  {
    var row := FirstQueryRow(res.ids);
    if Decimal.ParseAll(row).Ok? {
      Decimal.ParseAllValues(row);
    } else {
      Decimal.ParseAllFailure(row);
    }
  }

  /** The vector store's module state: the two cached globals and the disk. */
  class Store {
    var client: Option<Client>
    var collection: Option<Collection>
    const disk: Disk

    function State(): Globals
      reads this
    {
      Globals(client, collection)
    }

    /** Module import: both globals start as None. */
    constructor(disk: Disk)
      ensures this.disk == disk && client.None? && collection.None?
    {
      this.disk := disk;
      client := None;
      collection := None;
    }

    /** get_client(). */
    method GetClient() returns (c: Client)
      modifies this`client
      ensures client == Some(c) && c == ClientOf(old(State()))
      ensures old(client).Some? ==> client == old(client)
    {
      if client.None? {
        client := Some(Client(PersistDir));
      }
      c := client.value;
    }

    /** The batch loop: `for i in range(0, total, 2000)` adds
        ids[i:end] and embeddings[i:end] with end = min(i + 2000, total). */
    method AddInBatches(ids: seq<string>, embs: seq<Vector>) returns (r: Result<Collection, StoreError>)
      requires collection.Some?
      modifies this`collection
      ensures collection.Some? && (r, collection.value) == BuildFrom(old(collection.value), ids, embs, 0)
    {
      var total := |ids|;
      var i := 0;
      while i < total
        invariant collection.Some?
        invariant BuildFrom(old(collection.value), ids, embs, 0) == BuildFrom(collection.value, ids, embs, i)
        decreases total - i
      {
        var end := Min(i + BatchSize, total);
        var added := AddBatch(collection.value, ids[i..end], Slice(embs, i, end));
        if added.Err? {
          return Err(added.error);
        }
        collection := Some(added.value);
        i := i + BatchSize;
      }
      r := Ok(collection.value);
    }

    /** load_or_build_collection(). */
    method LoadOrBuildCollection() returns (r: Result<Collection, StoreError>)
      modifies this
      ensures (r, State()) == LoadOutcome(disk, old(State()))
    {
      if collection.Some? {
        return Ok(collection.value);
      }
      var _ := GetClient();
      match disk.persisted {
        case Some(c) =>
          collection := Some(c);
          r := Ok(c);
        case None =>
          if disk.idsFile.None? || disk.embeddingsFile.None? {
            return Err(EmbeddingFilesMissing);
          }
          var idsList := Decimal.FormatAll(disk.idsFile.value);
          collection := Some(FreshCollection());
          r := AddInBatches(idsList, disk.embeddingsFile.value);
      }
    }

    /** search_collection(query, top_k). */
    method SearchCollection(query: Vector, topK: nat, nn: NearestNeighbours)
      returns (r: Result<(seq<int>, seq<Float>), StoreError>)
      modifies this
      ensures (r, State()) == SearchOutcome(disk, old(State()), query, topK, nn)
    {
      var loaded := LoadOrBuildCollection();
      if loaded.Err? {
        return Err(loaded.error);
      }
      var res := nn(loaded.value, query, topK);
      if res.None? {
        return Err(QueryFailed);
      }
      r := Extract(res.value);
    }
  }
}

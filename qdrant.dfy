/**
 * `QdrantManager` (qdrant_utils.py) over an in-memory Qdrant: the
 * collections in the order the service lists them, the points of each
 * collection by id, and the topic directories under the upload folder.
 * The catalog is the collection `table_of_contents`, whose points carry
 * `{"index_name": …, "description": …}` payloads.
 *
 * Point ids are `str(uuid4())`, fresh on every call; here they are drawn from
 * a counter `nextId` that is above every id in use.
 */
module QdrantUtils {
  import opened Wrappers
  import opened Text
  import opened Seqs
  import opened VectorStore

  const TableOfContents: string := "table_of_contents"

  datatype StoreError = CollectionNotFound(name: string)

  /** One `FieldCondition(key=…, match=MatchValue(value=…))`. */
  datatype Condition = FieldEquals(key: string, value: string)

  /** The `query_filter` built from a `{key: {"$eq": value}}` filter: `None`
      for an empty (falsy) filter, else one condition per key under `must`. */
  function ToQdrantFilter(f: Filter): (q: Option<set<Condition>>)
    ensures q.None? <==> f == map[]
    ensures q.Some? ==> forall c :: c in q.value <==> c.key in f && f[c.key] == c.value
  {
    if f == map[] then None else Some(set k | k in f :: FieldEquals(k, f[k]))
  }

  /** A payload passes a `query_filter` when it meets every `must` condition. */
  predicate Passes(p: Payload, q: Option<set<Condition>>)
  {
    q.Some? ==> forall c :: c in q.value ==> c.key in p && p[c.key] == c.value
  }

  /** The translated filter selects exactly the payloads the `$eq` filter
      describes. */
  lemma FilterTranslation(f: Filter, p: Payload)
    ensures Passes(p, ToQdrantFilter(f)) <==> Matches(p, f)
  {
    var q := ToQdrantFilter(f);
    if Matches(p, f) && q.Some? {
      forall c | c in q.value ensures c.key in p && p[c.key] == c.value {
        assert c.key in f;
      }
    }
    if Passes(p, q) && q.Some? {
      forall k | k in f ensures k in p && p[k] == f[k] {
        assert FieldEquals(k, f[k]) in q.value;
      }
    }
  }

  /** The catalog payload `upsert_metadata` writes. */
  function CatalogEntry(name: string, description: string): (p: Payload)
    ensures Matches(p, IndexFilter(name)) && Get(p, "description", NoDescription) == description
  {
    map["index_name" := name, "description" := description]
  }

  /** `Filter(must=[FieldCondition(key="index_name", …)])`. */
  function IndexFilter(name: string): Filter
  {
    map["index_name" := name]
  }

  /** The points that do not pass the filter (`client.delete` with a
      filter selector). */
  function RemoveMatching(recs: map<nat, Payload>, f: Filter): (r: map<nat, Payload>)
    ensures forall id :: id in r <==> id in recs && !Matches(recs[id], f)
    ensures forall id :: id in r ==> r[id] == recs[id]
  {
    map id | id in recs && !Matches(recs[id], f) :: recs[id]
  }

  /** `d` is what `get_index_description` may answer: the description of
      some catalog point of the topic, or the sentinel when there is none. */
  ghost predicate DescribesTopic(d: string, catalog: map<nat, Payload>, name: string)
  {
    if exists id :: id in catalog && Matches(catalog[id], IndexFilter(name))
    then exists id :: id in catalog && Matches(catalog[id], IndexFilter(name)) &&
                      d == Get(catalog[id], "description", NoDescription)
    else d == NoDescription
  }

  /** The number of points of one source. */
  ghost function SourceCount(recs: map<nat, Payload>, file: string): nat
  {
    |SourceIds(recs, file)|
  }

  /** An id above every point id stored in `pts`, where the counter that
      stands for `uuid4()` starts. */
  method FreshAbove(pts: map<string, map<nat, Payload>>) returns (bound: nat)
    ensures forall c, id :: c in pts && id in pts[c] ==> id < bound
  {
    var used := set c, id | c in pts && id in pts[c] :: id;
    var rest := used;
    bound := 0;
    while rest != {}
      invariant rest <= used
      invariant forall x :: x in used && x !in rest ==> x < bound
      decreases |rest|
    {
      var id :| id in rest;
      if bound <= id {
        bound := id + 1;
      }
      rest := rest - {id};
    }
    forall c, id | c in pts && id in pts[c] ensures id < bound {
      assert id in used && id !in rest;
    }
  }

  class QdrantManager {
    /** `client.get_collections()`, by name. */
    var collections: seq<string>
    /** The points of every collection. */
    var points: map<string, map<nat, Payload>>
    /** Above every point id in use: the next fresh id. */
    var nextId: nat
    /** Topics that have a directory under the upload folder. */
    var topicDirs: set<string>

    ghost predicate Valid()
      reads this
    {
      Distinct(collections) && TableOfContents in collections &&
      (forall c :: c in points <==> c in collections) &&
      (forall c, id :: c in points && id in points[c] ==> id < nextId)
    }

    /** `__init__` on a server that holds the collections `existing` with
        the points `points0`, and the topic directories `dirs0`: the catalog
        collection is created, empty, when it is missing, and everything
        already there is kept. The first fresh id is chosen above every
        stored one. */
    constructor (existing: seq<string>, points0: map<string, map<nat, Payload>>, dirs0: set<string>)
      requires Distinct(existing)
      requires forall c :: c in points0 <==> c in existing
      ensures Valid()
      ensures collections == if TableOfContents in existing then existing else existing + [TableOfContents]
      ensures points == if TableOfContents in existing then points0 else points0[TableOfContents := map[]]
      ensures topicDirs == dirs0
    {
      var all := if TableOfContents in existing then existing else existing + [TableOfContents];
      var pts := if TableOfContents in existing then points0 else points0[TableOfContents := map[]];
      var bound := FreshAbove(pts);
      collections := all;
      points := pts;
      nextId := bound;
      topicDirs := dirs0;
      if TableOfContents !in existing {
        forall i, j | 0 <= i < j < |all| ensures all[i] != all[j] {
          if j == |existing| {
            assert all[i] in existing;
          }
        }
      }
    }

    /** `list_indexes`: the collections in order, without the catalog. */
    method ListIndexes() returns (r: seq<string>)
      ensures TableOfContents !in r
      ensures forall n :: n in r <==> n in collections && n != TableOfContents
      ensures IsSubsequence(r, collections)
    {
      r := Without(collections, TableOfContents);
    }

    /** `create_index`: nothing at all happens for an existing collection;
        otherwise the collection and its directory are made. */
    method CreateIndex(name: string)
      requires Valid()
      modifies this
      ensures Valid()
      ensures name in old(collections) ==>
        collections == old(collections) && points == old(points) && topicDirs == old(topicDirs)
      ensures name !in old(collections) ==>
        collections == old(collections) + [name] && points == old(points)[name := map[]] &&
        topicDirs == old(topicDirs) + {name}
      ensures nextId == old(nextId)
    {
      if name !in collections {
        forall i, j | 0 <= i < j < |collections + [name]|
          ensures (collections + [name])[i] != (collections + [name])[j]
        {
          if j == |collections| {
            assert (collections + [name])[i] in collections;
          }
        }
        collections := collections + [name];
        points := points[name := map[]];
        topicDirs := topicDirs + {name};
      }
    }

    /** `delete_index`: the collection if it exists; the directory and the
        topic's catalog points in any case. */
    method DeleteIndex(name: string)
      requires Valid() && name != TableOfContents
      modifies this
      ensures Valid()
      ensures collections == Without(old(collections), name)
      ensures points == (old(points) - {name})[TableOfContents := RemoveMatching(old(points)[TableOfContents], IndexFilter(name))]
      ensures topicDirs == old(topicDirs) - {name}
      ensures DescribesTopic(NoDescription, points[TableOfContents], name)
      ensures nextId == old(nextId)
    {
      WithoutKeepsDistinct(collections, name);
      collections := Without(collections, name);
      var catalog := RemoveMatching(points[TableOfContents], IndexFilter(name));
      points := (points - {name})[TableOfContents := catalog];
      topicDirs := topicDirs - {name};
    }

    /** `upsert_metadata`: a new catalog point under a fresh id on every call,
        so earlier descriptions of the topic stay. */
    method UpsertMetadata(name: string, description: string)
      requires Valid()
      modifies this
      ensures Valid()
      ensures old(nextId) !in old(points)[TableOfContents]
      ensures var id: nat := old(nextId);
              var catalog: map<nat, Payload> := old(points)[TableOfContents][id := CatalogEntry(name, description)];
              points == old(points)[TableOfContents := catalog]
      ensures nextId == old(nextId) + 1
      ensures collections == old(collections) && topicDirs == old(topicDirs)
    {
      var id: nat := nextId;
      var catalog: map<nat, Payload> := points[TableOfContents][id := CatalogEntry(name, description)];
      points := points[TableOfContents := catalog];
      nextId := nextId + 1;
    }

    /** `get_index_description`: the description of the first catalog point
        of the topic in the search order `rank`, or the sentinel. */
    method GetIndexDescription(name: string, rank: seq<nat>) returns (d: string)
      requires Valid()
      ensures Covers(rank, points[TableOfContents]) ==> DescribesTopic(d, points[TableOfContents], name)
    {
      var catalog := points[TableOfContents];
      var found := Search(rank, catalog, IndexFilter(name), 1);
      if found != [] && catalog[found[0]] != map[] {
        d := Get(catalog[found[0]], "description", NoDescription);
        assert found[0] in found;
      } else {
        d := NoDescription;
      }
      if Covers(rank, catalog) {
        SearchFindsAny(rank, catalog, IndexFilter(name), 1);
        if found != [] {
          assert found[0] in found;
        }
      }
    }

    /** `get_descriptions`: one entry per listed topic. */
    method GetDescriptions(rankFor: string -> seq<nat>) returns (m: map<string, string>)
      requires Valid()
      ensures forall n :: n in m <==> n in collections && n != TableOfContents
      ensures forall n :: n in m && Covers(rankFor(n), points[TableOfContents]) ==>
        DescribesTopic(m[n], points[TableOfContents], n)
    {
      var all := ListIndexes();
      m := map[];
      var i := 0;
      while i < |all|
        invariant 0 <= i <= |all|
        invariant forall n :: n in m <==> n in all[..i]
        invariant forall n :: n in m && Covers(rankFor(n), points[TableOfContents]) ==>
          DescribesTopic(m[n], points[TableOfContents], n)
      {
        var d := GetIndexDescription(all[i], rankFor(all[i]));
        m := m[all[i] := d];
        assert all[..i + 1] == all[..i] + [all[i]];
        i := i + 1;
      }
      assert all[..i] == all;
    }

    /** `delete_vectors_by_source`: every point of the source goes, with no
        cap; a missing collection is an error. */
    method DeleteVectorsBySource(index: string, file: string) returns (err: Option<StoreError>)
      requires Valid()
      modifies this
      ensures Valid()
      ensures err == (if index in old(collections) then None else Some(CollectionNotFound(index)))
      ensures err.Some? ==> points == old(points)
      ensures err.None? ==> points == old(points)[index := RemoveMatching(old(points)[index], SourceFilter(file))]
      ensures err.None? ==> SourceCount(points[index], file) == 0
      ensures collections == old(collections) && topicDirs == old(topicDirs) && nextId == old(nextId)
    {
      if index !in collections {
        return Some(CollectionNotFound(index));
      }
      points := points[index := RemoveMatching(points[index], SourceFilter(file))];
      assert SourceIds(points[index], file) == {};
      err := None;
    }

    /** `is_embedded`: whether a query for the source finds a point; any
        failure, such as a missing collection, reads as `False`. */
    method IsEmbedded(index: string, file: string, rank: seq<nat>) returns (b: bool)
      requires Valid()
      ensures index !in collections ==> !b
      ensures index in collections && Covers(rank, points[index]) ==>
        (b <==> exists id :: id in points[index] && "source" in points[index][id] && points[index][id]["source"] == file)
    {
      if index !in collections {
        return false;
      }
      var found := Search(rank, points[index], SourceFilter(file), 1);
      b := found != [];
      if Covers(rank, points[index]) {
        SearchFindsAny(rank, points[index], SourceFilter(file), 1);
        assert forall p: Payload :: Matches(p, SourceFilter(file)) <==> "source" in p && p["source"] == file;
      }
    }

    /** `upsert_vectors`: one new point per chunk under fresh ids, so nothing
        already stored is overwritten. */
    method UpsertVectors(index: string, src: string, paths: seq<string>, chunks: seq<string>, kind: string)
      returns (err: Option<StoreError>)
      requires Valid() && |chunks| <= |paths|
      modifies this
      ensures Valid()
      ensures err == (if index in old(collections) then None else Some(CollectionNotFound(index)))
      ensures err.Some? ==> points == old(points) && nextId == old(nextId)
      ensures err.None? ==> (nextId == old(nextId) + |chunks| &&
        points == old(points)[index := old(points)[index] + Batch(old(nextId), src, paths, chunks, kind)])
      ensures index in old(collections) ==> old(points)[index].Keys !! Batch(old(nextId), src, paths, chunks, kind).Keys
      ensures collections == old(collections) && topicDirs == old(topicDirs)
    {
      if index !in collections {
        return Some(CollectionNotFound(index));
      }
      var base := nextId;
      var batch := BuildBatch(base, src, paths, chunks, kind);
      points := points[index := points[index] + batch];
      nextId := base + |chunks|;
      err := None;
    }

    /** `query_at_index`: the payloads of the first `top_k` points in rank
        order that pass the translated filter. */
    method QueryAtIndex(index: string, topK: nat, filter: Filter, rank: seq<nat>)
      returns (r: Result<seq<Payload>, StoreError>)
      requires Valid()
      ensures index !in collections <==> r == Err(CollectionNotFound(index))
      ensures r.Ok? ==> |r.value| <= topK && forall p :: p in r.value ==> Passes(p, ToQdrantFilter(filter))
      ensures r.Ok? ==> Honest(r.value, topK, filter)
      ensures r.Ok? ==> r.value == PayloadsOf(Search(rank, points[index], filter, topK), points[index])
    {
      if index !in collections {
        return Err(CollectionNotFound(index));
      }
      var recs := points[index];
      var ids := Search(rank, recs, filter, topK);
      SearchIsHonest(rank, recs, filter, topK);
      r := Ok(PayloadsOf(ids, recs));
      forall p | p in r.value ensures Passes(p, ToQdrantFilter(filter)) {
        FilterTranslation(filter, p);
      }
    }
  }

  /** The loop of `upsert_vectors` that builds one point per chunk. */
  method BuildBatch(base: nat, src: string, paths: seq<string>, chunks: seq<string>, kind: string)
    returns (batch: map<nat, Payload>)
    requires |chunks| <= |paths|
    ensures batch == Batch(base, src, paths, chunks, kind)
  {
    batch := map[];
    var i := 0;
    while i < |chunks|
      invariant 0 <= i <= |chunks|
      invariant forall k :: k in batch <==> base <= k < base + i
      invariant forall k :: k in batch ==> batch[k] == ChunkMetadata(chunks[k - base], src, paths[k - base], kind)
    {
      batch := batch[base + i := ChunkMetadata(chunks[i], src, paths[i], kind)];
      i := i + 1;
    }
  }

  /** The ids `base`, …, `base + n - 1`. */
  function Range(base: nat, n: nat): (r: set<nat>)
    ensures forall id :: id in r <==> base <= id < base + n
    ensures |r| == n
  {
    if n == 0 then {} else Range(base, n - 1) + {base + n - 1}
  }

  /** The points `upsert_vectors` adds for the chunks, from id `base` on. */
  function Batch(base: nat, src: string, paths: seq<string>, chunks: seq<string>, kind: string): (b: map<nat, Payload>)
    requires |chunks| <= |paths|
    ensures forall id :: id in b <==> base <= id < base + |chunks|
    ensures forall id :: id in b ==> b[id] == ChunkMetadata(chunks[id - base], src, paths[id - base], kind)
  {
    map id | id in Range(base, |chunks|) :: ChunkMetadata(chunks[id - base], src, paths[id - base], kind)
  }

  /** The ids of the points of one source. */
  ghost function SourceIds(recs: map<nat, Payload>, file: string): (r: set<nat>)
    ensures forall id :: id in r <==> id in recs && Matches(recs[id], SourceFilter(file))
  {
    set id | id in recs && Matches(recs[id], SourceFilter(file))
  }

  /** Re-embedding a file adds its chunks again: the points of the source
      grow by the number of chunks. */
  lemma ReembedDuplicates(recs: map<nat, Payload>, base: nat, src: string, paths: seq<string>, chunks: seq<string>, kind: string)
    requires |chunks| <= |paths|
    requires forall id :: id in recs ==> id < base
    ensures SourceCount(recs + Batch(base, src, paths, chunks, kind), src) == SourceCount(recs, src) + |chunks|
  {
    var added := Batch(base, src, paths, chunks, kind);
    var all := recs + added;
    var before := SourceIds(recs, src);
    var after := SourceIds(all, src);
    forall id | id in added.Keys ensures id in after {
      assert all[id] == added[id];
      assert Matches(added[id], SourceFilter(src));
    }
    forall id | id in before ensures id in after {
      assert id !in added;
      assert all[id] == recs[id];
    }
    forall id | id in after ensures id in before || id in added.Keys {
      if id !in added {
        assert all[id] == recs[id];
      }
    }
    assert after == before + added.Keys;
    assert added.Keys == Range(base, |chunks|);
    assert before !! added.Keys;
  }
}

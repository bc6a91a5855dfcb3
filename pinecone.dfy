/**
 * `PineconeManager` (pinecone_utils.py) over an in-memory Pinecone: the
 * index names in the order the service lists them, the records of each
 * index's `"docs"` namespace by id, the catalog index `table-of-contents`
 * (one record per topic, id = topic name, metadata `{"description": …}`),
 * and the topic directories under the upload folder.
 *
 * A call on a missing index raises in the client; here it returns an
 * error value and changes nothing.
 */
module PineconeUtils {
  import opened Wrappers
  import opened Text
  import opened Seqs
  import opened VectorStore

  const TableOfContents: string := "table-of-contents"
  /** `top_k` of the query that collects the ids to delete. */
  const DeleteCap: nat := 1000

  datatype StoreError = IndexNotFound(name: string) | IndexAlreadyExists(name: string)

  /** `f"{src_doc}-{embed_type}-{i}"`. */
  function VectorId(src: string, kind: string, i: nat): string
  {
    src + "-" + kind + "-" + NatToString(i)
  }

  /** The chunks of one document get different ids. */
  lemma VectorIdInjective(src: string, kind: string, i: nat, j: nat)
    requires VectorId(src, kind, i) == VectorId(src, kind, j)
    ensures i == j
  {
    var prefix := src + "-" + kind + "-";
    assert VectorId(src, kind, i) == prefix + NatToString(i);
    assert VectorId(src, kind, j) == prefix + NatToString(j);
    assert NatToString(i) == VectorId(src, kind, i)[|prefix|..];
    assert NatToString(j) == VectorId(src, kind, j)[|prefix|..];
    NatToStringInjective(i, j);
  }

  /** The ids `upsert_vectors` writes for `n` chunks, in chunk order. */
  function VectorIds(src: string, kind: string, n: nat): (ids: seq<string>)
    ensures |ids| == n && forall j :: 0 <= j < n ==> ids[j] == VectorId(src, kind, j)
  {
    seq(n, (j: int) requires 0 <= j < n => VectorId(src, kind, j))
  }

  /** The same ids, as a set. */
  ghost function BatchIds(src: string, kind: string, n: nat): set<string>
  {
    set id | id in VectorIds(src, kind, n)
  }

  /** No two chunks of a batch share an id. */
  lemma VectorIdsDistinct(src: string, kind: string, n: nat)
    ensures Distinct(VectorIds(src, kind, n))
  {
    var ids := VectorIds(src, kind, n);
    forall i, j | 0 <= i < j < n ensures ids[i] != ids[j] {
      if ids[i] == ids[j] {
        VectorIdInjective(src, kind, i, j);
      }
    }
  }

  /** The map sending each of the first `n` keys to the value beside it. */
  function Zip<K, V>(keys: seq<K>, vals: seq<V>, n: nat): map<K, V>
    requires n <= |keys| && n <= |vals|
  {
    if n == 0 then map[] else Zip(keys, vals, n - 1)[keys[n - 1] := vals[n - 1]]
  }

  /** With distinct keys, every one of the first `n` keys keeps its own value. */
  lemma {:induction false} ZipContents<K, V>(keys: seq<K>, vals: seq<V>, n: nat)
    requires n <= |keys| && n <= |vals| && Distinct(keys)
    ensures forall k :: k in Zip(keys, vals, n) <==> k in keys[..n]
    ensures forall j :: 0 <= j < n ==> Zip(keys, vals, n)[keys[j]] == vals[j]
    decreases n
  {
    if n > 0 {
      ZipContents(keys, vals, n - 1);
      assert keys[..n] == keys[..n - 1] + [keys[n - 1]];
    }
  }

  /** The metadata of each chunk, in chunk order. */
  function Metas(src: string, paths: seq<string>, chunks: seq<string>, kind: string): (ms: seq<Payload>)
    requires |chunks| <= |paths|
    ensures |ms| == |chunks| && forall j :: 0 <= j < |chunks| ==> ms[j] == ChunkMetadata(chunks[j], src, paths[j], kind)
  {
    seq(|chunks|, (j: int) requires 0 <= j < |chunks| => ChunkMetadata(chunks[j], src, paths[j], kind))
  }

  /** With distinct keys, the whole zip maps exactly the keys, each to its value. */
  lemma ZipAll<K, V>(keys: seq<K>, vals: seq<V>)
    requires |keys| == |vals| && Distinct(keys)
    ensures forall k :: k in Zip(keys, vals, |keys|) <==> k in keys
    ensures forall j :: 0 <= j < |keys| ==> Zip(keys, vals, |keys|)[keys[j]] == vals[j]
  {
    ZipContents(keys, vals, |keys|);
    assert keys[..|keys|] == keys;
  }

  /** The loop of `upsert_vectors` that builds one record per chunk. */
  method BuildBatch(src: string, paths: seq<string>, chunks: seq<string>, kind: string)
    returns (batch: map<string, Payload>)
    requires |chunks| <= |paths|
    ensures batch.Keys == BatchIds(src, kind, |chunks|)
    ensures forall j :: 0 <= j < |chunks| ==> batch[VectorId(src, kind, j)] == ChunkMetadata(chunks[j], src, paths[j], kind)
  {
    ghost var ids, metas := VectorIds(src, kind, |chunks|), Metas(src, paths, chunks, kind);
    batch := map[];
    var i := 0;
    while i < |chunks|
      invariant 0 <= i <= |chunks|
      invariant batch == Zip(ids, metas, i)
    {
      batch := batch[VectorId(src, kind, i) := ChunkMetadata(chunks[i], src, paths[i], kind)];
      i := i + 1;
    }
    VectorIdsDistinct(src, kind, |chunks|);
    ZipAll(ids, metas);
    assert batch.Keys == BatchIds(src, kind, |chunks|) by {
      forall id ensures id in batch.Keys <==> id in BatchIds(src, kind, |chunks|) {
      }
    }
  }

  /** `recs` without the given ids. */
  function RemoveIds(recs: map<string, Payload>, ids: seq<string>): (r: map<string, Payload>)
    ensures forall id :: id in r <==> id in recs && id !in ids
    ensures forall id :: id in r ==> r[id] == recs[id]
  {
    map id | id in recs && id !in ids :: recs[id]
  }

  /** Deleting by source removes only records of that source, at most
      `DeleteCap` of them; with no record of the source nothing changes. */
  lemma DeleteOnlySource(recs: map<string, Payload>, rank: seq<string>, file: string)
    ensures var ids := Search(rank, recs, SourceFilter(file), DeleteCap);
            |ids| <= DeleteCap &&
            forall id :: id in recs && id !in RemoveIds(recs, ids) ==> "source" in recs[id] && recs[id]["source"] == file
    ensures (forall id :: id in recs ==> !Matches(recs[id], SourceFilter(file))) ==>
            RemoveIds(recs, Search(rank, recs, SourceFilter(file), DeleteCap)) == recs
  {
    var f := SourceFilter(file);
    var ids := Search(rank, recs, f, DeleteCap);
    forall id | id in recs && id !in RemoveIds(recs, ids)
      ensures "source" in recs[id] && recs[id]["source"] == file
    {
      assert id in ids;
      assert "source" in f;
    }
    if forall id :: id in recs ==> !Matches(recs[id], f) {
      if ids != [] {
        assert ids[0] in ids;
      }
    }
  }

  /** With a ranking of all records and no more than `DeleteCap` records of
      the source, every one of them is deleted. */
  lemma DeleteAllWhenFew(recs: map<string, Payload>, rank: seq<string>, file: string)
    requires IsRanking(rank, recs)
    requires |set id | id in recs && Matches(recs[id], SourceFilter(file))| <= DeleteCap
    ensures var after := RemoveIds(recs, Search(rank, recs, SourceFilter(file), DeleteCap));
            forall id :: id in after ==> !Matches(after[id], SourceFilter(file))
  {
    var f := SourceFilter(file);
    var ids := Search(rank, recs, f, DeleteCap);
    var matching := set id | id in recs && Matches(recs[id], f);
    var found := set id | id in ids;
    assert found <= matching;
    if |ids| == DeleteCap {
      DistinctCardinality(ids);
      SubsetCardinality(found, matching);
    } else {
      assert forall id :: id in matching ==> id in rank;
    }
    assert forall id :: id in matching ==> id in ids;
  }

  class PineconeManager {
    /** `pc.list_indexes().names()`. */
    var names: seq<string>
    /** The `"docs"` namespace of every index. */
    var docs: map<string, map<string, Payload>>
    /** The records of the catalog index: topic name to description. */
    var catalog: map<string, string>
    /** Topics that have a directory under the upload folder. */
    var topicDirs: set<string>

    ghost predicate Valid()
      reads this
    {
      Distinct(names) && TableOfContents in names &&
      forall n :: n in docs <==> n in names
    }

    /** `__init__` on a service that lists `existing`, with the namespaces
        `docs0`, the catalog records `catalog0` and the topic directories
        `dirs0`: the catalog index is created, empty, when the service does
        not list it yet, and everything already there is kept. */
    constructor (existing: seq<string>, docs0: map<string, map<string, Payload>>,
                 catalog0: map<string, string>, dirs0: set<string>)
      requires Distinct(existing)
      requires forall n :: n in docs0 <==> n in existing
      ensures Valid()
      ensures names == if TableOfContents in existing then existing else existing + [TableOfContents]
      ensures docs == if TableOfContents in existing then docs0 else docs0[TableOfContents := map[]]
      ensures catalog == if TableOfContents in existing then catalog0 else map[]
      ensures topicDirs == dirs0
    {
      var all := if TableOfContents in existing then existing else existing + [TableOfContents];
      names := all;
      docs := if TableOfContents in existing then docs0 else docs0[TableOfContents := map[]];
      catalog := if TableOfContents in existing then catalog0 else map[];
      topicDirs := dirs0;
      if TableOfContents !in existing {
        forall i, j | 0 <= i < j < |all| ensures all[i] != all[j] {
          if j == |existing| {
            assert all[i] in existing;
          }
        }
      }
    }

    /** `list_indexes`: the service's names in order, without the catalog. */
    method ListIndexes() returns (r: seq<string>)
      ensures TableOfContents !in r
      ensures forall n :: n in r <==> n in names && n != TableOfContents
      ensures IsSubsequence(r, names)
    {
      r := Without(names, TableOfContents);
    }

    /** `create_index`: the service refuses a name it already has, and then no
        directory is made. */
    method CreateIndex(name: string) returns (err: Option<StoreError>)
      requires Valid()
      modifies this
      ensures Valid()
      ensures err == (if name in old(names) then Some(IndexAlreadyExists(name)) else None)
      ensures err.Some? ==> names == old(names) && docs == old(docs) && topicDirs == old(topicDirs)
      ensures err.None? ==> names == old(names) + [name] && docs == old(docs)[name := map[]] &&
                            topicDirs == old(topicDirs) + {name}
      ensures catalog == old(catalog)
    {
      if name in names {
        return Some(IndexAlreadyExists(name));
      }
      forall i, j | 0 <= i < j < |names + [name]| ensures (names + [name])[i] != (names + [name])[j] {
        if j == |names| {
          assert (names + [name])[i] in names;
        }
      }
      names := names + [name];
      docs := docs[name := map[]];
      topicDirs := topicDirs + {name};
      err := None;
    }

    /** `delete_index`: the index, then its directory, then its catalog
        record; a missing index stops at the first step. */
    method DeleteIndex(name: string) returns (err: Option<StoreError>)
      requires Valid() && name != TableOfContents
      modifies this
      ensures Valid()
      ensures err == (if name in old(names) then None else Some(IndexNotFound(name)))
      ensures err.Some? ==> names == old(names) && docs == old(docs) && topicDirs == old(topicDirs) && catalog == old(catalog)
      ensures err.None? ==> names == Without(old(names), name) && docs == old(docs) - {name} &&
                            topicDirs == old(topicDirs) - {name} && catalog == old(catalog) - {name}
      ensures name !in names ==> name !in Without(names, TableOfContents)
    {
      if name !in names {
        return Some(IndexNotFound(name));
      }
      var rest := Without(names, name);
      WithoutKeepsDistinct(names, name);
      names := rest;
      docs := docs - {name};
      topicDirs := topicDirs - {name};
      catalog := catalog - {name};
      err := None;
    }

    /** `upsert_metadata`: the catalog record of the topic is (over)written. */
    method UpsertMetadata(name: string, description: string)
      modifies this
      ensures catalog == old(catalog)[name := description]
      ensures names == old(names) && docs == old(docs) && topicDirs == old(topicDirs)
    {
      catalog := catalog[name := description];
    }

    /** `get_index_description`. */
    method GetIndexDescription(name: string) returns (d: string)
      ensures name in catalog ==> d == catalog[name]
      ensures name !in catalog ==> d == NoDescription
    {
      d := if name in catalog then catalog[name] else NoDescription;
    }

    /** `get_descriptions`: one entry per listed topic, the sentinel for a
        topic without a catalog record. */
    method GetDescriptions() returns (m: map<string, string>)
      ensures forall n :: n in m <==> n in names && n != TableOfContents
      ensures forall n :: n in m ==> m[n] == if n in catalog then catalog[n] else NoDescription
    {
      var all := ListIndexes();
      m := map[];
      var i := 0;
      while i < |all|
        invariant 0 <= i <= |all|
        invariant forall n :: n in m <==> n in all[..i]
        invariant forall n :: n in m ==> m[n] == if n in catalog then catalog[n] else NoDescription
      {
        var d := GetIndexDescription(all[i]);
        m := m[all[i] := d];
        assert all[..i + 1] == all[..i] + [all[i]];
        i := i + 1;
      }
      assert all[..i] == all;
    }

    /** `delete_vectors_by_source`: the first `DeleteCap` records of the source
        in the order the zero-vector query returns them (`rank`) are deleted. */
    method DeleteVectorsBySource(index: string, file: string, rank: seq<string>) returns (err: Option<StoreError>)
      requires Valid()
      modifies this
      ensures Valid()
      ensures err == (if index in old(names) then None else Some(IndexNotFound(index)))
      ensures err.Some? ==> docs == old(docs)
      ensures err.None? ==> docs == old(docs)[index := RemoveIds(old(docs)[index], Search(rank, old(docs)[index], SourceFilter(file), DeleteCap))]
      ensures names == old(names) && catalog == old(catalog) && topicDirs == old(topicDirs)
    {
      if index !in names {
        return Some(IndexNotFound(index));
      }
      var ids := Search(rank, docs[index], SourceFilter(file), DeleteCap);
      if ids != [] {
        docs := docs[index := RemoveIds(docs[index], ids)];
      } else {
        assert RemoveIds(docs[index], ids) == docs[index];
        assert docs[index := docs[index]] == docs;
      }
      err := None;
    }

    /** `is_embedded`: `pc.Index` of a missing index raises before the
        `try`; otherwise whether a query for the source finds a record. */
    method IsEmbedded(index: string, file: string, rank: seq<string>) returns (r: Result<bool, StoreError>)
      requires Valid()
      ensures index !in names <==> r == Err(IndexNotFound(index))
      ensures index in names && Covers(rank, docs[index]) ==>
        r == Ok(exists id :: id in docs[index] && "source" in docs[index][id] && docs[index][id]["source"] == file)
    {
      if index !in names {
        return Err(IndexNotFound(index));
      }
      var found := Search(rank, docs[index], SourceFilter(file), 1);
      r := Ok(found != []);
      if Covers(rank, docs[index]) {
        SearchFindsAny(rank, docs[index], SourceFilter(file), 1);
        assert forall p: Payload :: Matches(p, SourceFilter(file)) <==> "source" in p && p["source"] == file;
      }
    }

    /** `upsert_vectors`: one record per chunk, id `{src}-{type}-{i}`;
        records of the same ids are overwritten, all other records stay. */
    method UpsertVectors(index: string, src: string, paths: seq<string>, chunks: seq<string>, kind: string)
      returns (err: Option<StoreError>)
      requires Valid() && |chunks| <= |paths|
      modifies this
      ensures Valid()
      ensures err == (if index in old(names) then None else Some(IndexNotFound(index)))
      ensures err.Some? ==> docs == old(docs)
      ensures err.None? ==> (index in docs && docs.Keys == old(docs).Keys &&
        (forall n :: n in docs && n != index ==> docs[n] == old(docs)[n]) &&
        (forall i :: 0 <= i < |chunks| ==>
           VectorId(src, kind, i) in docs[index] &&
           docs[index][VectorId(src, kind, i)] == ChunkMetadata(chunks[i], src, paths[i], kind)) &&
        (forall id :: id in docs[index] <==> id in old(docs)[index] || id in BatchIds(src, kind, |chunks|)) &&
        (forall id :: id in old(docs)[index] && id !in BatchIds(src, kind, |chunks|) ==> docs[index][id] == old(docs)[index][id]))
      ensures names == old(names) && catalog == old(catalog) && topicDirs == old(topicDirs)
    {
      if index !in names {
        return Some(IndexNotFound(index));
      }
      var batch := BuildBatch(src, paths, chunks, kind);
      docs := docs[index := docs[index] + batch];
      err := None;
    }

    /** `query_at_index`: the metadata of the first `top_k` records in rank
        order that pass the filter (an empty filter is no filter). */
    method QueryAtIndex(index: string, topK: nat, filter: Filter, rank: seq<string>)
      returns (r: Result<seq<Payload>, StoreError>)
      requires Valid()
      ensures index !in names <==> r == Err(IndexNotFound(index))
      ensures r.Ok? ==> Honest(r.value, topK, filter)
      ensures r.Ok? ==> r.value == PayloadsOf(Search(rank, docs[index], filter, topK), docs[index])
      ensures r.Ok? && IsRanking(rank, docs[index]) && |r.value| < topK ==>
        |r.value| == |set id | id in docs[index] && Matches(docs[index][id], filter)|
    {
      if index !in names {
        return Err(IndexNotFound(index));
      }
      var recs := docs[index];
      var ids := Search(rank, recs, filter, topK);
      SearchIsHonest(rank, recs, filter, topK);
      r := Ok(PayloadsOf(ids, recs));
      if IsRanking(rank, recs) && |ids| < topK {
        var matching := set id | id in recs && Matches(recs[id], filter);
        assert (set id | id in ids) == matching;
        DistinctCardinality(ids);
      }
    }
  }
}

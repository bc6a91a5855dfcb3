/**
 * What the two vector-store managers and the retrieval code share: a record's
 * metadata, the `{key: {"$eq": value}}` filters, the zero embedding of blank
 * text, and a similarity query.
 *
 * Similarity scores are floating point and computed by the backend, so they
 * are not modelled. The backend's ordering of the records for one query is a
 * parameter `rank`: the record ids from most to least similar. A query then
 * returns the first `topK` records in that order that pass the filter.
 */
module VectorStore {
  import opened Text
  import opened Seqs

  /** `DIM_LENGTH` of both managers. */
  const DimLength: nat := 384

  /** What both managers answer for a topic without a catalog entry. */
  const NoDescription: string := "No description available."

  /** A record's metadata / payload: a string-to-string dictionary. */
  type Payload = map<string, string>

  /** `{key: {"$eq": value}}`, written as the map from each key to its value. */
  type Filter = map<string, string>

  /** `payload.get(key, default)`. */
  function Get(p: Payload, key: string, default: string): (v: string)
    ensures key in p ==> v == p[key]
    ensures key !in p ==> v == default
  {
    if key in p then p[key] else default
  }

  /** Every record carries a `file_path`, as every record the managers
      upsert does; the retrieval code of the Semantic Kernel and LangChain
      pipelines fails on a record without one. */
  predicate HasPaths(ps: seq<Payload>)
  {
    forall k :: 0 <= k < |ps| ==> "file_path" in ps[k]
  }

  /** The record passes every equality condition of the filter; an empty
      filter passes everything. */
  predicate Matches(p: Payload, f: Filter)
  {
    forall k :: k in f ==> k in p && p[k] == f[k]
  }

  /** `rank` lists each record id of `recs` exactly once. */
  ghost predicate IsRanking<Id(!new)>(rank: seq<Id>, recs: map<Id, Payload>)
  {
    Distinct(rank) && (forall id :: id in rank <==> id in recs)
  }

  /** Every id of `recs` appears in `rank`. */
  ghost predicate Covers<Id(!new)>(rank: seq<Id>, recs: map<Id, Payload>)
  {
    forall id :: id in recs ==> id in rank
  }

  /** The ids of the first `topK` records in rank order that pass the filter. */
  function Search<Id(==,!new)>(rank: seq<Id>, recs: map<Id, Payload>, f: Filter, topK: nat): (r: seq<Id>)
    ensures |r| <= topK
    ensures forall id :: id in r ==> id in recs && id in rank && Matches(recs[id], f)
    ensures IsSubsequence(r, rank)
    ensures |r| < topK ==> forall id :: id in rank && id in recs && Matches(recs[id], f) ==> id in r
    ensures Distinct(rank) ==> Distinct(r)
  {
    if rank == [] || topK == 0 then []
    else if rank[0] in recs && Matches(recs[rank[0]], f) then
      var rest := Search(rank[1..], recs, f, topK - 1);
      SubsequenceMembers(rest, rank[1..]);
      [rank[0]] + rest
    else Search(rank[1..], recs, f, topK)
  }

  /** Elements of a subsequence are elements of the sequence. */
  lemma {:induction false} SubsequenceMembers<T>(r: seq<T>, s: seq<T>)
    requires IsSubsequence(r, s)
    ensures forall x :: x in r ==> x in s
  {
    if r != [] && s != [] {
      if r[0] == s[0] {
        SubsequenceMembers(r[1..], s[1..]);
        assert r == [r[0]] + r[1..] && s == [s[0]] + s[1..];
      } else {
        SubsequenceMembers(r, s[1..]);
      }
    }
  }

  /** The metadata of the given ids, in order. */
  function PayloadsOf<Id(==,!new)>(ids: seq<Id>, recs: map<Id, Payload>): (ps: seq<Payload>)
    requires forall id :: id in ids ==> id in recs
    ensures |ps| == |ids|
    ensures forall i :: 0 <= i < |ids| ==> ps[i] == recs[ids[i]]
  {
    if ids == [] then [] else [recs[ids[0]]] + PayloadsOf(ids[1..], recs)
  }

  /** What any honest query with this `top_k` and filter may return: at most
      `topK` records, each passing the filter. */
  predicate Honest(results: seq<Payload>, topK: nat, f: Filter)
  {
    |results| <= topK && forall p :: p in results ==> Matches(p, f)
  }

  /** The metadata a query returns is an honest answer. */
  lemma SearchIsHonest<Id(!new)>(rank: seq<Id>, recs: map<Id, Payload>, f: Filter, topK: nat)
    ensures var ids := Search(rank, recs, f, topK);
            Honest(PayloadsOf(ids, recs), topK, f)
  {
    var ids := Search(rank, recs, f, topK);
    var ps := PayloadsOf(ids, recs);
    forall p | p in ps ensures Matches(p, f) {
      var i :| 0 <= i < |ps| && ps[i] == p;
      assert ids[i] in ids;
    }
  }

  /** With a ranking of all records, a query finds something iff some record
      passes the filter. */
  lemma {:induction false} SearchFindsAny<Id(!new)>(rank: seq<Id>, recs: map<Id, Payload>, f: Filter, topK: nat)
    requires topK >= 1 && Covers(rank, recs)
    ensures Search(rank, recs, f, topK) != [] <==> exists id :: id in recs && Matches(recs[id], f)
  {
    var r := Search(rank, recs, f, topK);
    if r != [] {
      assert r[0] in r;
    }
  }

  /** `get_embedding`: blank text (after `strip()`) gets the zero vector of
      length `DIM_LENGTH` instead of a call to the encoder, which is the
      parameter `encode`. */
  function Embedding(text: string, encode: string -> seq<real>): (v: seq<real>)
    ensures Strip(text) == [] ==> v == seq(DimLength, _ => 0.0)
    ensures Strip(text) != [] ==> v == encode(Strip(text))
  {
    var t := Strip(text);
    if t == [] then seq(DimLength, _ => 0.0) else encode(t)
  }

  /** The metadata both managers' `upsert_vectors` store with a chunk. */
  function ChunkMetadata(chunk: string, src: string, path: string, kind: string): (p: Payload)
    ensures Get(p, "content", "") == chunk && Get(p, "source", "") == src
    ensures Get(p, "file_path", "") == path && Get(p, "type", "") == kind
  {
    map["content" := chunk, "source" := src, "file_path" := path, "type" := kind]
  }

  /** `{"source": {"$eq": file_name}}`. */
  function SourceFilter(file: string): Filter
  {
    map["source" := file]
  }
}

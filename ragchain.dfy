/**
 * The LangChain pipeline (rag_chain.py): `retrieve_chunks` over the
 * Pinecone manager, and the topic decision, the three kinds of reply and
 * the history updates of `run_langchain_query`.
 *
 * A Pinecone query is the parameter `ask(topic, query)`, the metadata it
 * returns (`query_at_index` with its default `top_k` and no filter); the
 * topics the manager lists are the parameter `existing`. The topic selector
 * chain is the parameter `select`, from the formatted history to the text of
 * its answer (the topic descriptions it also reads are manager state folded
 * into it); the answer chain is `answer(context, history)`; the bare model is
 * `llm`.
 */
module RagChain {
  import opened Wrappers
  import opened Text
  import opened VectorStore
  import opened Citation
  import opened Conversation
  import opened Fallback
  import opened TopicList
  import Seqs

  /** The default `top_k` of `query_at_index`. */
  const TopK: nat := 5

  /** ---------- retrieve_chunks ---------- */

  /** `metadata.get("type", "text") == "image"`. */
  predicate IsImage(p: Payload)
  {
    Get(p, "type", "text") == "image"
  }

  /** The entry of a non-image record: its content and its source link. */
  function TextEntry(root: string, p: Payload): string
  {
    Get(p, "content", "") + SourceLine(MarkdownLink(root, Get(p, "file_path", "")))
  }

  /** The entry of an image record: an image reference to its served path. */
  function ImageEntry(root: string, p: Payload): string
  {
    "![](" + UrlPath(root, Get(p, "file_path", "")) + ")"
  }

  /** The records of every listed topic that exists, topic by topic. */
  function Hits(topics: seq<string>, query: string, existing: seq<string>,
                ask: (string, string) -> seq<Payload>): seq<Payload>
    decreases |topics|
  {
    if topics == [] then []
    else
      var t := topics[|topics| - 1];
      Hits(topics[..|topics| - 1], query, existing, ask) + (if t in existing then ask(t, query) else [])
  }

  /** One more topic adds its records, if it exists. */
  lemma HitsStep(topics: seq<string>, i: nat, query: string, existing: seq<string>,
                 ask: (string, string) -> seq<Payload>)
    requires i < |topics|
    ensures topics[i] in existing ==>
              Hits(topics[..i + 1], query, existing, ask) == Hits(topics[..i], query, existing, ask) + ask(topics[i], query)
    ensures topics[i] !in existing ==>
              Hits(topics[..i + 1], query, existing, ask) == Hits(topics[..i], query, existing, ask)
  {
    assert topics[..i + 1][..i] == topics[..i];
  }

  /** Unknown topics contribute nothing. */
  lemma {:induction false} HitsOfUnknown(topics: seq<string>, query: string, existing: seq<string>,
                                         ask: (string, string) -> seq<Payload>)
    requires forall k :: 0 <= k < |topics| ==> topics[k] !in existing
    ensures Hits(topics, query, existing, ask) == []
    decreases |topics|
  {
    if topics != [] {
      HitsOfUnknown(topics[..|topics| - 1], query, existing, ask);
    }
  }

  /** When every query is honest, each topic adds at most `top_k` records. */
  lemma {:induction false} HitsBound(topics: seq<string>, query: string, existing: seq<string>,
                                     ask: (string, string) -> seq<Payload>)
    requires forall t :: Honest(ask(t, query), TopK, map[])
    ensures |Hits(topics, query, existing, ask)| <= TopK * |topics|
    decreases |topics|
  {
    if topics != [] {
      HitsBound(topics[..|topics| - 1], query, existing, ask);
      assert Honest(ask(topics[|topics| - 1], query), TopK, map[]);
    }
  }

  /** The text entries of the records that are not images, in order. */
  function TextsOf(root: string, ps: seq<Payload>): (r: seq<string>)
    ensures |r| <= |ps|
    decreases |ps|
  {
    if ps == [] then []
    else
      var p := ps[|ps| - 1];
      TextsOf(root, ps[..|ps| - 1]) + (if IsImage(p) then [] else [TextEntry(root, p)])
  }

  /** The image entries of the image records, in order. */
  function ImagesOf(root: string, ps: seq<Payload>): (r: seq<string>)
    ensures |r| <= |ps|
    decreases |ps|
  {
    if ps == [] then []
    else
      var p := ps[|ps| - 1];
      ImagesOf(root, ps[..|ps| - 1]) + (if IsImage(p) then [ImageEntry(root, p)] else [])
  }

  /** Every record gives exactly one entry, in one of the two lists. */
  lemma {:induction false} EntriesPartition(root: string, ps: seq<Payload>)
    ensures |TextsOf(root, ps)| + |ImagesOf(root, ps)| == |ps|
    decreases |ps|
  {
    if ps != [] {
      EntriesPartition(root, ps[..|ps| - 1]);
    }
  }

  /** One more record of a query's results adds its entry to its list. */
  lemma EntriesStep(root: string, ps: seq<Payload>, p: Payload)
    ensures TextsOf(root, ps + [p]) == TextsOf(root, ps) + (if IsImage(p) then [] else [TextEntry(root, p)])
    ensures ImagesOf(root, ps + [p]) == ImagesOf(root, ps) + (if IsImage(p) then [ImageEntry(root, p)] else [])
  {
    assert (ps + [p])[..|ps|] == ps;
  }


  /** `"\n\n".join(context_texts + image_paths)`. */
  function Context(texts: seq<string>, images: seq<string>): string
  {
    Join("\n\n", texts + images)
  }

  /** `retrieve_chunks(topics, query, use_general_knowledge)`; a record
      without `file_path` makes the source fail, so every query returns
      records that have one. */
  function RetrieveChunks(topics: seq<string>, query: string, useGeneral: bool, existing: seq<string>,
                          ask: (string, string) -> seq<Payload>, root: string): (r: string)
    requires forall t, q :: HasPaths(ask(t, q))
    ensures topics == ["general"] ==> r == SentinelText(useGeneral)
  {
    if topics == ["general"] then SentinelText(useGeneral)
    else
      var hits := Hits(topics, query, existing, ask);
      var texts := TextsOf(root, hits);
      var images := ImagesOf(root, hits);
      if texts == [] && images == [] then SentinelText(useGeneral) else Context(texts, images)
  }

  /** A joined list starts with its first part. */
  lemma JoinStartsWithFirst(sep: string, parts: seq<string>)
    requires parts != []
    ensures StartsWith(Join(sep, parts), parts[0])
  {
  }

  /** A joined list whose first part holds a line break, or starts with
      `!`, is neither sentinel. */
  lemma JoinNotSentinel(parts: seq<string>)
    requires parts != [] && ('\n' in parts[0] || (parts[0] != [] && parts[0][0] == '!'))
    ensures Join("\n\n", parts) != GeneralKnowledgeRequest && Join("\n\n", parts) != NoInformationFound
  {
    var r := Join("\n\n", parts);
    JoinStartsWithFirst("\n\n", parts);
    assert '\n' !in GeneralKnowledgeRequest && '\n' !in NoInformationFound;
    if '\n' in parts[0] {
      var k :| 0 <= k < |parts[0]| && parts[0][k] == '\n';
      assert r[k] == '\n';
    } else {
      assert r[0] == '!';
    }
  }

  /** A non-empty context is never mistaken for a sentinel: a text entry
      holds a line break, which neither sentinel does, and an image entry
      starts with `!`. */
  lemma ContextNotSentinel(root: string, hits: seq<Payload>)
    requires TextsOf(root, hits) != [] || ImagesOf(root, hits) != []
    ensures Context(TextsOf(root, hits), ImagesOf(root, hits)) != GeneralKnowledgeRequest
    ensures Context(TextsOf(root, hits), ImagesOf(root, hits)) != NoInformationFound
  {
    var texts, images := TextsOf(root, hits), ImagesOf(root, hits);
    TextsHaveBreak(root, hits);
    ImagesStartWithBang(root, hits);
    assert (texts + images)[0] == if texts != [] then texts[0] else images[0];
    JoinNotSentinel(texts + images);
  }

  /** Every text entry holds a line break, before its source line. */
  lemma {:induction false} TextsHaveBreak(root: string, ps: seq<Payload>)
    ensures forall i :: 0 <= i < |TextsOf(root, ps)| ==> '\n' in TextsOf(root, ps)[i]
    decreases |ps|
  {
    if ps != [] {
      var p := ps[|ps| - 1];
      TextsHaveBreak(root, ps[..|ps| - 1]);
      var c := Get(p, "content", "");
      assert TextEntry(root, p)[|c|] == '\n';
    }
  }

  /** Every image entry starts with `!`. */
  lemma {:induction false} ImagesStartWithBang(root: string, ps: seq<Payload>)
    ensures forall i :: 0 <= i < |ImagesOf(root, ps)| ==> ImagesOf(root, ps)[i] != [] && ImagesOf(root, ps)[i][0] == '!'
    decreases |ps|
  {
    if ps != [] {
      ImagesStartWithBang(root, ps[..|ps| - 1]);
    }
  }

  /** Retrieval answers the flag's sentinel exactly when the topics are
      `['general']` or no listed topic that exists returned a record. */
  lemma SentinelIffNothingFound(topics: seq<string>, query: string, useGeneral: bool, existing: seq<string>,
                                ask: (string, string) -> seq<Payload>, root: string)
    requires forall t, q :: HasPaths(ask(t, q))
    ensures RetrieveChunks(topics, query, useGeneral, existing, ask, root) == SentinelText(useGeneral) <==>
            topics == ["general"] || Hits(topics, query, existing, ask) == []
  {
    var hits := Hits(topics, query, existing, ask);
    EntriesPartition(root, hits);
    if topics != ["general"] && hits != [] {
      ContextNotSentinel(root, hits);
    }
  }

  /** When none of the topics exists, nothing is queried and the result is
      the flag's sentinel. */
  lemma UnknownTopicsSentinel(topics: seq<string>, query: string, useGeneral: bool, existing: seq<string>,
                              ask: (string, string) -> seq<Payload>, root: string)
    requires forall t, q :: HasPaths(ask(t, q))
    requires forall k :: 0 <= k < |topics| ==> topics[k] !in existing
    ensures RetrieveChunks(topics, query, useGeneral, existing, ask, root) == SentinelText(useGeneral)
  {
    HitsOfUnknown(topics, query, existing, ask);
  }

  /** `retrieve_chunks`: the check for `['general']`, the loops, and the
      join. */
  method RetrieveChunksLoop(topics: seq<string>, query: string, useGeneral: bool, existing: seq<string>,
                            ask: (string, string) -> seq<Payload>, root: string)
    returns (r: string)
    requires forall t, q :: HasPaths(ask(t, q))
    ensures r == RetrieveChunks(topics, query, useGeneral, existing, ask, root)
  {
    if topics == ["general"] {
      return SentinelText(useGeneral);
    }
    var texts, images := CollectChunks(topics, query, existing, ask, root);
    if texts == [] && images == [] {
      return SentinelText(useGeneral);
    }
    return Context(texts, images);
  }

  /** The loop over the topics: one query for each topic the manager lists. */
  method CollectChunks(topics: seq<string>, query: string, existing: seq<string>,
                       ask: (string, string) -> seq<Payload>, root: string)
    returns (texts: seq<string>, images: seq<string>)
    ensures texts == TextsOf(root, Hits(topics, query, existing, ask))
    ensures images == ImagesOf(root, Hits(topics, query, existing, ask))
  {
    texts, images := [], [];
    var i := 0;
    while i < |topics|
      invariant 0 <= i <= |topics|
      invariant texts == TextsOf(root, Hits(topics[..i], query, existing, ask))
      invariant images == ImagesOf(root, Hits(topics[..i], query, existing, ask))
    {
      var topic := topics[i];
      ghost var done := Hits(topics[..i], query, existing, ask);
      HitsStep(topics, i, query, existing, ask);
      if topic in existing {
        var metadataList := ask(topic, query);
        texts, images := AppendEntries(texts, images, done, metadataList, root);
      }
      i := i + 1;
    }
    assert topics[..i] == topics;
  }

  /** The loop over one topic's records: each goes to the image list or the
      text list by its type. */
  method AppendEntries(texts0: seq<string>, images0: seq<string>, ghost done: seq<Payload>,
                       results: seq<Payload>, root: string)
    returns (texts: seq<string>, images: seq<string>)
    requires texts0 == TextsOf(root, done) && images0 == ImagesOf(root, done)
    ensures texts == TextsOf(root, done + results) && images == ImagesOf(root, done + results)
  {
    texts, images := texts0, images0;
    ghost var seen := done;
    var j := 0;
    assert done + results[..0] == done;
    while j < |results|
      invariant 0 <= j <= |results|
      invariant seen == done + results[..j]
      invariant texts == TextsOf(root, seen) && images == ImagesOf(root, seen)
    {
      var metadata := results[j];
      EntriesStep(root, seen, metadata);
      if IsImage(metadata) {
        images := images + [ImageEntry(root, metadata)];
      } else {
        texts := texts + [TextEntry(root, metadata)];
      }
      Seqs.AppendSlice(done, results, j);
      seen := seen + [metadata];
      j := j + 1;
    }
    assert results[..j] == results;
  }

  /** ---------- run_langchain_query ---------- */

  /** The reply when the topics come down to `['general']` and the fallback
      is off. */
  const ChainApology: string :=
    "\U{274C} Sorry, we couldn\U{2019}t find any relevant topics or matching content " +
    "in your uploaded documents to answer your question."

  /** The general-knowledge prompt over the formatted history. */
  function GeneralChainPrompt(history: string, query: string): string
  {
    "Answer this using general knowledge:\n\n" + history + "\n\nNew query:\n" + query
  }

  /** The topics the query is answered from: the caller's when there are
      any; otherwise `['general']` with the fallback on, and the selector's
      list with it off (`['general']` when its answer does not evaluate). */
  function ChosenTopics(topics: seq<string>, useGeneral: bool, selected: string): (r: seq<string>)
    ensures topics != [] ==> r == topics
    ensures topics == [] && useGeneral ==> r == ["general"]
    ensures topics == [] && !useGeneral ==>
              r == match LiteralEval(selected) case None => ["general"] case Some(items) => items
  {
    if topics != [] then topics
    else if useGeneral then ["general"]
    else
      match LiteralEval(selected)
      case None => ["general"]
      case Some(items) => items
  }

  /** The three ways `run_langchain_query` answers. */
  datatype Route = Apology | GeneralAnswer | Retrieval(topics: seq<string>)

  /** The branch taken for the chosen topics. */
  function RouteOf(chosen: seq<string>, useGeneral: bool): (r: Route)
    ensures r == Apology <==> chosen == ["general"] && !useGeneral
    ensures r == GeneralAnswer <==> chosen == ["general"] && useGeneral
    ensures r.Retrieval? <==> chosen != ["general"]
    ensures r.Retrieval? ==> r.topics == chosen
  {
    if chosen == ["general"] then (if useGeneral then GeneralAnswer else Apology) else Retrieval(chosen)
  }

  /** The assistant message of `run_langchain_query`, given the history that
      already holds the user's query. */
  function ChainReply(history: seq<Message>, query: string, topics: seq<string>, useGeneral: bool,
                      existing: seq<string>, ask: (string, string) -> seq<Payload>, root: string,
                      select: string -> string, answer: (string, string) -> string, llm: string -> string): string
    requires forall t, q :: HasPaths(ask(t, q))
  {
    var h := FormatHistory(history);
    var chosen := ChosenTopics(topics, useGeneral, if topics == [] && !useGeneral then select(h) else "");
    match RouteOf(chosen, useGeneral)
    case Apology => ChainApology
    case GeneralAnswer => llm(GeneralChainPrompt(h, query))
    case Retrieval(ts) => answer(RetrieveChunks(ts, query, useGeneral, existing, ask, root), h)
  }

  /** With the fallback on, the selector is never consulted and the apology
      is never given; without topics the answer comes from general
      knowledge. */
  lemma FallbackOnReplies(history: seq<Message>, query: string, topics: seq<string>,
                          existing: seq<string>, ask: (string, string) -> seq<Payload>, root: string,
                          select1: string -> string, select2: string -> string,
                          answer: (string, string) -> string, llm: string -> string)
    requires forall t, q :: HasPaths(ask(t, q))
    ensures ChainReply(history, query, topics, true, existing, ask, root, select1, answer, llm) ==
            ChainReply(history, query, topics, true, existing, ask, root, select2, answer, llm)
    ensures topics == [] || topics == ["general"] ==>
              ChainReply(history, query, topics, true, existing, ask, root, select1, answer, llm) ==
              llm(GeneralChainPrompt(FormatHistory(history), query))
  {
  }

  /** With the fallback off and no topics, a selector answer that does not
      evaluate to a list, or evaluates to `['general']`, gives the apology;
      a list of other topics is retrieved from. */
  lemma SelectorOutcome(history: seq<Message>, query: string,
                        existing: seq<string>, ask: (string, string) -> seq<Payload>, root: string,
                        select: string -> string, answer: (string, string) -> string, llm: string -> string)
    requires forall t, q :: HasPaths(ask(t, q))
    ensures var h := FormatHistory(history);
            var r := ChainReply(history, query, [], false, existing, ask, root, select, answer, llm);
            match LiteralEval(select(h))
            case None => r == ChainApology
            case Some(items) =>
              if items == ["general"] then r == ChainApology
              else r == answer(RetrieveChunks(items, query, false, existing, ask, root), h)
  {
  }

  /** The selector's answer is read as `literal_eval` reads it: a single
      topic other than "general", quoted with either quote character, with
      or without a comma before the bracket, after spaces or tabs and
      before whitespace or line ends, is the one topic retrieved from. */
  lemma SelectorOneTopic(pre: string, a: string, q: char, comma: bool, post: string)
    requires forall k :: 0 <= k < |pre| ==> pre[k] == ' ' || pre[k] == '\t'
    requires AllTokenSpace(post)
    requires IsQuote(q) && q !in a && CleanItem(a) && a != "general"
    ensures var close := if comma then [q, ',', ']'] else [q, ']'];
            var chosen := ChosenTopics([], false, pre + ("[" + [q] + a + close) + post);
            chosen == [a] && RouteOf(chosen, false) == Retrieval([a])
  {
    OneItemList(pre, a, q, comma, post);
    assert [a][0] != "general";
  }

  /** Topics given by the caller are used as they are: the selector plays
      no part, and the reply only depends on the records retrieved. */
  lemma ExplicitTopicsUsed(history: seq<Message>, query: string, topics: seq<string>, useGeneral: bool,
                           existing: seq<string>, ask: (string, string) -> seq<Payload>, root: string,
                           select1: string -> string, select2: string -> string,
                           answer: (string, string) -> string, llm: string -> string)
    requires forall t, q :: HasPaths(ask(t, q))
    requires topics != [] && topics != ["general"]
    ensures ChainReply(history, query, topics, useGeneral, existing, ask, root, select1, answer, llm) ==
            answer(RetrieveChunks(topics, query, useGeneral, existing, ask, root), FormatHistory(history))
    ensures ChainReply(history, query, topics, useGeneral, existing, ask, root, select1, answer, llm) ==
            ChainReply(history, query, topics, useGeneral, existing, ask, root, select2, answer, llm)
  {
  }

  /** `run_langchain_query`: the query is appended first, then exactly one
      reply. */
  method RunLangchainQuery(log: ChatLog, query: string, topics: seq<string>, useGeneral: bool,
                           existing: seq<string>, ask: (string, string) -> seq<Payload>, root: string,
                           select: string -> string, answer: (string, string) -> string, llm: string -> string)
    returns (reply: string)
    requires forall t, q :: HasPaths(ask(t, q))
    modifies log
    ensures reply == ChainReply(old(log.messages) + [Message(User, query)], query, topics, useGeneral,
                                existing, ask, root, select, answer, llm)
    ensures log.messages == old(log.messages) + Turn(query, reply)
  {
    log.Add(Message(User, query));
    reply := ChainAnswer(log.messages, query, topics, useGeneral, existing, ask, root, select, answer, llm);
    log.Add(Message(Assistant, reply));
  }

  /** The branches of `run_langchain_query` between the two history
      updates. */
  method ChainAnswer(history: seq<Message>, query: string, topics: seq<string>, useGeneral: bool,
                     existing: seq<string>, ask: (string, string) -> seq<Payload>, root: string,
                     select: string -> string, answer: (string, string) -> string, llm: string -> string)
    returns (reply: string)
    requires forall t, q :: HasPaths(ask(t, q))
    ensures reply == ChainReply(history, query, topics, useGeneral, existing, ask, root, select, answer, llm)
  {
    var h := FormatHistory(history);
    var chosen := topics;
    if topics == [] {
      if useGeneral {
        chosen := ["general"];
      } else {
        var topicOutput := select(h);
        chosen := match LiteralEval(topicOutput) case None => ["general"] case Some(items) => items;
      }
    }
    if chosen == ["general"] {
      if !useGeneral {
        reply := ChainApology;
      } else {
        reply := llm(GeneralChainPrompt(h, query));
      }
    } else {
      var context := RetrieveChunksLoop(chosen, query, useGeneral, existing, ask, root);
      reply := answer(context, h);
    }
  }
}

/**
 * The Semantic Kernel pipeline (rag_kernel.py): the plugin functions
 * `determine_relevant_topics`, `retrieve_context_chunks` and
 * `answer_query`, and the history updates of `run_query_pipeline`.
 *
 * The planner, the chat model and the vision model are parameters: each is a
 * function from its prompt to its answer. The Pinecone query of a topic is
 * the parameter `ask(topic, query)`, the metadata it returns; the topics the
 * manager lists are the parameter `existing`.
 */
module RagKernel {
  import opened Text
  import opened Wrappers
  import opened VectorStore
  import opened Citation
  import opened TopicList
  import opened Conversation
  import opened Fallback
  import Seqs

  /** The default `top_k` of `query_at_index`. */
  const TopK: nat := 5

  /** What `retrieve_context_chunks` returns: one of the two sentinels, or
      the dictionary of text entries, image paths and file links. */
  datatype Retrieved =
    | GeneralKnowledge
    | NoInformation
    | Found(texts: seq<string>, images: seq<string>, links: seq<string>)

  /** `general_knowledge_request if use_general_knowledge.lower() == "true"
      else no_information_found`. */
  function Sentinel(flag: string): (r: Retrieved)
    ensures r == GeneralKnowledge <==> Lower(flag) == "true"
    ensures r == NoInformation <==> Lower(flag) != "true"
  {
    if Lower(flag) == "true" then GeneralKnowledge else NoInformation
  }

  /** `str(...)` of the result: the sentinel itself, or the dictionary. */
  function Encode(r: Retrieved, printable: char -> bool): string
  {
    match r
    case GeneralKnowledge => GeneralKnowledgeRequest
    case NoInformation => NoInformationFound
    case Found(texts, images, links) =>
      "{'text_chunks': " + RenderList(texts, printable) +
      ", 'image_paths': " + RenderList(images, printable) +
      ", 'file_links': " + RenderList(links, printable) + "}"
  }

  /** `answer_query` compares its input with the two sentinels; a
      dictionary is never mistaken for either. */
  lemma EncodeDispatch(r: Retrieved, printable: char -> bool)
    ensures Encode(r, printable) == NoInformationFound <==> r == NoInformation
    ensures Encode(r, printable) == GeneralKnowledgeRequest <==> r == GeneralKnowledge
  {
    if r.Found? {
      var e := Encode(r, printable);
      assert e[0] == '{';
      assert NoInformationFound[0] == 'n' && GeneralKnowledgeRequest[0] == 'N';
    }
  }

  /** `"true"` and `"false"` under `str(bool)`: what `run_query_pipeline`
      passes as `use_general_knowledge`. */
  function PyBool(b: bool): string
  {
    if b then "True" else "False"
  }

  /** The flag survives the round trip through its string form. */
  lemma PyBoolFlag(b: bool)
    ensures Lower(PyBool(b)) == "true" <==> b
  {
    if !b {
      assert Lower("False")[0] == 'f';
    }
  }

  /** ---------- determine_relevant_topics ---------- */

  /** `determine_relevant_topics`: the parsed list, rendered again, when it
      is non-empty; otherwise the selector's answer (`select` is the chat
      model given the query and the catalog descriptions). `None` is a
      failing `literal_eval`. */
  function DetermineRelevantTopics(topics: string, query: string, select: string -> string,
                                   printable: char -> bool): Option<string>
  {
    match LiteralEval(topics)
    case None => None
    case Some(items) => if items != [] then Some(RenderList(items, printable)) else Some(select(query))
  }

  /** A non-empty list given by the user comes back unchanged and the
      selector is not consulted. */
  lemma ExplicitTopicsKept(items: seq<string>, query: string, select: string -> string,
                           printable: char -> bool)
    requires items != [] && forall k :: 0 <= k < |items| ==> PlainItem(items[k])
    ensures DetermineRelevantTopics(RenderList(items, printable), query, select, printable)
            == Some(RenderList(items, printable))
  {
    RenderRoundTrip(items, printable);
  }

  /** An empty list hands the choice to the selector. */
  lemma EmptyTopicsSelect(query: string, select: string -> string, printable: char -> bool)
    ensures DetermineRelevantTopics("[]", query, select, printable) == Some(select(query))
  {
    EmptyListEval();
  }

  /** ---------- retrieve_context_chunks ---------- */

  /** `[topic for topic in found_list if topic.lower() != 'general']`. */
  function DropGeneral(topics: seq<string>): (r: seq<string>)
    ensures forall t :: t in r <==> t in topics && Lower(t) != "general"
    ensures |r| <= |topics|
  {
    if topics == [] then []
    else (if Lower(topics[0]) != "general" then [topics[0]] else []) + DropGeneral(topics[1..])
  }

  /** The name of the catalog-free fallback topic is already lower case. */
  lemma LowerGeneral()
    ensures Lower("general") == "general"
  {
    var g := "general";
    assert forall i :: 0 <= i < |g| ==> LowerChar(g[i]) == g[i];
  }

  /** Without a "general" entry nothing is dropped. */
  lemma {:induction false} DropGeneralNone(topics: seq<string>)
    requires forall k :: 0 <= k < |topics| ==> Lower(topics[k]) != "general"
    ensures DropGeneral(topics) == topics
  {
    if topics != [] {
      DropGeneralNone(topics[1..]);
      assert topics == [topics[0]] + topics[1..];
    }
  }

  /** The three lists being built. */
  datatype Collected = Collected(texts: seq<string>, images: seq<string>, links: seq<string>)

  /** One entry and one link per record so far, each entry ending with its
      own link, and no more images than entries. */
  predicate Balanced(c: Collected)
  {
    |c.images| <= |c.texts| == |c.links| &&
    forall k :: 0 <= k < |c.texts| ==> EndsWith(c.texts[k], SourceLine(c.links[k]))
  }

  /** The body of the inner loop for one record: one entry and one link,
      and the normalised path when the record is an image. */
  function AddRecord(c: Collected, p: Payload, root: string): (d: Collected)
    requires "file_path" in p
    ensures |d.texts| == |c.texts| + 1 && |d.links| == |c.links| + 1
    ensures |d.images| == |c.images| + (if Get(p, "type", "text") == "image" then 1 else 0)
  {
    var link := MarkdownLink(root, p["file_path"]);
    Collected(c.texts + [Get(p, "content", "") + SourceLine(link)],
              if Get(p, "type", "text") == "image" then c.images + [Normalise(p["file_path"])] else c.images,
              c.links + [link])
  }

  /** Each record keeps the lists balanced. */
  lemma AddRecordBalanced(c: Collected, p: Payload, root: string)
    requires "file_path" in p && Balanced(c)
    ensures Balanced(AddRecord(c, p, root))
  {
    var d := AddRecord(c, p, root);
    var n := |c.texts|;
    var link := MarkdownLink(root, p["file_path"]);
    var entry := Get(p, "content", "") + SourceLine(link);
    assert d.texts == c.texts + [entry] && d.links == c.links + [link];
    forall k | 0 <= k < |d.texts|
      ensures EndsWith(d.texts[k], SourceLine(d.links[k]))
    {
      if k < n {
        assert d.texts[k] == c.texts[k] && d.links[k] == c.links[k];
      } else {
        assert d.texts[k] == entry && d.links[k] == link;
        assert entry[|entry| - |SourceLine(link)|..] == SourceLine(link);
      }
    }
  }

  /** The inner loop over the records of one topic, in order. */
  function AddRecords(c: Collected, ps: seq<Payload>, root: string): (d: Collected)
    requires HasPaths(ps)
    ensures |d.texts| == |c.texts| + |ps| && |d.links| == |c.links| + |ps|
    ensures |d.images| <= |c.images| + |ps|
    decreases |ps|
  {
    if ps == [] then c
    else
      var prev := AddRecords(c, ps[..|ps| - 1], root);
      assert "file_path" in ps[|ps| - 1];
      AddRecord(prev, ps[|ps| - 1], root)
  }

  lemma {:induction false} AddRecordsBalanced(c: Collected, ps: seq<Payload>, root: string)
    requires HasPaths(ps) && Balanced(c)
    ensures Balanced(AddRecords(c, ps, root))
    decreases |ps|
  {
    if ps != [] {
      AddRecordsBalanced(c, ps[..|ps| - 1], root);
      assert "file_path" in ps[|ps| - 1];
      AddRecordBalanced(AddRecords(c, ps[..|ps| - 1], root), ps[|ps| - 1], root);
    }
  }

  /** The outer loop: the records of every listed topic that exists, topic
      by topic. */
  function Gather(topics: seq<string>, query: string, existing: seq<string>,
                  ask: (string, string) -> seq<Payload>, root: string): Collected
    requires forall t, q :: HasPaths(ask(t, q))
    decreases |topics|
  {
    if topics == [] then Collected([], [], [])
    else
      var prev := Gather(topics[..|topics| - 1], query, existing, ask, root);
      var t := topics[|topics| - 1];
      if t in existing then AddRecords(prev, ask(t, query), root) else prev
  }

  /** Whatever the topics, one entry and one link per record, each entry
      ending with its own link, and no more images than entries. */
  lemma {:induction false} GatherBalanced(topics: seq<string>, query: string, existing: seq<string>,
                                          ask: (string, string) -> seq<Payload>, root: string)
    requires forall t, q :: HasPaths(ask(t, q))
    ensures Balanced(Gather(topics, query, existing, ask, root))
    decreases |topics|
  {
    if topics != [] {
      var init := topics[..|topics| - 1];
      var t := topics[|topics| - 1];
      GatherBalanced(init, query, existing, ask, root);
      if t in existing {
        AddRecordsBalanced(Gather(init, query, existing, ask, root), ask(t, query), root);
      }
    }
  }

  /** The topics of the list that the manager knows, in order. */
  function Known(topics: seq<string>, existing: seq<string>): (r: seq<string>)
    ensures forall t :: t in r <==> t in topics && t in existing
  {
    if topics == [] then []
    else Known(topics[..|topics| - 1], existing) +
         (if topics[|topics| - 1] in existing then [topics[|topics| - 1]] else [])
  }

  /** Unknown topics are skipped without a trace: the result is that of the
      known topics alone. */
  lemma {:induction false} GatherSkipsUnknown(topics: seq<string>, query: string, existing: seq<string>,
                                              ask: (string, string) -> seq<Payload>, root: string)
    requires forall t, q :: HasPaths(ask(t, q))
    ensures Gather(topics, query, existing, ask, root) == Gather(Known(topics, existing), query, existing, ask, root)
    decreases |topics|
  {
    if topics != [] {
      var init := topics[..|topics| - 1];
      var t := topics[|topics| - 1];
      var prev := Gather(init, query, existing, ask, root);
      GatherSkipsUnknown(init, query, existing, ask, root);
      if t in existing {
        var k := Known(init, existing) + [t];
        assert Known(topics, existing) == k;
        assert k[..|k| - 1] == Known(init, existing) && k[|k| - 1] == t;
        assert Gather(k, query, existing, ask, root) == AddRecords(prev, ask(t, query), root);
      } else {
        assert Known(topics, existing) == Known(init, existing);
      }
    }
  }

  /** When every query returns at most `top_k` records, each topic adds at
      most `top_k` entries. */
  lemma {:induction false} GatherBound(topics: seq<string>, query: string, existing: seq<string>,
                                       ask: (string, string) -> seq<Payload>, root: string)
    requires forall t, q :: HasPaths(ask(t, q))
    requires forall t :: Honest(ask(t, query), TopK, map[])
    ensures var c := Gather(topics, query, existing, ask, root);
            |c.images| <= |c.texts| <= TopK * |topics|
    decreases |topics|
  {
    if topics != [] {
      var init := topics[..|topics| - 1];
      GatherBound(init, query, existing, ask, root);
      assert Honest(ask(topics[|topics| - 1], query), TopK, map[]);
    }
  }

  /** The answer once the list of topics to search is settled. */
  function Outcome(c: Collected, flag: string): Retrieved
  {
    if c.texts == [] && c.images == [] then Sentinel(flag) else Found(c.texts, c.images, c.links)
  }

  /** `retrieve_context_chunks(found_topics, query, use_general_knowledge)`. */
  function RetrieveContext(found: string, query: string, flag: string, existing: seq<string>,
                           ask: (string, string) -> seq<Payload>, root: string): (r: Retrieved)
    requires forall t, q :: HasPaths(ask(t, q))
    ensures Lower(flag) != "true" ==> r != GeneralKnowledge
    ensures r.Found? ==> r.texts != [] && Balanced(Collected(r.texts, r.images, r.links))
  {
    match FindValidList(found)
    case None => Sentinel(flag)
    case Some(m) =>
      match LiteralEval(m)
      case None => NoInformation
      case Some(list) =>
        if list == ["general"] then Sentinel(flag)
        else if Lower(flag) != "true" && DropGeneral(list) == [] then NoInformation
        else
          var topics := if Lower(flag) == "true" then list else DropGeneral(list);
          GatherBalanced(topics, query, existing, ask, root);
          Outcome(Gather(topics, query, existing, ask, root), flag)
  }

  /** `retrieve_context_chunks`: the checks on the list, then the loops. */
  method RetrieveContextChunks(found: string, query: string, flag: string, existing: seq<string>,
                               ask: (string, string) -> seq<Payload>, root: string)
    returns (r: Retrieved)
    requires forall t, q :: HasPaths(ask(t, q))
    ensures r == RetrieveContext(found, query, flag, existing, ask, root)
  {
    var listStr := FindValidList(found);
    if listStr.None? {
      return Sentinel(flag);
    }
    var parsed := LiteralEval(listStr.value);
    if parsed.None? {
      return NoInformation;
    }
    var list := parsed.value;
    if list == ["general"] {
      return Sentinel(flag);
    }
    if Lower(flag) != "true" {
      list := DropGeneral(list);
      if list == [] {
        return NoInformation;
      }
    }
    var texts, images, links := CollectTopics(list, query, existing, ask, root);
    if texts == [] && images == [] {
      return Sentinel(flag);
    }
    return Found(texts, images, links);
  }

  /** The outer loop over the topics, skipping those the manager does not
      list. */
  method CollectTopics(topics: seq<string>, query: string, existing: seq<string>,
                       ask: (string, string) -> seq<Payload>, root: string)
    returns (texts: seq<string>, images: seq<string>, links: seq<string>)
    requires forall t, q :: HasPaths(ask(t, q))
    ensures Collected(texts, images, links) == Gather(topics, query, existing, ask, root)
  {
    texts, images, links := [], [], [];
    var i := 0;
    while i < |topics|
      invariant 0 <= i <= |topics|
      invariant Collected(texts, images, links) == Gather(topics[..i], query, existing, ask, root)
    {
      var topic := topics[i];
      assert topics[..i + 1][..i] == topics[..i];
      if topic in existing {
        var metadataList := ask(topic, query);
        texts, images, links := CollectRecords(texts, images, links, metadataList, root);
      }
      i := i + 1;
    }
    assert topics[..i] == topics;
  }

  /** One more record on top of the records before it. */
  lemma AddRecordsStep(c: Collected, ms: seq<Payload>, j: nat, root: string)
    requires HasPaths(ms) && j < |ms|
    ensures "file_path" in ms[j] && HasPaths(ms[..j])
    ensures AddRecords(c, ms[..j + 1], root) == AddRecord(AddRecords(c, ms[..j], root), ms[j], root)
  {
    assert ms[..j + 1][..j] == ms[..j] && ms[..j + 1][j] == ms[j];
  }

  /** The inner loop over the records of one topic. */
  method CollectRecords(texts0: seq<string>, images0: seq<string>, links0: seq<string>,
                        metas: seq<Payload>, root: string)
    returns (texts: seq<string>, images: seq<string>, links: seq<string>)
    requires HasPaths(metas)
    ensures Collected(texts, images, links) == AddRecords(Collected(texts0, images0, links0), metas, root)
  {
    texts, images, links := texts0, images0, links0;
    var j := 0;
    while j < |metas|
      invariant 0 <= j <= |metas|
      invariant Collected(texts, images, links) == AddRecords(Collected(texts0, images0, links0), metas[..j], root)
    {
      var p := metas[j];
      AddRecordsStep(Collected(texts0, images0, links0), metas, j, root);
      ghost var before := Collected(texts, images, links);
      var filePath := Normalise(p["file_path"]);
      var link := MarkdownLink(root, p["file_path"]);
      if Get(p, "type", "text") == "image" {
        images := images + [filePath];
      }
      texts := texts + [Get(p, "content", "") + SourceLine(link)];
      links := links + [link];
      assert Collected(texts, images, links) == AddRecord(before, p, root);
      j := j + 1;
    }
    assert metas[..j] == metas;
  }

  /** `['general']` as a list, in whatever form, asks for the flag's
      sentinel before any topic is searched. */
  lemma GeneralListSentinel(query: string, flag: string, existing: seq<string>,
                            ask: (string, string) -> seq<Payload>, root: string, printable: char -> bool)
    requires forall t, q :: HasPaths(ask(t, q))
    ensures RetrieveContext(RenderList(["general"], printable), query, flag, existing, ask, root) == Sentinel(flag)
  {
    var items := ["general"];
    assert PlainItem(items[0]);
    RenderRoundTrip(items, printable);
  }

  /** A parsed list other than `['general']` and without a "general" entry
      is searched as it stands, whatever the flag. */
  lemma RetrieveParsed(found: string, list: seq<string>, query: string, flag: string, existing: seq<string>,
                       ask: (string, string) -> seq<Payload>, root: string)
    requires forall t, q :: HasPaths(ask(t, q))
    requires FindValidList(found).Some? && LiteralEval(FindValidList(found).value) == Some(list)
    requires list != [] && list != ["general"] && DropGeneral(list) == list
    ensures RetrieveContext(found, query, flag, existing, ask, root) == Outcome(Gather(list, query, existing, ask, root), flag)
  {
  }

  /** A list without any "general" entry, as `str(topics)` renders it, is
      searched topic by topic whatever the flag; when none of its topics
      exists the result is the flag's sentinel. */
  lemma ExplicitListRetrieval(topics: seq<string>, query: string, flag: string, existing: seq<string>,
                              ask: (string, string) -> seq<Payload>, root: string, printable: char -> bool)
    requires forall t, q :: HasPaths(ask(t, q))
    requires topics != [] && forall k :: 0 <= k < |topics| ==> PlainItem(topics[k]) && Lower(topics[k]) != "general"
    ensures RetrieveContext(RenderList(topics, printable), query, flag, existing, ask, root)
            == Outcome(Gather(topics, query, existing, ask, root), flag)
    ensures Known(topics, existing) == [] ==>
            RetrieveContext(RenderList(topics, printable), query, flag, existing, ask, root) == Sentinel(flag)
  {
    RenderRoundTrip(topics, printable);
    DropGeneralNone(topics);
    assert topics[0] != "general" by {
      LowerGeneral();
      assert Lower(topics[0]) != "general";
    }
    assert topics != ["general"];
    RetrieveParsed(RenderList(topics, printable), topics, query, flag, existing, ask, root);
    if Known(topics, existing) == [] {
      GatherSkipsUnknown(topics, query, existing, ask, root);
      assert Gather([], query, existing, ask, root) == Collected([], [], []);
    }
  }

  /** ---------- answer_query ---------- */

  /** The fixed apology for `no_information_found`. */
  const Apology: string :=
    "\U{274C} Sorry, we couldn\U{2019}t find any relevant topics or matching content " +
    "in your uploaded documents to answer your question. Please try rephrasing " +
    "your query or uploading new sources."

  /** The prompt of the general-knowledge branch. */
  function GeneralPrompt(query: string): string
  {
    "Answer the following question " + "using your general knowledge:\n\nQuery: " + query
  }

  /** The instructions that open the context prompt, up to the chunks. */
  const ContextInstructions: string :=
    "    You are a precise assistant generating Markdown-ready answers for a web app.\n" +
    "    \n" +
    "    Use the retrieved information below to answer the user's query. **Only** use\n" +
    "    information from these chunks. Do **not** rely on general knowledge. If you\n" +
    "    want to cite a specific source, use the corresponding Markdown link provided\n" +
    "    next to each chunk to indicate the information source when inserting it into\n" +
    "    the response.\n" +
    "    \n" +
    "    Return ONLY the response itself.\n" +
    "    ---\n" +
    "    \n" +
    "    Retrieved Chunks:\n" +
    "    "

  /** The text between the chunks and the query. */
  const QueryHeading: string :=
    "\n" +
    "    \n" +
    "    ---\n" +
    "    User Query:\n" +
    "    "

  /** The prompt built from the retrieved text entries. */
  function ContextPrompt(texts: seq<string>, query: string): string
  {
    "\n" + ContextInstructions + Join("\n\n", texts) + QueryHeading + query + "\n    "
  }

  /** The image paths that exist on disk, in order. */
  function ExistingImages(images: seq<string>, onDisk: string -> bool): (r: seq<string>)
    ensures forall p :: p in r <==> p in images && onDisk(p)
    ensures Seqs.IsSubsequence(r, images)
    ensures forall p :: onDisk(p) ==> multiset(r)[p] == multiset(images)[p]
  {
    if images == [] then []
    else
      var rest := ExistingImages(images[1..], onDisk);
      assert images == [images[0]] + images[1..];
      if onDisk(images[0]) then
        assert ([images[0]] + rest)[1..] == rest;
        [images[0]] + rest
      else
        assert rest != [] ==> rest[0] in rest;
        rest
  }

  /** `answer_query`: the apology, the chat model's general answer, or the
      stripped answer of the vision model (when some image exists) or of the
      chat model, to the context prompt. */
  function AnswerQuery(query: string, data: Retrieved, llm: string -> string,
                       vision: (string, seq<string>) -> string, onDisk: string -> bool): string
  {
    match data
    case NoInformation => Apology
    case GeneralKnowledge => llm(GeneralPrompt(query))
    case Found(texts, images, _) =>
      var prompt := ContextPrompt(texts, query);
      var shown := ExistingImages(images, onDisk);
      Strip(if shown != [] then vision(prompt, shown) else llm(prompt))
  }

  /** Any result other than the general-knowledge sentinel is answered
      without the general-knowledge prompt: two chat models that differ only
      on it give the same answer. */
  lemma AnswerIgnoresGeneralPrompt(query: string, data: Retrieved, llm1: string -> string, llm2: string -> string,
                                   vision: (string, seq<string>) -> string, onDisk: string -> bool)
    requires data != GeneralKnowledge
    requires forall p :: p != GeneralPrompt(query) ==> llm1(p) == llm2(p)
    ensures AnswerQuery(query, data, llm1, vision, onDisk) == AnswerQuery(query, data, llm2, vision, onDisk)
  {
    if data.Found? {
      PromptsDiffer(data.texts, query);
    }
  }

  /** The context prompt starts with a line break, the general one with a
      letter. */
  lemma PromptsDiffer(texts: seq<string>, query: string)
    ensures ContextPrompt(texts, query) != GeneralPrompt(query)
  {
    assert GeneralPrompt(query)[0] == 'A';
    assert ContextPrompt(texts, query)[0] == '\n';
  }

  /** With the fallback off, the answer never comes from the general-knowledge
      prompt, whatever the topic list says. */
  lemma FlagOffIgnoresGeneralPrompt(found: string, query: string, flag: string, existing: seq<string>,
                                    ask: (string, string) -> seq<Payload>, root: string,
                                    llm1: string -> string, llm2: string -> string,
                                    vision: (string, seq<string>) -> string, onDisk: string -> bool)
    requires forall t, q :: HasPaths(ask(t, q))
    requires Lower(flag) != "true"
    requires forall p :: p != GeneralPrompt(query) ==> llm1(p) == llm2(p)
    ensures var data := RetrieveContext(found, query, flag, existing, ask, root);
            AnswerQuery(query, data, llm1, vision, onDisk) == AnswerQuery(query, data, llm2, vision, onDisk)
  {
    var data := RetrieveContext(found, query, flag, existing, ask, root);
    AnswerIgnoresGeneralPrompt(query, data, llm1, llm2, vision, onDisk);
  }

  /** With the fallback off, a user's list none of whose topics exists is
      answered with the apology. */
  lemma FlagOffUnknownTopicsApology(topics: seq<string>, query: string, flag: string, existing: seq<string>,
                                    ask: (string, string) -> seq<Payload>, root: string, printable: char -> bool,
                                    llm: string -> string, vision: (string, seq<string>) -> string,
                                    onDisk: string -> bool)
    requires forall t, q :: HasPaths(ask(t, q))
    requires Lower(flag) != "true" && Known(topics, existing) == []
    requires topics != [] && forall k :: 0 <= k < |topics| ==> PlainItem(topics[k]) && Lower(topics[k]) != "general"
    ensures var data := RetrieveContext(RenderList(topics, printable), query, flag, existing, ask, root);
            AnswerQuery(query, data, llm, vision, onDisk) == Apology
  {
    ExplicitListRetrieval(topics, query, flag, existing, ask, root, printable);
  }

  /** ---------- run_query_pipeline ---------- */

  /** The prompt with the conversation so far. */
  function FullPrompt(history: string, query: string): string
  {
    "\n    This is the prior messages exchanged in a conversation:\n" +
    "\n" +
    "    " + history + "\n" +
    "\n" +
    "    Use this chat history to answer the user's newest query.\n" +
    "    \n" +
    "    User Query: " + query + "\n" +
    "    "
  }

  /** `run_query_pipeline`: the plan (the parameter `plan`) receives the
      prompt with the history before this query, `str(topics)` and
      `str(use_general_knowledge)`; the query and the plan's answer are
      appended to `chat_history` in that order. */
  method RunQueryPipeline(log: ChatLog, query: string, topics: seq<string>, useGeneral: bool,
                          printable: char -> bool, plan: (string, string, string) -> string)
    returns (answer: string)
    modifies log
    ensures answer == plan(FullPrompt(Transcript(old(log.messages)), query), RenderList(topics, printable), PyBool(useGeneral))
    ensures log.messages == old(log.messages) + Turn(query, answer)
  {
    var historyText := Transcript(log.messages);
    var fullPrompt := FullPrompt(historyText, query);
    log.Add(Message(User, query));
    answer := plan(fullPrompt, RenderList(topics, printable), PyBool(useGeneral));
    log.Add(Message(Assistant, answer));
  }
}

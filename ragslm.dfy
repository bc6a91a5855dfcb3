/**
 * The small-language-model pipeline (rag_slm.py): `retrieve_chunks` over
 * the Qdrant manager, the `<think>`/`<response>` splitter, and the control
 * flow and history updates of `run_slm_query`.
 *
 * A Qdrant query is the parameter `ask(topic, query, filter)`, the payloads
 * it returns; the topics the manager lists are the parameter `existing`.
 * The language model is the parameter `llm` (prompt to answer) and the
 * `full_prompt_phi4` template of prompts.py is the parameter `phi4`.
 */
module RagSlm {
  import opened Wrappers
  import opened Text
  import opened VectorStore
  import opened Citation
  import opened Conversation
  import opened Fallback
  import Seqs

  /** `TOP_K`. */
  const TopK: nat := 5

  /** `{"type": {"$eq": kind}}`. */
  function TypeFilter(kind: string): Filter
  {
    map["type" := kind]
  }

  /** ---------- retrieve_chunks ---------- */

  /** The entry of one text record: its content and then its source link. */
  function TextEntry(root: string, p: Payload): string
  {
    Get(p, "content", "") + SourceLine(MarkdownLink(root, Get(p, "file_path", "")))
  }

  /** The entry of one image record: the image as Markdown, then its
      description on a line of its own. */
  function ImageEntry(root: string, p: Payload): string
  {
    "!" + MarkdownLink(root, Get(p, "file_path", "")) + "\n" + DescriptionLine(p)
  }

  /** The stored description with every line break removed. */
  function DescriptionLine(p: Payload): (line: string)
    ensures '\n' !in line
  {
    var body := Seqs.Without(Get(p, "content", ""), '\n');
    var line := "Description: " + body;
    assert forall k :: 0 <= k < 13 ==> line[k] != '\n';
    assert forall k :: 13 <= k < |line| ==> line[k] == body[k - 13];
    line
  }

  /** The description is the last line of an image entry, whatever the
      stored description looked like. */
  lemma ImageEntryLastLine(root: string, p: Payload)
    ensures AfterLast(ImageEntry(root, p), '\n') == "Description: " + Seqs.Without(Get(p, "content", ""), '\n')
  {
    AfterLastOf("!" + MarkdownLink(root, Get(p, "file_path", "")), '\n', DescriptionLine(p));
  }

  /** The records a query of kind `kind` returns for each listed topic that
      exists, topic by topic. */
  function Hits(topics: seq<string>, query: string, existing: seq<string>,
                ask: (string, string, Filter) -> seq<Payload>, kind: string): seq<Payload>
    decreases |topics|
  {
    if topics == [] then []
    else
      var t := topics[|topics| - 1];
      Hits(topics[..|topics| - 1], query, existing, ask, kind) +
      (if t in existing then ask(t, query, TypeFilter(kind)) else [])
  }

  /** One more topic adds its records, if it exists. */
  lemma HitsStep(topics: seq<string>, i: nat, query: string, existing: seq<string>,
                 ask: (string, string, Filter) -> seq<Payload>, kind: string)
    requires i < |topics|
    ensures topics[i] in existing ==>
              Hits(topics[..i + 1], query, existing, ask, kind) ==
              Hits(topics[..i], query, existing, ask, kind) + ask(topics[i], query, TypeFilter(kind))
    ensures topics[i] !in existing ==>
              Hits(topics[..i + 1], query, existing, ask, kind) == Hits(topics[..i], query, existing, ask, kind)
  {
    assert topics[..i + 1][..i] == topics[..i];
  }

  /** Unknown topics contribute nothing. */
  lemma {:induction false} HitsOfUnknown(topics: seq<string>, query: string, existing: seq<string>,
                                         ask: (string, string, Filter) -> seq<Payload>, kind: string)
    requires forall k :: 0 <= k < |topics| ==> topics[k] !in existing
    ensures Hits(topics, query, existing, ask, kind) == []
    decreases |topics|
  {
    if topics != [] {
      HitsOfUnknown(topics[..|topics| - 1], query, existing, ask, kind);
    }
  }

  /** When every query is honest, each topic adds at most `TOP_K` records,
      all of the requested type. */
  lemma {:induction false} HitsBound(topics: seq<string>, query: string, existing: seq<string>,
                                     ask: (string, string, Filter) -> seq<Payload>, kind: string)
    requires forall t :: Honest(ask(t, query, TypeFilter(kind)), TopK, TypeFilter(kind))
    ensures var h := Hits(topics, query, existing, ask, kind);
            |h| <= TopK * |topics| && forall p :: p in h ==> Get(p, "type", "") == kind
    decreases |topics|
  {
    if topics != [] {
      var t := topics[|topics| - 1];
      HitsBound(topics[..|topics| - 1], query, existing, ask, kind);
      var more := ask(t, query, TypeFilter(kind));
      assert Honest(more, TopK, TypeFilter(kind));
      forall p | p in more ensures Get(p, "type", "") == kind {
        assert Matches(p, TypeFilter(kind));
        assert "type" in TypeFilter(kind);
      }
    }
  }

  /** The text entries of the records, in order. */
  function TextEntries(root: string, ps: seq<Payload>): (r: seq<string>)
    ensures |r| == |ps|
    decreases |ps|
  {
    if ps == [] then [] else TextEntries(root, ps[..|ps| - 1]) + [TextEntry(root, ps[|ps| - 1])]
  }

  /** One more record of a query's results adds its entry. */
  lemma TextEntriesStep(root: string, done: seq<Payload>, results: seq<Payload>, j: nat)
    requires j < |results|
    ensures TextEntries(root, done + results[..j + 1]) == TextEntries(root, done + results[..j]) + [TextEntry(root, results[j])]
  {
    var ps := done + results[..j];
    assert done + results[..j + 1] == ps + [results[j]];
    assert (ps + [results[j]])[..|ps|] == ps;
  }

  /** The image entries of the records, in order. */
  function ImageEntries(root: string, ps: seq<Payload>): (r: seq<string>)
    ensures |r| == |ps|
    decreases |ps|
  {
    if ps == [] then [] else ImageEntries(root, ps[..|ps| - 1]) + [ImageEntry(root, ps[|ps| - 1])]
  }

  /** One more record of a query's results adds its entry. */
  lemma ImageEntriesStep(root: string, done: seq<Payload>, results: seq<Payload>, j: nat)
    requires j < |results|
    ensures ImageEntries(root, done + results[..j + 1]) == ImageEntries(root, done + results[..j]) + [ImageEntry(root, results[j])]
  {
    var ps := done + results[..j];
    assert done + results[..j + 1] == ps + [results[j]];
    assert (ps + [results[j]])[..|ps|] == ps;
  }

  /** The context handed to the model: the text entries under a header, and
      the image entries under a second header when there are any. */
  function Format(texts: seq<string>, images: seq<string>): (r: string)
    ensures StartsWith(r, "<TEXT CHUNKS>\n")
    ensures StartsWith(r, "<TEXT CHUNKS>\n" + Join("\n\n", texts))
    ensures images == [] ==> r == "<TEXT CHUNKS>\n" + Join("\n\n", texts)
    ensures images != [] ==> EndsWith(r, "\n\n<IMAGE DESCRIPTIONS>\n" + Join("\n\n", images))
    ensures images != [] ==> |r| == 14 + |Join("\n\n", texts)| + 23 + |Join("\n\n", images)|
  {
    var head := "<TEXT CHUNKS>\n" + Join("\n\n", texts);
    var tail := if images != [] then "\n\n<IMAGE DESCRIPTIONS>\n" + Join("\n\n", images) else "";
    assert (head + tail)[..14] == "<TEXT CHUNKS>\n";
    assert (head + tail)[..|head|] == head;
    assert images == [] ==> head + tail == head;
    assert (head + tail)[|head + tail| - |tail|..] == tail;
    head + tail
  }

  /** A formatted context is never mistaken for a sentinel. */
  lemma FormatNotSentinel(texts: seq<string>, images: seq<string>)
    ensures Format(texts, images) != NoInformationFound
    ensures Format(texts, images) != GeneralKnowledgeRequest
  {
    var r := Format(texts, images);
    assert r[0] == '<';
    assert NoInformationFound[0] == 'n' && GeneralKnowledgeRequest[0] == 'N';
  }

  /** `retrieve_chunks(topics, query, use_general_knowledge)`. */
  function RetrieveChunks(topics: seq<string>, query: string, useGeneral: bool, existing: seq<string>,
                          ask: (string, string, Filter) -> seq<Payload>, root: string): (r: string)
    ensures topics == ["general"] ==> r == SentinelText(useGeneral)
  {
    if topics == ["general"] then SentinelText(useGeneral)
    else
      var texts := TextEntries(root, Hits(topics, query, existing, ask, "text"));
      var images := ImageEntries(root, Hits(topics, query, existing, ask, "image"));
      if texts == [] && images == [] then SentinelText(useGeneral) else Format(texts, images)
  }

  /** With the fallback on, retrieval never answers `no_information_found`;
      with it off, never `No relevant context found`. */
  lemma SentinelFollowsFlag(topics: seq<string>, query: string, useGeneral: bool, existing: seq<string>,
                            ask: (string, string, Filter) -> seq<Payload>, root: string)
    ensures var r := RetrieveChunks(topics, query, useGeneral, existing, ask, root);
            (r == NoInformationFound ==> !useGeneral) && (r == GeneralKnowledgeRequest ==> useGeneral)
  {
    if topics != ["general"] {
      var texts := TextEntries(root, Hits(topics, query, existing, ask, "text"));
      var images := ImageEntries(root, Hits(topics, query, existing, ask, "image"));
      FormatNotSentinel(texts, images);
    }
  }

  /** Retrieval answers the flag's sentinel exactly when the topics are
      `['general']` or the listed topics that exist returned neither a text
      record nor an image record. */
  lemma SentinelIffNothingFound(topics: seq<string>, query: string, useGeneral: bool, existing: seq<string>,
                                ask: (string, string, Filter) -> seq<Payload>, root: string)
    ensures RetrieveChunks(topics, query, useGeneral, existing, ask, root) == SentinelText(useGeneral) <==>
            topics == ["general"] ||
            (Hits(topics, query, existing, ask, "text") == [] && Hits(topics, query, existing, ask, "image") == [])
  {
    if topics != ["general"] {
      var texts := TextEntries(root, Hits(topics, query, existing, ask, "text"));
      var images := ImageEntries(root, Hits(topics, query, existing, ask, "image"));
      FormatNotSentinel(texts, images);
    }
  }

  /** When none of the topics exists, nothing is queried and the result is
      the flag's sentinel. */
  lemma UnknownTopicsSentinel(topics: seq<string>, query: string, useGeneral: bool, existing: seq<string>,
                              ask: (string, string, Filter) -> seq<Payload>, root: string)
    requires forall k :: 0 <= k < |topics| ==> topics[k] !in existing
    ensures RetrieveChunks(topics, query, useGeneral, existing, ask, root) == SentinelText(useGeneral)
  {
    HitsOfUnknown(topics, query, existing, ask, "text");
    HitsOfUnknown(topics, query, existing, ask, "image");
  }

  /** `retrieve_chunks`: the check for `['general']`, the loops, and the
      formatting. */
  method RetrieveChunksLoop(topics: seq<string>, query: string, useGeneral: bool, existing: seq<string>,
                            ask: (string, string, Filter) -> seq<Payload>, root: string)
    returns (r: string)
    ensures r == RetrieveChunks(topics, query, useGeneral, existing, ask, root)
  {
    if topics == ["general"] {
      return SentinelText(useGeneral);
    }
    var texts, images := CollectChunks(topics, query, existing, ask, root);
    if texts == [] && images == [] {
      return SentinelText(useGeneral);
    }
    return Format(texts, images);
  }

  /** The loop over the topics: a text query and an image query for each
      topic the manager lists. */
  method CollectChunks(topics: seq<string>, query: string, existing: seq<string>,
                       ask: (string, string, Filter) -> seq<Payload>, root: string)
    returns (texts: seq<string>, images: seq<string>)
    ensures texts == TextEntries(root, Hits(topics, query, existing, ask, "text"))
    ensures images == ImageEntries(root, Hits(topics, query, existing, ask, "image"))
  {
    texts, images := [], [];
    var i := 0;
    while i < |topics|
      invariant 0 <= i <= |topics|
      invariant texts == TextEntries(root, Hits(topics[..i], query, existing, ask, "text"))
      invariant images == ImageEntries(root, Hits(topics[..i], query, existing, ask, "image"))
    {
      var topic := topics[i];
      ghost var doneTexts := Hits(topics[..i], query, existing, ask, "text");
      ghost var doneImages := Hits(topics[..i], query, existing, ask, "image");
      HitsStep(topics, i, query, existing, ask, "text");
      HitsStep(topics, i, query, existing, ask, "image");
      if topic in existing {
        var textResults := ask(topic, query, TypeFilter("text"));
        texts := AppendTexts(texts, doneTexts, textResults, root);
        var imageResults := ask(topic, query, TypeFilter("image"));
        images := AppendImages(images, doneImages, imageResults, root);
      }
      i := i + 1;
    }
    assert topics[..i] == topics;
  }

  /** The loop over one topic's text records. */
  method AppendTexts(texts0: seq<string>, ghost done: seq<Payload>, results: seq<Payload>, root: string)
    returns (texts: seq<string>)
    requires texts0 == TextEntries(root, done)
    ensures texts == TextEntries(root, done + results)
  {
    texts := texts0;
    var j := 0;
    assert done + results[..0] == done;
    while j < |results|
      invariant 0 <= j <= |results|
      invariant texts == TextEntries(root, done + results[..j])
    {
      var metadata := results[j];
      TextEntriesStep(root, done, results, j);
      texts := texts + [TextEntry(root, metadata)];
      j := j + 1;
    }
    assert results[..j] == results;
  }

  /** The loop over one topic's image records. */
  method AppendImages(images0: seq<string>, ghost done: seq<Payload>, results: seq<Payload>, root: string)
    returns (images: seq<string>)
    requires images0 == ImageEntries(root, done)
    ensures images == ImageEntries(root, done + results)
  {
    images := images0;
    var j := 0;
    assert done + results[..0] == done;
    while j < |results|
      invariant 0 <= j <= |results|
      invariant images == ImageEntries(root, done + results[..j])
    {
      var metadata := results[j];
      ImageEntriesStep(root, done, results, j);
      images := images + [ImageEntry(root, metadata)];
      j := j + 1;
    }
    assert results[..j] == results;
  }

  /** ---------- extract_think_response_sections ---------- */

  /** One character of the text against one (lower-case) character of a
      tag under `re.IGNORECASE`: ASCII case folding, plus the non-ASCII
      letters Python's matcher also folds onto i, k and s. */
  predicate TagChar(c: char, t: char)
  {
    LowerChar(c) == t ||
    (t == 'i' && (c == '\U{0130}' || c == '\U{0131}')) ||
    (t == 'k' && c == '\U{212A}') ||
    (t == 's' && c == '\U{017F}')
  }

  /** The tag occurs at the start of `s`. */
  predicate TagAt(s: string, tag: string)
    ensures TagAt(s, tag) ==> |tag| <= |s|
  {
    tag == [] || (s != [] && TagChar(s[0], tag[0]) && TagAt(s[1..], tag[1..]))
  }

  /** The length of the run of whitespace (`\s`) that starts `s`. */
  function SpaceRun(s: string): (n: nat)
    ensures n <= |s|
    ensures forall k :: 0 <= k < n ==> IsSpace(s[k])
    ensures n < |s| ==> !IsSpace(s[n])
  {
    if s != [] && IsSpace(s[0]) then 1 + SpaceRun(s[1..]) else 0
  }

  /** `\s*</tag>` matches at the start of `s`: whitespace, then the tag
      (the tag starts with `<`, so the greedy `\s*` never has to give a
      character back). */
  predicate ClosesAt(s: string, close: string)
  {
    if s != [] && IsSpace(s[0]) then ClosesAt(s[1..], close) else TagAt(s, close)
  }

  /** The first position at or after `from` where the tag starts. */
  function FindTag(s: string, tag: string, from: nat): (r: Option<nat>)
    requires from <= |s|
    ensures r.Some? ==> from <= r.value <= |s| && TagAt(s[r.value..], tag)
    decreases |s| - from
  {
    if TagAt(s[from..], tag) then Some(from)
    else if from == |s| then None
    else FindTag(s, tag, from + 1)
  }

  /** The position found is the leftmost one, and none is found only when
      the tag occurs nowhere after `from`. */
  lemma {:induction false} FindTagLeftmost(s: string, tag: string, from: nat)
    requires from <= |s|
    ensures var r := FindTag(s, tag, from);
            (r.Some? ==> forall k :: from <= k < r.value ==> !TagAt(s[k..], tag)) &&
            (r.None? ==> forall k :: from <= k <= |s| ==> !TagAt(s[k..], tag))
    decreases |s| - from
  {
    if !TagAt(s[from..], tag) && from < |s| {
      FindTagLeftmost(s, tag, from + 1);
    }
  }

  /** The first position at or after `from` where `\s*</tag>` matches. */
  function FindClose(s: string, close: string, from: nat): (r: Option<nat>)
    requires from <= |s|
    ensures r.Some? ==> from <= r.value <= |s| && ClosesAt(s[r.value..], close)
    decreases |s| - from
  {
    if ClosesAt(s[from..], close) then Some(from)
    else if from == |s| then None
    else FindClose(s, close, from + 1)
  }

  /** The lazy group: the position found is the leftmost one, and none is
      found only when `\s*</tag>` matches nowhere after `from`. */
  lemma {:induction false} FindCloseLeftmost(s: string, close: string, from: nat)
    requires from <= |s|
    ensures var r := FindClose(s, close, from);
            (r.Some? ==> forall k :: from <= k < r.value ==> !ClosesAt(s[k..], close)) &&
            (r.None? ==> forall k :: from <= k <= |s| ==> !ClosesAt(s[k..], close))
    decreases |s| - from
  {
    if !ClosesAt(s[from..], close) && from < |s| {
      FindCloseLeftmost(s, close, from + 1);
    }
  }

  /** `group(1)` of `<name>\s*(.*?)\s*</name>` searched with `re.DOTALL |
      re.IGNORECASE`. The match, if any, starts at the first opening tag:
      a closing tag after a later opening tag also follows the first one.
      The greedy `\s*` skips the whitespace after the opening tag, and the
      lazy group ends at the first position from which whitespace and the
      closing tag follow. The group never starts or ends with
      whitespace. */
  function Section(text: string, name: string): (r: Option<string>)
    ensures r.Some? ==> r.value == [] || (!IsSpace(r.value[0]) && !IsSpace(r.value[|r.value| - 1]))
  {
    var open := "<" + name + ">";
    var close := "</" + name + ">";
    match FindTag(text, open, 0)
    case None => None
    case Some(i) =>
      var p := i + |open|;
      var q := p + SpaceRun(text[p..]);
      match FindClose(text, close, q)
      case None => None
      case Some(e) =>
        FindCloseLeftmost(text, close, q);
        GroupTrimmed(text, close, p, e);
        Some(text[q..e])
  }

  /** A group that starts after the whitespace run and ends at the first
      place the closing tag can follow has no whitespace at either end. */
  lemma GroupTrimmed(text: string, close: string, p: nat, e: nat)
    requires p <= |text| && p + SpaceRun(text[p..]) <= e <= |text|
    requires ClosesAt(text[e..], close)
    requires forall k :: p + SpaceRun(text[p..]) <= k < e ==> !ClosesAt(text[k..], close)
    ensures var g := text[p + SpaceRun(text[p..])..e]; g == [] || (!IsSpace(g[0]) && !IsSpace(g[|g| - 1]))
  {
    var q := p + SpaceRun(text[p..]);
    if q < e {
      assert text[q] == text[p..][SpaceRun(text[p..])];
      ClosesAfterSpace(text, close, e);
    }
  }

  /** Whitespace before a match of `\s*</tag>` extends the match. */
  lemma ClosesAfterSpace(text: string, close: string, e: nat)
    requires 0 < e <= |text| && ClosesAt(text[e..], close)
    ensures IsSpace(text[e - 1]) ==> ClosesAt(text[e - 1..], close)
  {
    assert text[e - 1..][1..] == text[e..];
  }

  /** `extract_think_response_sections(text)`: the stripped think section
      (empty when missing) and the stripped response section (the whole
      stripped text when missing). */
  function ExtractThinkResponse(text: string): (r: (string, string))
  {
    var think := match Section(text, "think") case None => "" case Some(g) => Strip(g);
    var response := match Section(text, "response") case None => Strip(text) case Some(g) => Strip(g);
    (think, response)
  }

  /** Without a `<think>` tag, in any letter case, the think part is empty;
      without a `<response>` tag the response is the whole text, stripped. */
  lemma MissingTags(text: string)
    ensures (forall k :: 0 <= k <= |text| ==> !TagAt(text[k..], "<think>")) ==> ExtractThinkResponse(text).0 == ""
    ensures (forall k :: 0 <= k <= |text| ==> !TagAt(text[k..], "<response>")) ==> ExtractThinkResponse(text).1 == Strip(text)
  {
    assert "<" + "think" + ">" == "<think>";
    assert "<" + "response" + ">" == "<response>";
    if forall k :: 0 <= k <= |text| ==> !TagAt(text[k..], "<think>") {
      assert FindTag(text, "<think>", 0).None?;
    }
    if forall k :: 0 <= k <= |text| ==> !TagAt(text[k..], "<response>") {
      assert FindTag(text, "<response>", 0).None?;
    }
  }

  /** Found sections come out exactly as the regular expression's group:
      the `strip()` applied to them is a no-op. */
  lemma SectionsUnstripped(text: string)
    ensures Section(text, "think").Some? ==> ExtractThinkResponse(text).0 == Section(text, "think").value
    ensures Section(text, "response").Some? ==> ExtractThinkResponse(text).1 == Section(text, "response").value
  {
    SectionUnstripped(text, "think");
    SectionUnstripped(text, "response");
  }

  /** A found section is left as it is by `strip()`. */
  lemma SectionUnstripped(text: string, name: string)
    ensures Section(text, name).Some? ==> Strip(Section(text, name).value) == Section(text, name).value
  {
    if Section(text, name).Some? {
      StripUnchanged(Section(text, name).value);
    }
  }

  /** ---------- run_slm_query ---------- */

  /** The reply when no topic was given. */
  const NoTopicsError: string :=
    "\U{274C} Error: No topics provided. This version requires user-supplied topics."

  /** The reply when nothing matched and the fallback is off. */
  const NoMatchApology: string :=
    "\U{274C} Sorry, we couldn\U{2019}t find any matching content from the selected topics " +
    "to answer your question."

  /** The general-knowledge prompt over the formatted history. */
  function GeneralSlmPrompt(history: string, query: string): string
  {
    "Answer the following using general knowledge:\n\n" + history + "\n\nNew query:\n" + query
  }

  /** The (think, response) pair `run_slm_query` returns, given the history
      that already holds the user's query. */
  function SlmReply(history: seq<Message>, query: string, topics: seq<string>, useGeneral: bool,
                    existing: seq<string>, ask: (string, string, Filter) -> seq<Payload>, root: string,
                    llm: string -> string, phi4: (string, string, string) -> string): (r: (string, string))
    ensures topics == [] ==> r == ("", NoTopicsError)
  {
    if topics == [] then ("", NoTopicsError)
    else
      var context := RetrieveChunks(topics, query, useGeneral, existing, ask, root);
      if context == NoInformationFound then
        if !useGeneral then ("", NoMatchApology)
        else ("", Strip(llm(GeneralSlmPrompt(FormatHistory(history), query))))
      else ExtractThinkResponse(Strip(llm(phi4(context, FormatHistory(history), query))))
  }

  /** `run_slm_query`: the query is appended first, then exactly one reply on
      every exit path. */
  method RunSlmQuery(log: ChatLog, query: string, topics: seq<string>, useGeneral: bool,
                     existing: seq<string>, ask: (string, string, Filter) -> seq<Payload>, root: string,
                     llm: string -> string, phi4: (string, string, string) -> string)
    returns (think: string, response: string)
    modifies log
    ensures (think, response) == SlmReply(old(log.messages) + [Message(User, query)], query, topics, useGeneral,
                                          existing, ask, root, llm, phi4)
    ensures log.messages == old(log.messages) + Turn(query, response)
  {
    log.Add(Message(User, query));
    think, response := SlmAnswer(log.messages, query, topics, useGeneral, existing, ask, root, llm, phi4);
    log.Add(Message(Assistant, response));
  }

  /** The branches of `run_slm_query` between the two history updates: the
      missing-topics error, retrieval, the apology or the general answer,
      and the split of the model's output. */
  method SlmAnswer(history: seq<Message>, query: string, topics: seq<string>, useGeneral: bool,
                   existing: seq<string>, ask: (string, string, Filter) -> seq<Payload>, root: string,
                   llm: string -> string, phi4: (string, string, string) -> string)
    returns (think: string, response: string)
    ensures (think, response) == SlmReply(history, query, topics, useGeneral, existing, ask, root, llm, phi4)
  {
    if topics == [] {
      return "", NoTopicsError;
    }
    var context := RetrieveChunksLoop(topics, query, useGeneral, existing, ask, root);
    if context == NoInformationFound {
      if !useGeneral {
        return "", NoMatchApology;
      } else {
        return "", Strip(llm(GeneralSlmPrompt(FormatHistory(history), query)));
      }
    }
    var fullOutput := Strip(llm(phi4(context, FormatHistory(history), query)));
    think, response := ExtractThinkResponse(fullOutput).0, ExtractThinkResponse(fullOutput).1;
  }

  /** As written, the general-knowledge branch is dead: with the fallback on,
      a topic list that finds nothing sends the sentinel text to the model as
      if it were retrieved context. */
  lemma FallbackSendsSentinel(history: seq<Message>, query: string, topics: seq<string>,
                              existing: seq<string>, ask: (string, string, Filter) -> seq<Payload>, root: string,
                              llm: string -> string, phi4: (string, string, string) -> string)
    requires topics != [] && topics != ["general"]
    requires forall k :: 0 <= k < |topics| ==> topics[k] !in existing
    ensures SlmReply(history, query, topics, true, existing, ask, root, llm, phi4) ==
            ExtractThinkResponse(Strip(llm(phi4(GeneralKnowledgeRequest, FormatHistory(history), query))))
  {
    UnknownTopicsSentinel(topics, query, true, existing, ask, root);
  }

  /** As written, the general-knowledge prompt is never the one sent: the
      branch that would send it needs `no_information_found` with the
      fallback on. */
  lemma GeneralBranchUnreachable(topics: seq<string>, query: string, useGeneral: bool, existing: seq<string>,
                                 ask: (string, string, Filter) -> seq<Payload>, root: string)
    ensures !(useGeneral && RetrieveChunks(topics, query, useGeneral, existing, ask, root) == NoInformationFound)
  {
    SentinelFollowsFlag(topics, query, useGeneral, existing, ask, root);
  }

  /** The reply as the documentation of `run_slm_query` describes it: when
      retrieval yields either sentinel, the fallback decides between the
      apology and a general-knowledge answer. */
  function SlmReplyIntended(history: seq<Message>, query: string, topics: seq<string>, useGeneral: bool,
                            existing: seq<string>, ask: (string, string, Filter) -> seq<Payload>, root: string,
                            llm: string -> string, phi4: (string, string, string) -> string): (r: (string, string))
    ensures topics == [] ==> r == ("", NoTopicsError)
  {
    if topics == [] then ("", NoTopicsError)
    else
      var context := RetrieveChunks(topics, query, useGeneral, existing, ask, root);
      if context == NoInformationFound || context == GeneralKnowledgeRequest then
        if !useGeneral then ("", NoMatchApology)
        else ("", Strip(llm(GeneralSlmPrompt(FormatHistory(history), query))))
      else ExtractThinkResponse(Strip(llm(phi4(context, FormatHistory(history), query))))
  }

  /** With the corrected dispatch, nothing found with the fallback on gives a
      general-knowledge answer and with it off the apology; whenever
      something was found, both versions agree. */
  lemma IntendedFallback(history: seq<Message>, query: string, topics: seq<string>, useGeneral: bool,
                         existing: seq<string>, ask: (string, string, Filter) -> seq<Payload>, root: string,
                         llm: string -> string, phi4: (string, string, string) -> string)
    requires topics != []
    ensures var context := RetrieveChunks(topics, query, useGeneral, existing, ask, root);
            var r := SlmReplyIntended(history, query, topics, useGeneral, existing, ask, root, llm, phi4);
            if context == SentinelText(useGeneral) then
              r == if useGeneral then ("", Strip(llm(GeneralSlmPrompt(FormatHistory(history), query))))
                   else ("", NoMatchApology)
            else r == SlmReply(history, query, topics, useGeneral, existing, ask, root, llm, phi4)
  {
    SentinelFollowsFlag(topics, query, useGeneral, existing, ask, root);
  }
}

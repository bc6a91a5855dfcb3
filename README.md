# GnG RAG Playground: a verified model of its core

The GnG RAG Playground is a retrieval-augmented question-answering web
application. Users create *topics*, which are indexes in a vector store. They
upload documents and images into a topic and embed them as chunks. They then
ask questions, and the answers come from the chunks retrieved for the chosen
topics, or from general knowledge when the fallback allows it. This project
models the core of that system in Dafny and proves properties of the model:

- **Chunking and extraction** (`helpers.py`): `chunk_text` with its
  overlap correction and window arithmetic, and the extension dispatch of
  `extract_text`. Module `Helpers`, with the shared string helpers in `Text`
  and `Seqs`.
- **Vector stores** (`pinecone_utils.py`, `qdrant_utils.py`): both managers
  are classes whose fields are the store's state (index names, records per
  index, the table-of-contents catalog, topic directories). Each method
  states the new state. Modules `PineconeUtils` and `QdrantUtils`, with the
  shared record and query model in `VectorStore`. A vector query is
  modelled as "the first `top_k` records, in a ranking supplied by the
  caller, that pass the filter".
- **Citations** (`Citation`): the path normalisation, the
  `urllib.parse.quote` encoding and the Markdown source link that every
  retrieval path builds.
- **The three pipelines**:
  - `rag_kernel.py` (module `RagKernel`): the topic list parser and
    `literal_eval` (module `TopicList`), `retrieve_context_chunks`,
    `answer_query` and `run_query_pipeline`.
  - `rag_slm.py` (module `RagSlm`): `retrieve_chunks`, the
    `<think>`/`<response>` extraction and `run_slm_query`.
  - `rag_chain.py` (module `RagChain`): `retrieve_chunks` and
    `run_langchain_query`.
  - Shared by all three: the sentinels of the general-knowledge fallback
    (`Fallback`) and the conversation histories (`Conversation`; a class
    whose method appends and clears).
- **The Flask routes** (`app.py`, module `App`): the name check of
  `create_index`, and the loops of `embed_files`, `unembed_files`,
  `delete_files` and `list_uploaded_files`. Each route returns its reply
  together with the store calls it makes, in order.
- **The two pages' scripts**:
  - `static/js/index.js` (module `IndexPage`): `escapeHtml`, the guards and
    topic normalisation of `sendQuery`, and the topic list.
  - `static/js/manage_topics.js` (module `ManageTopicsPage`): the topic-name
    rule, the topic drop-down and the checks of `uploadDocument`.

The language models, the planner, the embedding model, the document readers,
the clock and the file system are not modelled. They enter as parameters:
functions from a prompt to an answer, from a path to a text, and so on.

Some behaviour of the system shows up only when the modules are put side by
side:

- The client-side topic filter removes `table_of_contents`, which is the
  Qdrant catalog's name. The Pinecone manager that `app.py` uses names its
  catalog `table-of-contents` and already leaves it out of `list_indexes`.
- `uploadDocument` insists on a description for images. `upload_document`
  in `app.py` never reads it: `embed_files` later asks the vision model for
  a description instead.
- The page sends topic names that the server refuses. `"123"` matches
  `^[a-z0-9-]+$`, but `"123".islower()` is false, so `create_index`
  answers 400 (`ManageTopicsPage.DigitNamePassesPage`).
- The two sides test for an image differently. The page lower-cases the
  extension before comparing it, and `upload_document` compares it as
  written, so `a.PNG` asks for a description yet is stored as a document
  (`ManageTopicsPage.UpperCaseImageExtension`).

## Model

| member | source | states |
|---|---|---|
| Helpers.StepSize | helpers.py:108-110 | the step between chunk starts is at least 1, and no larger than a positive chunk size when the overlap is non-negative |
| Helpers.ChunksFromCount | helpers.py:111 | the comprehension from start `s` yields ceil((N - s) / step) chunks for N tokens, none when `s` is past the end |
| Helpers.ChunksFromAt | helpers.py:111 | chunk k starts at token `s + k*step`, inside the tokens, and is the space-join of the slice of `chunk_size` tokens there |
| Helpers.ChunkText | helpers.py:106-112 | `chunk_text`: windows of `chunk_size` whitespace tokens starting every corrected step; its count is proved in `ChunkCount`, each chunk's contents in `ChunkWindow`, and that every token lies in a chunk in `Coverage` |
| Helpers.ChunkCount | helpers.py:106-112 | `chunk_text` of N whitespace tokens has exactly ceil(N / step) chunks, and none for blank text |
| Helpers.Window | helpers.py:111 | the window is the run of tokens from its start, `chunk_size` long unless the text ends first |
| Helpers.ChunksFromWindow | helpers.py:111 | chunk k of the whole text is the space-join of the window at `k*step` |
| Helpers.ChunkWindow | helpers.py:106-112 | chunk k of `chunk_text` starts inside the tokens and is the space-join of the window `tokens[k*step : k*step + chunk_size]` |
| Helpers.WindowOf | helpers.py:111 | for a step no larger than the chunk size, token j lies in the window of chunk j / step |
| Helpers.Coverage | helpers.py:106-112 | with a positive chunk size and a non-negative overlap, every token of the text lies in the window of some chunk: no text is lost |
| Helpers.OverlapCorrection | helpers.py:108-110 | an overlap at least as large as the chunk size is replaced by `chunk_size // 2`; chunk size 10 with overlap 10 steps by 5 |
| Helpers.ZeroChunkSize | helpers.py:106-112 | a chunk size of 0 gives one empty chunk per token |
| Helpers.ZeroChunksFrom | helpers.py:111 | with step 1 and size 0 the comprehension yields one empty string per remaining token |
| Helpers.FormatOf | helpers.py:20-36 | no reader is chosen exactly when no document extension ends the lower-cased path |
| Helpers.ExtractText | helpers.py:20-37 | `ValueError` exactly for an unsupported extension; a reader failure exactly when a reader is chosen and fails; otherwise the chunks of the text with the default overlap of 250 |
| Text.WordLength | helpers.py:107 | the leading run of non-whitespace ends at the first whitespace character or at the end |
| Text.Split | helpers.py:107 | `str.split()` yields non-empty words without whitespace |
| Text.SplitJoin | helpers.py:107 | splitting words joined by single spaces gives back the words |
| Text.WordIsWhole | helpers.py:107 | a word followed by whitespace or nothing is split off whole |
| Text.TrimStart | rag_slm.py:119-120 | `lstrip` yields a suffix that starts with a non-space character, or nothing, and everything it dropped is whitespace |
| Text.TrimEnd | rag_slm.py:119-120 | `rstrip` yields a prefix that ends with a non-space character, or nothing, and everything it dropped is whitespace |
| Text.StripUnchanged | rag_slm.py:119-120 | `strip()` leaves a string alone that neither starts nor ends with whitespace |
| Text.ReplaceChar | rag_kernel.py:138 | `replace` of one character keeps the length and changes exactly the occurrences of that character |
| Text.Lower | helpers.py:21 | `lower()` maps every character through the letter case map, keeping the length |
| Text.AfterLast | app.py:216 | `split(c)[-1]` holds no `c` and is no longer than the text |
| Text.AfterLastSuffix | app.py:216 | `split(c)[-1]` is a suffix of the text, preceded by a `c` when it is not the whole text |
| Text.AfterLastOf | app.py:216 | whatever precedes the last `c`, `split(c)[-1]` is what follows it |
| Text.NatToString | app.py:250 | `f"{n}"` is a non-empty run of decimal digits, one digit exactly when n < 10 |
| Text.NatToStringInjective | app.py:250 | different totals are reported as different texts |
| Text.NatToStringValue | app.py:250 | `f"{n}"` reads back as `n` in decimal and has no leading zero from 10 on |
| Seqs.Without | pinecone_utils.py:40 | the list comprehension drops every occurrence of the name, and only those, keeping every other element in order; also `replace("\n", "")` at rag_slm.py:93 |
| Seqs.WithoutKeepsDistinct | pinecone_utils.py:40 | dropping a name keeps a list of index names free of repetitions |
| VectorStore.Get | rag_kernel.py:136-137 | `dict.get(key, default)`: the stored value when the key is present, the default otherwise |
| VectorStore.Search | pinecone_utils.py:144-155 | a query returns at most `top_k` records, each passing the filter, in ranking order (without repeats when the ranking has none); fewer than `top_k` only when every passing ranked record is returned |
| VectorStore.SubsequenceMembers | pinecone_utils.py:155 | every record returned is a record of the index |
| VectorStore.PayloadsOf | pinecone_utils.py:155 | one metadata dictionary per match, in match order |
| VectorStore.SearchIsHonest | pinecone_utils.py:144-155 | the metadata returned is an honest answer: at most `top_k` records, each passing the filter |
| VectorStore.SearchFindsAny | pinecone_utils.py:113-122 | with a ranking of all records, a query finds something exactly when some record passes the filter |
| VectorStore.Embedding | pinecone_utils.py:25-29 | blank text (after `strip()`) gets the zero vector of length 384; other text gets the encoding of the stripped text |
| VectorStore.ChunkMetadata | pinecone_utils.py:132-137 | the metadata of a chunk holds its content, source, file path and type |
| Fallback.SentinelText | rag_slm.py:59 | the sentinel is "No relevant context found" exactly when the fallback is on, and "no_information_found" exactly when it is off |
| Citation.Utf8 | rag_kernel.py:144 | a character encodes to one to four bytes; ASCII characters to themselves alone |
| Citation.Utf8RoundTrip | rag_kernel.py:144 | the UTF-8 bytes decode back to the character, with a lead byte that announces their number and continuation bytes in 0x80..0xBF |
| Citation.HexDigit | rag_kernel.py:144 | a hexadecimal digit is itself a safe character and not '/' |
| Citation.PercentBytes | rag_kernel.py:144 | each byte becomes three characters `%XX`, with no '/' among them |
| Citation.Quote | rag_kernel.py:144 | `quote(s)` with `safe='/'`, character by character; stated in `QuoteAlphabet`, `QuoteSafeIdentity` and `QuoteKeepsSlashes` |
| Citation.QuoteChar | rag_kernel.py:144 | `quote` keeps a safe character and percent-encodes any other; its output holds a '/' exactly when the input character is '/' |
| Citation.QuoteAlphabet | rag_kernel.py:144 | the encoded path consists only of unreserved characters, '/' and '%' |
| Citation.QuoteSafeIdentity | rag_kernel.py:144 | a path made of safe characters is left as it is |
| Citation.QuoteKeepsSlashes | rag_kernel.py:144 | '/' separators survive encoding one for one |
| Citation.Normalise | rag_kernel.py:138 | replacing backslashes keeps the length and leaves no backslash |
| Citation.NormaliseIdentity | rag_kernel.py:138 | a path without backslashes is unchanged |
| Citation.RelativePath | rag_kernel.py:140-143 | one leading `UPLOAD_FOLDER + "/"` is removed when present, and the path is kept otherwise |
| Citation.UrlPath | rag_kernel.py:140-144 | `/UPLOAD_FOLDER/` followed by the quoted relative path; stated in `LinkShape` |
| Citation.MarkdownLink | rag_kernel.py:138-146 | `[basename](url)`; stated in `LinkShape` |
| Citation.LinkShape | rag_kernel.py:138-146 | the link text is the last path component (no separator in it); the URL starts with `/UPLOAD_FOLDER/` and is followed by the quoted relative path |
| Conversation.ChatLog.constructor | rag_slm.py:28 | a new history is empty |
| Conversation.ChatLog.Add | rag_slm.py:133 | appending adds the message at the end and changes nothing else |
| Conversation.ChatLog.Clear | rag_slm.py:30-35 | clearing empties the history |
| Conversation.ChatLog.History | rag_slm.py:37-42 | the history returned is the messages in order |
| Conversation.JoinAppend | rag_slm.py:49 | joining one more line adds the separator and the line at the end |
| Conversation.FormatHistory | rag_slm.py:44-49 | one "Role: content" line per message, joined by line breaks; `FormatHistoryAppend` states how it grows |
| Conversation.Transcript | rag_kernel.py:265-267 | one "role: content" line per message, joined by line breaks; `FormatHistoryAppend` states how it grows |
| Conversation.FormatHistoryAppend | rag_slm.py:44-49 | after one more message, `format_history()` and the kernel's history text each gain exactly that message's line at the end |
| Conversation.Turn | rag_slm.py:133-173 | a query turn is the user's message followed by the assistant's answer |
| Conversation.TurnKeepsAlternation | rag_chain.py:124-158 | every query turn keeps the history alternating between user and assistant, starting with the user |
| TopicList.Scan | rag_kernel.py:106 | the scanner matches a prefix of the text whose items hold no quote, with at least one item once an item has begun |
| TopicList.ListAt | rag_kernel.py:106 | a match starts with `[`, lies within the text, and its items hold no quote |
| TopicList.FindFrom | rag_kernel.py:105-107 | `re.search` finds the leftmost position where the pattern matches, and none exactly when it matches nowhere |
| TopicList.FindValidList | rag_kernel.py:105-107 | `find_valid_list` yields a match that starts with `[`, and `None` exactly when no position matches |
| TopicList.EvalScan | rag_chain.py:137 | the parser's reading of a list display ends at a `]` within the text, and an item once begun yields at least one item |
| TopicList.StripSpaceTab | rag_chain.py:137 | `lstrip(" \t")`: a suffix of the text whose first character is neither a space nor a tab, only spaces and tabs removed |
| TopicList.ParseList | rag_chain.py:137 | a successful parse yields clean items: no backslash, line end or NUL character |
| TopicList.LiteralEval | rag_kernel.py:113-116 | `literal_eval` strips leading spaces and tabs and parses the rest; its items are clean |
| TopicList.ScanAsEval | rag_kernel.py:106-114 | where the pattern's scanner reads a list with the tokenizer's whitespace, `literal_eval`'s parser reads the same list |
| TopicList.EvalScanPadded | rag_chain.py:137 | whitespace appended to the text changes no reading of a list display |
| TopicList.StripLeading | rag_chain.py:137 | leading spaces and tabs are stripped exactly |
| TopicList.ParseAppendBlank | rag_chain.py:137 | whitespace or line ends after a list leave its parse unchanged |
| TopicList.EvalPadding | rag_chain.py:137 | spaces and tabs before a list, and whitespace or line ends after it, leave `literal_eval`'s result unchanged |
| TopicList.EvalCharJoins | rag_chain.py:137 | a character other than the item's quote joins the item |
| TopicList.EvalItemRun | rag_chain.py:137 | a run without the item's quote is read into that item |
| TopicList.EvalItemStep | rag_chain.py:137 | the first character of a run joins the item the rest of the run starts |
| TopicList.EvalClose | rag_chain.py:137 | the closing quote and `]`, with or without a comma between them, close the item and the list |
| TopicList.EvalFirstItem | rag_chain.py:137 | a quote of either kind after the `[` opens the first item |
| TopicList.EvalWhole | rag_chain.py:137 | a list display that ends the text, with clean items, is `literal_eval`'s result |
| TopicList.OneItemReads | rag_chain.py:137 | `['a']`, `["a"]`, `['a',]` and `["a",]` all read back as the one item `a` |
| TopicList.EvalBracketed | rag_chain.py:137 | `[` and a quote of either kind, then an item read to the end, evaluates to the items read |
| TopicList.OneItemList | rag_chain.py:137 | the same with spaces or tabs before and whitespace or line ends after |
| TopicList.HexDigits | rag_kernel.py:292 | the hexadecimal escape of `repr` has the requested width |
| TopicList.ReprBodyPlain | rag_kernel.py:292 | `repr` of a plain name writes the name itself between the quotes |
| TopicList.RenderTail | rag_kernel.py:292 | `str(list)` is `[` followed by the quoted items joined by `, ` and `]` |
| TopicList.QuoteFreeRun | rag_kernel.py:106 | a run without quotes inside an item is read into that item |
| TopicList.ClosingTail | rag_kernel.py:106 | `']` closes the last item and the list |
| TopicList.SeparatorTail | rag_kernel.py:106 | `', '` closes an item and opens the next |
| TopicList.ScanLastItem | rag_kernel.py:106 | the last item's body, its quote and the bracket scan to that one item |
| TopicList.ScanItemThen | rag_kernel.py:106 | an item followed by a separator and the rest scans to the item followed by the rest's items |
| TopicList.TailScan | rag_kernel.py:106 | the rendered items scan back to the same items, covering the whole text |
| TopicList.RenderScans | rag_kernel.py:106 | `str(list)` of plain names matches the pattern as a whole, with the same items |
| TopicList.EmptyListAt | rag_kernel.py:106 | `[]` matches with no items |
| TopicList.ListAtOf | rag_kernel.py:106 | a `[` directly followed by an item's quote matches as the scan from there does |
| TopicList.RenderRoundTrip | rag_kernel.py:109-114 | rendering plain names with `str()` and reading them back with `find_valid_list` and `literal_eval` gives the same names |
| TopicList.WholeMatchFound | rag_kernel.py:105-107 | a text the pattern matches as a whole is what `find_valid_list` returns |
| TopicList.MatchEvaluates | rag_kernel.py:106-114 | a text the pattern's scanner reads whole, with clean items, evaluates to the same items |
| TopicList.EmptyListEval | rag_kernel.py:113-114 | `literal_eval("[]")` is the empty list |
| TopicList.NoListExample | rag_kernel.py:109-111 | text without a bracket holds no list |
| TopicList.EscapeExample | rag_kernel.py:113-116 | an item with an escape sequence is not read as a plain list |
| RagKernel.Sentinel | rag_kernel.py:111 | the general-knowledge sentinel exactly when the flag lower-cases to "true", the no-information one otherwise |
| RagKernel.EncodeDispatch | rag_kernel.py:157-174 | `answer_query` sees "no_information_found" exactly for that sentinel and "No relevant context found" exactly for the other, never for found context |
| RagKernel.PyBoolFlag | rag_kernel.py:293 | `str(use_general_knowledge)` lower-cases to "true" exactly when the flag is on |
| RagKernel.DetermineRelevantTopics | rag_kernel.py:56-90 | a failing `literal_eval` fails the step; a non-empty list comes back as `str(list)` without the selector (`ExplicitTopicsKept`), and an empty one hands the choice to the selector (`EmptyTopicsSelect`) |
| RagKernel.ExplicitTopicsKept | rag_kernel.py:63-65 | a non-empty list given by the user comes back unchanged and the selector is not consulted |
| RagKernel.EmptyTopicsSelect | rag_kernel.py:63-90 | an empty list hands the choice to the selector |
| RagKernel.DropGeneral | rag_kernel.py:122 | the filter keeps exactly the topics whose lower-cased name is not "general" |
| RagKernel.DropGeneralNone | rag_kernel.py:121-124 | a list without a "general" entry is kept whole |
| RagKernel.AddRecord | rag_kernel.py:135-152 | one record adds one entry and one link, and an image path exactly when its type is "image" |
| RagKernel.AddRecordBalanced | rag_kernel.py:148-152 | after one record, there is still one entry and one link per record, each entry ending with its own source line |
| RagKernel.AddRecords | rag_kernel.py:135-152 | the records of a topic add one entry and one link each, and at most one image path each |
| RagKernel.AddRecordsBalanced | rag_kernel.py:135-152 | entries and links stay paired after any number of records |
| RagKernel.GatherBalanced | rag_kernel.py:131-152 | whatever the topics, there is one entry and one link per record, each entry ending with its link |
| RagKernel.Known | rag_kernel.py:131-133 | the topics kept are exactly those the manager lists |
| RagKernel.GatherSkipsUnknown | rag_kernel.py:131-133 | unknown topics are skipped without a trace |
| RagKernel.GatherBound | rag_kernel.py:134 | with honest queries, there are at most 5 entries per topic, and no more image paths than entries |
| RagKernel.RetrieveContext | rag_kernel.py:94-157 | with the flag off the result is never the general-knowledge sentinel; found context has at least one entry, paired with its links |
| RagKernel.RetrieveContextChunks | rag_kernel.py:94-157 | the imperative `retrieve_context_chunks` computes `RetrieveContext` |
| RagKernel.CollectTopics | rag_kernel.py:131-152 | the loop over topics builds the lists of `Gather` |
| RagKernel.CollectRecords | rag_kernel.py:135-152 | the loop over one topic's records builds the lists of `AddRecords` |
| RagKernel.GeneralListSentinel | rag_kernel.py:118-119 | `['general']` gets the flag's sentinel before any topic is searched |
| RagKernel.ExplicitListRetrieval | rag_kernel.py:121-155 | a list without "general" is searched topic by topic whatever the flag; when none of its topics exists the flag's sentinel comes back |
| RagKernel.ExistingImages | rag_kernel.py:195-201 | exactly the image paths that exist on disk are attached: a subsequence of the retrieved paths, in their order, keeping every path that exists as often as it occurs |
| RagKernel.AnswerQuery | rag_kernel.py:161-249 | the apology for `no_information_found`, the general prompt for the other sentinel, and otherwise the stripped answer of the vision model when some image exists on disk, or of the chat model; stated in `EncodeDispatch`, `AnswerIgnoresGeneralPrompt`, `FlagOffIgnoresGeneralPrompt` and `FlagOffUnknownTopicsApology` |
| RagKernel.AnswerIgnoresGeneralPrompt | rag_kernel.py:167-183 | anything other than the general-knowledge sentinel is answered without the general-knowledge prompt |
| RagKernel.PromptsDiffer | rag_kernel.py:175-222 | the context prompt is never the general-knowledge prompt |
| RagKernel.FlagOffIgnoresGeneralPrompt | rag_kernel.py:111-183 | with the fallback off, the answer never comes from the general-knowledge prompt, whatever the topic list says |
| RagKernel.FlagOffUnknownTopicsApology | rag_kernel.py:121-172 | with the fallback off, a list none of whose topics exists is answered with the apology |
| RagKernel.RunQueryPipeline | rag_kernel.py:264-296 | the plan gets the prior history and the query, `str(topics)` and `str(flag)`; the history then gains the query and the plan's answer |
| RagSlm.DescriptionLine | rag_slm.py:93 | an image description holds no line break |
| RagSlm.ImageEntryLastLine | rag_slm.py:92-99 | the last line of an image entry is `Description: ` followed by the stored description without line breaks |
| RagSlm.HitsStep | rag_slm.py:64-90 | one more topic adds its query results if the manager lists it, and nothing otherwise |
| RagSlm.HitsOfUnknown | rag_slm.py:64-66 | unknown topics contribute nothing |
| RagSlm.HitsBound | rag_slm.py:69-90 | with honest queries, at most 5 records per topic, each of the requested type |
| RagSlm.TextEntries | rag_slm.py:76-82 | one text entry per text record |
| RagSlm.TextEntriesStep | rag_slm.py:76-82 | one more text record adds its entry at the end |
| RagSlm.ImageEntries | rag_slm.py:92-99 | one image entry per image record |
| RagSlm.ImageEntriesStep | rag_slm.py:92-99 | one more image record adds its entry at the end |
| RagSlm.Format | rag_slm.py:105-108 | the context is the text header and the text entries joined by blank lines, and nothing more when there are no image entries; otherwise it ends with the image header and the joined image entries, and holds nothing else |
| RagSlm.FormatNotSentinel | rag_slm.py:101-108 | a formatted context is never either sentinel |
| RagSlm.RetrieveChunks | rag_slm.py:58-59 | `['general']` gets the flag's sentinel; when the sentinel comes back otherwise is stated in `SentinelIffNothingFound` |
| RagSlm.SentinelIffNothingFound | rag_slm.py:58-102 | retrieval returns the flag's sentinel exactly when the topics are `['general']` or the listed topics that exist returned neither a text record nor an image record |
| RagSlm.SentinelFollowsFlag | rag_slm.py:52-108 | with the fallback on, retrieval never returns "no_information_found"; with it off, never "No relevant context found" |
| RagSlm.UnknownTopicsSentinel | rag_slm.py:64-102 | when no topic exists, the result is the flag's sentinel |
| RagSlm.RetrieveChunksLoop | rag_slm.py:52-108 | the imperative `retrieve_chunks` computes `RetrieveChunks` |
| RagSlm.CollectChunks | rag_slm.py:64-99 | the loop over topics builds the text entries of all text hits and the image entries of all image hits |
| RagSlm.AppendTexts | rag_slm.py:76-82 | the loop over one topic's text records appends their entries |
| RagSlm.AppendImages | rag_slm.py:92-99 | the loop over one topic's image records appends their entries |
| RagSlm.TagAt | rag_slm.py:117-118 | a tag found at a position fits in the text there |
| RagSlm.SpaceRun | rag_slm.py:117 | `\s*` consumes exactly the leading whitespace |
| RagSlm.FindTag | rag_slm.py:117-118 | a position found is at or after the start and has the tag, in any letter case |
| RagSlm.FindTagLeftmost | rag_slm.py:117-118 | the opening tag found is the leftmost one, and none is found only when no position has it |
| RagSlm.FindClose | rag_slm.py:117-118 | a position found is where `\s*</tag>` matches |
| RagSlm.FindCloseLeftmost | rag_slm.py:117-118 | the lazy `(.*?)` ends at the leftmost match of `\s*</tag>`, and none is found only when it matches nowhere |
| RagSlm.Section | rag_slm.py:117-118 | a found group neither starts nor ends with whitespace |
| RagSlm.GroupTrimmed | rag_slm.py:117-118 | a group starting after the whitespace run and ending at the leftmost closing match has no outer whitespace |
| RagSlm.ClosesAfterSpace | rag_slm.py:117-118 | whitespace before a closing match extends the match |
| RagSlm.ExtractThinkResponse | rag_slm.py:111-121 | the stripped think group, or "" without the tag, and the stripped response group, or the whole stripped text without the tag; stated in `MissingTags`, `SectionsUnstripped`, `FindTagLeftmost` and `FindCloseLeftmost` |
| RagSlm.MissingTags | rag_slm.py:119-120 | without a `<think>` tag the think part is empty; without a `<response>` tag the response is the stripped text |
| RagSlm.SectionsUnstripped | rag_slm.py:119-120 | found sections come out exactly as the regular expression's group |
| RagSlm.SectionUnstripped | rag_slm.py:119-120 | `strip()` leaves a found section as it is |
| RagSlm.SlmReply | rag_slm.py:135-138 | no topics give the error reply with an empty think part |
| RagSlm.RunSlmQuery | rag_slm.py:124-173 | the query is appended first, then exactly one reply, which is the one returned |
| RagSlm.SlmAnswer | rag_slm.py:135-173 | the branches between the two history updates compute `SlmReply` |
| RagSlm.FallbackSendsSentinel | rag_slm.py:140-170 | as written, with the fallback on, topics that find nothing send the sentinel text to the model as context |
| RagSlm.GeneralBranchUnreachable | rag_slm.py:142-159 | as written, the general-knowledge branch can never be taken |
| RagSlm.SlmReplyIntended | rag_slm.py:135-138 | in the corrected dispatch too, no topics give the error reply |
| RagSlm.IntendedFallback | rag_slm.py:142-159 | corrected: nothing found gives a general-knowledge answer with the fallback on and the apology with it off; found context is answered as before |
| RagChain.HitsStep | rag_chain.py:80-84 | one more topic adds its query results if the manager lists it, and nothing otherwise |
| RagChain.HitsOfUnknown | rag_chain.py:80-82 | unknown topics contribute nothing |
| RagChain.HitsBound | rag_chain.py:84 | with honest queries, at most 5 records per topic |
| RagChain.TextsOf | rag_chain.py:94-97 | at most one text entry per record |
| RagChain.ImagesOf | rag_chain.py:94-95 | at most one image entry per record |
| RagChain.EntriesPartition | rag_chain.py:94-97 | every record gives exactly one entry, either an image entry or a text entry |
| RagChain.EntriesStep | rag_chain.py:85-97 | one more record adds its entry to the image list if its type is "image", and to the text list otherwise |
| RagChain.RetrieveChunks | rag_chain.py:74-75 | `['general']` gets the flag's sentinel |
| RagChain.JoinStartsWithFirst | rag_chain.py:102 | a joined list starts with its first part |
| RagChain.JoinNotSentinel | rag_chain.py:102 | a join whose first part has a line break or starts with `!` is neither sentinel |
| RagChain.Context | rag_chain.py:102 | the text entries, then the image entries, joined by blank lines; stated in `ContextNotSentinel`, `TextsHaveBreak` and `ImagesStartWithBang` |
| RagChain.ContextNotSentinel | rag_chain.py:99-102 | context built from at least one record is never either sentinel |
| RagChain.TextsHaveBreak | rag_chain.py:97 | every text entry holds a line break |
| RagChain.ImagesStartWithBang | rag_chain.py:95 | every image entry starts with `!` |
| RagChain.SentinelIffNothingFound | rag_chain.py:73-102 | retrieval returns the flag's sentinel exactly when the topics are `['general']` or no listed topic returned a record |
| RagChain.UnknownTopicsSentinel | rag_chain.py:80-100 | when no topic exists, the result is the flag's sentinel |
| RagChain.RetrieveChunksLoop | rag_chain.py:73-102 | the imperative `retrieve_chunks` computes `RetrieveChunks` |
| RagChain.CollectChunks | rag_chain.py:80-97 | the loop over topics builds the text and image entries of all hits |
| RagChain.AppendEntries | rag_chain.py:85-97 | the loop over one topic's records sorts each into its list |
| RagChain.ChosenTopics | rag_chain.py:126-139 | the caller's topics when there are any; otherwise `['general']` with the fallback on; otherwise the selector's whole answer read by `literal_eval` (leading spaces and tabs stripped, either quote character, a trailing comma and trailing whitespace accepted; see `SelectorOneTopic`), or `['general']` when it does not evaluate |
| RagChain.RouteOf | rag_chain.py:141-155 | the apology exactly for `['general']` with the fallback off, a general answer exactly for `['general']` with it on, retrieval from the topics otherwise |
| RagChain.FallbackOnReplies | rag_chain.py:126-148 | with the fallback on, the selector is never consulted, and no topics or `['general']` give a general-knowledge answer |
| RagChain.SelectorOneTopic | rag_chain.py:129-152 | with the fallback off and no topics, a selector answer holding one topic other than "general", in either quote character, with or without a trailing comma, with spaces or tabs before and whitespace or line ends after, is retrieved from as that one topic |
| RagChain.SelectorOutcome | rag_chain.py:129-155 | with the fallback off and no topics, a selector answer that does not evaluate, or evaluates to `['general']`, gives the apology; any other list is retrieved from |
| RagChain.ExplicitTopicsUsed | rag_chain.py:150-155 | topics given by the caller are used as they are, and the reply depends only on what is retrieved for them |
| RagChain.RunLangchainQuery | rag_chain.py:123-158 | the query is appended first, then exactly one reply, which is the one returned |
| RagChain.ChainReply | rag_chain.py:126-152 | the assistant message of `run_langchain_query`; its routes are stated in `RouteOf`, `FallbackOnReplies`, `SelectorOutcome` and `ExplicitTopicsUsed` |
| RagChain.ChainAnswer | rag_chain.py:126-155 | the branches between the two history updates compute `ChainReply` |
| PineconeUtils.VectorId | pinecone_utils.py:130 | `f"{src_doc}-{embed_type}-{i}"`; distinct for distinct chunks by `VectorIdInjective` |
| PineconeUtils.VectorIdInjective | pinecone_utils.py:130 | the chunks of one document get different ids |
| PineconeUtils.BuildBatch | pinecone_utils.py:128-140 | one record per chunk, under the id `{src}-{type}-{i}`, with that chunk's metadata |
| PineconeUtils.RemoveIds | pinecone_utils.py:106 | deleting ids removes exactly those and keeps every other record unchanged |
| PineconeUtils.DeleteOnlySource | pinecone_utils.py:96-106 | deleting by source removes at most 1000 records, all of that source; with no record of the source nothing changes |
| PineconeUtils.DeleteAllWhenFew | pinecone_utils.py:96-106 | with no more than 1000 records of the source, all of them are deleted |
| PineconeUtils.PineconeManager.constructor | pinecone_utils.py:17-37 | the service's indexes, their records, the catalog and the upload directories are kept; only a missing catalog index is created, empty |
| PineconeUtils.PineconeManager.ListIndexes | pinecone_utils.py:39-40 | the service's names in order, without the catalog |
| PineconeUtils.PineconeManager.CreateIndex | pinecone_utils.py:42-49 | an existing name is refused and nothing changes; otherwise the index is added, empty, with its directory |
| PineconeUtils.PineconeManager.DeleteIndex | pinecone_utils.py:51-55 | a missing index is refused; otherwise the index, its directory and its catalog record go |
| PineconeUtils.PineconeManager.UpsertMetadata | pinecone_utils.py:66-74 | the topic's catalog record is written or overwritten, nothing else changes |
| PineconeUtils.PineconeManager.GetIndexDescription | pinecone_utils.py:76-82 | the catalog description, or "No description available." |
| PineconeUtils.PineconeManager.GetDescriptions | pinecone_utils.py:84-94 | one entry per listed topic, each its description or the sentinel |
| PineconeUtils.PineconeManager.DeleteVectorsBySource | pinecone_utils.py:96-106 | a missing index raises; otherwise the first 1000 records of the source in ranking order are deleted |
| PineconeUtils.PineconeManager.IsEmbedded | pinecone_utils.py:108-125 | a missing index raises before the `try`; otherwise the answer is whether some record has that source |
| PineconeUtils.PineconeManager.UpsertVectors | pinecone_utils.py:127-142 | one record per chunk under its id, overwriting records with the same id, all other records unchanged |
| PineconeUtils.PineconeManager.QueryAtIndex | pinecone_utils.py:144-155 | a missing index raises; otherwise the metadata of the index's own records that the ranking returns first among those passing the filter, in ranking order and at most `top_k` of them (the properties of `Search`), and every passing record when fewer than `top_k` come back |
| QdrantUtils.ToQdrantFilter | qdrant_utils.py:147-154 | an empty filter means no filter; otherwise one condition per key with its `$eq` value |
| QdrantUtils.FilterTranslation | qdrant_utils.py:145-162 | the translated filter selects exactly the payloads the `$eq` filter describes |
| QdrantUtils.CatalogEntry | qdrant_utils.py:73-80 | a catalog point carries the topic's name and its description |
| QdrantUtils.RemoveMatching | qdrant_utils.py:105-111 | a filtered delete removes exactly the passing points and keeps the others unchanged |
| QdrantUtils.FreshAbove | qdrant_utils.py:73 | an id above every point id in use, standing for `uuid4()` never colliding with a stored point |
| QdrantUtils.QdrantManager.constructor | qdrant_utils.py:17-35 | the service's collections, their points and the upload directories are kept; only a missing catalog collection is created, empty |
| QdrantUtils.QdrantManager.ListIndexes | qdrant_utils.py:37-41 | the collections in order, without the catalog |
| QdrantUtils.QdrantManager.CreateIndex | qdrant_utils.py:43-49 | nothing happens for an existing collection; otherwise the collection, empty, and its directory |
| QdrantUtils.QdrantManager.DeleteIndex | qdrant_utils.py:51-60 | the collection if it exists, the directory, and every catalog point of the topic, so its description reads as the sentinel |
| QdrantUtils.QdrantManager.UpsertMetadata | qdrant_utils.py:68-82 | a new catalog point under a fresh id on every call, earlier ones staying |
| QdrantUtils.QdrantManager.GetIndexDescription | qdrant_utils.py:84-96 | the description of the first catalog point of the topic, or the sentinel when there is none |
| QdrantUtils.QdrantManager.GetDescriptions | qdrant_utils.py:98-103 | one entry per listed topic, each what `get_index_description` may answer |
| QdrantUtils.QdrantManager.DeleteVectorsBySource | qdrant_utils.py:105-111 | a missing collection raises; otherwise every point of the source goes, with no cap |
| QdrantUtils.QdrantManager.IsEmbedded | qdrant_utils.py:113-126 | a missing collection reads as `False`; otherwise whether some point has that source |
| QdrantUtils.QdrantManager.UpsertVectors | qdrant_utils.py:128-143 | new points under fresh ids, one per chunk, disjoint from the stored ones |
| QdrantUtils.QdrantManager.QueryAtIndex | qdrant_utils.py:145-162 | a missing collection raises; otherwise the payloads of the collection's own points that the ranking returns first among those passing the translated filter, in ranking order and at most `top_k` of them (the properties of `Search`) |
| QdrantUtils.BuildBatch | qdrant_utils.py:129-142 | the loop builds one point per chunk from the given id on |
| QdrantUtils.Range | qdrant_utils.py:133 | n fresh ids from the given base |
| QdrantUtils.Batch | qdrant_utils.py:128-142 | the points of the batch are exactly the ids from the base, each with its chunk's metadata |
| QdrantUtils.ReembedDuplicates | qdrant_utils.py:128-143 | embedding a file again adds its chunks again: the points of the source grow by the number of chunks |
| App.ServerAccepts | app.py:87 | the name check of `create_index`; on ASCII names it is characterised by `AsciiNames` |
| App.AsciiNames | app.py:87 | on ASCII names, `create_index` accepts exactly the names made of `[a-z0-9-]` that hold at least one letter |
| App.DigitsRefused | app.py:87 | "123" and "-" are refused, since `islower()` needs a cased letter |
| App.CreateIndexHandler | app.py:82-94 | an invalid name gets 400 before any store call; otherwise the index is created first, and on success its description is stored too |
| App.Extension | app.py:216 | `"." + split(".")[-1]` starts with one dot and has no other |
| App.ImagePaths | app.py:233-239 | no more paths than entries in the `images` folder |
| App.ImagePathsOnlyImages | app.py:234-239 | exactly the JPEG and PNG entries (any case) are described |
| App.Describe | app.py:237-238 | one description per image path |
| App.EmbedFile | app.py:213-247 | one file's text and image vectors and its upsert calls; stated in `EmbedFileCounts`, `WithImagesCounts` and `SkippedFiles` |
| App.EmbedAll | app.py:213-247 | the files in order, their counts added and their calls concatenated; stated in `EmbedAllStep` and `EmbedTotalsMatchCalls` |
| App.EmbedAllStep | app.py:213-247 | one more file adds its contribution |
| App.SentAppend | app.py:228-246 | vectors sent by two runs of calls add up |
| App.EmbedFileCounts | app.py:213-247 | the counts one file adds are the vectors its calls upsert |
| App.WithImagesCounts | app.py:245-247 | image descriptions are counted exactly when they are upserted |
| App.CombineCounted | app.py:213-247 | counts stay equal to the vectors sent across files |
| App.EmbedTotalsMatchCalls | app.py:210-250 | the totals `embed_files` reports are exactly the numbers of text and image vectors it upserts |
| App.SkippedFiles | app.py:222-231 | a file that is neither a document nor an image, or a document whose text cannot be extracted, contributes nothing |
| App.EmbedFiles | app.py:200-251 | 400 with no calls without a topic or files; otherwise every file is processed in order and the totals are reported |
| App.EmbedOne | app.py:214-247 | the body of the loop computes one file's contribution |
| App.CollectImages | app.py:233-239 | the loop over a document's `images` folder collects the described paths and their descriptions |
| App.FirstFailure | app.py:261-265 | the first file whose deletion fails, with all earlier ones succeeding; none exactly when all succeed |
| App.Deletions | app.py:261-263 | one deletion call per file, in order |
| App.UnembedFiles | app.py:253-267 | 400 without a topic or files; otherwise deletions in order up to the first failure, which answers 500 with its message |
| App.FirstFailureAt | app.py:261-265 | a failure after successes is the first failure |
| App.FirstFailureNone | app.py:261-265 | with no failing file there is no first failure |
| App.DocumentDirs | app.py:277-280 | the directories removed are exactly the files' document directories |
| App.DeleteFiles | app.py:269-283 | 400 without a topic or files; otherwise each file's directory goes and its vectors are deleted, and an uncaught failure stops the loop |
| App.FirstUnreadable | app.py:159-161 | the first file whose status cannot be read, with all earlier ones readable |
| App.ListUploadedFiles | app.py:145-163 | 400 without a topic; no files for a missing folder; otherwise one entry per listed name, in order, with its embedding status |
| App.FirstUnreadableAt | app.py:159-161 | an unreadable status after readable ones is the first |
| App.FirstUnreadableNone | app.py:159-161 | with every status readable there is none |
| IndexPage.ReplaceAllAppend | static/js/index.js:61-63 | a global replace distributes over concatenation |
| IndexPage.ReplaceAllAbsent | static/js/index.js:61-63 | a replace of an absent character changes nothing |
| IndexPage.ReplaceAllOne | static/js/index.js:61-63 | a replace on one character gives the replacement or the character |
| IndexPage.EscapeOne | static/js/index.js:59-64 | the three passes on one character give its entity |
| IndexPage.EscapeHtml | static/js/index.js:59-64 | `&`, then `<`, then `>` replaced globally; `EscapeMatchesReference`, `EscapeNoAngles`, `EscapeLength` and `EscapeRoundTrip` state what it produces |
| IndexPage.EscapeMatchesReference | static/js/index.js:59-64 | the chain of three replacements equals a single left-to-right escape: no pass reaches into text an earlier one wrote |
| IndexPage.EscapeNoAngles | static/js/index.js:59-64 | the escaped text holds no `<` and no `>` |
| IndexPage.EscapeLength | static/js/index.js:59-64 | every `&` adds four characters and every `<` or `>` three; text without them is unchanged |
| IndexPage.EscapeRoundTrip | static/js/index.js:59-64 | unescaping the entities gives back the original text |
| IndexPage.UnescapeOne | static/js/index.js:59-64 | an escaped character in front of a text reads back as itself |
| IndexPage.EscapeNotIdempotent | static/js/index.js:59-64 | escaping twice differs from escaping once whenever the text has an `&` |
| IndexPage.NormalizeTopics | static/js/index.js:8-11 | "general" among the checked topics replaces them all; otherwise the selection is kept; empty exactly when nothing is checked |
| IndexPage.SendQuery | static/js/index.js:1-29 | the request `sendQuery` sends, if any; its guards and its body are stated in `SendQueryGuards` |
| IndexPage.SendQueryGuards | static/js/index.js:1-29 | a request goes out exactly when the trimmed question is not empty and a topic is checked; it carries the trimmed question, never asks for the fallback, and "general" only travels alone |
| IndexPage.BubbleMarkup | static/js/index.js:18 | whatever the question, the user's bubble holds only the template's `<` and `>` |
| IndexPage.CountIgnores | static/js/index.js:18 | a middle part without a character adds nothing to its count |
| IndexPage.TopicCheckboxes | static/js/index.js:82-88 | "general" first, then every listed topic except `table_of_contents`, in order |
| ManageTopicsPage.ClientNameValid | static/js/manage_topics.js:169 | `/^[a-z0-9-]+$/`: a non-empty name of lower-case letters, digits and '-'; set against the server's rule in `ClientServerNames` |
| ManageTopicsPage.CreateTopic | static/js/manage_topics.js:165-178 | a request goes out exactly when the name matches `^[a-z0-9-]+$`, carrying the name and the description |
| ManageTopicsPage.ClientServerNames | static/js/manage_topics.js:169 | a name the page accepts is refused by `create_index` only when it holds no letter; every ASCII name the server accepts passes the page |
| ManageTopicsPage.DigitNamePassesPage | static/js/manage_topics.js:169 | "123" passes the page and is refused by the server |
| ManageTopicsPage.LoadIndexes | static/js/manage_topics.js:6-20 | the "No topics available" note exactly when the server lists nothing; otherwise every listed topic except `table_of_contents`, in order |
| ManageTopicsPage.CatalogOnlyListing | static/js/manage_topics.js:11-20 | a listing of only the catalog shows neither the note nor an option |
| ManageTopicsPage.SameTopicsAsChatPage | static/js/manage_topics.js:16-20 | the drop-down offers the same topics, in the same order, as the chat page's checkboxes after "general" |
| ManageTopicsPage.UploadDocument | static/js/manage_topics.js:246-266 | the form `uploadDocument` sends, if any; its guards and fields are stated in `UploadGuards` |
| ManageTopicsPage.UploadGuards | static/js/manage_topics.js:246-266 | a form goes out exactly when a file and a topic are chosen and an image has a non-blank description; it carries the trimmed description whenever there is one |
| App.UploadedAsImage | app.py:183 | the extension, as written, is one of the image extensions; set against the page in `ServerImagesAreClientImages` and `UpperCaseImageExtension` |
| ManageTopicsPage.ServerImagesAreClientImages | static/js/manage_topics.js:254-256 | every file `upload_document` stores as an image the page also treats as one |
| ManageTopicsPage.UpperCaseImageExtension | static/js/manage_topics.js:254-256 | `a.PNG` is an image to the page but not to `upload_document` |

## Left out

- Language models, the Semantic Kernel planner, the vision model, the embedding model and the document readers are parameters (functions from their input to their output). Their prompts enter as text, and `prompts.py` (`full_prompt_phi4`) is the parameter `phi4`.
- Vector similarity is not modelled: a query ranks the records by a caller-supplied order (`rank`), or through the `ask` parameter constrained by the `Honest` predicate. `get_embedding` is modelled (`VectorStore.Embedding`), but the vectors themselves are opaque.
- The file system, directory creation and removal, `file.save`, the image extraction of `upload_document`, and the base64 image encoding of `answer_query` are not modelled. The routes return the store calls and the set of document directories left.
- Concurrency, the asyncio event loop, Flask's request parsing and JSON encoding, and the DOM updates of both pages are not modelled.
- The routes `get_index_description`, `update_index_description`, `delete_index`, `upload_document`, `load_conversation`, `clear_chat` and `/query` are thin wrappers around manager or pipeline calls and are not modelled. As written, `/query` (app.py:291-298) calls `run_query` without the `topics` argument that it requires.
- `upload_document`'s image test is modelled only as `App.UploadedAsImage`, to compare it with the page.
- `answer_query`'s branch for a retrieved string that does not parse (rag_kernel.py:185-188) is not modelled. The retrieved dictionary is passed on as a value, not as its `str()` and `literal_eval`.
- The text of the prompts (`answer_prompt`, `topic_selector_prompt`, the goal prompt of the planner) is not modelled beyond what a proof needs. The selector's prompt and the catalog descriptions are folded into the `select` parameter.
- Text.Lower: only ASCII letters are folded. This is exact for the comparisons the core makes (against "true", "general" and file extensions), but not for Python's or JavaScript's full Unicode case mapping.
- TopicList.LiteralEval: only a list display of plain string literals is read. The following are treated as a failed evaluation, although `ast.literal_eval` accepts some of them: an escape sequence, a line end or a NUL character inside an item; string prefixes, triple quotes or adjacent literals; comments or backslash continuations; parentheses around the list; and a line end or form feed before the `[`. After the `]`, only whitespace and line ends may follow.
- RagChain.ChosenTopics: a selector answer that evaluates to something other than a list of strings (a bare string, a tuple, a list holding numbers) is treated as a failed evaluation and takes the `['general']` route. The source would go on with that value. Answers outside what `TopicList.LiteralEval` reads take the same route.
- App.CreateIndexHandler: the behaviour of `str.islower()` and `str.isalnum()` on non-ASCII characters is a parameter (`CharTables`) rather than Unicode's tables.
- App.EmbedFiles: `int(chunk_size)` on a non-numeric value, exceptions raised by `upsert_vectors` or by the vision model, and the missing-file cases of the readers are not modelled beyond a reader failure. The message's numbers use `f"{n}"`.
- App.DeleteFiles: a failing vector deletion is modelled as the whole route raising, with the directories of the files up to and including the failing one removed.
- App.ListUploadedFiles: a store failure in `is_embedded` is modelled as the route raising (`ListRaised`), which is what the Pinecone manager does for a missing index.
- PineconeUtils.PineconeManager.DeleteIndex: requires that the name is not the catalog's. Deleting the catalog through this method would leave a manager without a catalog, which the model's invariant excludes.
- QdrantUtils.QdrantManager.DeleteIndex: requires that the name is not the catalog's, for the same reason.
- PineconeUtils.PineconeManager.CreateIndex: the service's own rules on index names and its limits on the number of indexes are not modelled. Only an existing name is refused.
- QdrantUtils.QdrantManager.UpsertMetadata: `uuid4()` is modelled as a counter of fresh ids.
- QdrantUtils.QdrantManager.UpsertVectors: `uuid4()` is modelled as a counter of fresh ids.
- RagKernel.RetrieveContext: requires every stored record to carry a `file_path`. Without one, `metadata.get("file_path").replace(...)` raises `AttributeError` in the source, and that crash is not modelled.
- RagChain.RetrieveChunks: requires every stored record to carry a `file_path`. Without one, rag_chain.py:87 raises `AttributeError` in the source, and that crash is not modelled.
- Filters other than equality (`$eq`) are not modelled; the pipelines only use `$eq`.
- `use_general_knowledge` reaches `retrieve_context_chunks` as `str(bool)`; the model passes it as text and proves that only "True" turns the fallback on (`RagKernel.PyBoolFlag`).
- `os.path.join` is modelled as joining with "/". The case of an absolute second component, which discards the first, is not modelled.

## Findings

| source | as written | input that shows it | evidently intended | confidence | as-written member | corrected member |
|---|---|---|---|---|---|---|
| rag_slm.py:142-159 | `run_slm_query` takes its general-knowledge branch only when `retrieve_chunks` returned "no_information_found" with `use_general_knowledge` on. But `retrieve_chunks` returns that sentinel only when the flag is off, so the branch is dead. With the flag on and nothing found, the sentinel "No relevant context found" is passed to the model as if it were retrieved context. | `topics=["x"]` where "x" is not an index, `use_general_knowledge=True` | nothing found with the flag on is answered from general knowledge, as the function's documentation says ("If no context, optionally falls back to general knowledge") | medium, not executed | RagSlm.FallbackSendsSentinel | RagSlm.IntendedFallback |

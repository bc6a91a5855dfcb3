/**
 * The Flask handlers of app.py that hold logic of their own: the topic-name
 * check of `create_index`, and the loops over files of `embed_files`,
 * `unembed_files`, `delete_files` and `list_uploaded_files`.
 *
 * The file system and the vector store are abstracted. Reading and listing
 * the upload folder are parameters (`read`, `listDir`); the vision model
 * that describes an image is the parameter `describe`; each call of the
 * store is the parameter that answers it. What a handler does to the store
 * is the sequence of calls it makes, in order, and what it does to the
 * folder is the set of document directories left.
 */
module App {
  import opened Wrappers
  import opened Text
  import opened Helpers

  /** An HTTP reply with its status and message, or an exception that
      Flask turns into its own error page. */
  datatype Reply = Respond(status: nat, message: string) | Raised

  /** The store calls the handlers make. */
  datatype StoreCall =
    | CreateIndex(index: string)
    | UpsertMetadata(index: string, description: string)
    | Upsert(index: string, src: string, paths: seq<string>, chunks: seq<string>, kind: string)
    | DeleteSource(index: string, file: string)

  /** `os.path.join(a, b)` for a relative `b`. */
  function PathJoin(a: string, b: string): string
  {
    a + "/" + b
  }

  /** ---------- create_index ---------- */

  /** Python's character classes outside ASCII, which the model takes as
      given: lower-case cased letters, upper- or title-case letters, and
      alphanumerics. */
  datatype CharTables = CharTables(lower: char -> bool, upper: char -> bool, alnum: char -> bool)

  predicate IsAscii(c: char)
  {
    c as int < 128
  }

  predicate LowerCased(c: char, u: CharTables)
  {
    if IsAscii(c) then 'a' <= c <= 'z' else u.lower(c)
  }

  predicate UpperCased(c: char, u: CharTables)
  {
    if IsAscii(c) then 'A' <= c <= 'Z' else u.upper(c)
  }

  predicate IsAlnum(c: char, u: CharTables)
  {
    if IsAscii(c) then 'a' <= c <= 'z' || 'A' <= c <= 'Z' || '0' <= c <= '9' else u.alnum(c)
  }

  /** `str.islower()`: at least one cased character, and no upper-case
      one. */
  predicate PyIsLower(s: string, u: CharTables)
  {
    (exists i :: 0 <= i < |s| && LowerCased(s[i], u)) && forall i :: 0 <= i < |s| ==> !UpperCased(s[i], u)
  }

  /** The condition of app.py's `create_index` under which the name is
      accepted. */
  predicate ServerAccepts(name: string, u: CharTables)
  {
    name != "" && PyIsLower(name, u) && forall i :: 0 <= i < |name| ==> IsAlnum(name[i], u) || name[i] == '-'
  }

  /** The characters `[a-z0-9-]`. */
  predicate NameChar(c: char)
  {
    'a' <= c <= 'z' || '0' <= c <= '9' || c == '-'
  }

  /** On ASCII names the server's check needs no tables: the name is made
      of `[a-z0-9-]` and holds at least one letter. */
  lemma AsciiNames(name: string, u: CharTables)
    requires forall i :: 0 <= i < |name| ==> IsAscii(name[i])
    ensures ServerAccepts(name, u) <==>
            (forall i :: 0 <= i < |name| ==> NameChar(name[i])) && exists i :: 0 <= i < |name| && 'a' <= name[i] <= 'z'
  {
    if (forall i :: 0 <= i < |name| ==> NameChar(name[i])) && exists i :: 0 <= i < |name| && 'a' <= name[i] <= 'z' {
      var k :| 0 <= k < |name| && 'a' <= name[k] <= 'z';
      assert LowerCased(name[k], u);
    }
  }

  /** Names without a letter are refused: `"123".islower()` is false. */
  lemma DigitsRefused(u: CharTables)
    ensures !ServerAccepts("123", u) && !ServerAccepts("-", u)
  {
    assert !LowerCased("123"[0], u) && !LowerCased("123"[1], u) && !LowerCased("123"[2], u);
    assert !LowerCased("-"[0], u);
  }

  /** `create_index`: an invalid name is answered with 400 before any store
      call; otherwise the index is created and its description stored, and
      the first failing call's message is answered with 500. */
  function CreateIndexHandler(name: string, description: string, u: CharTables,
                              createError: Option<string>, metadataError: Option<string>)
    : (r: (Reply, seq<StoreCall>))
    ensures !ServerAccepts(name, u) ==> r.0.Respond? && r.0.status == 400 && r.1 == []
    ensures ServerAccepts(name, u) ==> r.1 != [] && r.1[0] == CreateIndex(name)
    ensures ServerAccepts(name, u) && r.0.Respond? && r.0.status == 200 ==>
              r.1 == [CreateIndex(name), UpsertMetadata(name, description)]
  {
    if !ServerAccepts(name, u) then
      (Respond(400, "Index name must be lowercase, alphanumeric, or contain '-' only."), [])
    else if createError.Some? then
      (Respond(500, createError.value), [CreateIndex(name)])
    else if metadataError.Some? then
      (Respond(500, metadataError.value), [CreateIndex(name), UpsertMetadata(name, description)])
    else
      (Respond(200, "Index '" + name + "' created successfully."), [CreateIndex(name), UpsertMetadata(name, description)])
  }

  /** ---------- embed_files ---------- */

  /** The file system and the vision model as `embed_files` sees them. */
  datatype Env = Env(root: string, read: string -> Option<string>,
                     listDir: string -> Option<seq<string>>, describe: string -> string)

  /** `"." + file_name.split(".")[-1]`. */
  function Extension(fileName: string): (ext: string)
    ensures ext != [] && ext[0] == '.' && '.' !in ext[1..]
  {
    var last := AfterLast(fileName, '.');
    assert ("." + last)[1..] == last;
    "." + last
  }

  /** `upload_document` saves a file whose extension is one of the image
      extensions, compared as written, as an image of its own; any other
      file gets an `images` folder for the pictures extracted from it. */
  predicate UploadedAsImage(fileName: string)
  {
    Extension(fileName) in ImgExtensions
  }

  /** An entry of a document's `images` folder that gets described. */
  predicate DescribedImage(entry: string)
  {
    var e := Lower(entry);
    EndsWith(e, ".jpg") || EndsWith(e, ".jpeg") || EndsWith(e, ".png")
  }

  /** The paths of the entries that get described, in listing order. */
  function ImagePaths(dir: string, entries: seq<string>): (r: seq<string>)
    ensures |r| <= |entries|
    decreases |entries|
  {
    if entries == [] then []
    else
      var e := entries[|entries| - 1];
      ImagePaths(dir, entries[..|entries| - 1]) + (if DescribedImage(e) then [PathJoin(dir, e)] else [])
  }

  /** Only the listed JPEG and PNG entries are described, each once. */
  lemma {:induction false} ImagePathsOnlyImages(dir: string, entries: seq<string>)
    ensures forall p :: p in ImagePaths(dir, entries) <==>
              exists e :: e in entries && DescribedImage(e) && p == PathJoin(dir, e)
    decreases |entries|
  {
    if entries != [] {
      var init := entries[..|entries| - 1];
      ImagePathsOnlyImages(dir, init);
      assert entries == init + [entries[|entries| - 1]];
    }
  }

  /** One description per path, in order. */
  function Describe(paths: seq<string>, describe: string -> string): (ds: seq<string>)
    ensures |ds| == |paths|
  {
    seq(|paths|, i requires 0 <= i < |paths| => describe(paths[i]))
  }

  /** What one file contributes: its text chunks, its image descriptions and
      the store calls made for it. */
  datatype Contribution = Contribution(texts: nat, images: nat, calls: seq<StoreCall>)

  /** The image part of a file: one upsert of all descriptions, when there
      is at least one. */
  function WithImages(c: Contribution, index: string, fileName: string, paths: seq<string>,
                      describe: string -> string): Contribution
  {
    var ds := Describe(paths, describe);
    if ds != [] then Contribution(c.texts, c.images + |ds|, c.calls + [Upsert(index, fileName, paths, ds, "image")])
    else c
  }

  /** One iteration of `embed_files`. A document is chunked and its text
      upserted, then the images of its `images` folder are described; a
      document whose text cannot be extracted contributes nothing, images
      included. An image file is described itself. Any other extension
      contributes nothing. */
  function EmbedFile(index: string, fileName: string, chunkSize: int, env: Env): Contribution
  {
    var fileDir := PathJoin(PathJoin(env.root, index), fileName);
    var filePath := PathJoin(fileDir, fileName);
    var ext := Extension(fileName);
    if ext in DocExtensions then
      match ExtractText(filePath, chunkSize, env.read)
      case Err(_) => Contribution(0, 0, [])
      case Ok(chunks) =>
        var textCalls := if chunks != [] then [Upsert(index, fileName, seq(|chunks|, _ => filePath), chunks, "text")] else [];
        var imagesDir := PathJoin(fileDir, "images");
        var paths := match env.listDir(imagesDir) case None => [] case Some(entries) => ImagePaths(imagesDir, entries);
        WithImages(Contribution(|chunks|, 0, textCalls), index, fileName, paths, env.describe)
    else if ext in ImgExtensions then
      WithImages(Contribution(0, 0, []), index, fileName, [filePath], env.describe)
    else Contribution(0, 0, [])
  }

  /** The files in order: the totals add up and the calls follow each
      other. */
  function EmbedAll(index: string, files: seq<string>, chunkSize: int, env: Env): Contribution
    decreases |files|
  {
    if files == [] then Contribution(0, 0, [])
    else
      Combine(EmbedAll(index, files[..|files| - 1], chunkSize, env), EmbedFile(index, files[|files| - 1], chunkSize, env))
  }

  function Combine(a: Contribution, b: Contribution): Contribution
  {
    Contribution(a.texts + b.texts, a.images + b.images, a.calls + b.calls)
  }

  /** One more file adds its contribution. */
  lemma EmbedAllStep(index: string, files: seq<string>, i: nat, chunkSize: int, env: Env)
    requires i < |files|
    ensures EmbedAll(index, files[..i + 1], chunkSize, env) ==
            Combine(EmbedAll(index, files[..i], chunkSize, env), EmbedFile(index, files[i], chunkSize, env))
  {
    assert files[..i + 1][..i] == files[..i];
  }

  /** The number of vectors the calls upsert with the given kind. */
  function Sent(calls: seq<StoreCall>, kind: string): nat
    decreases |calls|
  {
    if calls == [] then 0
    else
      var c := calls[|calls| - 1];
      Sent(calls[..|calls| - 1], kind) + (if c.Upsert? && c.kind == kind then |c.chunks| else 0)
  }

  lemma {:induction false} SentAppend(a: seq<StoreCall>, b: seq<StoreCall>, kind: string)
    ensures Sent(a + b, kind) == Sent(a, kind) + Sent(b, kind)
    decreases |b|
  {
    if b == [] {
      assert a + b == a;
    } else {
      var init := b[..|b| - 1];
      assert (a + b)[..|a + b| - 1] == a + init;
      assert (a + b)[|a + b| - 1] == b[|b| - 1];
      SentAppend(a, init, kind);
    }
  }

  /** Every call of one file is a well-formed upsert for the topic and the
      file: as many paths as chunks, and never empty. */
  predicate WellFormed(calls: seq<StoreCall>, index: string)
  {
    forall k :: 0 <= k < |calls| ==>
      calls[k].Upsert? && calls[k].index == index && |calls[k].paths| == |calls[k].chunks| && calls[k].chunks != []
  }

  /** The counts of a contribution are the vectors its calls upsert, and
      every call is a well-formed upsert for the topic. */
  predicate Counted(c: Contribution, index: string)
  {
    c.texts == Sent(c.calls, "text") && c.images == Sent(c.calls, "image") && WellFormed(c.calls, index)
  }

  /** The counts one file adds are the vectors its calls upsert. */
  lemma EmbedFileCounts(index: string, fileName: string, chunkSize: int, env: Env)
    ensures Counted(EmbedFile(index, fileName, chunkSize, env), index)
  {
    var fileDir := PathJoin(PathJoin(env.root, index), fileName);
    var filePath := PathJoin(fileDir, fileName);
    if Extension(fileName) in DocExtensions {
      match ExtractText(filePath, chunkSize, env.read)
      case Err(_) =>
      case Ok(chunks) =>
        var textCalls := if chunks != [] then [Upsert(index, fileName, seq(|chunks|, _ => filePath), chunks, "text")] else [];
        assert Sent(textCalls, "text") == |chunks| && Sent(textCalls, "image") == 0 by {
          if chunks != [] {
            assert textCalls[..0] == [];
          }
        }
        var imagesDir := PathJoin(fileDir, "images");
        var paths := match env.listDir(imagesDir) case None => [] case Some(entries) => ImagePaths(imagesDir, entries);
        WithImagesCounts(Contribution(|chunks|, 0, textCalls), index, fileName, paths, env.describe);
    } else if Extension(fileName) in ImgExtensions {
      WithImagesCounts(Contribution(0, 0, []), index, fileName, [filePath], env.describe);
    }
  }

  lemma WithImagesCounts(c: Contribution, index: string, fileName: string, paths: seq<string>, describe: string -> string)
    requires Counted(c, index)
    ensures Counted(WithImages(c, index, fileName, paths, describe), index)
  {
    var ds := Describe(paths, describe);
    if ds != [] {
      var call := Upsert(index, fileName, paths, ds, "image");
      SentAppend(c.calls, [call], "text");
      SentAppend(c.calls, [call], "image");
      assert [call][..0] == [];
    }
  }

  /** Two contributions one after the other stay counted. */
  lemma CombineCounted(a: Contribution, b: Contribution, index: string)
    requires Counted(a, index) && Counted(b, index)
    ensures Counted(Combine(a, b), index)
  {
    SentAppend(a.calls, b.calls, "text");
    SentAppend(a.calls, b.calls, "image");
  }

  /** The totals `embed_files` reports are exactly the numbers of text and
      image vectors it sends to the store, and every call it makes is a
      well-formed upsert for the topic. */
  lemma {:induction false} EmbedTotalsMatchCalls(index: string, files: seq<string>, chunkSize: int, env: Env)
    ensures Counted(EmbedAll(index, files, chunkSize, env), index)
    decreases |files|
  {
    if files != [] {
      var init := files[..|files| - 1];
      EmbedTotalsMatchCalls(index, init, chunkSize, env);
      EmbedFileCounts(index, files[|files| - 1], chunkSize, env);
      CombineCounted(EmbedAll(index, init, chunkSize, env), EmbedFile(index, files[|files| - 1], chunkSize, env), index);
    }
  }

  /** A file that is neither a document nor an image, or a document whose
      text cannot be extracted, contributes nothing at all. */
  lemma SkippedFiles(index: string, fileName: string, chunkSize: int, env: Env)
    ensures var ext := Extension(fileName);
            var filePath := PathJoin(PathJoin(PathJoin(env.root, index), fileName), fileName);
            (ext !in DocExtensions && ext !in ImgExtensions) ||
            (ext in DocExtensions && ExtractText(filePath, chunkSize, env.read).Err?) ==>
              EmbedFile(index, fileName, chunkSize, env) == Contribution(0, 0, [])
  {
  }

  const FilesRequired: string := "Index name and files are required."

  /** The summary message with the two totals. */
  function EmbedMessage(texts: nat, images: nat): string
  {
    "Embedding complete: " + NatToString(texts) + " text chunks and " + NatToString(images) + " images processed."
  }

  /** `embed_files`: 400 without a topic or files; otherwise every file is
      processed in order and the totals reported. */
  method EmbedFiles(index: string, files: seq<string>, chunkSize: int, env: Env)
    returns (reply: Reply, calls: seq<StoreCall>)
    ensures index == "" || files == [] ==> reply == Respond(400, FilesRequired) && calls == []
    ensures index != "" && files != [] ==>
              var r := EmbedAll(index, files, chunkSize, env);
              reply == Respond(200, EmbedMessage(r.texts, r.images)) && calls == r.calls
  {
    if index == "" || files == [] {
      return Respond(400, FilesRequired), [];
    }
    var totalText: nat, totalImage: nat := 0, 0;
    calls := [];
    var i := 0;
    while i < |files|
      invariant 0 <= i <= |files|
      invariant EmbedAll(index, files[..i], chunkSize, env) == Contribution(totalText, totalImage, calls)
    {
      EmbedAllStep(index, files, i, chunkSize, env);
      var c := EmbedOne(index, files[i], chunkSize, env);
      totalText, totalImage, calls := totalText + c.texts, totalImage + c.images, calls + c.calls;
      i := i + 1;
    }
    assert files[..i] == files;
    reply := Respond(200, EmbedMessage(totalText, totalImage));
  }

  /** The body of the loop for one file. */
  method EmbedOne(index: string, fileName: string, chunkSize: int, env: Env) returns (c: Contribution)
    ensures c == EmbedFile(index, fileName, chunkSize, env)
  {
    var fileDir := PathJoin(PathJoin(env.root, index), fileName);
    var filePath := PathJoin(fileDir, fileName);
    var ext := Extension(fileName);
    var imageDescriptions: seq<string> := [];
    var imagePaths: seq<string> := [];
    c := Contribution(0, 0, []);
    if ext in DocExtensions {
      match ExtractText(filePath, chunkSize, env.read)
      case Err(_) =>
        return;
      case Ok(textChunks) =>
        c := Contribution(|textChunks|, 0, []);
        if textChunks != [] {
          var filePaths := seq(|textChunks|, _ => filePath);
          c := Contribution(c.texts, 0, [Upsert(index, fileName, filePaths, textChunks, "text")]);
        }
        var imagesDir := PathJoin(fileDir, "images");
        var listing := env.listDir(imagesDir);
        if listing.Some? {
          imagePaths, imageDescriptions := CollectImages(imagesDir, listing.value, env.describe);
        }
    } else if ext in ImgExtensions {
      imagePaths := [filePath];
      imageDescriptions := [env.describe(filePath)];
      assert imageDescriptions == Describe(imagePaths, env.describe);
    }
    if imageDescriptions != [] {
      c := Contribution(c.texts, c.images + |imageDescriptions|,
                        c.calls + [Upsert(index, fileName, imagePaths, imageDescriptions, "image")]);
    }
  }

  /** The loop over a document's `images` folder. */
  method CollectImages(dir: string, entries: seq<string>, describe: string -> string)
    returns (paths: seq<string>, descriptions: seq<string>)
    ensures paths == ImagePaths(dir, entries) && descriptions == Describe(paths, describe)
  {
    paths, descriptions := [], [];
    var j := 0;
    while j < |entries|
      invariant 0 <= j <= |entries|
      invariant paths == ImagePaths(dir, entries[..j]) && descriptions == Describe(paths, describe)
    {
      var imageFile := entries[j];
      assert entries[..j + 1][..j] == entries[..j];
      if DescribedImage(imageFile) {
        var imagePath := PathJoin(dir, imageFile);
        descriptions := descriptions + [describe(imagePath)];
        paths := paths + [imagePath];
      }
      j := j + 1;
    }
    assert entries[..j] == entries;
  }

  /** ---------- unembed_files ---------- */

  const UnembedRequired: string := "Index name and files to unembed are required."

  /** The first file whose deletion fails, if any. */
  function FirstFailure(index: string, files: seq<string>, remove: (string, string) -> Option<string>): (r: Option<nat>)
    ensures r.Some? ==> r.value < |files| && remove(index, files[r.value]).Some?
    ensures r.Some? ==> forall k :: 0 <= k < r.value ==> remove(index, files[k]).None?
    ensures r.None? ==> forall k :: 0 <= k < |files| ==> remove(index, files[k]).None?
    decreases |files|
  {
    if files == [] then None
    else if remove(index, files[0]).Some? then Some(0)
    else match FirstFailure(index, files[1..], remove)
      case None => None
      case Some(k) => Some(k + 1)
  }

  /** The deletion calls for the files, in order. */
  function Deletions(index: string, files: seq<string>): (calls: seq<StoreCall>)
    ensures |calls| == |files|
    ensures forall k :: 0 <= k < |files| ==> calls[k] == DeleteSource(index, files[k])
  {
    seq(|files|, k requires 0 <= k < |files| => DeleteSource(index, files[k]))
  }

  /** `unembed_files`: 400 without a topic or files; otherwise the files are
      unembedded in order and the first failure stops the loop with 500,
      the files before it staying unembedded. */
  method UnembedFiles(index: string, files: seq<string>, remove: (string, string) -> Option<string>)
    returns (reply: Reply, calls: seq<StoreCall>)
    ensures index == "" || files == [] ==> reply == Respond(400, UnembedRequired) && calls == []
    ensures index != "" && files != [] ==>
              match FirstFailure(index, files, remove)
              case Some(k) =>
                calls == Deletions(index, files[..k + 1]) &&
                reply == Respond(500, "Failed to unembed '" + files[k] + "': " + remove(index, files[k]).value)
              case None =>
                calls == Deletions(index, files) &&
                reply == Respond(200, "Vectors for selected files have been removed from '" + index + "'.")
  {
    if index == "" || files == [] {
      return Respond(400, UnembedRequired), [];
    }
    calls := [];
    var i := 0;
    while i < |files|
      invariant 0 <= i <= |files|
      invariant calls == Deletions(index, files[..i])
      invariant forall k :: 0 <= k < i ==> remove(index, files[k]).None?
    {
      var fileName := files[i];
      var err := remove(index, fileName);
      calls := calls + [DeleteSource(index, fileName)];
      if err.Some? {
        FirstFailureAt(index, files, remove, i);
        return Respond(500, "Failed to unembed '" + fileName + "': " + err.value), calls;
      }
      i := i + 1;
    }
    assert files[..i] == files;
    FirstFailureNone(index, files, remove);
    reply := Respond(200, "Vectors for selected files have been removed from '" + index + "'.");
  }

  /** A failure after successes is the first one. */
  lemma {:induction false} FirstFailureAt(index: string, files: seq<string>, remove: (string, string) -> Option<string>, i: nat)
    requires i < |files| && remove(index, files[i]).Some?
    requires forall k :: 0 <= k < i ==> remove(index, files[k]).None?
    ensures FirstFailure(index, files, remove) == Some(i)
    decreases i
  {
    if i > 0 {
      FirstFailureAt(index, files[1..], remove, i - 1);
    }
  }

  lemma {:induction false} FirstFailureNone(index: string, files: seq<string>, remove: (string, string) -> Option<string>)
    requires forall k :: 0 <= k < |files| ==> remove(index, files[k]).None?
    ensures FirstFailure(index, files, remove) == None
    decreases |files|
  {
    if files != [] {
      FirstFailureNone(index, files[1..], remove);
    }
  }

  /** ---------- delete_files ---------- */

  const DeleteRequired: string := "Index name and files to delete are required."

  /** `os.path.join(UPLOAD_FOLDER, index_name, file_name)`. */
  function DocumentDir(root: string, index: string, fileName: string): string
  {
    PathJoin(PathJoin(root, index), fileName)
  }

  /** The document directories of the files. */
  function DocumentDirs(root: string, index: string, files: seq<string>): (ds: set<string>)
    ensures forall d :: d in ds <==> exists k :: 0 <= k < |files| && d == DocumentDir(root, index, files[k])
  {
    set k | 0 <= k < |files| :: DocumentDir(root, index, files[k])
  }

  lemma DocumentDirsStep(root: string, index: string, files: seq<string>, i: nat)
    requires i < |files|
    ensures DocumentDirs(root, index, files[..i + 1]) == DocumentDirs(root, index, files[..i]) + {DocumentDir(root, index, files[i])}
  {
    assert files[..i + 1][..i] == files[..i];
    assert files[..i + 1][i] == files[i];
  }

  lemma DeletionsStep(index: string, files: seq<string>, i: nat)
    requires i < |files|
    ensures Deletions(index, files[..i + 1]) == Deletions(index, files[..i]) + [DeleteSource(index, files[i])]
  {
  }

  /** `delete_files`: 400 without a topic or files; otherwise, file by file,
      the document directory is removed if it exists and the file's vectors
      are deleted whether or not it did. A failing deletion is not caught. */
  method DeleteFiles(index: string, files: seq<string>, root: string, dirs: set<string>,
                     remove: (string, string) -> Option<string>)
    returns (reply: Reply, dirsLeft: set<string>, calls: seq<StoreCall>)
    ensures index == "" || files == [] ==> reply == Respond(400, DeleteRequired) && dirsLeft == dirs && calls == []
    ensures index != "" && files != [] ==>
              match FirstFailure(index, files, remove)
              case Some(k) =>
                reply == Raised && calls == Deletions(index, files[..k + 1]) &&
                dirsLeft == dirs - DocumentDirs(root, index, files[..k + 1])
              case None =>
                calls == Deletions(index, files) && dirsLeft == dirs - DocumentDirs(root, index, files) &&
                reply == Respond(200, "Selected files and associated data have been deleted from '" + index + "'.")
  {
    dirsLeft := dirs;
    if index == "" || files == [] {
      return Respond(400, DeleteRequired), dirsLeft, [];
    }
    calls := [];
    var i := 0;
    while i < |files|
      invariant 0 <= i <= |files|
      invariant calls == Deletions(index, files[..i])
      invariant dirsLeft == dirs - DocumentDirs(root, index, files[..i])
      invariant forall k :: 0 <= k < i ==> remove(index, files[k]).None?
    {
      var fileName := files[i];
      var documentDir := DocumentDir(root, index, fileName);
      DocumentDirsStep(root, index, files, i);
      DeletionsStep(index, files, i);
      if documentDir in dirsLeft {
        dirsLeft := dirsLeft - {documentDir};
      }
      var err := remove(index, fileName);
      calls := calls + [DeleteSource(index, fileName)];
      if err.Some? {
        FirstFailureAt(index, files, remove, i);
        return Raised, dirsLeft, calls;
      }
      i := i + 1;
    }
    assert files[..i] == files;
    FirstFailureNone(index, files, remove);
    reply := Respond(200, "Selected files and associated data have been deleted from '" + index + "'.");
  }

  /** ---------- list_uploaded_files ---------- */

  /** `{"name": file_name, "embedded": embedded}`. */
  datatype FileInfo = FileInfo(name: string, embedded: bool)

  /** What `list_uploaded_files` answers. */
  datatype Listing = ListError(status: nat, message: string) | Files(info: seq<FileInfo>) | ListRaised

  /** The first listed file whose status cannot be read, if any. */
  function FirstUnreadable(index: string, names: seq<string>, isEmbedded: (string, string) -> Option<bool>): (r: Option<nat>)
    ensures r.Some? ==> r.value < |names| && isEmbedded(index, names[r.value]).None?
    ensures r.Some? ==> forall k :: 0 <= k < r.value ==> isEmbedded(index, names[k]).Some?
    ensures r.None? ==> forall k :: 0 <= k < |names| ==> isEmbedded(index, names[k]).Some?
    decreases |names|
  {
    if names == [] then None
    else if isEmbedded(index, names[0]).None? then Some(0)
    else match FirstUnreadable(index, names[1..], isEmbedded)
      case None => None
      case Some(k) => Some(k + 1)
  }

  /** `list_uploaded_files`: 400 without a topic, no files when the topic
      folder does not exist, and otherwise one entry per listed name, in
      listing order, with the store's answer for it. `isEmbedded` is `None`
      where the store raises. */
  method ListUploadedFiles(index: string, root: string, listDir: string -> Option<seq<string>>,
                           isEmbedded: (string, string) -> Option<bool>)
    returns (r: Listing)
    ensures index == "" ==> r == ListError(400, "Index name is required.")
    ensures index != "" && listDir(PathJoin(root, index)).None? ==> r == Files([])
    ensures index != "" && listDir(PathJoin(root, index)).Some? ==>
              var names := listDir(PathJoin(root, index)).value;
              match FirstUnreadable(index, names, isEmbedded)
              case Some(_) => r == ListRaised
              case None =>
                r.Files? && |r.info| == |names| &&
                forall k :: 0 <= k < |names| ==> r.info[k] == FileInfo(names[k], isEmbedded(index, names[k]).value)
  {
    if index == "" {
      return ListError(400, "Index name is required.");
    }
    var listing := listDir(PathJoin(root, index));
    if listing.None? {
      return Files([]);
    }
    var files := listing.value;
    var fileInfo: seq<FileInfo> := [];
    var i := 0;
    while i < |files|
      invariant 0 <= i <= |files| && |fileInfo| == i
      invariant forall k :: 0 <= k < i ==> isEmbedded(index, files[k]).Some?
      invariant forall k :: 0 <= k < i ==> fileInfo[k] == FileInfo(files[k], isEmbedded(index, files[k]).value)
    {
      var embedded := isEmbedded(index, files[i]);
      if embedded.None? {
        FirstUnreadableAt(index, files, isEmbedded, i);
        return ListRaised;
      }
      fileInfo := fileInfo + [FileInfo(files[i], embedded.value)];
      i := i + 1;
    }
    FirstUnreadableNone(index, files, isEmbedded);
    r := Files(fileInfo);
  }

  lemma {:induction false} FirstUnreadableAt(index: string, names: seq<string>,
                                             isEmbedded: (string, string) -> Option<bool>, i: nat)
    requires i < |names| && isEmbedded(index, names[i]).None?
    requires forall k :: 0 <= k < i ==> isEmbedded(index, names[k]).Some?
    ensures FirstUnreadable(index, names, isEmbedded) == Some(i)
    decreases i
  {
    if i > 0 {
      FirstUnreadableAt(index, names[1..], isEmbedded, i - 1);
    }
  }

  lemma {:induction false} FirstUnreadableNone(index: string, names: seq<string>,
                                               isEmbedded: (string, string) -> Option<bool>)
    requires forall k :: 0 <= k < |names| ==> isEmbedded(index, names[k]).Some?
    ensures FirstUnreadable(index, names, isEmbedded) == None
    decreases |names|
  {
    if names != [] {
      FirstUnreadableNone(index, names[1..], isEmbedded);
    }
  }
}

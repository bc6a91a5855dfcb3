/**
 * The source links the retrieval code attaches to every chunk
 * (rag_kernel.py, rag_slm.py, rag_chain.py): the stored `file_path` with
 * backslashes turned into '/', one leading `UPLOAD_FOLDER + "/"` removed,
 * percent-encoded by `urllib.parse.quote` and served under
 * `"/" + UPLOAD_FOLDER + "/"`; the link text is the file's base name.
 * `UPLOAD_FOLDER` is read from the environment at start-up and is the
 * parameter `root` here.
 */
module Citation {
  import opened Text

  /** The characters `quote` never encodes: letters, digits, `_.-~`, and the
      default safe character '/'. */
  predicate QuoteSafe(c: char)
  {
    ('A' <= c <= 'Z') || ('a' <= c <= 'z') || ('0' <= c <= '9') ||
    c == '_' || c == '.' || c == '-' || c == '~' || c == '/'
  }

  /** The UTF-8 encoding of one character. */
  function Utf8(c: char): (bytes: seq<nat>)
    ensures 1 <= |bytes| <= 4
    ensures forall i :: 0 <= i < |bytes| ==> bytes[i] < 256
    ensures (c as int) < 0x80 <==> bytes == [c as int]
  {
    var n := c as int;
    if n < 0x80 then [n]
    else if n < 0x800 then [0xC0 + n / 64, 0x80 + n % 64]
    else if n < 0x10000 then [0xE0 + n / 4096, 0x80 + (n / 64) % 64, 0x80 + n % 64]
    else [0xF0 + n / 262144, 0x80 + (n / 4096) % 64, 0x80 + (n / 64) % 64, 0x80 + n % 64]
  }

  /** The code point a UTF-8 sequence of one to four bytes encodes, read
      from its lead byte's payload and the six low bits of each
      continuation byte. */
  function Utf8Value(bytes: seq<nat>): int
    requires 1 <= |bytes| <= 4
  {
    match |bytes|
    case 1 => bytes[0]
    case 2 => (bytes[0] as int - 0xC0) * 64 + (bytes[1] as int - 0x80)
    case 3 => (bytes[0] as int - 0xE0) * 4096 + (bytes[1] as int - 0x80) * 64 + (bytes[2] as int - 0x80)
    case 4 => (bytes[0] as int - 0xF0) * 262144 + (bytes[1] as int - 0x80) * 4096 + (bytes[2] as int - 0x80) * 64 + (bytes[3] as int - 0x80)
  }

  /** The encoding decodes back to the character, with the lead byte of
      its length and continuation bytes in 0x80..0xBF. */
  lemma Utf8RoundTrip(c: char)
    ensures Utf8Value(Utf8(c)) == c as int
    ensures var b := Utf8(c);
            (|b| == 1 ==> b[0] < 0x80) &&
            (|b| == 2 ==> 0xC0 <= b[0] < 0xE0) &&
            (|b| == 3 ==> 0xE0 <= b[0] < 0xF0) &&
            (|b| == 4 ==> 0xF0 <= b[0] < 0xF8) &&
            forall i :: 1 <= i < |b| ==> 0x80 <= b[i] < 0xC0
  {
    var n := c as int;
    assert n == (n / 64) * 64 + n % 64;
    assert n / 64 == (n / 4096) * 64 + (n / 64) % 64;
    assert n / 4096 == (n / 262144) * 64 + (n / 4096) % 64;
    assert n / 4096 == n / 64 / 64 && n / 262144 == n / 4096 / 64;
  }

  function HexDigit(d: nat): (c: char)
    requires d < 16
    ensures QuoteSafe(c) && c != '/'
  {
    "0123456789ABCDEF"[d]
  }

  /** `%XX` for each byte, upper-case hexadecimal. */
  function PercentBytes(bytes: seq<nat>): (r: string)
    requires forall i :: 0 <= i < |bytes| ==> bytes[i] < 256
    ensures |r| == 3 * |bytes|
    ensures forall i :: 0 <= i < |r| ==> r[i] == '%' || (QuoteSafe(r[i]) && r[i] != '/')
  {
    if bytes == [] then []
    else ['%', HexDigit(bytes[0] / 16), HexDigit(bytes[0] % 16)] + PercentBytes(bytes[1..])
  }

  function QuoteChar(c: char): (r: string)
    ensures QuoteSafe(c) ==> r == [c]
    ensures !QuoteSafe(c) ==> r != [] && r[0] == '%'
    ensures forall i :: 0 <= i < |r| ==> r[i] == '%' || QuoteSafe(r[i])
    ensures '/' in r <==> c == '/'
  {
    if QuoteSafe(c) then [c] else PercentBytes(Utf8(c))
  }

  /** `urllib.parse.quote(s)` with its default `safe='/'`. */
  function Quote(s: string): string
  {
    if s == [] then [] else QuoteChar(s[0]) + Quote(s[1..])
  }

  /** The encoding consists only of unreserved characters, '/' and the '%'
      of escapes. */
  lemma {:induction false} QuoteAlphabet(s: string)
    ensures forall i :: 0 <= i < |Quote(s)| ==> Quote(s)[i] == '%' || QuoteSafe(Quote(s)[i])
  {
    if s != [] {
      QuoteAlphabet(s[1..]);
    }
  }

  /** A string made of safe characters is left as it is. */
  lemma {:induction false} QuoteSafeIdentity(s: string)
    requires forall i :: 0 <= i < |s| ==> QuoteSafe(s[i])
    ensures Quote(s) == s
  {
    if s != [] {
      QuoteSafeIdentity(s[1..]);
      assert s == [s[0]] + s[1..];
    }
  }

  /** '/' separators survive encoding one for one, so the path keeps its
      directory structure. */
  lemma {:induction false} QuoteKeepsSlashes(s: string)
    ensures Count(Quote(s), '/') == Count(s, '/')
  {
    if s != [] {
      QuoteKeepsSlashes(s[1..]);
      CountConcat(QuoteChar(s[0]), Quote(s[1..]), '/');
      var q := QuoteChar(s[0]);
      if QuoteSafe(s[0]) {
        assert q == [s[0]];
        assert q[1..] == [];
      } else {
        NoCharCount(q, '/');
      }
    }
  }

  /** `file_path.replace("\\", "/")`. */
  function Normalise(filePath: string): (p: string)
    ensures '\\' !in p && |p| == |filePath|
  {
    ReplaceChar(filePath, '\\', '/')
  }

  /** The path below the upload folder: one leading `root + "/"` removed. */
  function RelativePath(root: string, path: string): (rel: string)
    ensures StartsWith(path, root + "/") ==> path == root + "/" + rel
    ensures !StartsWith(path, root + "/") ==> rel == path
  {
    var prefix := root + "/";
    if StartsWith(path, prefix) then path[|prefix|..] else path
  }

  /** `f"/{UPLOAD_FOLDER}/{quote(relative_path)}"`. */
  function UrlPath(root: string, filePath: string): string
  {
    "/" + root + "/" + Quote(RelativePath(root, Normalise(filePath)))
  }

  /** `os.path.basename` of the normalised path. */
  function FileName(filePath: string): string
  {
    Basename(Normalise(filePath))
  }

  /** `f"[{filename}]({url_path})"`. */
  function MarkdownLink(root: string, filePath: string): string
  {
    "[" + FileName(filePath) + "](" + UrlPath(root, filePath) + ")"
  }

  /** The link's text is the last path component and its target is the
      encoded path below the upload folder; a stored path that already lies
      under the folder is served from the same place as its relative form. */
  lemma LinkShape(root: string, filePath: string)
    ensures '/' !in FileName(filePath) && '\\' !in FileName(filePath)
    ensures EndsWith(Normalise(filePath), FileName(filePath))
    ensures StartsWith(UrlPath(root, filePath), "/" + root + "/")
    ensures var rel := RelativePath(root, Normalise(filePath));
            UrlPath(root, root + "/" + rel) == UrlPath(root, filePath) || !StartsWith(Normalise(filePath), root + "/")
  {
    var p := Normalise(filePath);
    var name := Basename(p);
    AfterLastSuffix(p, '/');
    assert forall i :: 0 <= i < |name| ==> name[i] == p[|p| - |name| + i];
    assert UrlPath(root, filePath) == ("/" + root + "/") + Quote(RelativePath(root, p));
    if StartsWith(p, root + "/") {
      var rel := RelativePath(root, p);
      NormaliseIdentity(root + "/" + rel);
    }
  }

  lemma NormaliseIdentity(s: string)
    requires '\\' !in s
    ensures Normalise(s) == s
  {
  }
}

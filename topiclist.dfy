/**
 * The list literals the pipelines pass between their steps: `str(topics)`
 * renders a topic list, `find_valid_list` (rag_kernel.py) looks for the
 * first single-quoted list in the planner's text with the pattern
 * `\[\s*(?:'[^']*'(?:\s*,\s*'[^']*')*)?\s*\]`, and `ast.literal_eval`
 * turns a text back into a list (a match in rag_kernel.py, a model's whole
 * answer in rag_chain.py).
 *
 * The pattern admits exactly one way of matching from a given '[' (the item
 * bodies cannot contain a quote and the separators are fixed), so it is
 * modelled by a deterministic scanner `ListAt` that reads one character
 * per step through four states, parameterised by the whitespace class it
 * skips between tokens (the regular expression's `\s`, or the tokenizer's
 * whitespace); `re.search` is the leftmost start where the scanner
 * succeeds. `literal_eval` is modelled by a second scanner, `EvalScan`,
 * through the same states, which also takes double-quoted items and a
 * comma before the `]`; where the first scanner reads a list with the
 * tokenizer's whitespace, the second reads the same list (`ScanAsEval`).
 */
module TopicList {
  import opened Wrappers
  import opened Text
  import Seqs

  /** Which characters count as whitespace between the tokens of a list. */
  datatype SpaceClass = RegexSpace | TokenizerSpace

  /** The whitespace Python's tokenizer skips between the tokens of a
      bracketed expression: space, tab, form feed and line ends. */
  predicate TokenSpace(c: char)
  {
    c == ' ' || c == '\t' || c as int == 0x0c || c == '\n' || c == '\r'
  }

  predicate Blank(c: char, cls: SpaceClass)
  {
    match cls
    case RegexSpace => IsSpace(c)
    case TokenizerSpace => TokenSpace(c)
  }

  /** Where the scanner is in the pattern: after the `[`, inside an item,
      after an item, or after a comma. */
  datatype ScanState = Open | InItem | AfterItem | AfterComma

  /** A successful match: how many characters it spans and the item bodies. */
  datatype ListMatch = ListMatch(end: nat, items: seq<string>)

  predicate NoQuote(items: seq<string>)
  {
    forall k :: 0 <= k < |items| ==> '\'' !in items[k]
  }

  /** The match one character later. */
  function Shifted(r: Option<ListMatch>): Option<ListMatch>
  {
    match r
    case None => None
    case Some(m) => Some(ListMatch(m.end + 1, m.items))
  }

  /** The rest of the pattern from state `st` at the start of `s`, one
      character at a time; `cls` is the whitespace `\s*` skips. Inside an
      item, the first item of the result is the rest of the current one. */
  function Scan(s: string, st: ScanState, cls: SpaceClass): (r: Option<ListMatch>)
    ensures r.Some? ==> 0 < r.value.end <= |s|
    ensures r.Some? && (st == InItem || st == AfterComma) ==> |r.value.items| >= 1
    decreases |s|
  {
    if s == [] then None
    else
      var c := s[0];
      match st
      case Open =>
        if Blank(c, cls) then Shifted(Scan(s[1..], Open, cls))
        else if c == ']' then Some(ListMatch(1, []))
        else if c == '\'' then Shifted(Scan(s[1..], InItem, cls))
        else None
      case InItem =>
        if c == '\'' then
          (match Scan(s[1..], AfterItem, cls)
           case None => None
           case Some(m) => Some(ListMatch(m.end + 1, [""] + m.items)))
        else
          (match Scan(s[1..], InItem, cls)
           case None => None
           case Some(m) => Some(ListMatch(m.end + 1, [[c] + m.items[0]] + m.items[1..])))
      case AfterItem =>
        if Blank(c, cls) then Shifted(Scan(s[1..], AfterItem, cls))
        else if c == ',' then Shifted(Scan(s[1..], AfterComma, cls))
        else if c == ']' then Some(ListMatch(1, []))
        else None
      case AfterComma =>
        if Blank(c, cls) then Shifted(Scan(s[1..], AfterComma, cls))
        else if c == '\'' then Shifted(Scan(s[1..], InItem, cls))
        else None
  }

  /** No item the scanner reads holds a quote. */
  lemma {:induction false} ScanNoQuote(s: string, st: ScanState, cls: SpaceClass)
    ensures Scan(s, st, cls).Some? ==> NoQuote(Scan(s, st, cls).value.items)
    decreases |s|
  {
    if s != [] {
      var c, u := s[0], s[1..];
      ScanNoQuote(u, st, cls);
      match st
      case Open => ScanNoQuote(u, InItem, cls);
      case InItem =>
        ScanNoQuote(u, AfterItem, cls);
        if c != '\'' && Scan(u, InItem, cls).Some? {
          var m := Scan(u, InItem, cls).value;
          assert '\'' !in [c] + m.items[0];
          var items := [[c] + m.items[0]] + m.items[1..];
          forall k | 0 <= k < |items| ensures '\'' !in items[k] {
            if k > 0 {
              assert items[k] == m.items[k];
            }
          }
        }
      case AfterItem => ScanNoQuote(u, AfterComma, cls);
      case AfterComma => ScanNoQuote(u, InItem, cls);
    }
  }

  /** The whole pattern at the start of `s`. */
  function ListAt(s: string, cls: SpaceClass): (m: Option<ListMatch>)
    ensures m.Some? ==> s != [] && s[0] == '[' && 0 < m.value.end <= |s|
    ensures m.Some? ==> NoQuote(m.value.items)
  {
    if s == [] || s[0] != '[' then None
    else
      ScanNoQuote(s[1..], Open, cls);
      Shifted(Scan(s[1..], Open, cls))
  }

  /** `re.search`: the leftmost start at or after `i` where the pattern
      matches, with that match. */
  function FindFrom(s: string, i: nat): (r: Option<(nat, ListMatch)>)
    requires i <= |s|
    ensures r.Some? ==> i <= r.value.0 < |s| && ListAt(s[r.value.0..], RegexSpace) == Some(r.value.1)
    ensures r.Some? ==> forall k :: i <= k < r.value.0 ==> ListAt(s[k..], RegexSpace).None?
    ensures r.None? ==> forall k :: i <= k < |s| ==> ListAt(s[k..], RegexSpace).None?
    decreases |s| - i
  {
    if i == |s| then None
    else
      match ListAt(s[i..], RegexSpace)
      case Some(m) => Some((i, m))
      case None => FindFrom(s, i + 1)
  }

  /** `find_valid_list(text)`: `match.group(0)` of the leftmost match. */
  function FindValidList(text: string): (r: Option<string>)
    ensures r.Some? ==> r.value != [] && r.value[0] == '['
    ensures r.None? <==> forall k :: 0 <= k < |text| ==> ListAt(text[k..], RegexSpace).None?
  {
    match FindFrom(text, 0)
    case None => None
    case Some(found) =>
      assert text[found.0..][..found.1.end] == text[found.0..found.0 + found.1.end];
      Some(text[found.0..found.0 + found.1.end])
  }

  /** A quoted item `literal_eval` reads back unchanged: no escape sequence,
      no line end inside the quotes, and no NUL character. */
  predicate CleanItem(item: string)
  {
    forall k :: 0 <= k < |item| ==> item[k] != '\\' && item[k] != '\n' && item[k] != '\r' && item[k] != '\0'
  }

  predicate IsQuote(c: char)
  {
    c == '\'' || c == '"'
  }

  predicate AllTokenSpace(w: string)
  {
    forall k :: 0 <= k < |w| ==> TokenSpace(w[k])
  }

  /** The parser's reading of a list display from state `st`, where `q` is
      the quote that opened the current item: an item may be quoted with
      either quote character, the tokenizer's whitespace (line ends
      included) may stand between tokens, and a comma may directly precede
      the closing `]`. A reading ends at that `]`. */
  function EvalScan(s: string, st: ScanState, q: char): (r: Option<ListMatch>)
    ensures r.Some? ==> 0 < r.value.end <= |s| && s[r.value.end - 1] == ']'
    ensures r.Some? && st == InItem ==> |r.value.items| >= 1
    decreases |s|
  {
    if s == [] then None
    else
      var c := s[0];
      match st
      case Open =>
        if TokenSpace(c) then Shifted(EvalScan(s[1..], Open, q))
        else if c == ']' then Some(ListMatch(1, []))
        else if IsQuote(c) then Shifted(EvalScan(s[1..], InItem, c))
        else None
      case InItem =>
        if c == q then
          (match EvalScan(s[1..], AfterItem, q)
           case None => None
           case Some(m) => Some(ListMatch(m.end + 1, [""] + m.items)))
        else
          (match EvalScan(s[1..], InItem, q)
           case None => None
           case Some(m) => Some(ListMatch(m.end + 1, [[c] + m.items[0]] + m.items[1..])))
      case AfterItem =>
        if TokenSpace(c) then Shifted(EvalScan(s[1..], AfterItem, q))
        else if c == ',' then Shifted(EvalScan(s[1..], AfterComma, q))
        else if c == ']' then Some(ListMatch(1, []))
        else None
      case AfterComma =>
        if TokenSpace(c) then Shifted(EvalScan(s[1..], AfterComma, q))
        else if c == ']' then Some(ListMatch(1, []))
        else if IsQuote(c) then Shifted(EvalScan(s[1..], InItem, c))
        else None
  }

  /** `node_or_string.lstrip(" \t")`, which `literal_eval` applies first. */
  function StripSpaceTab(s: string): (r: string)
    ensures |r| <= |s| && r == s[|s| - |r|..]
    ensures r == [] || (r[0] != ' ' && r[0] != '\t')
    ensures forall k :: 0 <= k < |s| - |r| ==> s[k] == ' ' || s[k] == '\t'
  {
    if s != [] && (s[0] == ' ' || s[0] == '\t') then StripSpaceTab(s[1..]) else s
  }

  /** Python's parser on the stripped text, where the text is to be a list
      of strings: a list display read to its `]` and followed by nothing but
      whitespace, each item clean. Any other text is treated as a failed
      evaluation. */
  function ParseList(t: string): (r: Option<seq<string>>)
    ensures r.Some? ==> forall k :: 0 <= k < |r.value| ==> CleanItem(r.value[k])
  {
    if t == [] || t[0] != '[' then None
    else
      match EvalScan(t[1..], Open, '\'')
      case None => None
      case Some(lm) =>
        if AllTokenSpace(t[lm.end + 1..]) && forall k :: 0 <= k < |lm.items| ==> CleanItem(lm.items[k])
        then Some(lm.items) else None
  }

  /** `ast.literal_eval(text)`: the leading spaces and tabs are stripped,
      then the rest is parsed. */
  function LiteralEval(text: string): (r: Option<seq<string>>)
    ensures r.Some? ==> forall k :: 0 <= k < |r.value| ==> CleanItem(r.value[k])
  {
    ParseList(StripSpaceTab(text))
  }

  /** Where the pattern's scanner, skipping the tokenizer's whitespace,
      reads a list, the parser reads the same list. */
  lemma {:induction false} ScanAsEval(s: string, st: ScanState)
    requires Scan(s, st, TokenizerSpace).Some?
    ensures EvalScan(s, st, '\'') == Scan(s, st, TokenizerSpace)
    decreases |s|
  {
    var c, u := s[0], s[1..];
    match st
    case Open =>
      if TokenSpace(c) { ScanAsEval(u, Open); }
      else if c != ']' { ScanAsEval(u, InItem); }
    case InItem =>
      if c == '\'' { ScanAsEval(u, AfterItem); } else { ScanAsEval(u, InItem); }
    case AfterItem =>
      if TokenSpace(c) { ScanAsEval(u, AfterItem); }
      else if c == ',' { ScanAsEval(u, AfterComma); }
    case AfterComma =>
      if TokenSpace(c) { ScanAsEval(u, AfterComma); } else { ScanAsEval(u, InItem); }
  }

  /** Whitespace after the text changes no reading: a reading ends at a
      `]`, which whitespace does not hold. */
  lemma {:induction false} EvalScanPadded(a: string, w: string, st: ScanState, q: char)
    requires AllTokenSpace(w)
    ensures EvalScan(a + w, st, q) == EvalScan(a, st, q)
    decreases |a|
  {
    if a == [] {
      assert a + w == w;
      if EvalScan(w, st, q).Some? {
        assert false;
      }
    } else {
      var c, u := a[0], a[1..];
      assert (a + w)[0] == c && (a + w)[1..] == u + w;
      match st
      case Open =>
        if TokenSpace(c) { EvalScanPadded(u, w, Open, q); }
        else if IsQuote(c) { EvalScanPadded(u, w, InItem, c); }
      case InItem =>
        if c == q { EvalScanPadded(u, w, AfterItem, q); }
        else { EvalScanPadded(u, w, InItem, q); }
      case AfterItem =>
        if TokenSpace(c) { EvalScanPadded(u, w, AfterItem, q); }
        else if c == ',' { EvalScanPadded(u, w, AfterComma, q); }
      case AfterComma =>
        if TokenSpace(c) { EvalScanPadded(u, w, AfterComma, q); }
        else if IsQuote(c) { EvalScanPadded(u, w, InItem, c); }
    }
  }

  /** Leading spaces and tabs are stripped off. */
  lemma {:induction false} StripLeading(pre: string, m: string)
    requires forall k :: 0 <= k < |pre| ==> pre[k] == ' ' || pre[k] == '\t'
    requires m != [] && m[0] != ' ' && m[0] != '\t'
    ensures StripSpaceTab(pre + m) == m
    decreases |pre|
  {
    if pre == [] {
      assert pre + m == m;
    } else {
      assert (pre + m)[1..] == pre[1..] + m;
      StripLeading(pre[1..], m);
    }
  }

  /** Spaces and tabs before a list, and whitespace or line ends after it,
      do not change what `literal_eval` makes of it. */
  lemma EvalPadding(pre: string, m: string, post: string)
    requires forall k :: 0 <= k < |pre| ==> pre[k] == ' ' || pre[k] == '\t'
    requires AllTokenSpace(post)
    requires m != [] && m[0] == '['
    ensures LiteralEval(pre + m + post) == LiteralEval(m)
  {
    var t := m + post;
    assert pre + m + post == pre + t;
    assert t[0] == '[';
    StripLeading(pre, t);
    assert StripSpaceTab(m) == m;
    ParseAppendBlank(m, post);
  }

  /** Whitespace or line ends after a list do not change its parse. */
  lemma ParseAppendBlank(m: string, post: string)
    requires AllTokenSpace(post)
    requires m != [] && m[0] == '['
    ensures ParseList(m + post) == ParseList(m)
  {
    var t := m + post;
    assert t[0] == '[' && t[1..] == m[1..] + post;
    EvalScanPadded(m[1..], post, Open, '\'');
    var e := EvalScan(m[1..], Open, '\'');
    if e.Some? {
      BlankTail(m, post, e.value.end + 1);
    }
  }

  /** Whitespace appended to a text leaves its tail from `i` blank exactly
      when it was blank before. */
  lemma BlankTail(m: string, post: string, i: nat)
    requires AllTokenSpace(post) && i <= |m|
    ensures AllTokenSpace((m + post)[i..]) <==> AllTokenSpace(m[i..])
  {
    var rest, tail := m[i..], (m + post)[i..];
    assert tail == rest + post;
    if AllTokenSpace(rest) {
      forall k | 0 <= k < |tail| ensures TokenSpace(tail[k]) {
        if k < |rest| {
          assert tail[k] == rest[k];
        } else {
          assert tail[k] == post[k - |rest|];
        }
      }
    } else {
      var k :| 0 <= k < |rest| && !TokenSpace(rest[k]);
      assert tail[k] == rest[k];
    }
  }

  /** Any character other than the item's quote joins the item. */
  lemma EvalCharJoins(c: char, u: string, q: char, m: ListMatch)
    requires c != q && EvalScan(u, InItem, q) == Some(m)
    ensures |m.items| >= 1
    ensures EvalScan([c] + u, InItem, q) == Some(ListMatch(m.end + 1, [[c] + m.items[0]] + m.items[1..]))
  {
    assert ([c] + u)[0] == c && ([c] + u)[1..] == u;
  }

  /** An item's body is read up to its closing quote. */
  lemma {:induction false} EvalItemRun(a: string, tail: string, q: char, m: ListMatch)
    requires q !in a && EvalScan(tail, InItem, q) == Some(m)
    ensures |m.items| >= 1
    ensures EvalScan(a + tail, InItem, q) == Some(ListMatch(m.end + |a|, [a + m.items[0]] + m.items[1..]))
    decreases |a|
  {
    if a == [] {
      assert a + tail == tail;
      assert a + m.items[0] == m.items[0];
      Seqs.ConsTail(m.items);
    } else {
      EvalItemRun(a[1..], tail, q, m);
      EvalItemStep(a, tail, q, m);
    }
  }

  /** The first character of a run joins the item the rest of the run starts. */
  lemma EvalItemStep(a: string, tail: string, q: char, m: ListMatch)
    requires a != [] && a[0] != q && |m.items| >= 1
    requires EvalScan(a[1..] + tail, InItem, q) == Some(ListMatch(m.end + |a| - 1, [a[1..] + m.items[0]] + m.items[1..]))
    ensures EvalScan(a + tail, InItem, q) == Some(ListMatch(m.end + |a|, [a + m.items[0]] + m.items[1..]))
  {
    var x := a[1..] + m.items[0];
    var inner := ListMatch(m.end + |a| - 1, [x] + m.items[1..]);
    EvalCharJoins(a[0], a[1..] + tail, q, inner);
    assert [a[0]] + (a[1..] + tail) == a + tail;
    assert ([x] + m.items[1..])[0] == x;
    assert ([x] + m.items[1..])[1..] == m.items[1..];
    assert [a[0]] + x == a + m.items[0];
  }

  /** The closing quote, then the bracket, with or without a comma
      between them. */
  lemma EvalClose(q: char, comma: bool)
    ensures var close := if comma then [q, ',', ']'] else [q, ']'];
            EvalScan(close, InItem, q) == Some(ListMatch(|close|, [""]))
  {
    var close := if comma then [q, ',', ']'] else [q, ']'];
    var after := close[1..];
    assert close[0] == q;
    if comma {
      assert after[0] == ',' && after[1..] == [']'];
      assert EvalScan(after[1..], AfterComma, q) == Some(ListMatch(1, []));
      assert EvalScan(after, AfterItem, q) == Some(ListMatch(2, []));
    } else {
      assert after == [']'];
      assert EvalScan(after, AfterItem, q) == Some(ListMatch(1, []));
    }
    assert [""] + [] == [""];
  }

  /** A quote right after the `[` opens the first item. */
  lemma EvalFirstItem(c: char, u: string, m: ListMatch)
    requires IsQuote(c) && EvalScan(u, InItem, c) == Some(m)
    ensures EvalScan([c] + u, Open, '\'') == Some(ListMatch(m.end + 1, m.items))
  {
    assert ([c] + u)[0] == c && ([c] + u)[1..] == u;
  }

  /** A list display read to the end of the text, its items clean. */
  lemma EvalWhole(m: string, lm: ListMatch)
    requires m != [] && m[0] == '[' && EvalScan(m[1..], Open, '\'') == Some(lm) && lm.end + 1 == |m|
    requires forall k :: 0 <= k < |lm.items| ==> CleanItem(lm.items[k])
    ensures LiteralEval(m) == Some(lm.items)
  {
    assert StripSpaceTab(m) == m;
    assert m[lm.end + 1..] == [];
  }

  /** A single clean item, quoted with either quote character, with or
      without a comma before the bracket, is read back as that item. */
  lemma OneItemReads(a: string, q: char, comma: bool)
    requires IsQuote(q) && q !in a && CleanItem(a)
    ensures var close := if comma then [q, ',', ']'] else [q, ']'];
            LiteralEval("[" + [q] + a + close) == Some([a])
  {
    var close := if comma then [q, ',', ']'] else [q, ']'];
    var one: seq<string> := [""];
    EvalClose(q, comma);
    EvalItemRun(a, close, q, ListMatch(|close|, one));
    assert one[0] == "" && one[1..] == [] && a + one[0] == a;
    assert [a + one[0]] + one[1..] == [a];
    assert "[" + [q] + a + close == "[" + ([q] + (a + close));
    EvalBracketed(q, a + close, [a]);
  }

  /** `[` and a quote, then an item read to the end of the text. */
  lemma EvalBracketed(q: char, b: string, items: seq<string>)
    requires IsQuote(q) && EvalScan(b, InItem, q) == Some(ListMatch(|b|, items))
    requires forall k :: 0 <= k < |items| ==> CleanItem(items[k])
    ensures LiteralEval("[" + ([q] + b)) == Some(items)
  {
    var m := "[" + ([q] + b);
    EvalFirstItem(q, b, ListMatch(|b|, items));
    assert m[0] == '[' && m[1..] == [q] + b;
    EvalWhole(m, ListMatch(|b| + 1, items));
  }

  /** The same between leading spaces or tabs and trailing whitespace or
      line ends, as a model's answer may come. */
  lemma OneItemList(pre: string, a: string, q: char, comma: bool, post: string)
    requires forall k :: 0 <= k < |pre| ==> pre[k] == ' ' || pre[k] == '\t'
    requires AllTokenSpace(post)
    requires IsQuote(q) && q !in a && CleanItem(a)
    ensures var close := if comma then [q, ',', ']'] else [q, ']'];
            LiteralEval(pre + ("[" + [q] + a + close) + post) == Some([a])
  {
    OneItemReads(a, q, comma);
    EvalPadding(pre, "[" + [q] + a + (if comma then [q, ',', ']'] else [q, ']']), post);
  }

  function LowerHex(d: nat): char
    requires d < 16
  {
    "0123456789abcdef"[d]
  }

  /** `width` lower-case hexadecimal digits of `n`. */
  function HexDigits(n: nat, width: nat): (r: string)
    ensures |r| == width
  {
    if width == 0 then [] else HexDigits(n / 16, width - 1) + [LowerHex(n % 16)]
  }

  /** One character inside `repr(s)` quoted with `quote`; `printable` is
      `str.isprintable` for non-ASCII characters. */
  function ReprChar(c: char, quote: char, printable: char -> bool): string
  {
    var n := c as int;
    if c == quote || c == '\\' then ['\\', c]
    else if c == '\t' then "\\t"
    else if c == '\n' then "\\n"
    else if c == '\r' then "\\r"
    else if n < 0x20 || n == 0x7f then "\\x" + HexDigits(n, 2)
    else if n < 0x7f then [c]
    else if printable(c) then [c]
    else if n <= 0xff then "\\x" + HexDigits(n, 2)
    else if n <= 0xffff then "\\u" + HexDigits(n, 4)
    else "\\U" + HexDigits(n, 8)
  }

  function ReprBody(s: string, quote: char, printable: char -> bool): string
  {
    if s == [] then [] else ReprChar(s[0], quote, printable) + ReprBody(s[1..], quote, printable)
  }

  /** `repr(s)`: single quotes unless `s` has a single quote and no double
      quote. */
  function Repr(s: string, printable: char -> bool): string
  {
    var quote := if '\'' in s && '"' !in s then '"' else '\'';
    [quote] + ReprBody(s, quote, printable) + [quote]
  }

  /** `str(items)` for a list of strings. */
  function RenderList(items: seq<string>, printable: char -> bool): string
  {
    "[" + Join(", ", seq(|items|, k requires 0 <= k < |items| => Repr(items[k], printable))) + "]"
  }

  /** Printable ASCII other than the quote and the backslash: the items
      `repr` leaves as they are. */
  predicate PlainItem(item: string)
  {
    forall k :: 0 <= k < |item| ==> 0x20 <= item[k] as int < 0x7f && item[k] != '\'' && item[k] != '\\'
  }

  lemma {:induction false} ReprBodyPlain(s: string, printable: char -> bool)
    requires PlainItem(s)
    ensures ReprBody(s, '\'', printable) == s
  {
    if s != [] {
      ReprBodyPlain(s[1..], printable);
      assert s == [s[0]] + s[1..];
    }
  }

  /** The list text after the first item's opening quote: what follows
      `['` in `str(items)` for plain items. */
  function Body(items: seq<string>): string
    requires |items| >= 1
  {
    if |items| == 1 then items[0] + "']" else items[0] + ("', '" + Body(items[1..]))
  }

  lemma {:induction false} RenderTail(items: seq<string>, printable: char -> bool)
    requires |items| >= 1 && forall k :: 0 <= k < |items| ==> PlainItem(items[k])
    ensures Join(", ", seq(|items|, k requires 0 <= k < |items| => Repr(items[k], printable))) + "]" == "'" + Body(items)
  {
    var reprs := seq(|items|, k requires 0 <= k < |items| => Repr(items[k], printable));
    ReprBodyPlain(items[0], printable);
    assert Repr(items[0], printable) == "'" + items[0] + "'";
    if |items| == 1 {
      RenderLast(items[0]);
    } else {
      var rest := seq(|items| - 1, k requires 0 <= k < |items| - 1 => Repr(items[1..][k], printable));
      assert reprs[1..] == rest;
      RenderTail(items[1..], printable);
      RenderStep(items[0], Join(", ", rest), Body(items[1..]));
    }
  }

  /** The last quoted item and the bracket. */
  lemma RenderLast(a: string)
    ensures "'" + a + "'" + "]" == "'" + (a + "']")
  {
    assert "'" + "]" == "']";
  }

  /** A quoted item and the separator in front of the rest of the list. */
  lemma RenderStep(a: string, j: string, b: string)
    requires j + "]" == "'" + b
    ensures "'" + a + "'" + ", " + j + "]" == "'" + (a + ("', '" + b))
  {
    calc {
      "'" + a + "'" + ", " + j + "]";
      ("'" + a) + ("'" + ", ") + (j + "]");
      ("'" + a) + ("'" + ", ") + ("'" + b);
      { assert "'" + ", " + "'" == "', '"; }
      "'" + (a + ("', '" + b));
    }
  }

  /** A quote inside an item closes it. */
  lemma QuoteEndsItem(u: string, cls: SpaceClass, m: ListMatch)
    requires Scan(u, AfterItem, cls) == Some(m)
    ensures Scan("'" + u, InItem, cls) == Some(ListMatch(m.end + 1, [""] + m.items))
  {
    assert ("'" + u)[0] == '\'' && ("'" + u)[1..] == u;
  }

  /** Any other character inside an item joins it. */
  lemma CharJoinsItem(c: char, u: string, cls: SpaceClass, m: ListMatch)
    requires c != '\'' && Scan(u, InItem, cls) == Some(m)
    ensures |m.items| >= 1
    ensures Scan([c] + u, InItem, cls) == Some(ListMatch(m.end + 1, [[c] + m.items[0]] + m.items[1..]))
  {
    assert ([c] + u)[0] == c && ([c] + u)[1..] == u;
  }

  /** A comma after an item. */
  lemma CommaAfterItem(u: string, cls: SpaceClass, m: ListMatch)
    requires Scan(u, AfterComma, cls) == Some(m)
    ensures Scan("," + u, AfterItem, cls) == Some(ListMatch(m.end + 1, m.items))
  {
    assert ("," + u)[0] == ',' && ("," + u)[1..] == u;
  }

  /** A space after the comma. */
  lemma SpaceAfterComma(u: string, cls: SpaceClass, m: ListMatch)
    requires Scan(u, AfterComma, cls) == Some(m)
    ensures Scan(" " + u, AfterComma, cls) == Some(ListMatch(m.end + 1, m.items))
  {
    assert (" " + u)[0] == ' ' && (" " + u)[1..] == u;
    assert Blank(' ', cls);
  }

  /** The next item's quote after the comma. */
  lemma QuoteAfterComma(b: string, cls: SpaceClass, m: ListMatch)
    requires Scan(b, InItem, cls) == Some(m)
    ensures Scan("'" + b, AfterComma, cls) == Some(ListMatch(m.end + 1, m.items))
  {
    assert ("'" + b)[0] == '\'' && ("'" + b)[1..] == b;
    assert !Blank('\'', cls);
  }

  /** A quote-free run inside an item is read into the current item. */
  lemma {:induction false} QuoteFreeRun(a: string, tail: string, cls: SpaceClass, m: ListMatch)
    requires '\'' !in a && Scan(tail, InItem, cls) == Some(m)
    ensures |m.items| >= 1
    ensures Scan(a + tail, InItem, cls) == Some(ListMatch(m.end + |a|, [a + m.items[0]] + m.items[1..]))
    decreases |a|
  {
    if a == [] {
      assert a + tail == tail;
      assert a + m.items[0] == m.items[0];
      Seqs.ConsTail(m.items);
    } else {
      QuoteFreeRun(a[1..], tail, cls, m);
      QuoteFreeStep(a, tail, cls, m);
    }
  }

  /** The first character of a run joins the item the rest of the run starts. */
  lemma QuoteFreeStep(a: string, tail: string, cls: SpaceClass, m: ListMatch)
    requires a != [] && a[0] != '\'' && |m.items| >= 1
    requires Scan(a[1..] + tail, InItem, cls) == Some(ListMatch(m.end + |a| - 1, [a[1..] + m.items[0]] + m.items[1..]))
    ensures Scan(a + tail, InItem, cls) == Some(ListMatch(m.end + |a|, [a + m.items[0]] + m.items[1..]))
  {
    var x := a[1..] + m.items[0];
    var inner := ListMatch(m.end + |a| - 1, [x] + m.items[1..]);
    CharJoinsItem(a[0], a[1..] + tail, cls, inner);
    assert [a[0]] + (a[1..] + tail) == a + tail;
    assert ([x] + m.items[1..])[0] == x;
    assert ([x] + m.items[1..])[1..] == m.items[1..];
    assert [a[0]] + x == a + m.items[0];
  }

  /** `']` closes an item and the list. */
  lemma ClosingTail(cls: SpaceClass)
    ensures Scan("']", InItem, cls) == Some(ListMatch(2, [""]))
  {
    assert Scan("]", AfterItem, cls) == Some(ListMatch(1, []));
    QuoteEndsItem("]", cls, ListMatch(1, []));
    assert "'" + "]" == "']";
    assert [""] + [] == [""];
  }

  /** `', '` followed by a scan of the next item on. */
  lemma SeparatorTail(b: string, cls: SpaceClass, m: ListMatch)
    requires Scan(b, InItem, cls) == Some(m)
    ensures Scan("', '" + b, InItem, cls) == Some(ListMatch(m.end + 4, [""] + m.items))
  {
    QuoteAfterComma(b, cls, m);
    SpaceAfterComma("'" + b, cls, ListMatch(m.end + 1, m.items));
    CommaAfterItem(" " + ("'" + b), cls, ListMatch(m.end + 2, m.items));
    QuoteEndsItem("," + (" " + ("'" + b)), cls, ListMatch(m.end + 3, m.items));
    assert "'" + ("," + (" " + ("'" + b))) == "', '" + b;
  }

  /** The last item: its body, its quote and the bracket. */
  lemma ScanLastItem(a: string, cls: SpaceClass)
    requires '\'' !in a
    ensures Scan(a + "']", InItem, cls) == Some(ListMatch(|a| + 2, [a]))
  {
    ClosingTail(cls);
    QuoteFreeRun(a, "']", cls, ListMatch(2, [""]));
    assert a + "" == a && [""][0] == "" && [""][1..] == [];
    assert [a + ""] + [] == [a];
  }

  /** An item, its separator and a rest that scans to `rest`. */
  lemma ScanItemThen(a: string, b: string, rest: seq<string>, cls: SpaceClass)
    requires '\'' !in a && Scan(b, InItem, cls) == Some(ListMatch(|b|, rest))
    ensures Scan(a + ("', '" + b), InItem, cls) == Some(ListMatch(|a| + |b| + 4, [a] + rest))
  {
    SeparatorTail(b, cls, ListMatch(|b|, rest));
    var m := ListMatch(|b| + 4, [""] + rest);
    QuoteFreeRun(a, "', '" + b, cls, m);
    assert m.items[0] == "" && m.items[1..] == rest;
    assert a + m.items[0] == a;
  }

  /** The scanner reads the items back from the rendered text. */
  lemma {:induction false} TailScan(items: seq<string>, cls: SpaceClass)
    requires |items| >= 1 && forall k :: 0 <= k < |items| ==> PlainItem(items[k])
    ensures Scan(Body(items), InItem, cls) == Some(ListMatch(|Body(items)|, items))
    decreases |items|
  {
    assert '\'' !in items[0] by {
      assert PlainItem(items[0]);
    }
    if |items| == 1 {
      ScanLastItem(items[0], cls);
      assert items == [items[0]];
    } else {
      TailScan(items[1..], cls);
      ScanItemThen(items[0], Body(items[1..]), items[1..], cls);
      Seqs.ConsTail(items);
    }
  }

  /** `str(items)` scans back, as a whole, to the same items. */
  lemma RenderScans(items: seq<string>, printable: char -> bool, cls: SpaceClass)
    requires forall k :: 0 <= k < |items| ==> PlainItem(items[k])
    ensures var r := RenderList(items, printable);
            ListAt(r, cls) == Some(ListMatch(|r|, items))
  {
    var r := RenderList(items, printable);
    if items == [] {
      assert r == "[]";
      EmptyListAt(cls);
    } else {
      var b := Body(items);
      var j := Join(", ", seq(|items|, k requires 0 <= k < |items| => Repr(items[k], printable)));
      RenderTail(items, printable);
      RenderShape(j, b);
      TailScan(items, cls);
      ListAtOf(b, cls, ListMatch(|b|, items));
    }
  }

  /** The brackets around the joined items, once the joined items and the
      closing bracket are known to be the quoted body. */
  lemma RenderShape(j: string, b: string)
    requires j + "]" == "'" + b
    ensures "[" + j + "]" == "['" + b
  {
    assert "[" + j + "]" == "[" + (j + "]");
    assert "[" + ("'" + b) == "['" + b;
  }

  lemma EmptyListAt(cls: SpaceClass)
    ensures ListAt("[]", cls) == Some(ListMatch(2, []))
  {
    assert "[]"[1..] == "]";
    assert Scan("]", Open, cls) == Some(ListMatch(1, []));
  }

  /** `literal_eval("[]")` is the empty list. */
  lemma EmptyListEval()
    ensures LiteralEval("[]") == Some([])
  {
    assert "[]"[1..] == "]";
    assert EvalScan("]", Open, '\'') == Some(ListMatch(1, []));
    EvalWhole("[]", ListMatch(1, []));
  }

  /** `['` followed by a scan of the first item on. */
  lemma ListAtOf(b: string, cls: SpaceClass, m: ListMatch)
    requires Scan(b, InItem, cls) == Some(m)
    ensures ListAt("['" + b, cls) == Some(ListMatch(m.end + 2, m.items))
  {
    var u := "['" + b;
    assert u[0] == '[' && u[1..] == "'" + b;
    assert ("'" + b)[0] == '\'' && ("'" + b)[1..] == b;
    assert Scan("'" + b, Open, cls) == Some(ListMatch(m.end + 1, m.items));
  }

  /** Rendering a list of plain names and reading it back the way the
      pipeline does (`find_valid_list`, then `literal_eval`) gives the same
      list. */
  lemma RenderRoundTrip(items: seq<string>, printable: char -> bool)
    requires forall k :: 0 <= k < |items| ==> PlainItem(items[k])
    ensures var r := RenderList(items, printable);
            FindValidList(r) == Some(r) && LiteralEval(r) == Some(items)
  {
    var r := RenderList(items, printable);
    RenderScans(items, printable, RegexSpace);
    RenderScans(items, printable, TokenizerSpace);
    WholeMatchFound(r, ListMatch(|r|, items));
    forall k | 0 <= k < |items| ensures CleanItem(items[k]) {
      assert PlainItem(items[k]);
    }
    MatchEvaluates(r, items);
  }

  /** A text the pattern matches as a whole is what `find_valid_list`
      returns. */
  lemma WholeMatchFound(r: string, m: ListMatch)
    requires ListAt(r, RegexSpace) == Some(m) && m.end == |r|
    ensures FindValidList(r) == Some(r)
  {
    assert r[0..] == r;
    assert r[0..0 + |r|] == r;
  }

  /** A text the pattern's scanner reads whole, with the tokenizer's
      whitespace and clean items, is what `literal_eval` reads. */
  lemma MatchEvaluates(r: string, items: seq<string>)
    requires ListAt(r, TokenizerSpace) == Some(ListMatch(|r|, items))
    requires forall k :: 0 <= k < |items| ==> CleanItem(items[k])
    ensures LiteralEval(r) == Some(items)
  {
    ScanAsEval(r[1..], Open);
    EvalWhole(r, ListMatch(|r| - 1, items));
  }

  /** Text with no bracket holds no list. */
  lemma NoListExample()
    ensures FindValidList("none") == None
  {
    var s := "none";
    assert s[0..][0] == 'n' && s[1..][0] == 'o' && s[2..][0] == 'n' && s[3..][0] == 'e';
  }

  /** An item with an escape sequence is not read as a plain list. */
  lemma EscapeExample()
    ensures LiteralEval("['a\\n']") == None
  {
    var m := "['a\\n']";
    var item := "a\\n";
    ScanLastItem(item, TokenizerSpace);
    assert m == "['" + (item + "']");
    ListAtOf(item + "']", TokenizerSpace, ListMatch(5, [item]));
    assert !CleanItem(item) by {
      assert item[1] == '\\';
    }
    assert ListAt(m, TokenizerSpace) == Some(ListMatch(7, [item]));
    assert StripSpaceTab(m) == m;
    ScanAsEval(m[1..], Open);
    assert [item][0] == item;
  }
}

/**
 * The pure helpers of the chat page's script (static/js/index.js):
 * `escapeHtml`, the topic selection and guards of `sendQuery`, and the
 * checkbox list of `loadTopicsList`. The DOM updates and requests
 * themselves are not modelled; `sendQuery` yields the request it would
 * send, if any.
 */
module IndexPage {
  import opened Wrappers
  import opened Text
  import opened Seqs

  /** ---------- escapeHtml ---------- */

  /** `s.replace(/c/g, rep)`. */
  function ReplaceAll(s: string, c: char, rep: string): string
  {
    if s == [] then [] else (if s[0] == c then rep else [s[0]]) + ReplaceAll(s[1..], c, rep)
  }

  /** `escapeHtml(unsafe)`: `&` first, then `<`, then `>`. */
  function EscapeHtml(s: string): string
  {
    ReplaceAll(ReplaceAll(ReplaceAll(s, '&', "&amp;"), '<', "&lt;"), '>', "&gt;")
  }

  /** The escape of one character, as one pass would write it. */
  function EscapeChar(c: char): string
  {
    if c == '&' then "&amp;" else if c == '<' then "&lt;" else if c == '>' then "&gt;" else [c]
  }

  /** A single left-to-right pass: the reference definition. */
  function EscapeRef(s: string): string
  {
    if s == [] then [] else EscapeChar(s[0]) + EscapeRef(s[1..])
  }

  lemma {:induction false} ReplaceAllAppend(a: string, b: string, c: char, rep: string)
    ensures ReplaceAll(a + b, c, rep) == ReplaceAll(a, c, rep) + ReplaceAll(b, c, rep)
    decreases |a|
  {
    if a == [] {
      assert a + b == b;
    } else {
      assert (a + b)[0] == a[0] && (a + b)[1..] == a[1..] + b;
      ReplaceAllAppend(a[1..], b, c, rep);
    }
  }

  lemma {:induction false} ReplaceAllAbsent(s: string, c: char, rep: string)
    requires c !in s
    ensures ReplaceAll(s, c, rep) == s
    decreases |s|
  {
    if s != [] {
      ReplaceAllAbsent(s[1..], c, rep);
    }
  }

  lemma ReplaceAllOne(c: char, d: char, rep: string)
    ensures ReplaceAll([c], d, rep) == if c == d then rep else [c]
  {
    assert [c][0] == c && [c][1..] == [];
  }

  /** The three passes on one character give its escape. */
  lemma EscapeOne(c: char)
    ensures EscapeHtml([c]) == EscapeChar(c)
  {
    ReplaceAllOne(c, '&', "&amp;");
    if c == '&' {
      ReplaceAllAbsent("&amp;", '<', "&lt;");
      ReplaceAllAbsent("&amp;", '>', "&gt;");
    } else {
      ReplaceAllOne(c, '<', "&lt;");
      if c == '<' {
        ReplaceAllAbsent("&lt;", '>', "&gt;");
      } else {
        ReplaceAllOne(c, '>', "&gt;");
      }
    }
  }

  /** The chain of replacements agrees with the single pass: no
      replacement reaches into text an earlier one wrote. */
  lemma {:induction false} EscapeMatchesReference(s: string)
    ensures EscapeHtml(s) == EscapeRef(s)
    decreases |s|
  {
    if s != [] {
      var c, t := s[0], s[1..];
      assert s == [c] + t;
      ReplaceAllAppend([c], t, '&', "&amp;");
      var a1, a2 := ReplaceAll([c], '&', "&amp;"), ReplaceAll(t, '&', "&amp;");
      ReplaceAllAppend(a1, a2, '<', "&lt;");
      var b1, b2 := ReplaceAll(a1, '<', "&lt;"), ReplaceAll(a2, '<', "&lt;");
      ReplaceAllAppend(b1, b2, '>', "&gt;");
      assert EscapeHtml(s) == EscapeHtml([c]) + EscapeHtml(t);
      EscapeOne(c);
      EscapeMatchesReference(t);
    }
  }

  /** The escaped text holds no angle bracket. */
  lemma {:induction false} EscapeNoAngles(s: string)
    ensures '<' !in EscapeHtml(s) && '>' !in EscapeHtml(s)
  {
    EscapeMatchesReference(s);
    RefNoAngles(s);
  }

  lemma {:induction false} RefNoAngles(s: string)
    ensures '<' !in EscapeRef(s) && '>' !in EscapeRef(s)
    decreases |s|
  {
    if s != [] {
      RefNoAngles(s[1..]);
      assert '<' !in EscapeChar(s[0]) && '>' !in EscapeChar(s[0]);
    }
  }

  /** Text without `&`, `<` or `>` is left as it is; otherwise every `&`
      grows the text by four characters and every `<` or `>` by three. */
  lemma {:induction false} EscapeLength(s: string)
    ensures |EscapeHtml(s)| == |s| + 4 * Count(s, '&') + 3 * Count(s, '<') + 3 * Count(s, '>')
    ensures '&' !in s && '<' !in s && '>' !in s ==> EscapeHtml(s) == s
  {
    EscapeMatchesReference(s);
    RefLength(s);
  }

  lemma {:induction false} RefLength(s: string)
    ensures |EscapeRef(s)| == |s| + 4 * Count(s, '&') + 3 * Count(s, '<') + 3 * Count(s, '>')
    ensures '&' !in s && '<' !in s && '>' !in s ==> EscapeRef(s) == s
    decreases |s|
  {
    if s != [] {
      RefLength(s[1..]);
      if '&' !in s && '<' !in s && '>' !in s {
        assert s[1..] == s[1..] && s == [s[0]] + s[1..];
      }
    }
  }

  /** The inverse of the escape: each entity back to its character. */
  function Unescape(s: string): string
    decreases |s|
  {
    if s == [] then []
    else if StartsWith(s, "&amp;") then "&" + Unescape(s[5..])
    else if StartsWith(s, "&lt;") then "<" + Unescape(s[4..])
    else if StartsWith(s, "&gt;") then ">" + Unescape(s[4..])
    else [s[0]] + Unescape(s[1..])
  }

  /** Escaping loses nothing: the text comes back from its escape. */
  lemma {:induction false} EscapeRoundTrip(s: string)
    ensures Unescape(EscapeHtml(s)) == s
  {
    EscapeMatchesReference(s);
    RefRoundTrip(s);
  }

  lemma {:induction false} RefRoundTrip(s: string)
    ensures Unescape(EscapeRef(s)) == s
    decreases |s|
  {
    if s != [] {
      RefRoundTrip(s[1..]);
      UnescapeOne(s[0], EscapeRef(s[1..]));
    }
  }

  /** One escaped character in front of a text reads back as itself. */
  lemma UnescapeOne(c: char, t: string)
    ensures Unescape(EscapeChar(c) + t) == [c] + Unescape(t)
  {
    if c == '&' {
      UnescapeAmp(t);
    } else if c == '<' {
      UnescapeLt(t);
    } else if c == '>' {
      UnescapeGt(t);
    } else {
      var u := [c] + t;
      assert u[0] == c && u[1..] == t;
    }
  }

  lemma UnescapeAmp(t: string)
    ensures Unescape("&amp;" + t) == "&" + Unescape(t)
  {
    var u := "&amp;" + t;
    assert u[..5] == "&amp;" && u[5..] == t;
  }

  lemma UnescapeLt(t: string)
    ensures Unescape("&lt;" + t) == "<" + Unescape(t)
  {
    var u := "&lt;" + t;
    assert u[1] == 'l';
    assert !StartsWith(u, "&amp;");
    assert u[..4] == "&lt;" && u[4..] == t;
  }

  lemma UnescapeGt(t: string)
    ensures Unescape("&gt;" + t) == ">" + Unescape(t)
  {
    var u := "&gt;" + t;
    assert u[1] == 'g';
    assert !StartsWith(u, "&amp;") && !StartsWith(u, "&lt;");
    assert u[..4] == "&gt;" && u[4..] == t;
  }

  /** Escaping is not idempotent: a second pass rewrites the `&` of every
      entity the first one wrote, so any text with an `&` grows again. */
  lemma EscapeNotIdempotent(s: string)
    requires '&' in s
    ensures EscapeHtml(EscapeHtml(s)) != EscapeHtml(s)
  {
    var e := EscapeHtml(s);
    EscapeMatchesReference(s);
    RefKeepsAmp(s);
    EscapeLength(e);
  }

  lemma {:induction false} RefKeepsAmp(s: string)
    requires '&' in s
    ensures Count(EscapeRef(s), '&') >= 1
    decreases |s|
  {
    CountConcat(EscapeChar(s[0]), EscapeRef(s[1..]), '&');
    if s[0] == '&' {
      assert "&amp;"[0] == '&' && Count("&amp;", '&') >= 1;
    } else {
      RefKeepsAmp(s[1..]);
    }
  }

  /** ---------- sendQuery ---------- */

  /** If "general" is among the checked topics, it replaces them all. */
  function NormalizeTopics(selected: seq<string>): (r: seq<string>)
    ensures "general" in selected ==> r == ["general"]
    ensures "general" !in selected ==> r == selected
    ensures r == [] <==> selected == []
  {
    if "general" in selected then ["general"] else selected
  }

  /** The body of the `/query` request. */
  datatype QueryRequest = QueryRequest(query: string, topics: seq<string>, useGeneralKnowledge: bool)

  /** `sendQuery`: nothing is sent for a blank question or when no topic is
      checked; otherwise the trimmed question, the normalised topics and a
      fallback that is always off. */
  function SendQuery(input: string, selected: seq<string>): (r: Option<QueryRequest>)
  {
    var query := JsTrim(input);
    if query == "" then None
    else
      var topics := NormalizeTopics(selected);
      if topics == [] then None else Some(QueryRequest(query, topics, false))
  }

  /** A request goes out exactly when the trimmed question is not empty and
      some topic is checked; it never asks for the fallback, and "general"
      only ever travels alone. */
  lemma SendQueryGuards(input: string, selected: seq<string>)
    ensures SendQuery(input, selected).Some? <==> JsTrim(input) != "" && selected != []
    ensures SendQuery(input, selected).Some? ==>
              var q := SendQuery(input, selected).value;
              !q.useGeneralKnowledge && q.query == JsTrim(input) &&
              ("general" in q.topics ==> q.topics == ["general"]) &&
              ("general" !in selected ==> q.topics == selected)
  {
  }

  /** The two halves of the template around the user's question. */
  const BubbleOpen := "<div class='message user'>User: "
  const BubbleClose := "</div>"

  /** The user's bubble in the chat box. */
  function UserBubble(query: string): string
  {
    BubbleOpen + EscapeHtml(query) + BubbleClose
  }

  /** Whatever the question, the bubble has the markup of the template
      alone: the escaped question adds no `<` and no `>`. */
  lemma BubbleMarkup(query: string)
    ensures Count(UserBubble(query), '<') == Count(BubbleOpen + BubbleClose, '<')
    ensures Count(UserBubble(query), '>') == Count(BubbleOpen + BubbleClose, '>')
  {
    EscapeNoAngles(query);
    CountIgnores(BubbleOpen, EscapeHtml(query), BubbleClose, '<');
    CountIgnores(BubbleOpen, EscapeHtml(query), BubbleClose, '>');
  }

  /** A middle part without `c` adds nothing to the count of `c`. */
  lemma CountIgnores(p: string, e: string, q: string, c: char)
    requires c !in e
    ensures Count(p + e + q, c) == Count(p + q, c)
  {
    CountConcat(p + e, q, c);
    CountConcat(p, e, c);
    CountConcat(p, q, c);
    NoCharCount(e, c);
  }

  /** ---------- loadTopicsList ---------- */

  /** The values of the topic checkboxes: "general" first, then every topic
      the server lists except `table_of_contents`. */
  function TopicCheckboxes(server: seq<string>): (r: seq<string>)
    ensures r != [] && r[0] == "general"
    ensures forall t :: t in r[1..] <==> t in server && t != "table_of_contents"
    ensures IsSubsequence(r[1..], server)
  {
    var rest := Without(server, "table_of_contents");
    assert (["general"] + rest)[1..] == rest;
    ["general"] + rest
  }
}

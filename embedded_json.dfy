/**
 * Extraction of the JSON object embedded in the completion text: the greedy
 * pattern `/\{[\s\S]*\}/` picks the text from the first `{` to the last `}`
 * after it; without such a pair the whole text goes to JSON.parse. JSON.parse
 * itself is an opaque partial function handed in by the caller.
 */
module EmbeddedJson {
  import opened JsValues

  type Parser = string -> Option<JsValue>

  /** Index of the first occurrence of c in s. */
  function FirstIndexOf(s: string, c: char): (r: Option<nat>)
    ensures r.Some? ==> r.value < |s| && s[r.value] == c && c !in s[..r.value]
    ensures r.None? <==> c !in s
  {
    if s == [] then None
    else if s[0] == c then Some(0)
    else
      match FirstIndexOf(s[1..], c)
      case None => None
      case Some(k) =>
        assert s[1..][..k] == s[1..k + 1];
        assert s[..k + 1] == [s[0]] + s[1..k + 1];
        Some(k + 1)
  }

  /** Index of the last occurrence of c in s. */
  function LastIndexOf(s: string, c: char): (r: Option<nat>)
    ensures r.Some? ==> r.value < |s| && s[r.value] == c && c !in s[r.value + 1..]
    ensures r.None? <==> c !in s
  {
    if s == [] then None
    else if s[|s| - 1] == c then Some(|s| - 1)
    else
      var init := s[..|s| - 1];
      assert s == init + [s[|s| - 1]];
      match LastIndexOf(init, c)
      case None => None
      case Some(k) =>
        assert s[k + 1..] == init[k + 1..] + [s[|s| - 1]];
        Some(k)
  }

  /** The span [start, end) that `content.match(/\{[\s\S]*\}/)` returns, if any. */
  function GreedyBraceMatch(content: string): Option<(nat, nat)> {
    match FirstIndexOf(content, '{')
    case None => None
    case Some(i) =>
      match LastIndexOf(content, '}')
      case None => None
      case Some(j) => if i < j then Some((i, j + 1)) else None
  }

  /** The pattern matches exactly the substrings that start with `{` and end with `}`. */
  ghost predicate MatchesAt(s: string, a: nat, b: nat) {
    a + 2 <= b <= |s| && s[a] == '{' && s[b - 1] == '}'
  }

  /**
   * The match a regular-expression engine reports: the leftmost start at
   * which the pattern matches, and there the longest match, since `*` is greedy.
   */
  ghost predicate IsLeftmostGreedyMatch(s: string, a: nat, b: nat) {
    && MatchesAt(s, a, b)
    && (forall a': nat, b': nat :: a' < a ==> !MatchesAt(s, a', b'))
    && (forall b': nat :: b < b' ==> !MatchesAt(s, a, b'))
  }

  /** GreedyBraceMatch agrees with the regular-expression semantics, in both directions. */
  lemma GreedyBraceMatchIsRegexMatch(s: string)
    ensures GreedyBraceMatch(s).Some? ==>
              IsLeftmostGreedyMatch(s, GreedyBraceMatch(s).value.0, GreedyBraceMatch(s).value.1)
    ensures GreedyBraceMatch(s).None? <==> (forall a: nat, b: nat :: !MatchesAt(s, a, b))
  {
    var first := FirstIndexOf(s, '{');
    var last := LastIndexOf(s, '}');
    if first.Some? && last.Some? && first.value < last.value {
      var i, j := first.value, last.value;
      assert MatchesAt(s, i, j + 1);
      forall a': nat, b': nat | a' < i
        ensures !MatchesAt(s, a', b')
      {
        assert s[..i][a'] == s[a'];
      }
      forall b': nat | j + 1 < b'
        ensures !MatchesAt(s, i, b')
      {
        if b' <= |s| {
          assert s[j + 1..][b' - 1 - (j + 1)] == s[b' - 1];
        }
      }
    } else {
      forall a: nat, b: nat | a + 2 <= b <= |s|
        ensures !MatchesAt(s, a, b)
      {
        assert s[a] == '{' ==> '{' in s;
        assert s[b - 1] == '}' ==> '}' in s;
      }
    }
  }

  /** A text has at most one leftmost-greedy match. */
  lemma LeftmostGreedyMatchUnique(s: string, a: nat, b: nat, a': nat, b': nat)
    requires IsLeftmostGreedyMatch(s, a, b) && IsLeftmostGreedyMatch(s, a', b')
    ensures a == a' && b == b'
  {
  }

  /**
   * What the handler hands to JSON.parse: the text the regular expression
   * matches, or the whole content when it matches nothing.
   */
  function JsonCandidate(content: string): (r: string)
    ensures (forall a: nat, b: nat :: !MatchesAt(content, a, b)) ==> r == content
    ensures forall a: nat, b: nat :: IsLeftmostGreedyMatch(content, a, b) ==> r == content[a..b]
    ensures GreedyBraceMatch(content).Some? ==>
              |r| >= 2 && r[0] == '{' && r[|r| - 1] == '}'
  {
    GreedyBraceMatchIsRegexMatch(content);
    match GreedyBraceMatch(content)
    case None => content
    case Some((i, j)) =>
      assert forall a: nat, b: nat :: IsLeftmostGreedyMatch(content, a, b) ==> a == i && b == j by {
        forall a: nat, b: nat | IsLeftmostGreedyMatch(content, a, b)
          ensures a == i && b == j
        {
          LeftmostGreedyMatchUnique(content, a, b, i, j);
        }
      }
      content[i..j]
  }

  /** The parsed response, or None when JSON.parse throws (the handler answers 500). */
  function ParseEmbedded(content: string, parse: Parser): Option<JsValue> {
    parse(JsonCandidate(content))
  }

  /**
   * JSON wrapped in prose (no `{` before it, no `}` after it) yields exactly
   * the candidate that the bare JSON yields, so both parse the same.
   */
  lemma {:induction false} ProseWrappedParsesLikeBare(prefix: string, json: string, suffix: string, parse: Parser)
    requires '{' !in prefix && '}' !in suffix
    requires |json| >= 2 && json[0] == '{' && json[|json| - 1] == '}'
    ensures JsonCandidate(prefix + json + suffix) == json
    ensures JsonCandidate(json) == json
    ensures ParseEmbedded(prefix + json + suffix, parse) == ParseEmbedded(json, parse)
  {
    BareCandidate(json);
    var s := prefix + json + suffix;
    var p, q := |prefix|, |prefix| + |json| - 1;
    assert s[p] == '{' && s[q] == '}';
    var first := FirstIndexOf(s, '{');
    var last := LastIndexOf(s, '}');
    assert first.Some? && last.Some?;
    assert GreedyBraceMatch(s) == Some((p, q + 1));
    assert s[p..q + 1] == json;
  }

  /** A candidate that already is a brace-delimited text is passed on unchanged. */
  lemma BareCandidate(json: string)
    requires |json| >= 2 && json[0] == '{' && json[|json| - 1] == '}'
    ensures JsonCandidate(json) == json
  {
    var last := LastIndexOf(json, '}');
    assert last.Some?;
    assert FirstIndexOf(json, '{') == Some(0);
  }

  /** Text with no `{` followed later by a `}` goes to JSON.parse whole. */
  lemma NoBracePairParsesWhole(content: string, parse: Parser)
    requires forall a: nat, b: nat :: a < b < |content| ==> !(content[a] == '{' && content[b] == '}')
    ensures ParseEmbedded(content, parse) == parse(content)
  {
    GreedyBraceMatchIsRegexMatch(content);
  }
}

/** Cutting the would-be JSON payload out of a model reply: Python's
    `text.find('{')`, `text.rfind('}') + 1`, the guard on the two positions
    and the slice between them. */
module ResponseSpan {
  import opened Wrappers

  /** `s.find(c)`: the index of the first `c` in `s`, or -1 when there is none. */
  function Find(s: string, c: char): (r: int)
    ensures -1 <= r < |s|
    ensures r == -1 <==> c !in s
    ensures r >= 0 ==> s[r] == c && c !in s[..r]
  {
    if |s| == 0 then -1
    else if s[0] == c then 0
    else
      var k := Find(s[1..], c);
      assert s[1..][..if k >= 0 then k else 0] == s[1..if k >= 0 then k + 1 else 1];
      if k == -1 then -1 else k + 1
  }

  /** `s.rfind(c)`: the index of the last `c` in `s`, or -1 when there is none. */
  function RFind(s: string, c: char): (r: int)
    ensures -1 <= r < |s|
    ensures r == -1 <==> c !in s
    ensures r >= 0 ==> s[r] == c && c !in s[r + 1..]
  {
    if |s| == 0 then -1
    else if s[|s| - 1] == c then |s| - 1
    else
      var k := RFind(s[..|s| - 1], c);
      assert s == s[..|s| - 1] + [s[|s| - 1]];
      k
  }

  /** The text has an opening brace strictly before a closing one. */
  ghost predicate HasBracePair(text: string) {
    exists i, j :: 0 <= i < j < |text| && text[i] == '{' && text[j] == '}'
  }

  /** The slice from the first `{` through the last `}` when both exist and
      the first `{` comes before the last `}`; `None` when the reply has no
      such pair (the code then builds an error record, without parsing). */
  function Span(text: string): (r: Option<string>)
    ensures r.Some? <==> HasBracePair(text)
    ensures r.Some? ==> 2 <= |r.value| <= |text| && r.value[0] == '{' && r.value[|r.value| - 1] == '}'
  {
    var jsonStart := Find(text, '{');
    var jsonEnd := RFind(text, '}') + 1;
    if jsonStart != -1 && jsonEnd > jsonStart then
      Some(text[jsonStart..jsonEnd])
    else
      None
  }

  /** The span runs exactly from the first `{` to the last `}`: for an opening
      brace at `i` with none before it and a closing brace at `j > i` with none
      after it, the span is `text[i..j + 1]`. */
  lemma SpanIsFirstToLast(text: string, i: nat, j: nat)
    requires i < j < |text|
    requires text[i] == '{' && '{' !in text[..i]
    requires text[j] == '}' && '}' !in text[j + 1..]
    ensures Span(text) == Some(text[i..j + 1])
  {
  }

  /** The span is a contiguous piece of the reply: what precedes it holds no
      `{` and what follows it holds no `}`. */
  lemma SpanLocation(text: string) returns (i: nat)
    requires HasBracePair(text)
    ensures i + |Span(text).value| <= |text|
    ensures text[i..i + |Span(text).value|] == Span(text).value
    ensures '{' !in text[..i] && '}' !in text[i + |Span(text).value|..]
  {
    i := Find(text, '{');
  }

  /** Prose around the payload is discarded. */
  lemma SpanDropsSurroundingProse()
    ensures Span("Here is my view: " + "{\"recommendation\":\"Buy\"}" + " thanks") == Some("{\"recommendation\":\"Buy\"}")
  {
    var pre, obj, post := "Here is my view: ", "{\"recommendation\":\"Buy\"}", " thanks";
    var text := pre + obj + post;
    assert text[..|pre|] == pre && text[|pre|..|pre| + |obj|] == obj && text[|pre| + |obj|..] == post;
    SpanIsFirstToLast(text, |pre|, |pre| + |obj| - 1);
  }

  /** Two objects in one reply are not separated: the span runs from the
      first object's `{` to the second object's `}`, which is not the first
      balanced object. */
  lemma SpanJoinsTwoObjects()
    ensures Span("{\"a\":1} or {\"b\":2}") == Some("{\"a\":1} or {\"b\":2}")
  {
    var text := "{\"a\":1} or {\"b\":2}";
    SpanIsFirstToLast(text, 0, |text| - 1);
    assert text[0..|text|] == text;
  }
}

/** The word-aware token estimate (src/context/tokens.ts). */
module Tokens {
  import opened Messages

  const MESSAGE_OVERHEAD := 4

  /** The characters matched by `\s` in a JavaScript regular expression. */
  predicate IsSpace(c: char) {
    || c == ' '
    || '\t' <= c <= '\r'
    || c == '\U{00A0}'
    || c == '\U{1680}'
    || '\U{2000}' <= c <= '\U{200A}'
    || c == '\U{2028}'
    || c == '\U{2029}'
    || c == '\U{202F}'
    || c == '\U{205F}'
    || c == '\U{3000}'
    || c == '\U{FEFF}'
  }

  /** White space and line terminators of ECMAScript, by code point. */
  lemma SpaceCodes(c: char)
    ensures
      var code := c as int;
      IsSpace(c)
      <==> || code in {0x09, 0x0A, 0x0B, 0x0C, 0x0D, 0x20, 0xA0, 0x1680}
           || code in {0x2028, 0x2029, 0x202F, 0x205F, 0x3000, 0xFEFF}
           || 0x2000 <= code <= 0x200A
  {
  }

  predicate IsSolid(c: char) {
    !IsSpace(c)
  }

  predicate IsNewline(c: char) {
    c == '\n'
  }

  predicate IsNonAlpha(c: char) {
    !('a' <= c <= 'z' || 'A' <= c <= 'Z')
  }

  function Count(p: char -> bool, s: string): (n: nat)
    ensures n <= |s|
  {
    if s == "" then 0 else (if p(s[0]) then 1 else 0) + Count(p, s[1..])
  }

  lemma {:induction false} CountConcat(p: char -> bool, a: string, b: string)
    ensures Count(p, a + b) == Count(p, a) + Count(p, b)
  {
    if a == "" {
      assert a + b == b;
    } else {
      assert (a + b)[1..] == a[1..] + b;
      CountConcat(p, a[1..], b);
    }
  }

  lemma CountAllIn(p: char -> bool, s: string, b: bool)
    requires forall c | c in s :: p(c) == b
    ensures Count(p, s) == if b then |s| else 0
  {
    forall i | 0 <= i < |s|
      ensures p(s[i]) == b
    {
      assert s[i] in s;
    }
    CountAll(p, s, b);
  }

  lemma {:induction false} CountAll(p: char -> bool, s: string, b: bool)
    requires forall i | 0 <= i < |s| :: p(s[i]) == b
    ensures Count(p, s) == if b then |s| else 0
  {
    if s != "" {
      CountAll(p, s[1..], b);
    }
  }

  // ------------------------------------------------------------ splitting into words and gaps

  /** The end of the run of same-kind characters that starts at 0 and is known to reach `i`. */
  function RunEnd(text: string, i: nat): (e: nat)
    requires 0 < i <= |text|
    requires forall j | 0 <= j < i :: IsSpace(text[j]) == IsSpace(text[0])
    ensures i <= e <= |text|
    ensures forall j | 0 <= j < e :: IsSpace(text[j]) == IsSpace(text[0])
    ensures e < |text| ==> IsSpace(text[e]) != IsSpace(text[0])
    decreases |text| - i
  {
    if i < |text| && IsSpace(text[i]) == IsSpace(text[0]) then RunEnd(text, i + 1) else i
  }

  /** The non-empty pieces of `text.split(/(\s+)/)`. */
  function Segments(text: string): (segments: seq<string>)
    decreases |text|
  {
    if text == "" then []
    else
      var e := RunEnd(text, 1);
      [text[..e]] + Segments(text[e..])
  }

  predicate Uniform(segment: string) {
    segment != "" && forall i | 0 <= i < |segment| :: IsSpace(segment[i]) == IsSpace(segment[0])
  }

  ghost predicate TakingTurns(segments: seq<string>) {
    forall j | 0 < j < |segments| :: Alternates(segments, j)
  }

  predicate Alternates(segments: seq<string>, j: nat)
    requires 0 < j < |segments|
  {
    segments[j - 1] != "" && segments[j] != "" && IsSpace(segments[j - 1][0]) != IsSpace(segments[j][0])
  }

  function Join(segments: seq<string>): string {
    if segments == [] then "" else segments[0] + Join(segments[1..])
  }

  lemma {:induction false} SegmentsJoin(text: string)
    ensures Join(Segments(text)) == text
    decreases |text|
  {
    if text != "" {
      var e := RunEnd(text, 1);
      SegmentsJoin(text[e..]);
      assert Segments(text)[1..] == Segments(text[e..]);
      assert text == text[..e] + text[e..];
    }
  }

  lemma {:induction false} SegmentsAreUniform(text: string)
    ensures forall i | 0 <= i < |Segments(text)| :: Uniform(Segments(text)[i])
    decreases |text|
  {
    if text != "" {
      var e := RunEnd(text, 1);
      SegmentsAreUniform(text[e..]);
      assert Uniform(text[..e]);
    }
  }

  lemma {:induction false} SegmentsTakeTurns(text: string)
    ensures TakingTurns(Segments(text))
    ensures text != "" ==> Segments(text)[0] != "" && Segments(text)[0][0] == text[0]
    decreases |text|
  {
    if text != "" {
      var e := RunEnd(text, 1);
      SegmentsTakeTurns(text[e..]);
      var all, rest := Segments(text), Segments(text[e..]);
      assert all == [text[..e]] + rest;
      forall j | 0 < j < |all|
        ensures Alternates(all, j)
      {
        if j == 1 {
          assert all[0][0] == text[0] && all[1] == rest[0] && rest[0][0] == text[e];
        } else {
          assert Alternates(rest, j - 1);
        }
      }
    }
  }

  /** What `Segments` means: it cuts the text, loses nothing, and words and gaps take turns. */
  lemma {:induction false} SegmentsPartition(text: string)
    ensures Join(Segments(text)) == text
    ensures forall i | 0 <= i < |Segments(text)| :: Uniform(Segments(text)[i])
    ensures TakingTurns(Segments(text))
  {
    SegmentsJoin(text);
    SegmentsAreUniform(text);
    SegmentsTakeTurns(text);
  }

  // ------------------------------------------------------------ the estimate

  function CeilDiv(n: nat, d: nat): (q: nat)
    requires d > 0
    ensures n <= d * q < n + d
  {
    (n + d - 1) / d
  }

  function SegmentTokens(segment: string): nat
    requires segment != ""
  {
    if IsSpace(segment[0]) then Count(IsNewline, segment) + 1
    else if |segment| <= 4 then 1
    else if |segment| <= 8 then 2
    else if |segment| <= 14 then 3
    else CeilDiv(|segment|, if 4 * Count(IsNonAlpha, segment) > |segment| then 3 else 4)
  }

  function SumSegments(segments: seq<string>): nat
    requires forall i | 0 <= i < |segments| :: segments[i] != ""
  {
    if segments == [] then 0 else SegmentTokens(segments[0]) + SumSegments(segments[1..])
  }

  function TokensOf(text: string): nat {
    SegmentsPartition(text);
    SumSegments(Segments(text))
  }

  lemma {:induction false} SumSegmentsSnoc(segments: seq<string>, last: string)
    requires last != "" && forall i | 0 <= i < |segments| :: segments[i] != ""
    ensures SumSegments(segments + [last]) == SumSegments(segments) + SegmentTokens(last)
  {
    if segments == [] {
      assert segments + [last] == [last];
    } else {
      assert (segments + [last])[1..] == segments[1..] + [last];
      SumSegmentsSnoc(segments[1..], last);
    }
  }

  method EstimateTokens(text: string) returns (tokens: nat)
    ensures tokens == TokensOf(text)
  {
    tokens := 0;
    var segments := Segments(text);
    SegmentsPartition(text);
    for i := 0 to |segments|
      invariant tokens == SumSegments(segments[..i])
    {
      var segment := segments[i];
      assert segments[..i + 1] == segments[..i] + [segment];
      SumSegmentsSnoc(segments[..i], segment);
      if IsSpace(segment[0]) {
        tokens := tokens + Count(IsNewline, segment) + 1;
        continue;
      }
      var len := |segment|;
      if len <= 4 {
        tokens := tokens + 1;
      } else if len <= 8 {
        tokens := tokens + 2;
      } else if len <= 14 {
        tokens := tokens + 3;
      } else {
        var dense := 4 * Count(IsNonAlpha, segment) > len;
        tokens := tokens + CeilDiv(len, if dense then 3 else 4);
      }
    }
    assert segments[..|segments|] == segments;
  }

  lemma {:induction false} SegmentBounds(segment: string)
    requires Uniform(segment)
    ensures 3 * Count(IsSolid, segment) <= 14 * SegmentTokens(segment)
    ensures 1 <= SegmentTokens(segment) <= 2 * |segment|
  {
    CountAll(IsSolid, segment, !IsSpace(segment[0]));
  }

  lemma {:induction false} TokenBounds(text: string)
    ensures 3 * Count(IsSolid, text) <= 14 * TokensOf(text)
    ensures TokensOf(text) <= 2 * |text|
    decreases |text|
  {
    if text != "" {
      var e := RunEnd(text, 1);
      assert text == text[..e] + text[e..];
      CountConcat(IsSolid, text[..e], text[e..]);
      SegmentBounds(text[..e]);
      TokenBounds(text[e..]);
      SegmentsPartition(text);
      assert Segments(text)[1..] == Segments(text[e..]);
    }
  }

  /** The texts that meet a bound exactly: any word of 14 characters, and any run of one newline. */
  lemma TokenBoundsAreTight(word: string)
    requires |word| == 14 && forall i | 0 <= i < 14 :: !IsSpace(word[i])
    ensures 3 * Count(IsSolid, word) == 14 * TokensOf(word)
    ensures TokensOf("\n") == 2 * |"\n"|
  {
    OneSegment(word);
    CountAll(IsSolid, word, true);
    OneSegment("\n");
    CountAll(IsNewline, "\n", true);
  }

  lemma OneSegment(text: string)
    requires Uniform(text)
    ensures Segments(text) == [text]
    ensures TokensOf(text) == SegmentTokens(text)
  {
    var e := RunEnd(text, 1);
    assert e == |text| && text[..e] == text && text[e..] == "";
    assert SumSegments([text]) == SegmentTokens(text) + SumSegments([]);
  }

  /** What a gap costs: one token, and one more for each newline. */
  lemma {:induction false} GapTokens(gap: string)
    requires Uniform(gap) && IsSpace(gap[0])
    ensures TokensOf(gap) == 1 + multiset(gap)['\n']
  {
    OneSegment(gap);
    NewlineCount(gap);
  }

  lemma {:induction false} NewlineCount(s: string)
    ensures Count(IsNewline, s) == multiset(s)['\n']
  {
    if s != "" {
      NewlineCount(s[1..]);
      assert s == [s[0]] + s[1..];
    }
  }

  /** What a word costs: one token to 4 characters, two to 8, three to 14. Beyond that a word of letters costs a
      token for every 4 characters begun, and a word without letters one for every 3. */
  lemma {:induction false} WordTokens(word: string)
    requires Uniform(word) && !IsSpace(word[0])
    ensures |word| <= 4 ==> TokensOf(word) == 1
    ensures 4 < |word| <= 8 ==> TokensOf(word) == 2
    ensures 8 < |word| <= 14 ==> TokensOf(word) == 3
    ensures
      |word| > 14 && (forall c | c in word :: 'a' <= c <= 'z' || 'A' <= c <= 'Z') ==>
        4 * (TokensOf(word) - 1) < |word| <= 4 * TokensOf(word)
    ensures
      |word| > 14 && (forall c | c in word :: !('a' <= c <= 'z' || 'A' <= c <= 'Z')) ==>
        3 * (TokensOf(word) - 1) < |word| <= 3 * TokensOf(word)
  {
    OneSegment(word);
    if |word| > 14 && forall c | c in word :: 'a' <= c <= 'z' || 'A' <= c <= 'Z' {
      CountAllIn(IsNonAlpha, word, false);
    }
    if |word| > 14 && forall c | c in word :: !('a' <= c <= 'z' || 'A' <= c <= 'Z') {
      CountAllIn(IsNonAlpha, word, true);
    }
  }

  /** Between the two, a long word counts as dense exactly when more than a quarter of it is not letters. */
  lemma {:induction false} LongWordTokens(letters: string, others: string)
    requires forall c | c in letters :: 'a' <= c <= 'z' || 'A' <= c <= 'Z'
    requires forall c | c in others :: !('a' <= c <= 'z' || 'A' <= c <= 'Z') && !IsSpace(c)
    requires |letters| + |others| > 14
    ensures
      var t := TokensOf(letters + others);
      if 3 * |others| > |letters|
      then 3 * (t - 1) < |letters| + |others| <= 3 * t
      else 4 * (t - 1) < |letters| + |others| <= 4 * t
  {
    var word := letters + others;
    forall i | 0 <= i < |word|
      ensures !IsSpace(word[i])
    {
      assert word[i] in letters || word[i] in others;
    }
    OneSegment(word);
    CountConcat(IsNonAlpha, letters, others);
    CountAllIn(IsNonAlpha, letters, false);
    CountAllIn(IsNonAlpha, others, true);
  }

  // ------------------------------------------------------------ lists of messages

  function MessageTokens(m: Message): nat {
    TokensOf(m.content) + MESSAGE_OVERHEAD
  }

  function Cost(messages: seq<Message>): nat {
    if messages == [] then 0 else MessageTokens(messages[0]) + Cost(messages[1..])
  }

  lemma {:induction false} CostConcat(a: seq<Message>, b: seq<Message>)
    ensures Cost(a + b) == Cost(a) + Cost(b)
  {
    if a == [] {
      assert a + b == b;
    } else {
      assert (a + b)[1..] == a[1..] + b;
      CostConcat(a[1..], b);
    }
  }

  lemma {:induction false} CostAtLeastOverhead(messages: seq<Message>)
    ensures Cost(messages) >= MESSAGE_OVERHEAD * |messages|
  {
    if messages != [] {
      CostAtLeastOverhead(messages[1..]);
    }
  }

  /** A message costs what its text costs and 4 more. */
  lemma CostOfOne(m: Message)
    ensures Cost([m]) == TokensOf(m.content) + 4 && Cost([]) == 0
  {
  }

  method EstimateMessagesTokens(messages: seq<Message>) returns (total: nat)
    ensures total == Cost(messages)
  {
    total := 0;
    for i := 0 to |messages|
      invariant total == Cost(messages[..i])
    {
      var t := EstimateTokens(messages[i].content);
      total := total + t;
      total := total + MESSAGE_OVERHEAD;
      CostConcat(messages[..i], [messages[i]]);
      assert messages[..i + 1] == messages[..i] + [messages[i]];
    }
    assert messages[..|messages|] == messages;
  }
}

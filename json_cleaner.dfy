/** The defensive cleaner `clean_json_response` of test_json_parsing.py: it trims a
    generated reply, drops a Markdown code fence around it and cuts out the span from
    the first `{` to the last `}`. */
module JsonCleaner {
  import opened PyStr

  const JsonFence: string := "```json"
  const Fence: string := "```"

  /** The leading-marker step: exactly one of "```json", "```" or nothing is cut off
      the front, the longest one the text starts with. */
  function DropLeadingFence(s: string): (r: string)
    ensures |r| <= |s| && r == s[|s| - |r|..]
    ensures s[..|s| - |r|] in {JsonFence, Fence, ""}
    ensures StartsWith(s, JsonFence) <==> |s| - |r| == |JsonFence|
    ensures StartsWith(s, Fence) <==> |s| - |r| != 0
  {
    if StartsWith(s, JsonFence) then s[7..]
    else if StartsWith(s, Fence) then s[3..]
    else s
  }

  /** The trailing-marker step: a closing "```" is cut off the end, nothing else. */
  function DropTrailingFence(s: string): (r: string)
    ensures |r| <= |s| && r == s[..|r|]
    ensures s[|r|..] in {Fence, ""}
    ensures EndsWith(s, Fence) <==> |r| < |s|
  {
    if EndsWith(s, Fence) then s[..|s| - 3] else assert s[|s|..] == []; s
  }

  /** Some `}` comes after the first `{`. */
  ghost predicate ClosesAfterOpen(s: string)
  {
    exists i, j :: 0 <= i < j < |s| && s[i] == '{' && s[j] == '}'
  }

  /** `r` runs from the first `{` of `s` through the last `}` of `s`, both included. */
  ghost predicate FirstOpenToLastClose(r: string, s: string)
  {
    exists i, j :: 0 <= i < j < |s| && r == s[i..j + 1]
      && s[i] == '{' && (forall k :: 0 <= k < i ==> s[k] != '{')
      && s[j] == '}' && (forall k :: j < k < |s| ==> s[k] != '}')
  }

  /** The brace step, `content[json_start:json_end]` with `json_end = rfind('}') + 1`. */
  function BraceSlice(s: string): (r: string)
  {
    var jsonStart := Find(s, '{');
    var jsonEnd := RFind(s, '}') + 1;
    if jsonStart != -1 && jsonEnd != -1 then PySlice(s, jsonStart, jsonEnd) else s
  }

  /** What the brace step keeps. The end index `rfind('}') + 1` is never -1, so a text
      with a `{` and no `}` after it becomes empty instead of being left alone. */
  lemma BraceSliceShape(s: string)
    ensures IsSliceOf(BraceSlice(s), s)
    ensures '{' !in s ==> BraceSlice(s) == s
    ensures '{' in s && !ClosesAfterOpen(s) ==> BraceSlice(s) == []
    ensures ClosesAfterOpen(s) ==>
      && FirstOpenToLastClose(BraceSlice(s), s)
      && BraceSlice(s)[0] == '{' && BraceSlice(s)[|BraceSlice(s)| - 1] == '}'
  {
    var jsonStart := Find(s, '{');
    var jsonEnd := RFind(s, '}') + 1;
    var r := BraceSlice(s);
    if jsonStart == -1 {
      assert '{' !in s;
      assert r == s[0..|s|];
    } else if jsonStart < jsonEnd {
      assert ClosesAfterOpen(s) by {
        assert s[jsonStart] == '{' && s[jsonEnd - 1] == '}';
        assert jsonStart != jsonEnd - 1;
      }
      assert r == s[jsonStart..jsonEnd] && r[0] == s[jsonStart];
    } else {
      assert '{' in s by { assert s[jsonStart] == '{'; }
      assert !ClosesAfterOpen(s);
      assert r == s[0..0];
    }
  }

  /** The text once both markers are cut and it has been trimmed a second time. */
  function Retrimmed(s: string): (r: string)
  {
    Strip(DropTrailingFence(DropLeadingFence(Strip(s))))
  }

  /** `clean_json_response(content)` */
  function CleanJson(s: string): (cleaned: string)
  {
    BraceSlice(Retrimmed(s))
  }

  /** The cleaner as the source writes it, rebinding the content step by step. */
  method CleanJsonResponse(content: string) returns (cleaned: string)
    ensures cleaned == CleanJson(content)
    ensures IsSliceOf(cleaned, content) && NoOuterSpace(cleaned)
  {
    var c := Strip(content);
    ghost var trimmed := c;
    if StartsWith(c, JsonFence) {
      c := c[7..];
      assert c == DropLeadingFence(trimmed);
    } else if StartsWith(c, Fence) {
      c := c[3..];
      assert c == DropLeadingFence(trimmed);
    }
    ghost var unfenced := c;
    assert unfenced == DropLeadingFence(trimmed);
    if EndsWith(c, Fence) {
      c := c[..|c| - 3];
    }
    assert c == DropTrailingFence(unfenced);
    c := Strip(c);
    ghost var retrimmed := c;
    assert retrimmed == Retrimmed(content);
    var jsonStart := Find(c, '{');
    var jsonEnd := RFind(c, '}') + 1;
    if jsonStart != -1 && jsonEnd != -1 {
      c := PySlice(c, jsonStart, jsonEnd);
    }
    cleaned := c;
    assert cleaned == BraceSlice(retrimmed);
    assert cleaned == CleanJson(content);
    CleanJsonIsSlice(content);
    CleanJsonNoOuterSpace(content);
  }

  /** Cutting the two markers leaves a contiguous piece of the text. */
  lemma FenceStepsSlice(a: string)
    ensures IsSliceOf(DropTrailingFence(DropLeadingFence(a)), a)
  {
    var b := DropLeadingFence(a);
    var c := DropTrailingFence(b);
    assert c == a[|a| - |b|..|a| - |b| + |c|];
  }

  /** The cleaned text is one contiguous piece of the reply, so never longer. */
  lemma CleanJsonIsSlice(s: string)
    ensures IsSliceOf(CleanJson(s), s) && |CleanJson(s)| <= |s|
  {
    var a := Strip(s);
    var c := DropTrailingFence(DropLeadingFence(a));
    var d := Strip(c);
    StripTrims(s);
    StripTrims(c);
    FenceStepsSlice(a);
    SliceOfSlice(c, a, s);
    SliceOfSlice(d, c, s);
    BraceSliceShape(d);
    SliceOfSlice(BraceSlice(d), d, s);
  }

  lemma BraceSliceNoOuterSpace(t: string)
    requires NoOuterSpace(t)
    ensures NoOuterSpace(BraceSlice(t))
  {
    BraceSliceShape(t);
  }

  /** The cleaned text never starts or ends with whitespace. */
  lemma CleanJsonNoOuterSpace(s: string)
    ensures NoOuterSpace(CleanJson(s))
  {
    StripTrims(DropTrailingFence(DropLeadingFence(Strip(s))));
    BraceSliceNoOuterSpace(Retrimmed(s));
  }

  /** Trimming a text padded with whitespace gives back the text. */
  lemma StripPadded(p: string, m: string, q: string)
    requires AllSpace(p) && AllSpace(q) && NoOuterSpace(m)
    ensures Strip(p + m + q) == m
  {
    var s := p + m + q;
    assert s[|p|..|p| + |m|] == m;
    forall k | 0 <= k < |s| && !(|p| <= k < |p| + |m|)
      ensures IsSpace(s[k])
    {
      if k < |p| {
        assert s[k] == p[k];
      } else {
        assert s[k] == q[k - |p| - |m|];
      }
    }
    StripUnique(s, |p|, |p| + |m|);
  }

  /** Whitespace put around a text keeps whitespace outside the same positions. */
  lemma SpaceOutsidePadded(p: string, x: string, q: string, a: int, b: int)
    requires AllSpace(p) && AllSpace(q) && 0 <= a <= b <= |x| && SpaceOutside(x, a, b)
    ensures SpaceOutside(p + x + q, |p| + a, |p| + b)
  {
    var s := p + x + q;
    forall k | 0 <= k < |s| && !(|p| + a <= k < |p| + b)
      ensures IsSpace(s[k])
    {
      if k < |p| {
        assert s[k] == p[k];
      } else if k < |p| + |x| {
        assert s[k] == x[k - |p|];
      } else {
        assert s[k] == q[k - |p| - |x|];
      }
    }
  }

  /** The positions `a..b` of `x` are the positions `|p| + a..|p| + b` of `p + x + q`. */
  lemma SliceOfPadded(p: string, x: string, q: string, a: int, b: int)
    requires 0 <= a <= b <= |x|
    ensures (p + x + q)[|p| + a..|p| + b] == x[a..b]
  {
    var s := p + x + q;
    forall k | 0 <= k < b - a
      ensures s[|p| + a..|p| + b][k] == x[a..b][k]
    {
      assert s[|p| + a + k] == x[a + k];
    }
  }

  /** `strip()` gives the same text once more whitespace is put around it. */
  lemma StripIgnoresPadding(p: string, x: string, q: string)
    requires AllSpace(p) && AllSpace(q)
    ensures Strip(p + x + q) == Strip(x)
  {
    StripScans(x);
    var a, b := StripStart(x), StripEnd(x);
    SpaceOutsidePadded(p, x, q, a, b);
    SliceOfPadded(p, x, q, a, b);
    StripUnique(p + x + q, |p| + a, |p| + b);
  }

  /** Whitespace around a reply never changes what it cleans to: the first step trims
      it away. */
  lemma CleanJsonIgnoresPadding(p: string, x: string, q: string)
    requires AllSpace(p) && AllSpace(q)
    ensures CleanJson(p + x + q) == CleanJson(x)
  {
    StripIgnoresPadding(p, x, q);
  }

  /** The brace step cuts out an object set between prose that holds no `{` before it
      and no `}` after it. */
  lemma BraceSliceWrapped(p: string, m: string, q: string)
    requires '{' !in p && '}' !in q
    requires |m| >= 2 && m[0] == '{' && m[|m| - 1] == '}'
    ensures BraceSlice(p + m + q) == m
  {
    var s := p + m + q;
    var jsonStart := Find(s, '{');
    var jsonEnd := RFind(s, '}') + 1;
    assert s[|p|] == '{' && s[|p| + |m| - 1] == '}';
    assert s[|p|..|p| + |m|] == m;
  }

  /** An object: it opens with `{` and closes with `}`. */
  predicate ObjectShaped(m: string)
  {
    |m| >= 2 && m[0] == '{' && m[|m| - 1] == '}'
  }

  /** A fenced text opens with a "```json" fence only when its own fence is one, or
      its body starts with "json". */
  lemma OpensWithJsonFence(fence: string, inner: string)
    requires fence == JsonFence || fence == Fence
    requires !StartsWith(inner, "json")
    ensures StartsWith(fence + inner + Fence, JsonFence) <==> fence == JsonFence
  {
    var s := fence + inner + Fence;
    if fence == JsonFence {
      assert s[..7] == JsonFence;
    } else if |s| >= 7 {
      var head := s[..7];
      if |inner| < 4 {
        var k := 3 + |inner|;
        assert head[k] == s[k] == Fence[0];
        assert JsonFence[k] != Fence[0];
      } else {
        assert head[3..7] == inner[..4];
        assert JsonFence[3..7] == "json";
      }
    }
  }

  /** A body whose first character is not `j` does not start with "json". */
  lemma NotJsonTagged(inner: string)
    requires inner != [] && inner[0] != 'j'
    ensures !StartsWith(inner, "json")
  {
    if |inner| >= 4 {
      assert inner[..4][0] == inner[0];
    }
  }

  /** A fenced text begins and ends with a backtick, so the first trim keeps it. */
  lemma FencedTextTrimmed(fence: string, inner: string)
    requires fence == JsonFence || fence == Fence
    ensures Strip(fence + inner + Fence) == fence + inner + Fence
  {
    var s := fence + inner + Fence;
    assert s[0] == '`' && s[|s| - 1] == '`';
    assert SpaceOutside(s, 0, |s|) && s[0..|s|] == s;
    StripUnique(s, 0, |s|);
  }

  /** Both fences come off a fenced text, and nothing else does. */
  lemma FencesDropped(fence: string, inner: string)
    requires fence == JsonFence || fence == Fence
    requires !StartsWith(inner, "json")
    ensures Strip(fence + inner + Fence) == fence + inner + Fence
    ensures DropTrailingFence(DropLeadingFence(fence + inner + Fence)) == inner
  {
    FencedTextTrimmed(fence, inner);
    OpeningFenceDropped(fence, inner);
    ClosingFenceDropped(inner);
  }

  lemma OpeningFenceDropped(fence: string, inner: string)
    requires fence == JsonFence || fence == Fence
    requires !StartsWith(inner, "json")
    ensures DropLeadingFence(fence + inner + Fence) == inner + Fence
  {
    var s := fence + inner + Fence;
    OpensWithJsonFence(fence, inner);
    assert s[|fence|..] == inner + Fence;
    if fence == Fence {
      assert s[..3] == Fence;
    }
  }

  lemma ClosingFenceDropped(inner: string)
    ensures DropTrailingFence(inner + Fence) == inner
  {
    var rest := inner + Fence;
    assert rest[|inner|..] == Fence;
    assert rest[..|inner|] == inner;
  }

  /** The brace step keeps an object that is the whole text. */
  lemma BraceSliceWhole(m: string)
    requires ObjectShaped(m)
    ensures BraceSlice(m) == m
  {
    assert [] + m + [] == m;
    BraceSliceWrapped([], m, []);
  }

  /** An object fenced as ```json ... ``` or ``` ... ```, with any whitespace between
      the fences and the object, cleans to the object. */
  lemma FencedObjectCleans(fence: string, lead: string, m: string, trail: string)
    requires fence == JsonFence || fence == Fence
    requires AllSpace(lead) && AllSpace(trail) && ObjectShaped(m)
    ensures CleanJson(fence + (lead + m + trail) + Fence) == m
  {
    var inner := lead + m + trail;
    var s := fence + inner + Fence;
    assert inner[0] == if lead == [] then m[0] else lead[0];
    NotJsonTagged(inner);
    calc {
      CleanJson(s);
      BraceSlice(Strip(DropTrailingFence(DropLeadingFence(Strip(s)))));
      { FencesDropped(fence, inner); }
      BraceSlice(Strip(inner));
      { StripPadded(lead, m, trail); }
      BraceSlice(m);
      { BraceSliceWhole(m); }
      m;
    }
  }

  /** An object with prose around it cleans to the object, as long as the prose before
      holds no `{`, the prose after holds no `}`, and no fence or whitespace frames the
      whole reply. */
  lemma ProseWrappedObjectCleans(before: string, m: string, after: string)
    requires '{' !in before && '}' !in after && ObjectShaped(m)
    requires NoOuterSpace(before + m + after)
    requires !StartsWith(before + m + after, Fence) && !EndsWith(before + m + after, Fence)
    ensures CleanJson(before + m + after) == m
  {
    var s := before + m + after;
    StripPadded([], s, []);
    assert [] + s + [] == s;
    assert DropLeadingFence(s) == s;
    assert DropTrailingFence(s) == s;
    BraceSliceWrapped(before, m, after);
  }

  /** A fenced object cleans to the object whatever whitespace surrounds the fences and
      whatever whitespace lies between the fences and the object. */
  lemma PaddedFencedObjectCleans(outerLead: string, fence: string, lead: string, m: string,
                                 trail: string, outerTrail: string)
    requires fence == JsonFence || fence == Fence
    requires AllSpace(outerLead) && AllSpace(outerTrail)
    requires AllSpace(lead) && AllSpace(trail) && ObjectShaped(m)
    ensures CleanJson(outerLead + (fence + (lead + m + trail) + Fence) + outerTrail) == m
  {
    CleanJsonIgnoresPadding(outerLead, fence + (lead + m + trail) + Fence, outerTrail);
    FencedObjectCleans(fence, lead, m, trail);
  }

  /** An object in prose cleans to the object whatever whitespace surrounds the reply,
      as long as the prose before holds no `{`, the prose after holds no `}`, and the
      trimmed reply neither starts nor ends with a fence. */
  lemma PaddedProseWrappedObjectCleans(lead: string, before: string, m: string, after: string,
                                       trail: string)
    requires AllSpace(lead) && AllSpace(trail)
    requires '{' !in before && '}' !in after && ObjectShaped(m)
    requires NoOuterSpace(before + m + after)
    requires !StartsWith(before + m + after, Fence) && !EndsWith(before + m + after, Fence)
    ensures CleanJson(lead + (before + m + after) + trail) == m
  {
    CleanJsonIgnoresPadding(lead, before + m + after, trail);
    ProseWrappedObjectCleans(before, m, after);
  }

  /** The cleaned form the four sample replies must reach: `{"test": "value"}`. */
  const SampleJson: string := "{\"test\": \"value\"}"

  /** Sample 1, the reply fenced as ```json ... ```, one newline inside each fence. */
  const JsonFencedReply: string := JsonFence + ("\n" + SampleJson + "\n") + Fence

  /** Sample 2, the object between "Here is the JSON:" plus a newline and a newline
      plus "That's it!". */
  const ProseWrappedReply: string := "Here is the JSON:\n" + SampleJson + "\nThat's it!"

  /** Sample 3, the bare object. */
  const PlainReply: string := SampleJson

  /** Sample 4, the reply fenced as ``` ... ``` with no language tag. */
  const BareFencedReply: string := Fence + ("\n" + SampleJson + "\n") + Fence

  lemma JsonFencedSample()
    ensures CleanJson(JsonFencedReply) == SampleJson
  {
    FencedObjectCleans(JsonFence, "\n", SampleJson, "\n");
  }

  lemma ProseWrappedSample()
    ensures CleanJson(ProseWrappedReply) == SampleJson
  {
    var before, after := "Here is the JSON:\n", "\nThat's it!";
    var s := ProseWrappedReply;
    assert s[..3] == before[..3] && s[|s| - 3..] == after[|after| - 3..];
    ProseWrappedObjectCleans(before, SampleJson, after);
  }

  lemma PlainSample()
    ensures CleanJson(PlainReply) == SampleJson
  {
    assert [] + SampleJson + [] == SampleJson;
    ProseWrappedObjectCleans([], SampleJson, []);
  }

  lemma BareFencedSample()
    ensures CleanJson(BareFencedReply) == SampleJson
  {
    FencedObjectCleans(Fence, "\n", SampleJson, "\n");
  }
}

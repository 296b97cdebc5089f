/** The few Python string operations the pipeline relies on, over `seq<char>`:
    `needle in hay`, `sep.join(parts)`, slicing `s[:n]` and `str.strip()`. */
module Text {

  /** Python's `needle in hay` on strings: `needle` occurs as a contiguous
      slice of `hay` (the empty string occurs in every string). */
  predicate Contains(hay: string, needle: string)
    decreases |hay|
  {
    if |hay| < |needle| then false
    else hay[..|needle|] == needle || (|hay| > 0 && Contains(hay[1..], needle))
  }

  /** A string contains any string it starts with. */
  lemma ContainsPrefix(needle: string, rest: string)
    ensures Contains(needle + rest, needle)
  {
    assert (needle + rest)[..|needle|] == needle;
  }

  /** `in` is a substring test: `needle` is found wherever it sits in `hay`,
      not only at the front. */
  lemma {:induction false} ContainsInfix(before: string, needle: string, after: string)
    ensures Contains(before + needle + after, needle)
    decreases |before|
  {
    if before == [] {
      assert before + needle + after == needle + after;
      ContainsPrefix(needle, after);
    } else {
      ContainsInfix(before[1..], needle, after);
      assert (before + needle + after)[1..] == before[1..] + needle + after;
    }
  }

  /** Conversely, `in` finds nothing that is not there: when it holds,
      `needle` occurs at some position of `hay`. */
  lemma {:induction false} ContainsOccurs(hay: string, needle: string) returns (at: nat)
    requires Contains(hay, needle)
    ensures at + |needle| <= |hay| && hay[at..at + |needle|] == needle
    decreases |hay|
  {
    if hay[..|needle|] == needle {
      at := 0;
    } else {
      var later := ContainsOccurs(hay[1..], needle);
      assert hay[1..][later..later + |needle|] == hay[later + 1..later + 1 + |needle|];
      at := later + 1;
    }
  }

  /** `needle` sits in `hay` starting at position `i`. */
  predicate OccursAt(hay: string, needle: string, i: nat)
  {
    i + |needle| <= |hay| && hay[i..i + |needle|] == needle
  }

  /** `needle in hay` holds exactly when `needle` occurs at some position of
      `hay`. */
  lemma ContainsIffOccurs(hay: string, needle: string)
    ensures Contains(hay, needle) <==> exists i: nat :: OccursAt(hay, needle, i)
  {
    if Contains(hay, needle) {
      var at := ContainsOccurs(hay, needle);
      assert OccursAt(hay, needle, at);
    }
    if exists i: nat :: OccursAt(hay, needle, i) {
      var i: nat :| OccursAt(hay, needle, i);
      assert hay == hay[..i] + needle + hay[i + |needle|..];
      ContainsInfix(hay[..i], needle, hay[i + |needle|..]);
    }
  }

  /** Sum of the lengths of `parts`. */
  function TotalLength(parts: seq<string>): nat
  {
    if parts == [] then 0 else |parts[0]| + TotalLength(parts[1..])
  }

  /** Python's `sep.join(parts)`: the parts in order, with `sep` between
      neighbours and nowhere else. */
  function Join(parts: seq<string>, sep: string): (r: string)
    ensures |r| == TotalLength(parts) + (if parts == [] then 0 else (|parts| - 1) * |sep|)
  {
    if parts == [] then ""
    else if |parts| == 1 then parts[0]
    else parts[0] + sep + Join(parts[1..], sep)
  }

  /** Joining the first `k` parts gives a prefix of joining all of them. */
  lemma {:induction false} JoinOfPrefixIsPrefix(parts: seq<string>, k: nat, sep: string)
    requires k <= |parts|
    ensures Join(parts[..k], sep) <= Join(parts, sep)
  {
    if k == 0 {
    } else if k == 1 {
      assert parts[..1] == [parts[0]];
      if |parts| > 1 {
        assert Join(parts, sep) == parts[0] + (sep + Join(parts[1..], sep));
      }
    } else {
      JoinOfPrefixIsPrefix(parts[1..], k - 1, sep);
      assert parts[..k][1..] == parts[1..][..k - 1];
      assert Join(parts[..k], sep) == parts[0] + sep + Join(parts[1..][..k - 1], sep);
    }
  }

  /** Three parts joined: each separated from the next by `sep`. */
  lemma JoinOfThree(a: string, b: string, c: string, sep: string)
    ensures Join([a, b, c], sep) == a + sep + b + sep + c
  {
    assert [b, c][1..] == [c];
    assert Join([b, c], sep) == b + sep + c;
    assert [a, b, c][1..] == [b, c];
    assert Join([a, b, c], sep) == a + sep + (b + sep + c);
  }

  /** Every part occurs in the joined string. */
  lemma {:induction false} JoinContainsPart(parts: seq<string>, sep: string, i: nat)
    requires i < |parts|
    ensures Contains(Join(parts, sep), parts[i])
  {
    if |parts| == 1 {
      assert Join(parts, sep) == [] + parts[0] + [];
      ContainsInfix([], parts[0], []);
    } else if i == 0 {
      assert Join(parts, sep) == [] + parts[0] + (sep + Join(parts[1..], sep));
      ContainsInfix([], parts[0], sep + Join(parts[1..], sep));
    } else {
      JoinContainsPart(parts[1..], sep, i - 1);
      ContainsAfter(parts[0] + sep, Join(parts[1..], sep), parts[i]);
    }
  }

  /** A string found in `b` is found in `a + b`. */
  lemma {:induction false} ContainsAfter(a: string, b: string, needle: string)
    requires Contains(b, needle)
    ensures Contains(a + b, needle)
    decreases |a|
  {
    assert |needle| <= |b|;
    if a != [] {
      ContainsAfter(a[1..], b, needle);
      assert (a + b)[1..] == a[1..] + b;
      assert |a + b| > 0 && Contains((a + b)[1..], needle);
    } else {
      assert a + b == b;
    }
  }

  /** Python's slice `s[:n]`: the first `n` elements, or all of `s` when it
      is shorter. */
  function Take<T>(s: seq<T>, n: nat): (r: seq<T>)
    ensures |r| == if |s| < n then |s| else n
    ensures r <= s
  {
    if |s| <= n then s else s[..n]
  }

  /** Python's `str.isspace()` for one character: the characters that
      `str.strip()` with no argument removes. */
  predicate IsSpace(c: char)
  {
    || c == ' ' || '\t' <= c <= '\r' || '\U{1C}' <= c <= '\U{1F}'
    || c == '\U{85}' || c == '\U{A0}' || c == '\U{1680}' || '\U{2000}' <= c <= '\U{200A}'
    || c == '\U{2028}' || c == '\U{2029}' || c == '\U{202F}' || c == '\U{205F}' || c == '\U{3000}'
  }

  predicate AllSpace(s: string)
  {
    forall k :: 0 <= k < |s| ==> IsSpace(s[k])
  }

  /** The first index at or after `from` that does not hold whitespace
      (or `|s|`): everything skipped is whitespace. */
  function SkipSpaceForward(s: string, from: nat): (i: nat)
    requires from <= |s|
    ensures from <= i <= |s|
    ensures forall k :: from <= k < i ==> IsSpace(s[k])
    ensures i < |s| ==> !IsSpace(s[i])
    decreases |s| - from
  {
    if from < |s| && IsSpace(s[from]) then SkipSpaceForward(s, from + 1) else from
  }

  /** The end of `s[lo..upto]` once its trailing whitespace is dropped:
      everything dropped is whitespace, and the character before the new
      end (if it is past `lo`) is not. */
  function SkipSpaceBackward(s: string, lo: nat, upto: nat): (j: nat)
    requires lo <= upto <= |s|
    ensures lo <= j <= upto
    ensures forall k :: j <= k < upto ==> IsSpace(s[k])
    ensures j > lo ==> !IsSpace(s[j - 1])
    decreases upto
  {
    if upto > lo && IsSpace(s[upto - 1]) then SkipSpaceBackward(s, lo, upto - 1) else upto
  }

  /** Where the text `strip()` keeps starts. */
  function StripStart(s: string): nat
  {
    SkipSpaceForward(s, 0)
  }

  /** Where the text `strip()` keeps ends. */
  function StripEnd(s: string): nat
  {
    SkipSpaceBackward(s, SkipSpaceForward(s, 0), |s|)
  }

  /** `s.strip()`: `s` without its leading and trailing whitespace. */
  function Strip(s: string): (r: string)
    ensures r == [] || (!IsSpace(r[0]) && !IsSpace(r[|r| - 1]))
    ensures r == [] <==> AllSpace(s)
  {
    var from := SkipSpaceForward(s, 0);
    var to := SkipSpaceBackward(s, from, |s|);
    s[from..to]
  }

  lemma AllSpaceSlice(s: string, from: nat, to: nat)
    requires from <= to <= |s|
    requires forall k :: from <= k < to ==> IsSpace(s[k])
    ensures AllSpace(s[from..to])
  {
    assert forall k :: 0 <= k < to - from ==> s[from..to][k] == s[from + k];
  }

  /** `strip()` removes whitespace at both ends and nothing else: the result
      is the slice of `s` between an all-whitespace start and an
      all-whitespace end, and it neither starts nor ends with whitespace. */
  lemma StripRemovesOnlyOuterSpace(s: string)
    ensures var from, to := StripStart(s), StripEnd(s);
            && from <= to <= |s|
            && Strip(s) == s[from..to]
            && AllSpace(s[..from]) && AllSpace(s[to..])
            && (Strip(s) == [] || (!IsSpace(Strip(s)[0]) && !IsSpace(Strip(s)[|Strip(s)| - 1])))
  {
    var from, to := StripStart(s), StripEnd(s);
    AllSpaceSlice(s, 0, from);
    assert s[0..from] == s[..from];
    AllSpaceSlice(s, to, |s|);
    assert s[to..|s|] == s[to..];
  }

  /** `strip()` undoes padding a string (that neither starts nor ends with
      whitespace) with whitespace on either side. */
  lemma StripOfPadded(before: string, s: string, after: string)
    requires AllSpace(before) && AllSpace(after)
    requires s == [] || (!IsSpace(s[0]) && !IsSpace(s[|s| - 1]))
    ensures Strip(before + s + after) == s
  {
    var whole := before + s + after;
    assert forall k :: 0 <= k < |before| ==> whole[k] == before[k];
    assert forall k :: 0 <= k < |after| ==> whole[|before| + |s| + k] == after[k];
    var from := SkipSpaceForward(whole, 0);
    var to := SkipSpaceBackward(whole, from, |whole|);
    if s == [] {
      assert from == |whole|;
    } else {
      assert whole[|before|] == s[0];
      assert from == |before|;
      assert whole[|before| + |s| - 1] == s[|s| - 1];
      assert to == |before| + |s|;
      assert whole[from..to] == s;
    }
  }
}

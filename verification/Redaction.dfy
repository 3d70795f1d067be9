/**
 Keeping configuration values out of command output: a one-shot replacement, and a writer
 that must agree with it for every way the output is cut into chunks. Text is bytes.
*/
module Redaction {
  import opened Ordering

  const MARK := "<redacted>"

  // ---------- one replacement ----------

  /** Leftmost matches, one after the other. */
  function ReplaceAll(text: string, value: string): string
    requires value != ""
  {
    if text == "" then ""
    else if value <= text then MARK + ReplaceAll(text[|value|..], value)
    else [text[0]] + ReplaceAll(text[1..], value)
  }

  predicate Plain(s: string) {
    '<' !in s && '>' !in s
  }

  predicate EndsWith(s: string, tail: string) {
    |tail| <= |s| && s[|s| - |tail|..] == tail
  }

  /** `value` starts in `a` and ends in `b`. */
  ghost predicate Straddles(a: string, b: string, value: string) {
    exists k | 0 < k < |value| :: EndsWith(a, value[..k]) && value[k..] <= b
  }

  /** A cut no match goes across can be made before or after replacing. */
  lemma {:induction false} ReplaceSplits(a: string, b: string, value: string)
    requires value != "" && !Straddles(a, b, value)
    ensures ReplaceAll(a + b, value) == ReplaceAll(a, value) + ReplaceAll(b, value)
  {
    if a == "" {
      assert a + b == b;
    } else if value <= a {
      assert value <= a + b && (a + b)[|value|..] == a[|value|..] + b;
      TailDoesNotStraddle(a, b, value, |value|);
      ReplaceSplits(a[|value|..], b, value);
    } else {
      if value <= a + b {
        LateMatchStraddles(a, b, value);
      }
      assert (a + b)[1..] == a[1..] + b;
      TailDoesNotStraddle(a, b, value, 1);
      ReplaceSplits(a[1..], b, value);
    }
  }

  lemma LateMatchStraddles(a: string, b: string, value: string)
    requires a != "" && !(value <= a) && value <= a + b
    ensures Straddles(a, b, value)
  {
    var k := |a|;
    assert value[..k] == (a + b)[..k] == a && a[|a| - k..] == a;
    assert value[k..] == (a + b)[k..|value|] == b[..|value| - k];
  }

  lemma TailDoesNotStraddle(a: string, b: string, value: string, n: nat)
    requires !Straddles(a, b, value) && n <= |a|
    ensures !Straddles(a[n..], b, value)
  {
    forall k | 0 < k < |value| && EndsWith(a[n..], value[..k])
      ensures !(value[k..] <= b)
    {
      assert a[|a| - k..] == a[n..][|a| - n - k..];
      assert EndsWith(a, value[..k]);
    }
  }

  /** What precedes the first mark was there before. */
  lemma {:induction false} HeadIsOriginal(text: string, value: string, head: string)
    requires value != "" && Plain(head) && head <= ReplaceAll(text, value)
    ensures head <= text
  {
    if head != "" {
      assert head[0] == ReplaceAll(text, value)[0];
      assert head[0] in head;
      assert head[1..] <= ReplaceAll(text[1..], value);
      HeadIsOriginal(text[1..], value, head[1..]);
    }
  }

  lemma MarkShows(text: string, value: string)
    requires value != "" && value <= text
    ensures '<' in ReplaceAll(text, value)
  {
    assert ReplaceAll(text, value)[0] == MARK[0];
  }

  lemma {:induction false} UnmarkedIsOriginal(text: string, value: string)
    requires value != "" && Plain(ReplaceAll(text, value))
    ensures ReplaceAll(text, value) == text
  {
    if text != "" {
      if value <= text {
        MarkShows(text, value);
      } else {
        assert ReplaceAll(text, value)[1..] == ReplaceAll(text[1..], value);
        UnmarkedIsOriginal(text[1..], value);
      }
    }
  }

  lemma LongTailShowsMark(rest: string, tail: string)
    requires EndsWith(MARK + rest, tail) && |tail| > |rest|
    ensures '>' in tail
  {
    var all := MARK + rest;
    assert all[|MARK| - 1] == '>';
    assert tail[|tail| - |rest| - 1] == all[|MARK| - 1];
  }

  lemma TailAfterMark(rest: string, tail: string)
    requires Plain(tail) && EndsWith(MARK + rest, tail)
    ensures EndsWith(rest, tail)
  {
    if |tail| > |rest| {
      LongTailShowsMark(rest, tail);
    } else {
      assert rest[|rest| - |tail|..] == (MARK + rest)[|MARK| + |rest| - |tail|..];
    }
  }

  lemma EndsWithMore(a: string, b: string, tail: string)
    requires EndsWith(b, tail)
    ensures EndsWith(a + b, tail)
  {
  }

  /** What follows the last mark was there before. */
  lemma {:induction false} TailIsOriginal(text: string, value: string, tail: string)
    requires value != "" && Plain(tail) && EndsWith(ReplaceAll(text, value), tail)
    ensures EndsWith(text, tail)
  {
    if text == "" {
    } else if value <= text {
      var rest := text[|value|..];
      TailAfterMark(ReplaceAll(rest, value), tail);
      TailIsOriginal(rest, value, tail);
      EndsWithMore(text[..|value|], rest, tail);
      assert text == text[..|value|] + rest;
    } else {
      var rest := ReplaceAll(text[1..], value);
      var all := ReplaceAll(text, value);
      assert all == [text[0]] + rest;
      if |tail| <= |rest| {
        assert rest[|rest| - |tail|..] == all[|all| - |tail|..];
        TailIsOriginal(text[1..], value, tail);
        EndsWithMore([text[0]], text[1..], tail);
        assert text == [text[0]] + text[1..];
      } else {
        assert tail == all;
        UnmarkedIsOriginal(text, value);
      }
    }
  }

  // ---------- replacing several values ----------

  function ReplaceEach(text: string, values: seq<string>): string
    requires "" !in values
    decreases |values|
  {
    if values == [] then text else ReplaceEach(ReplaceAll(text, values[0]), values[1..])
  }

  /** No match of any of the values goes across the cut. */
  ghost predicate Clean(a: string, b: string, values: set<string>) {
    forall value | value in values :: !Straddles(a, b, value)
  }

  lemma ReplacingStaysClean(a: string, b: string, value: string, other: string)
    requires value != "" && Plain(other) && !Straddles(a, b, other)
    ensures !Straddles(ReplaceAll(a, value), ReplaceAll(b, value), other)
  {
    forall k | 0 < k < |other| && EndsWith(ReplaceAll(a, value), other[..k]) && other[k..] <= ReplaceAll(b, value)
      ensures EndsWith(a, other[..k]) && other[k..] <= b
    {
      TailIsOriginal(a, value, other[..k]);
      HeadIsOriginal(b, value, other[k..]);
    }
  }

  lemma {:induction false} EachSplits(a: string, b: string, values: seq<string>)
    requires "" !in values
    requires forall value | value in values :: Plain(value) && !Straddles(a, b, value)
    ensures ReplaceEach(a + b, values) == ReplaceEach(a, values) + ReplaceEach(b, values)
    decreases |values|
  {
    if values != [] {
      var value := values[0];
      assert value in values;
      ReplaceSplits(a, b, value);
      forall other | other in values[1..]
        ensures Plain(other) && !Straddles(ReplaceAll(a, value), ReplaceAll(b, value), other)
      {
        assert other in values;
        ReplacingStaysClean(a, b, value, other);
      }
      EachSplits(ReplaceAll(a, value), ReplaceAll(b, value), values[1..]);
    }
  }

  /** Longer values first, equally long ones in byte order. */
  predicate LongerFirst(a: string, b: string) {
    |a| > |b| || (|a| == |b| && LexLess(a, b))
  }

  lemma LongerFirstIsTotal()
    ensures StrictTotal(LongerFirst)
  {
    forall a: string, b: string
      ensures !LexLess(a, a) && (a != b ==> LexLess(a, b) || LexLess(b, a))
    {
      LexTrichotomy(a, b);
    }
    forall a: string, b: string, c: string | LongerFirst(a, b) && LongerFirst(b, c) ensures LongerFirst(a, c) {
      if |a| == |b| == |c| {
        LexTransitive(a, b, c);
      }
    }
  }

  /** The values in the order they are replaced. */
  ghost function Ordered(values: set<string>): (items: seq<string>)
    ensures Lists(items, values, LongerFirst)
  {
    LongerFirstIsTotal();
    if values == {} then []
    else
      var first := First(values, LongerFirst);
      [first] + Ordered(values - {first})
  }

  /** Redacting a text in one go. */
  ghost function Redact(text: string, values: set<string>): string
    requires "" !in values
  {
    ReplaceEach(text, Ordered(values))
  }

  /** Redacting in two parts is redacting the whole where no value goes across the cut. */
  lemma RedactSplits(a: string, b: string, values: set<string>)
    requires "" !in values && (forall value | value in values :: Plain(value)) && Clean(a, b, values)
    ensures Redact(a + b, values) == Redact(a, values) + Redact(b, values)
  {
    EachSplits(a, b, Ordered(values));
  }

  // ---------- the writer ----------

  /** The last `n` bytes of the text may be the beginning of a value. */
  predicate Held(text: string, values: set<string>, n: nat) {
    n <= |text| && exists value | value in values :: n < |value| && EndsWith(text, value[..n])
  }

  /** How much the writer holds back: the longest such end. */
  ghost predicate IsPending(text: string, values: set<string>, n: nat) {
    && (n == 0 || Held(text, values, n))
    && forall m: nat | Held(text, values, m) :: m <= n
  }

  function LongestHeld(text: string, values: set<string>, most: nat): (n: nat)
    requires forall m: nat | Held(text, values, m) :: m <= most
    ensures IsPending(text, values, n)
  {
    if most == 0 || Held(text, values, most) then most else LongestHeld(text, values, most - 1)
  }

  function PendingLength(text: string, values: set<string>): (n: nat)
    ensures IsPending(text, values, n) && n <= |text|
  {
    LongestHeld(text, values, |text|)
  }

  /** What was given to the target, and what is held back. */
  datatype Stream = Stream(output: string, pending: string)

  ghost function Written(s: Stream, chunk: string, values: set<string>): Stream
    requires "" !in values
  {
    var combined := s.pending + chunk;
    var emit := |combined| - PendingLength(combined, values);
    Stream(s.output + Redact(combined[..emit], values), combined[emit..])
  }

  ghost function AllWritten(chunks: seq<string>, values: set<string>): Stream
    requires "" !in values
  {
    if chunks == [] then Stream("", "")
    else Written(AllWritten(chunks[..|chunks| - 1], values), chunks[|chunks| - 1], values)
  }

  ghost function Flushed(s: Stream, values: set<string>): string
    requires "" !in values
  {
    s.output + Redact(s.pending, values)
  }

  lemma {:induction false} NothingToRedact(values: seq<string>)
    requires "" !in values
    ensures ReplaceEach("", values) == ""
  {
    if values != [] {
      NothingToRedact(values[1..]);
    }
  }
}

/** When redacting a stream chunk by chunk is redacting its text, and that nothing shows. */
module RedactionTheorems {
  import opened Ordering
  import opened Redaction
  import opened Texts

  /** No beginning of a value, short of all of it, ends a value, short of all of that. */
  ghost predicate OverlapFree(values: set<string>) {
    forall u, v, k: nat | u in values && v in values && 0 < k < |u| && k < |v| :: !EndsWith(v, u[..k])
  }

  /** Values are not empty and have no bracket. */
  ghost predicate Plausible(values: set<string>) {
    forall value | value in values :: value != "" && Plain(value)
  }

  /** Text that ends in a value and whatever came after it is never cut inside that value. */
  ghost predicate CutFree(values: set<string>) {
    forall value, after: string | value in values ::
      PendingLength(value + after, values) <= |after| || PendingLength(value + after, values) == |value + after|
  }

  lemma PendingIsUnique(text: string, values: set<string>, n: nat)
    requires IsPending(text, values, n)
    ensures n == PendingLength(text, values)
  {
  }

  lemma OverlapFreeIsCutFree(values: set<string>)
    requires OverlapFree(values)
    ensures CutFree(values)
  {
    forall value, after: string | value in values
      ensures PendingLength(value + after, values) <= |after| || PendingLength(value + after, values) == |value + after|
    {
      var n := PendingLength(value + after, values);
      if |after| < n < |value + after| {
        var u :| u in values && n < |u| && EndsWith(value + after, u[..n]);
        OverlapAtCut(value, after, u, n);
      }
    }
  }

  lemma OverlapAtCut(value: string, after: string, u: string, n: nat)
    requires |after| < n < |value + after| && n < |u| && EndsWith(value + after, u[..n])
    ensures EndsWith(value, u[..n - |after|])
  {
    var all, k := value + after, n - |after|;
    assert u[..k] == u[..n][..k] == all[|all| - n..][..k];
    assert value[|value| - k..] == all[|all| - n..][..k];
  }

  // ---------- chunks make no difference ----------

  /** A match that starts before what is held back ends before more of it comes. */
  lemma CutIsClean(text: string, values: set<string>, more: string)
    requires "" !in values && CutFree(values)
    ensures var n := PendingLength(text, values); Clean(text[..|text| - n], text[|text| - n..] + more, values)
  {
    var n := PendingLength(text, values);
    var a, b := text[..|text| - n], text[|text| - n..];
    forall value | value in values ensures !Straddles(a, b + more, value) {
      forall k | 0 < k < |value| && EndsWith(a, value[..k]) ensures !(value[k..] <= b + more) {
        if |value| - k <= |b| {
          MatchInText(text, values, n, value, k, more);
        } else {
          MatchPastText(text, values, n, value, k, more);
        }
      }
    }
  }

  /** A match that fits in the text and straddles the cut: the values would not be cut-free. */
  lemma MatchInText(text: string, values: set<string>, n: nat, value: string, k: nat, more: string)
    requires "" !in values && CutFree(values) && value in values && n == PendingLength(text, values)
    requires 0 < k < |value| && |value| - k <= n && EndsWith(text[..|text| - n], value[..k])
    ensures !(value[k..] <= text[|text| - n..] + more)
  {
    if value[k..] <= text[|text| - n..] + more {
      var b := text[|text| - n..];
      var after := b[|value| - k..];
      assert value[k..] == (b + more)[..|value| - k] == b[..|value| - k];
      EndJoins(text, n, value, k, after);
      SameEnd(text, value + after, values, n);
    }
  }

  lemma EndJoins(text: string, n: nat, value: string, k: nat, after: string)
    requires n <= |text| && 0 < k < |value| && |value| - k <= n && EndsWith(text[..|text| - n], value[..k])
    requires value[k..] + after == text[|text| - n..]
    ensures EndsWith(text, value + after)
  {
    var a, b := text[..|text| - n], text[|text| - n..];
    assert value == value[..k] + value[k..];
    assert text == a + b;
    assert text[|text| - |value + after|..] == a[|a| - k..] + b;
  }

  lemma HeldAtEnd(text: string, end: string, values: set<string>, m: nat)
    requires EndsWith(text, end) && m <= |end|
    ensures Held(text, values, m) <==> Held(end, values, m)
  {
    assert text[|text| - m..] == end[|end| - m..];
  }

  /** A long enough end of a text holds back what the whole text does. */
  lemma SameEnd(text: string, end: string, values: set<string>, n: nat)
    requires EndsWith(text, end) && n == PendingLength(text, values) && n <= |end|
    ensures PendingLength(end, values) == n
  {
    HeldAtEnd(text, end, values, n);
    forall m: nat | Held(end, values, m) ensures m <= n {
      HeldAtEnd(text, end, values, m);
    }
    PendingIsUnique(end, values, n);
  }

  /** A match that reaches past the text would have been held back from its start. */
  lemma MatchPastText(text: string, values: set<string>, n: nat, value: string, k: nat, more: string)
    requires "" !in values && value in values && n == PendingLength(text, values)
    requires 0 < k < |value| && |value| - k > n && EndsWith(text[..|text| - n], value[..k])
    ensures !(value[k..] <= text[|text| - n..] + more)
  {
    if value[k..] <= text[|text| - n..] + more {
      LongerHeld(text, values, n, value, k, more);
    }
  }

  lemma LongerHeld(text: string, values: set<string>, n: nat, value: string, k: nat, more: string)
    requires value in values && n <= |text| && 0 < k < |value| && |value| - k > n
    requires EndsWith(text[..|text| - n], value[..k]) && value[k..] <= text[|text| - n..] + more
    ensures Held(text, values, k + n)
  {
    var a, b := text[..|text| - n], text[|text| - n..];
    assert value[k..][..n] == (b + more)[..n] == b;
    assert value[..k + n] == value[..k] + value[k..][..n];
    assert text == a + b;
    assert text[|text| - (k + n)..] == a[|a| - k..] + b;
  }

  /** Whatever comes next, no match goes across what was emitted and what is held back. */
  ghost predicate Settled(emitted: string, pending: string, values: set<string>) {
    forall more: string :: Clean(emitted, pending + more, values)
  }

  /** Everything so far is what was emitted, redacted, and what is held back; no match goes across. */
  ghost predicate Keeps(s: Stream, emitted: string, values: set<string>)
    requires "" !in values
  {
    s.output == Redact(emitted, values) && Settled(emitted, s.pending, values)
  }

  lemma StraddlesMore(a: string, b: string, c: string, value: string)
    requires Straddles(a, b, value)
    ensures Straddles(a, b + c, value)
  {
    var k :| 0 < k < |value| && EndsWith(a, value[..k]) && value[k..] <= b;
    assert value[k..] <= b + c;
  }

  lemma CleanPrefix(a: string, b: string, c: string, values: set<string>)
    requires Clean(a, b + c, values)
    ensures Clean(a, b, values)
  {
    forall value | value in values ensures !Straddles(a, b, value) {
      if Straddles(a, b, value) {
        StraddlesMore(a, b, c, value);
      }
    }
  }

  lemma StraddlesEither(a: string, b: string, c: string, value: string)
    requires Straddles(a + b, c, value)
    ensures Straddles(a, b + c, value) || Straddles(b, c, value)
  {
    var k :| 0 < k < |value| && EndsWith(a + b, value[..k]) && value[k..] <= c;
    if k <= |b| {
      assert b[|b| - k..] == (a + b)[|a + b| - k..];
      assert EndsWith(b, value[..k]);
    } else {
      var j := k - |b|;
      assert value[..j] == (a + b)[|a + b| - k..][..j] == a[|a| - j..];
      assert value[j..k] == (a + b)[|a + b| - k..][j..] == b;
      assert value[j..] == value[j..k] + value[k..];
      assert EndsWith(a, value[..j]) && value[j..] <= b + c;
    }
  }

  lemma CleanJoins(a: string, b: string, c: string, values: set<string>)
    requires Clean(a, b + c, values) && Clean(b, c, values)
    ensures Clean(a + b, c, values)
  {
    forall value | value in values ensures !Straddles(a + b, c, value) {
      if Straddles(a + b, c, value) {
        StraddlesEither(a, b, c, value);
      }
    }
  }

  /** The writer cuts what it has into `a` and `b`, and holds `b` back. */
  ghost predicate Cuts(combined: string, a: string, b: string, values: set<string>) {
    a + b == combined && |b| == PendingLength(combined, values)
  }

  lemma WriteCuts(s: Stream, chunk: string, values: set<string>) returns (a: string, b: string)
    requires "" !in values
    ensures Cuts(s.pending + chunk, a, b, values)
    ensures Written(s, chunk, values) == Stream(s.output + Redact(a, values), b)
  {
    var combined := s.pending + chunk;
    var emit := |combined| - PendingLength(combined, values);
    a, b := combined[..emit], combined[emit..];
  }

  lemma CleanAfterCut(
    pending: string, emitted: string, chunk: string, a: string, b: string, values: set<string>, more: string
  )
    requires "" !in values && CutFree(values) && Cuts(pending + chunk, a, b, values)
    requires Clean(emitted, pending + (chunk + more), values)
    ensures Clean(emitted + a, b + more, values)
  {
    var combined := pending + chunk;
    assert combined[..|a|] == a && combined[|a|..] == b;
    CutIsClean(combined, values, more);
    assert pending + (chunk + more) == a + (b + more);
    CleanJoins(emitted, a, b + more, values);
  }

  lemma WriteSettles(pending: string, emitted: string, chunk: string, a: string, b: string, values: set<string>)
    requires "" !in values && CutFree(values) && Settled(emitted, pending, values)
    requires Cuts(pending + chunk, a, b, values)
    ensures Settled(emitted + a, b, values)
  {
    forall more: string ensures Clean(emitted + a, b + more, values) {
      assert Clean(emitted, pending + (chunk + more), values);
      CleanAfterCut(pending, emitted, chunk, a, b, values, more);
    }
  }

  lemma WriteRedacts(pending: string, emitted: string, chunk: string, a: string, b: string, values: set<string>)
    requires Plausible(values) && Settled(emitted, pending, values) && Cuts(pending + chunk, a, b, values)
    ensures Redact(emitted + a, values) == Redact(emitted, values) + Redact(a, values)
  {
    assert Clean(emitted, pending + chunk, values);
    CleanPrefix(emitted, a, b, values);
    RedactSplits(emitted, a, values);
  }

  lemma WriteKeeps(s: Stream, emitted: string, chunk: string, values: set<string>) returns (emitted': string)
    requires Plausible(values) && CutFree(values) && Keeps(s, emitted, values)
    ensures Keeps(Written(s, chunk, values), emitted', values)
    ensures emitted' + Written(s, chunk, values).pending == emitted + s.pending + chunk
  {
    var a, b := WriteCuts(s, chunk, values);
    emitted' := emitted + a;
    WriteRedacts(s.pending, emitted, chunk, a, b, values);
    WriteSettles(s.pending, emitted, chunk, a, b, values);
    Regroup(emitted, s.pending, chunk, a, b);
  }

  lemma Regroup(emitted: string, pending: string, chunk: string, a: string, b: string)
    requires a + b == pending + chunk
    ensures emitted + a + b == emitted + pending + chunk
  {
    assert emitted + a + b == emitted + (a + b) == emitted + (pending + chunk);
  }

  lemma {:induction false} ChunksKeep(chunks: seq<string>, values: set<string>) returns (emitted: string)
    requires Plausible(values) && CutFree(values)
    ensures Keeps(AllWritten(chunks, values), emitted, values)
    ensures emitted + AllWritten(chunks, values).pending == Concat(chunks)
    decreases |chunks|
  {
    if chunks == [] {
      emitted := "";
      NothingToRedact(Ordered(values));
      assert forall value, k | value in values && 0 < k < |value| :: !EndsWith("", value[..k]);
    } else {
      var before, chunk := chunks[..|chunks| - 1], chunks[|chunks| - 1];
      var emitted0 := ChunksKeep(before, values);
      emitted := WriteKeeps(AllWritten(before, values), emitted0, chunk, values);
    }
  }

  /** For every chunking, the writes and the final flush give what redacting the whole text gives. */
  lemma ChunkingDoesNotMatter(chunks: seq<string>, values: set<string>)
    requires Plausible(values) && CutFree(values)
    ensures Flushed(AllWritten(chunks, values), values) == Redact(Concat(chunks), values)
  {
    var emitted := ChunksKeep(chunks, values);
    var s := AllWritten(chunks, values);
    assert s.pending + "" == s.pending;
    assert Clean(emitted, s.pending + "", values);
    RedactSplits(emitted, s.pending, values);
  }

  // ---------- nothing shows ----------

  predicate OccursAt(part: string, text: string, i: nat) {
    i + |part| <= |text| && text[i..i + |part|] == part
  }

  ghost predicate Occurs(part: string, text: string) {
    exists i: nat :: OccursAt(part, text, i)
  }

  const MARK_WORD := MARK[1..|MARK| - 1]

  lemma OccursLater(part: string, a: string, b: string)
    requires Occurs(part, b)
    ensures Occurs(part, a + b)
  {
    var i: nat :| OccursAt(part, b, i);
    assert (a + b)[|a| + i..|a| + i + |part|] == b[i..i + |part|];
    assert OccursAt(part, a + b, |a| + i);
  }

  lemma OccursBehind(part: string, a: string, b: string, i: nat)
    requires OccursAt(part, a + b, i) && i >= |a|
    ensures Occurs(part, b)
  {
    assert b[i - |a|..i - |a| + |part|] == (a + b)[i..i + |part|];
    assert OccursAt(part, b, i - |a|);
  }

  lemma OccurrenceHolds(part: string, text: string, i: nat, j: nat)
    requires OccursAt(part, text, i) && i <= j < i + |part|
    ensures text[j] in part
  {
    assert part[j - i] == text[i..i + |part|][j - i] == text[j];
  }

  /** A plain match in a text that begins with a mark is in the word of the mark or after it. */
  lemma OccursAroundMark(part: string, rest: string)
    requires part != "" && Plain(part) && Occurs(part, MARK + rest)
    ensures Occurs(part, MARK_WORD) || Occurs(part, rest)
  {
    var i: nat :| OccursAt(part, MARK + rest, i);
    if i >= |MARK| {
      OccursBehind(part, MARK, rest, i);
    } else {
      NoBracketInside(part, rest, i);
      OccursInWord(part, rest, i);
    }
  }

  lemma OccursInWord(part: string, rest: string, i: nat)
    requires OccursAt(part, MARK + rest, i) && 0 < i && i + |part| <= |MARK| - 1
    ensures OccursAt(part, MARK_WORD, i - 1)
  {
    assert MARK_WORD[i - 1..i - 1 + |part|] == (MARK + rest)[i..i + |part|];
  }

  lemma NoBracketInside(part: string, rest: string, i: nat)
    requires part != "" && Plain(part) && OccursAt(part, MARK + rest, i) && i < |MARK|
    ensures 0 < i && i + |part| <= |MARK| - 1
  {
    var all := MARK + rest;
    assert all[0] == '<' && all[|MARK| - 1] == '>';
    if i + |part| > |MARK| - 1 {
      OccurrenceHolds(part, all, i, |MARK| - 1);
    }
  }

  /** A plain match in a replaced text was there before or comes with a mark; the replaced value itself is gone. */
  lemma {:induction false} ReplacingHides(text: string, value: string, part: string)
    requires value != "" && part != "" && Plain(part) && Occurs(part, ReplaceAll(text, value))
    requires !Occurs(part, MARK_WORD)
    ensures part != value && Occurs(part, text)
    decreases |text|
  {
    if text == "" {
    } else if value <= text {
      OccursAroundMark(part, ReplaceAll(text[|value|..], value));
      ReplacingHides(text[|value|..], value, part);
      OccursLater(part, text[..|value|], text[|value|..]);
      assert text == text[..|value|] + text[|value|..];
    } else {
      var all := ReplaceAll(text, value);
      var i: nat :| OccursAt(part, all, i);
      if i == 0 {
        assert part <= all;
        HeadIsOriginal(text, value, part);
        assert OccursAt(part, text, 0);
      } else {
        OccursBehind(part, [text[0]], ReplaceAll(text[1..], value), i);
        ReplacingHides(text[1..], value, part);
        OccursLater(part, [text[0]], text[1..]);
        assert text == [text[0]] + text[1..];
      }
    }
  }

  lemma {:induction false} EachHides(text: string, values: seq<string>, part: string)
    requires "" !in values && part != "" && Plain(part) && Occurs(part, ReplaceEach(text, values))
    requires !Occurs(part, MARK_WORD)
    ensures part !in values && Occurs(part, text)
    decreases |values|
  {
    if values != [] {
      EachHides(ReplaceAll(text, values[0]), values[1..], part);
      ReplacingHides(text, values[0], part);
    }
  }

  ghost predicate Hidden(text: string, values: set<string>) {
    forall value | value in values :: !Occurs(value, text)
  }

  /** Text in which a value does not occur is left as it is. */
  lemma {:induction false} NotFound(text: string, value: string)
    requires value != "" && !Occurs(value, text)
    ensures ReplaceAll(text, value) == text
  {
    if text != "" {
      if value <= text {
        assert OccursAt(value, text, 0);
      }
      assert text == text[..1] + text[1..];
      if Occurs(value, text[1..]) {
        OccursLater(value, text[..1], text[1..]);
      }
      NotFound(text[1..], value);
    }
  }

  lemma {:induction false} NothingFound(text: string, values: seq<string>)
    requires "" !in values && forall value | value in values :: !Occurs(value, text)
    ensures ReplaceEach(text, values) == text
  {
    if values != [] {
      NotFound(text, values[0]);
      NothingFound(text, values[1..]);
    }
  }

  /** The first match becomes a mark, and replacing goes on behind it. */
  lemma {:induction false} FirstMatchIsMarked(before: string, value: string, after: string)
    requires value != "" && forall i: nat | i < |before| :: !OccursAt(value, before + value + after, i)
    ensures ReplaceAll(before + value + after, value) == before + "<redacted>" + ReplaceAll(after, value)
    decreases |before|
  {
    var text := before + value + after;
    if before == "" {
      assert text == value + after && text[|value|..] == after;
      assert "" + MARK + ReplaceAll(after, value) == MARK + ReplaceAll(after, value);
    } else {
      var rest := before[1..];
      assert text[1..] == rest + value + after;
      assert !OccursAt(value, text, 0);
      forall i: nat | i < |rest| ensures !OccursAt(value, rest + value + after, i) {
        assert text[i + 1..][..|value|] == (rest + value + after)[i..][..|value|];
        assert !OccursAt(value, text, i + 1);
      }
      FirstMatchIsMarked(rest, value, after);
      assert before == [text[0]] + rest;
    }
  }

  /** Longer values are replaced first, and values of one length in the order of their bytes. */
  lemma LongestFirst(values: set<string>, i: nat, j: nat)
    requires i < j < |Ordered(values)|
    ensures var u, v := Ordered(values)[i], Ordered(values)[j];
            |u| > |v| || (|u| == |v| && LexLess(u, v))
    ensures forall value :: value in values <==> value in Ordered(values)
  {
  }

  /** Redacted text shows none of the values. */
  lemma RedactHides(text: string, values: set<string>)
    requires Plausible(values) && Hidden(MARK_WORD, values)
    ensures Hidden(Redact(text, values), values)
  {
    forall value | value in values ensures !Occurs(value, Redact(text, values)) {
      if Occurs(value, Redact(text, values)) {
        EachHides(text, Ordered(values), value);
      }
    }
  }

  /** And neither does what the writer lets through, however the output is cut. */
  lemma WriterHides(chunks: seq<string>, values: set<string>)
    requires Plausible(values) && Hidden(MARK_WORD, values) && CutFree(values)
    ensures Hidden(Flushed(AllWritten(chunks, values), values), values)
  {
    ChunkingDoesNotMatter(chunks, values);
    RedactHides(Concat(chunks), values);
  }

  // ---------- when chunks do matter ----------

  function Delta(c: char): int {
    if c == '<' then 1 else if c == '>' then -1 else 0
  }

  /** How many brackets are left open. */
  function Depth(s: string): int {
    if s == "" then 0 else Delta(s[0]) + Depth(s[1..])
  }

  /** Starting with `d` brackets open, at least one stays open before each character. */
  predicate Above(s: string, d: int) {
    s == "" || (d >= 1 && Above(s[1..], d + Delta(s[0])))
  }

  lemma {:induction false} DepthJoins(a: string, b: string)
    ensures Depth(a + b) == Depth(a) + Depth(b)
  {
    if a == "" {
      assert a + b == b;
    } else {
      assert (a + b)[1..] == a[1..] + b;
      DepthJoins(a[1..], b);
    }
  }

  lemma {:induction false} PlainDepth(s: string)
    requires Plain(s)
    ensures Depth(s) == 0
  {
    if s != "" {
      assert s[0] in s;
      PlainDepth(s[1..]);
    }
  }

  lemma {:induction false} AbovePlain(s: string, rest: string, d: int)
    requires Plain(s) && d >= 1
    ensures Above(s + rest, d) <==> Above(rest, d)
  {
    if s == "" {
      assert s + rest == rest;
    } else {
      assert s[0] in s && (s + rest)[1..] == s[1..] + rest;
      AbovePlain(s[1..], rest, d);
    }
  }

  lemma MarkShape()
    ensures MARK == ['<'] + MARK_WORD + ['>'] && Plain(MARK_WORD)
  {
    assert MARK_WORD == "redacted";
  }

  lemma AboveMark(rest: string, d: int)
    requires d >= 1 && Above(rest, d)
    ensures Above(MARK + rest, d)
  {
    MarkShape();
    var close := ['>'] + rest;
    assert close[1..] == rest;
    AbovePlain(MARK_WORD, close, d + 1);
    var all := MARK + rest;
    assert all == ['<'] + (MARK_WORD + close);
    assert all[1..] == MARK_WORD + close;
  }

  lemma MarkDepth()
    ensures Depth(MARK) == 0
  {
    MarkShape();
    PlainDepth(MARK_WORD);
    DepthJoins(['<'] + MARK_WORD, ['>']);
    DepthJoins(['<'], MARK_WORD);
  }

  lemma {:induction false} ReplacingKeepsAbove(text: string, value: string, d: int)
    requires value != "" && Plain(value) && Above(text, d)
    ensures Above(ReplaceAll(text, value), d)
    decreases |text|
  {
    if text == "" {
    } else if value <= text {
      var rest := text[|value|..];
      assert text == value + rest;
      AbovePlain(value, rest, d);
      ReplacingKeepsAbove(rest, value, d);
      AboveMark(ReplaceAll(rest, value), d);
    } else {
      ReplacingKeepsAbove(text[1..], value, d + Delta(text[0]));
      assert ReplaceAll(text, value)[1..] == ReplaceAll(text[1..], value);
    }
  }

  lemma {:induction false} ReplacingKeepsDepth(text: string, value: string)
    requires value != "" && Plain(value)
    ensures Depth(ReplaceAll(text, value)) == Depth(text) && (text != "" ==> ReplaceAll(text, value) != "")
    decreases |text|
  {
    if text == "" {
    } else if value <= text {
      var rest := text[|value|..];
      assert text == value + rest;
      ReplacingKeepsDepth(rest, value);
      MarkDepth();
      PlainDepth(value);
      DepthJoins(MARK, ReplaceAll(rest, value));
      DepthJoins(value, rest);
    } else {
      ReplacingKeepsDepth(text[1..], value);
      assert ReplaceAll(text, value)[1..] == ReplaceAll(text[1..], value);
    }
  }

  lemma {:induction false} EachKeepsDepth(text: string, values: seq<string>)
    requires "" !in values && forall value | value in values :: Plain(value)
    ensures Depth(ReplaceEach(text, values)) == Depth(text) && (text != "" ==> ReplaceEach(text, values) != "")
    decreases |values|
  {
    if values != [] {
      assert values[0] in values;
      ReplacingKeepsDepth(text, values[0]);
      EachKeepsDepth(ReplaceAll(text, values[0]), values[1..]);
    }
  }

  /** One bracket opens the text and is not closed before its end. */
  predicate Enclosed(s: string) {
    s != "" && s[0] == '<' && Above(s[1..], 1)
  }

  lemma {:induction false} EachKeepsEnclosed(text: string, values: seq<string>)
    requires "" !in values && (forall value | value in values :: Plain(value)) && Enclosed(text)
    ensures Enclosed(ReplaceEach(text, values))
    decreases |values|
  {
    if values != [] {
      var value := values[0];
      assert value in values && value[0] in value;
      ReplacingKeepsAbove(text[1..], value, 1);
      assert ReplaceAll(text, value)[1..] == ReplaceAll(text[1..], value);
      EachKeepsEnclosed(ReplaceAll(text, value), values[1..]);
    }
  }

  lemma {:induction false} EnclosedIsOneBlock(a: string, b: string, d: int)
    requires Above(a + b, d) && b != ""
    ensures d + Depth(a) >= 1
    decreases |a|
  {
    if a == "" {
      assert a + b == b;
    } else {
      assert (a + b)[1..] == a[1..] + b;
      EnclosedIsOneBlock(a[1..], b, d + Delta(a[0]));
    }
  }

  /** A value that is no longer than the others before it in the list turns into a mark. */
  lemma {:induction false} ValueBecomesBlock(value: string, values: seq<string>)
    requires "" !in values && value in values && forall v | v in values :: Plain(v)
    requires forall i, j | 0 <= i < j < |values| :: LongerFirst(values[i], values[j])
    ensures Enclosed(ReplaceEach(value, values))
    decreases |values|
  {
    var first := values[0];
    assert first in values;
    if first == value {
      assert value[|value|..] == "";
      assert ReplaceAll(value, first) == MARK + "" == MARK;
      MarkIsEnclosed();
      EachKeepsEnclosed(MARK, values[1..]);
    } else {
      assert value in values[1..];
      assert |value| <= |first|;
      LongerDoesNotMatch(value, first);
      ValueBecomesBlock(value, values[1..]);
    }
  }

  lemma MarkIsEnclosed()
    ensures Enclosed(MARK)
  {
    MarkShape();
    AbovePlain(MARK_WORD, ['>'], 1);
    assert MARK[1..] == MARK_WORD + ['>'];
  }

  lemma {:induction false} LongerDoesNotMatch(text: string, value: string)
    requires value != "" && |text| <= |value| && text != value
    ensures ReplaceAll(text, value) == text
  {
    if text != "" {
      LongerDoesNotMatch(text[1..], value);
    }
  }

  lemma BlocksDiffer(x: string, y: string, whole: string)
    requires x != "" && y != "" && Depth(x) == 0 && Enclosed(whole)
    ensures x + y != whole
  {
    if x + y == whole {
      assert (x + y)[1..] == x[1..] + y;
      EnclosedIsOneBlock(x[1..], y, 1);
    }
  }

  lemma RedactedDepth(text: string, values: set<string>)
    requires Plausible(values) && Plain(text) && text != ""
    ensures Depth(Redact(text, values)) == 0 && Redact(text, values) != ""
  {
    EachKeepsDepth(text, Ordered(values));
    PlainDepth(text);
  }

  /** A value the writer cuts, given to it in one chunk, comes out wrong. */
  lemma CutValueComesOutWrong(value: string, values: set<string>)
    requires Plausible(values) && value in values && 0 < PendingLength(value, values) < |value|
    ensures Flushed(AllWritten([value], values), values) != Redact(Concat([value]), values)
  {
    var emit := |value| - PendingLength(value, values);
    assert forall c | c in value[..emit] || c in value[emit..] :: c in value;
    RedactedDepth(value[..emit], values);
    RedactedDepth(value[emit..], values);
    ValueBecomesBlock(value, Ordered(values));
    BlocksDiffer(Redact(value[..emit], values), Redact(value[emit..], values), Redact(value, values));
    OneChunk(value, values, emit);
  }

  lemma OneChunk(value: string, values: set<string>, emit: nat)
    requires "" !in values && emit == |value| - PendingLength(value, values)
    ensures Flushed(AllWritten([value], values), values) ==
            Redact(value[..emit], values) + Redact(value[emit..], values)
    ensures Concat([value]) == value
  {
    FirstWrite(value, values, emit);
    assert [value][..0] == [];
    assert AllWritten([value], values) == Written(AllWritten([value][..0], values), value, values);
    assert Concat([value]) == Concat([value][..0]) + value;
  }

  lemma FirstWrite(value: string, values: set<string>, emit: nat)
    requires "" !in values && emit == |value| - PendingLength(value, values)
    ensures Written(Stream("", ""), value, values) == Stream(Redact(value[..emit], values), value[emit..])
  {
    assert "" + value == value;
    assert "" + Redact(value[..emit], values) == Redact(value[..emit], values);
  }

  /** No value begins with another one. */
  predicate PrefixFree(values: set<string>) {
    forall u, v | u in values && v in values && u <= v :: u == v
  }

  ghost predicate ChunkingNeverMatters(values: set<string>)
    requires "" !in values
  {
    forall chunks: seq<string> :: Flushed(AllWritten(chunks, values), values) == Redact(Concat(chunks), values)
  }

  /** Where no value begins with another, the writer is right for all inputs exactly if the values do not overlap. */
  lemma ChunkingNeverMattersIff(values: set<string>)
    requires Plausible(values) && PrefixFree(values)
    ensures ChunkingNeverMatters(values) <==> OverlapFree(values)
  {
    if OverlapFree(values) {
      OverlapFreeIsCutFree(values);
      forall chunks: seq<string> ensures Flushed(AllWritten(chunks, values), values) == Redact(Concat(chunks), values) {
        ChunkingDoesNotMatter(chunks, values);
      }
    } else {
      var u, v, k: nat :| u in values && v in values && 0 < k < |u| && k < |v| && EndsWith(v, u[..k]);
      assert Held(v, values, k);
      WholeValueIsNotHeld(v, values);
      CutValueComesOutWrong(v, values);
    }
  }

  lemma WholeValueIsNotHeld(value: string, values: set<string>)
    requires PrefixFree(values) && value in values && value != ""
    ensures PendingLength(value, values) < |value|
  {
    forall longer | longer in values && |value| < |longer| ensures !EndsWith(value, longer[..|value|]) {
      assert value[|value| - |value|..] == value;
      assert longer[..|value|] == value ==> value <= longer;
    }
  }

  /** For any values, being right for all inputs needs that no value is cut when it comes alone. */
  lemma ChunkingNeverMattersNeeds(values: set<string>, value: string)
    requires Plausible(values) && ChunkingNeverMatters(values) && value in values
    ensures PendingLength(value, values) == 0 || PendingLength(value, values) == |value|
  {
    if 0 < PendingLength(value, values) < |value| {
      CutValueComesOutWrong(value, values);
    }
  }

  lemma PendingOfAba()
    ensures PendingLength("aba", {"aba"}) == 1
  {
    var value := "aba";
    assert value[2..] == value[..1] && EndsWith(value, value[..1]);
    assert Held(value, {value}, 1);
    assert value[..2] == ['a', 'b'] && value[1..] == ['b', 'a'];
    PendingIsUnique(value, {value}, 1);
  }

  /** The value `aba` in one chunk is let through as it is. */
  lemma OverlappingValueLeaks()
    ensures Flushed(AllWritten(["aba"], {"aba"}), {"aba"}) == "aba" && Redact("aba", {"aba"}) == MARK
  {
    var value := "aba";
    PendingOfAba();
    OneChunk(value, {value}, 2);
    OneValue(value, value);
    OneValue(value, value[..2]);
    OneValue(value, value[2..]);
    LongerDoesNotMatch(value[..2], value);
    LongerDoesNotMatch(value[2..], value);
    assert value[..2] + value[2..] == value;
    assert value[|value|..] == "" && ReplaceAll(value, value) == MARK + "";
  }

  lemma OneValue(value: string, text: string)
    requires value != ""
    ensures Redact(text, {value}) == ReplaceAll(text, value)
  {
    var list := Ordered({value});
    LongerFirstIsTotal();
    ListsSize(list, {value}, LongerFirst);
    assert list[0] in list;
    assert list == [value] && list[1..] == [];
    assert ReplaceEach(ReplaceAll(text, value), []) == ReplaceAll(text, value);
  }
}

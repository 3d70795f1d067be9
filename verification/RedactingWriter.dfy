/** Redaction as it is used: with the values of a configuration, at once or chunk by chunk. */
module RedactingWriters {
  import opened Ordering
  import opened Redaction
  import opened RedactionTheorems
  import opened Texts

  // ---------- the values of a configuration ----------

  /** The values worth hiding: those that are not empty. */
  function Secrets(config: map<string, string>): set<string> {
    set key | key in config && config[key] != "" :: config[key]
  }

  lemma SecretsAre(config: map<string, string>, value: string)
    ensures value in Secrets(config) <==> value != "" && exists key :: key in config && config[key] == value
  {
    if value != "" && exists key :: key in config && config[key] == value {
      var key :| key in config && config[key] == value;
      assert config[key] in Secrets(config);
    }
  }

  /** Empty values and how often a value is there make no difference. */
  lemma EmptyValuesDoNothing(text: string, a: map<string, string>, b: map<string, string>)
    requires forall value | value != "" :: value in a.Values <==> value in b.Values
    ensures Redact(text, Secrets(a)) == Redact(text, Secrets(b))
  {
    forall value: string ensures value in Secrets(a) <==> value in Secrets(b) {
      SecretsAre(a, value);
      SecretsAre(b, value);
      assert value in a.Values <==> exists key :: key in a && a[key] == value;
      assert value in b.Values <==> exists key :: key in b && b[key] == value;
    }
    assert Secrets(a) == Secrets(b);
  }

  /** Values without brackets that are not in the word that stands for them. */
  ghost predicate CanBeHidden(config: map<string, string>) {
    forall key | key in config && config[key] != "" ::
      '<' !in config[key] && '>' !in config[key] && !Occurs(config[key], "redacted")
  }

  /** No value is in the text. */
  ghost predicate ShowsNone(text: string, config: map<string, string>) {
    forall key | key in config && config[key] != "" :: !Occurs(config[key], text)
  }

  /** No beginning of a value ends a value, short of all of either. */
  ghost predicate NoOverlap(config: map<string, string>) {
    forall a, b, n: nat | a in config && b in config && 0 < n < |config[a]| && n < |config[b]| ::
      !EndsWith(config[b], config[a][..n])
  }

  lemma HidesConfig(text: string, config: map<string, string>)
    requires CanBeHidden(config)
    ensures Plausible(Secrets(config)) && ShowsNone(Redact(text, Secrets(config)), config)
  {
    assert MARK_WORD == "redacted";
    RedactHides(text, Secrets(config));
    forall key | key in config && config[key] != "" ensures config[key] in Secrets(config) {
    }
  }

  lemma NoOverlapIsOverlapFree(config: map<string, string>)
    requires NoOverlap(config)
    ensures OverlapFree(Secrets(config))
  {
    forall u, v, k: nat | u in Secrets(config) && v in Secrets(config) && 0 < k < |u| && k < |v|
      ensures !EndsWith(v, u[..k])
    {
      var a :| a in config && config[a] == u;
      var b :| b in config && config[b] == v;
    }
  }

  lemma LeavesTheRest(text: string, config: map<string, string>)
    requires ShowsNone(text, config)
    ensures Redact(text, Secrets(config)) == text
  {
    NothingFound(text, Ordered(Secrets(config)));
  }

  // ---------- redacting at once ----------

  method RedactValues(text: string, config: map<string, string>) returns (redacted: string)
    ensures redacted == Redact(text, Secrets(config))
    ensures CanBeHidden(config) ==> ShowsNone(redacted, config)
    ensures ShowsNone(text, config) ==> redacted == text
  {
    if CanBeHidden(config) {
      HidesConfig(text, config);
    }
    if ShowsNone(text, config) {
      LeavesTheRest(text, config);
    }
    LongerFirstIsTotal();
    var ordered := SelectOrdered(Secrets(config), LongerFirst);
    ListsUnique(ordered, Ordered(Secrets(config)), Secrets(config), LongerFirst);
    assert "" !in ordered;
    redacted := text;
    var i := 0;
    while i < |ordered|
      invariant i <= |ordered|
      invariant ReplaceEach(redacted, ordered[i..]) == ReplaceEach(text, ordered)
    {
      assert ordered[i..][1..] == ordered[i + 1..] && ordered[i] in ordered;
      redacted := ReplaceAll(redacted, ordered[i]);
      i := i + 1;
    }
  }

  // ---------- the writer ----------

  method PendingSecretPrefixLength(text: string, config: map<string, string>) returns (longest: nat)
    ensures longest == PendingLength(text, Secrets(config))
  {
    longest := 0;
    var rest := config.Keys;
    while rest != {}
      invariant rest <= config.Keys
      invariant longest == 0 || Held(text, Secrets(config), longest)
      invariant forall key, m: nat |
                  key in config.Keys - rest && m <= |text| && m < |config[key]| && EndsWith(text, config[key][..m]) ::
                  m <= longest
      decreases |rest|
    {
      var key :| key in rest;
      var value := config[key];
      var limit := |value| - 1;
      if limit > |text| {
        limit := |text|;
      }
      ghost var before := longest;
      var length := limit;
      while length > longest
        invariant length <= limit && longest == before
        invariant forall m: nat | length < m <= limit :: !EndsWith(text, value[..m])
        decreases length
      {
        if EndsWith(text, value[..length]) {
          assert value in Secrets(config);
          longest := length;
          break;
        }
        length := length - 1;
      }
      rest := rest - {key};
    }
    assert IsPending(text, Secrets(config), longest) by {
      forall m: nat | Held(text, Secrets(config), m) ensures m <= longest {
        var value :| value in Secrets(config) && m < |value| && EndsWith(text, value[..m]);
        var key :| key in config && config[key] == value;
      }
    }
  }

  /** What was given out before goes in front. */
  lemma OutputMoves(base: string, s: Stream, chunk: string, values: set<string>)
    requires "" !in values
    ensures var moved, next := Written(Stream(base + s.output, s.pending), chunk, values), Written(s, chunk, values);
            moved.output == base + next.output && moved.pending == next.pending
  {
    var combined := s.pending + chunk;
    Associates(base, s.output, Redact(combined[..|combined| - PendingLength(combined, values)], values));
  }

  lemma OneMoreWritten(chunks: seq<string>, chunk: string, values: set<string>)
    requires "" !in values
    ensures AllWritten(chunks + [chunk], values) == Written(AllWritten(chunks, values), chunk, values)
  {
    assert (chunks + [chunk])[..|chunks|] == chunks;
  }

  class RedactingWriter {
    const config: map<string, string>
    const attached: bool
    var output: string
    var pending: string
    /** What was there at the last flush, the chunks since then, and whether the target took everything since then. */
    ghost var flushed: string
    ghost var chunks: seq<string>
    ghost var taken: bool

    constructor (config: map<string, string>, attached: bool)
      ensures this.config == config && this.attached == attached && State() == Stream("", "")
      ensures Valid() && flushed == "" && chunks == [] && taken
    {
      this.config, this.attached := config, attached;
      output, pending := "", "";
      flushed, chunks, taken := "", [], true;
    }

    function State(): Stream
      reads this
    {
      Stream(output, pending)
    }

    ghost predicate Valid()
      reads this
    {
      attached && taken ==>
        var all := AllWritten(chunks, Secrets(config));
        State() == Stream(flushed + all.output, all.pending)
    }

    /** `accepts` says whether the target takes what it is given. */
    method Write(chunk: string, accepts: bool) returns (ok: bool)
      requires Valid()
      modifies this
      ensures Valid() && flushed == old(flushed) && chunks == old(chunks) + [chunk]
      ensures taken <==> old(taken) && accepts
      ensures var next := Written(old(State()), chunk, Secrets(config));
        && pending == next.pending && output == (if attached && accepts then next.output else old(output))
      ensures ok <==> !attached || accepts
    {
      var combined := pending + chunk;
      var pendingLength := PendingSecretPrefixLength(combined, config);
      var emitLength := |combined| - pendingLength;
      if attached && taken {
        OutputMoves(flushed, AllWritten(chunks, Secrets(config)), chunk, Secrets(config));
        OneMoreWritten(chunks, chunk, Secrets(config));
      }
      chunks, taken := chunks + [chunk], taken && accepts;
      pending := combined[emitLength..];
      if !attached {
        return true;
      }
      var redacted := RedactValues(combined[..emitLength], config);
      if accepts {
        output := output + redacted;
      }
      ok := accepts;
    }

    /**
     Give out what is held back. If the target took everything since the last flush, and no two
     values overlap, what it got is all of that text, redacted, and shows no value.
    */
    method Flush(accepts: bool) returns (ok: bool)
      requires Valid()
      modifies this
      ensures Valid() && flushed == output && chunks == [] && taken
      ensures pending == ""
      ensures output == (if attached && accepts then Flushed(old(State()), Secrets(config)) else old(output))
      ensures ok <==> !attached || old(pending) == "" || accepts
      ensures attached && old(taken) && ok && CanBeHidden(config) && NoOverlap(config) ==>
        && old(flushed) <= output
        && output[|old(flushed)|..] == Redact(Concat(old(chunks)), Secrets(config))
        && ShowsNone(output[|old(flushed)|..], config)
    {
      if attached && taken && CanBeHidden(config) && NoOverlap(config) {
        FlushHides(flushed, State(), chunks, config);
      }
      NothingToRedact(Ordered(Secrets(config)));
      assert output + "" == output;
      if !attached || pending == "" {
        pending := "";
        flushed, chunks, taken := output, [], true;
        assert output + "" == output;
        return true;
      }
      var redacted := RedactValues(pending, config);
      if accepts {
        output := output + redacted;
      }
      pending := "";
      flushed, chunks, taken := output, [], true;
      assert output + "" == output;
      ok := accepts;
    }
  }

  lemma FlushHides(base: string, s: Stream, chunks: seq<string>, config: map<string, string>)
    requires CanBeHidden(config) && NoOverlap(config)
    requires var all := AllWritten(chunks, Secrets(config)); s == Stream(base + all.output, all.pending)
    ensures Flushed(s, Secrets(config)) == base + Redact(Concat(chunks), Secrets(config))
    ensures ShowsNone(Redact(Concat(chunks), Secrets(config)), config)
  {
    var values, all := Secrets(config), AllWritten(chunks, Secrets(config));
    HidesConfig(Concat(chunks), config);
    NoOverlapIsOverlapFree(config);
    OverlapFreeIsCutFree(values);
    ChunkingDoesNotMatter(chunks, values);
    Associates(base, all.output, Redact(all.pending, values));
  }
}

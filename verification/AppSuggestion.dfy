/** What name is suggested for a text, told by the runs of letters and digits in it. */
module AppSuggestions {
  import opened AppName
  import opened Texts

  /** A run of letters and digits, and what is between it and the next one. */
  datatype Run = Run(word: string, gap: string)

  predicate IsWord(s: string) {
    s != "" && forall i | 0 <= i < |s| :: IsAlphanumeric(s[i])
  }

  predicate IsGap(s: string) {
    forall i | 0 <= i < |s| :: !IsAlphanumeric(s[i])
  }

  /** Runs with something between any two of them. */
  predicate RunsOk(runs: seq<Run>) {
    forall i | 0 <= i < |runs| ::
      IsWord(runs[i].word) && IsGap(runs[i].gap) && (i < |runs| - 1 ==> runs[i].gap != "")
  }

  function RunsText(runs: seq<Run>): string {
    if runs == [] then ""
    else
      var last := runs[|runs| - 1];
      RunsText(runs[..|runs| - 1]) + (last.word + last.gap)
  }

  /** The runs with single dashes between them. */
  function Joined(runs: seq<Run>): string {
    if runs == [] then ""
    else
      var init, last := runs[..|runs| - 1], runs[|runs| - 1];
      if init == [] then last.word else Joined(init) + (['-'] + last.word)
  }

  lemma SlugOneMore(text: string, c: char)
    ensures Slug(text + [c]) ==
            if !IsAlphanumeric(c) then Slug(text)
            else if EndsRun(text) || Slug(text) == "" then Slug(text) + [c] else Slug(text) + ['-', c]
  {
    assert (text + [c])[..|text|] == text;
  }

  lemma {:induction false} SlugSkipsGap(text: string, gap: string)
    requires IsGap(gap)
    ensures Slug(text + gap) == Slug(text) && (gap != "" ==> !EndsRun(text + gap))
    decreases |gap|
  {
    if gap == "" {
      assert text + gap == text;
    } else {
      var init, last := gap[..|gap| - 1], gap[|gap| - 1];
      SlugSkipsGap(text, init);
      SlugOneMore(text + init, last);
      assert text + gap == text + init + [last];
    }
  }

  lemma {:induction false} SlugTakesWord(text: string, word: string)
    requires IsWord(word) && !EndsRun(text)
    ensures Slug(text + word) == if Slug(text) == "" then word else Slug(text) + (['-'] + word)
    ensures EndsRun(text + word)
    decreases |word|
  {
    var init, last := word[..|word| - 1], word[|word| - 1];
    SlugOneMore(text + init, last);
    assert text + word == text + init + [last];
    if init == "" {
      assert text + init == text;
    } else {
      SlugTakesWord(text, init);
      assert word == init + [last];
      Associates(Slug(text), ['-'] + init, [last]);
      Associates(['-'], init, [last]);
    }
  }

  /** The slug of a text is made of its runs. */
  lemma {:induction false} SlugOfRuns(lead: string, runs: seq<Run>)
    requires IsGap(lead) && RunsOk(runs)
    ensures Slug(lead + RunsText(runs)) == Joined(runs) && (runs != [] ==> Joined(runs) != "")
    ensures EndsRun(lead + RunsText(runs)) ==> runs != [] && runs[|runs| - 1].gap == ""
    decreases |runs|
  {
    if runs == [] {
      SlugSkipsGap("", lead);
      assert "" + lead == lead == lead + "";
    } else {
      var init, last := runs[..|runs| - 1], runs[|runs| - 1];
      assert init != [] ==> init[|init| - 1] == runs[|runs| - 2];
      SlugOfRuns(lead, init);
      var before := lead + RunsText(init);
      SlugTakesWord(before, last.word);
      SlugSkipsGap(before + last.word, last.gap);
      Associates(lead, RunsText(init), last.word + last.gap);
      Associates(before, last.word, last.gap);
      assert before + last.word + "" == before + last.word;
    }
  }

  // ---------- every text has runs ----------

  lemma {:induction false} EveryTextHasRuns(text: string) returns (lead: string, runs: seq<Run>)
    ensures IsGap(lead) && RunsOk(runs) && lead + RunsText(runs) == text
    decreases |text|
  {
    if text == "" {
      lead, runs := "", [];
    } else {
      var c := text[|text| - 1];
      var lead0, runs0 := EveryTextHasRuns(text[..|text| - 1]);
      lead, runs := OneMoreChar(lead0, runs0, c);
      assert text == text[..|text| - 1] + [c];
    }
  }

  lemma RunsGrow(runs: seq<Run>, run: Run)
    ensures RunsText(runs + [run]) == RunsText(runs) + (run.word + run.gap)
  {
    assert (runs + [run])[..|runs|] == runs;
  }

  lemma OneMoreChar(lead: string, runs: seq<Run>, c: char) returns (lead': string, runs': seq<Run>)
    requires IsGap(lead) && RunsOk(runs)
    ensures IsGap(lead') && RunsOk(runs') && lead' + RunsText(runs') == lead + RunsText(runs) + [c]
  {
    if runs == [] && !IsAlphanumeric(c) {
      lead', runs' := lead + [c], [];
      assert lead + [c] + "" == lead + "" + [c];
    } else if runs != [] && (!IsAlphanumeric(c) || runs[|runs| - 1].gap == "") {
      lead' := lead;
      runs' := LastGrows(runs, c);
      Associates(lead, RunsText(runs), [c]);
    } else {
      lead', runs' := lead, runs + [Run([c], "")];
      RunsGrow(runs, Run([c], ""));
      assert [c] + "" == [c];
      Associates(lead, RunsText(runs), [c]);
    }
  }

  lemma LastGrows(runs: seq<Run>, c: char) returns (runs': seq<Run>)
    requires runs != [] && RunsOk(runs) && (!IsAlphanumeric(c) || runs[|runs| - 1].gap == "")
    ensures RunsOk(runs') && RunsText(runs') == RunsText(runs) + [c]
  {
    var init, last := runs[..|runs| - 1], runs[|runs| - 1];
    var more := if IsAlphanumeric(c) then Run(last.word + [c], "") else last.(gap := last.gap + [c]);
    runs' := init + [more];
    RunsGrow(init, more);
    GrownText(last, c, more);
    Associates(RunsText(init), last.word + last.gap, [c]);
  }

  lemma GrownText(last: Run, c: char, more: Run)
    requires (more == Run(last.word + [c], "") && last.gap == "") || more == last.(gap := last.gap + [c])
    ensures more.word + more.gap == last.word + last.gap + [c]
  {
    if more == last.(gap := last.gap + [c]) {
      Associates(last.word, last.gap, [c]);
    } else {
      assert last.word + "" == last.word && last.word + [c] + "" == last.word + [c];
    }
  }

  // ---------- the suggestion ----------

  /** The text in lower case; two letters outside ASCII have one of ASCII as their lower case. */
  predicate IsLowered(name: string, text: string) {
    |text| == |name| && forall i | 0 <= i < |name| ::
      if 'A' <= name[i] <= 'Z' then text[i] as int == name[i] as int + 32
      else text[i] == if name[i] == '\U{212A}' then 'k' else if name[i] == '\U{130}' then 'i' else name[i]
  }

  lemma {:induction false} SlugSkipsFirst(c: char, text: string)
    requires !IsAlphanumeric(c)
    ensures Slug([c] + text) == Slug(text) && (text != "" ==> (EndsRun([c] + text) <==> EndsRun(text)))
    decreases |text|
  {
    if text == "" {
      assert [c] + text == [c] && [c][..0] == "";
    } else {
      var init, last := text[..|text| - 1], text[|text| - 1];
      SlugSkipsFirst(c, init);
      assert [c] + text == [c] + init + [last] && text == init + [last];
      SlugOneMore([c] + init, last);
      SlugOneMore(init, last);
    }
  }

  lemma FirstSpace(name: string)
    requires name != "" && IsSpace(name[0])
    ensures Slug(ToLower(name)) == Slug(ToLower(name[1..]))
  {
    var text := ToLower(name);
    assert text == [text[0]] + ToLower(name[1..]);
    SlugSkipsFirst(text[0], ToLower(name[1..]));
  }

  lemma LowersLast(init: string, c: char)
    ensures ToLower(init + [c]) == ToLower(init) + [Lower(c)]
  {
    var name := init + [c];
    assert forall i | 0 <= i < |init| :: ToLower(name)[i] == Lower(name[i]) == ToLower(init)[i];
  }

  lemma LastSpace(init: string, last: char)
    requires IsSpace(last)
    ensures Slug(ToLower(init + [last])) == Slug(ToLower(init))
  {
    LowersLast(init, last);
    SlugOneMore(ToLower(init), Lower(last));
  }

  /** White space at the ends makes no difference. */
  lemma {:induction false} TrimmingChangesNothing(name: string)
    ensures Slug(ToLower(TrimSpace(name))) == Slug(ToLower(name))
    decreases |name|
  {
    if name != "" {
      if IsSpace(name[0]) {
        FirstSpace(name);
        TrimmingChangesNothing(name[1..]);
      } else if IsSpace(name[|name| - 1]) {
        LastSpace(name[..|name| - 1], name[|name| - 1]);
        assert name == name[..|name| - 1] + [name[|name| - 1]];
        TrimmingChangesNothing(name[..|name| - 1]);
      }
    }
  }

  /** A text with single dashes has at most one at its end. */
  lemma TrimOne(s: string)
    requires IsCutSlug(s) && s != ""
    ensures TrimDashes(s) == if s[|s| - 1] == '-' then s[..|s| - 1] else s
    ensures TrimDashes(s) != ""
  {
    if s[|s| - 1] == '-' {
      var t := s[..|s| - 1];
      assert t != "" && t[|t| - 1] == s[|s| - 2] != '-';
      assert TrimDashes(t) == t;
    }
  }

  /** At most 63 characters, and no dash at the end. */
  function Ended(joined: string): string {
    if |joined| <= 63 then joined else if joined[62] == '-' then joined[..62] else joined[..63]
  }

  lemma CutEnds(joined: string)
    requires IsSlug(joined) && joined != ""
    ensures TrimDashes(Cut(joined)) == Ended(joined) && Ended(joined) != ""
  {
    TrimOne(Cut(joined));
    if |joined| > 63 {
      assert joined[..63][..62] == joined[..62];
    }
  }

  lemma LoweredIs(name: string, text: string)
    requires IsLowered(name, text)
    ensures ToLower(name) == text
  {
    assert forall i | 0 <= i < |name| :: Lower(name[i]) == text[i];
  }

  /**
   For every text: its runs of letters and digits in lower case, joined by single dashes, cut
   after 63 characters and without a dash at the end; `app` if there are none.
  */
  lemma SuggestionOfRuns(name: string, lead: string, runs: seq<Run>)
    requires IsLowered(name, lead + RunsText(runs)) && IsGap(lead) && RunsOk(runs)
    ensures Suggestion(name) == if runs == [] then "app" else Ended(Joined(runs))
  {
    LoweredIs(name, lead + RunsText(runs));
    TrimmingChangesNothing(name);
    SlugOfRuns(lead, runs);
    SlugIsSlug(ToLower(name));
    if runs == [] {
      assert Slug(ToLower(TrimSpace(name))) == "" && Cut("") == "" && TrimDashes("") == "";
    } else {
      CutEnds(Joined(runs));
    }
  }
}

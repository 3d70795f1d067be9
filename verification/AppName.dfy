/** Application names: DNS labels, and the label suggested for any other text. */
module AppName {
  const MAX_LABEL: nat := 63

  predicate IsAlphanumeric(c: char) {
    'a' <= c <= 'z' || '0' <= c <= '9'
  }

  /** A DNS label of at most 63 octets (section 2.3.4 of RFC 1035), in lower case. */
  predicate IsDNSLabelSafe(value: string) {
    && 0 < |value| <= MAX_LABEL
    && (forall i | 0 <= i < |value| :: IsAlphanumeric(value[i]) || (value[i] == '-' && 0 < i < |value| - 1))
  }

  /** White space as Unicode has it. */
  predicate IsSpace(c: char) {
    || '\t' <= c <= '\r' || c == ' ' || c == '\U{85}' || c == '\U{A0}' || c == '\U{1680}'
    || '\U{2000}' <= c <= '\U{200A}' || c == '\U{2028}' || c == '\U{2029}' || c == '\U{202F}' || c == '\U{205F}'
    || c == '\U{3000}'
  }

  /** Lower case, as far as it leads to ASCII letters: two letters outside ASCII do. */
  function Lower(c: char): char {
    if 'A' <= c <= 'Z' then (c as int + 32) as char
    else if c == '\U{212A}' then 'k'
    else if c == '\U{130}' then 'i'
    else c
  }

  function ToLower(s: string): (r: string)
    ensures |r| == |s| && forall i | 0 <= i < |s| :: r[i] == Lower(s[i])
  {
    if s == "" then "" else [Lower(s[0])] + ToLower(s[1..])
  }

  function TrimSpace(s: string): string {
    if s == "" then ""
    else if IsSpace(s[0]) then TrimSpace(s[1..])
    else if IsSpace(s[|s| - 1]) then TrimSpace(s[..|s| - 1])
    else s
  }

  function TrimDashes(s: string): string {
    if s != "" && s[|s| - 1] == '-' then TrimDashes(s[..|s| - 1]) else s
  }

  // ---------- what is suggested ----------

  /** The runs of letters and digits of a text, joined by single dashes. */
  function Slug(text: string): string {
    if text == "" then ""
    else
      var before, last := text[..|text| - 1], text[|text| - 1];
      if !IsAlphanumeric(last) then Slug(before)
      else if EndsRun(before) || Slug(before) == "" then Slug(before) + [last]
      else Slug(before) + ['-', last]
  }

  predicate EndsRun(text: string) {
    text != "" && IsAlphanumeric(text[|text| - 1])
  }

  function Cut(s: string): string {
    if |s| <= MAX_LABEL then s else s[..MAX_LABEL]
  }

  /** As much of the slug as a label may hold. */
  function Suggestion(name: string): string {
    var value := TrimDashes(Cut(Slug(ToLower(TrimSpace(name)))));
    if value == "" then "app" else value
  }

  method SuggestAppName(name: string) returns (value: string)
    ensures value == Suggestion(name)
  {
    var suggestion := "";
    var separatorPending := false;
    var text := ToLower(TrimSpace(name));
    for i := 0 to |text|
      invariant suggestion == Cut(Slug(text[..i]))
      invariant separatorPending <==> Slug(text[..i]) != "" && !EndsRun(text[..i])
    {
      assert text[..i + 1][..i] == text[..i] && text[..i + 1] != "";
      var c := text[i];
      if IsAlphanumeric(c) {
        if separatorPending && |suggestion| > 0 && |suggestion| < MAX_LABEL {
          suggestion := suggestion + "-";
        }
        separatorPending := false;
        if |suggestion| < MAX_LABEL {
          suggestion := suggestion + [c];
        }
      } else {
        separatorPending := |suggestion| > 0;
      }
    }
    assert text[..|text|] == text;
    value := TrimDashes(suggestion);
    if value == "" {
      value := "app";
    }
  }

  // ---------- what suggestions are like ----------

  /** Letters and digits, with single dashes between them. */
  predicate IsSlug(s: string) {
    forall i | 0 <= i < |s| :: IsAlphanumeric(s[i]) || (s[i] == '-' && 0 < i < |s| - 1 && s[i - 1] != '-')
  }

  lemma {:induction false} SlugIsSlug(text: string)
    ensures IsSlug(Slug(text))
    decreases |text|
  {
    if text != "" {
      SlugIsSlug(text[..|text| - 1]);
    }
  }

  /** Like a slug, but perhaps cut just after a dash. */
  predicate IsCutSlug(s: string) {
    forall i | 0 <= i < |s| :: IsAlphanumeric(s[i]) || (s[i] == '-' && 0 < i && s[i - 1] != '-')
  }

  lemma TrimmedIsSlug(s: string)
    requires IsCutSlug(s)
    ensures IsSlug(TrimDashes(s)) && |TrimDashes(s)| <= |s|
  {
    if s != "" && s[|s| - 1] == '-' {
      var t := s[..|s| - 1];
      assert t != "" && t[|t| - 1] != '-';
      assert TrimDashes(t) == t;
    }
  }

  /** Whatever is asked for, the suggestion is a name that is accepted. */
  lemma SuggestionIsSafe(name: string)
    ensures IsDNSLabelSafe(Suggestion(name)) && IsSlug(Suggestion(name))
  {
    var slug := Slug(ToLower(TrimSpace(name)));
    SlugIsSlug(slug);
    SlugIsSlug(ToLower(TrimSpace(name)));
    TrimmedIsSlug(Cut(slug));
    assert IsSlug("app");
  }

  lemma {:induction false} SlugOfSlug(s: string)
    requires IsCutSlug(s)
    ensures Slug(s) == TrimDashes(s)
    decreases |s|
  {
    if s != "" {
      var before, last := s[..|s| - 1], s[|s| - 1];
      SlugOfSlug(before);
      if last == '-' {
        assert TrimDashes(s) == TrimDashes(before);
      } else if before != "" && before[|before| - 1] == '-' {
        var start := before[..|before| - 1];
        assert start != "" && start[|start| - 1] != '-';
        assert TrimDashes(before) == start;
        assert start + ['-', last] == s;
      } else {
        assert TrimDashes(before) == before && before + [last] == s;
      }
    }
  }

  lemma SlugStays(s: string)
    requires IsSlug(s)
    ensures TrimSpace(s) == s && ToLower(s) == s && Slug(s) == s
  {
    assert forall i | 0 <= i < |s| :: !IsSpace(s[i]) && Lower(s[i]) == s[i];
    SlugOfSlug(s);
    assert TrimDashes(s) == s;
  }

  predicate NoDoubleDash(name: string) {
    forall i | 0 < i < |name| :: !(name[i] == '-' && name[i - 1] == '-')
  }

  lemma SingleDashNameStays(name: string)
    requires IsDNSLabelSafe(name) && NoDoubleDash(name)
    ensures Suggestion(name) == name
  {
    assert IsSlug(name);
    SlugStays(name);
    assert TrimDashes(name) == name;
  }

  /** A name is suggested for itself exactly if it is accepted and has no two dashes in a row. */
  lemma SuggestsItselfIff(name: string)
    ensures Suggestion(name) == name <==> IsDNSLabelSafe(name) && NoDoubleDash(name)
  {
    SuggestionIsSafe(name);
    if IsDNSLabelSafe(name) && NoDoubleDash(name) {
      SingleDashNameStays(name);
    }
  }

  /** Asking again for what was suggested changes nothing. */
  lemma SuggestionIsStable(name: string)
    ensures Suggestion(Suggestion(name)) == Suggestion(name)
  {
    SuggestionIsSafe(name);
    SuggestsItselfIff(Suggestion(name));
  }
}

/**
 What a command line means, told by its form: words made of plain characters, escapes and
 quoted stretches, with white space between them, and maybe something left open at the end.
*/
module CommandGrammar {
  import opened Results
  import opened AppName
  import opened CommandSplit
  import opened Texts

  // ---------- the form of a command ----------

  /** Between double quotes: a character, or one after a backslash. */
  datatype Inner = Literal(c: char) | InnerEscape(c: char)

  datatype Piece = Plain(c: char) | Escape(c: char) | Single(text: string) | Double(inner: seq<Inner>)

  /** A word and the white space behind it. */
  datatype Item = Item(word: seq<Piece>, gap: string)

  /** What a command that is not complete ends with. */
  datatype Tail = Complete | OpenEscape | OpenSingle(text: string) | OpenDouble(inner: seq<Inner>)
    | OpenDoubleEscape(inner: seq<Inner>)

  predicate Spaces(s: string) {
    forall i | 0 <= i < |s| :: IsSpace(s[i])
  }

  predicate InnerOk(inner: seq<Inner>) {
    forall i | 0 <= i < |inner| :: inner[i].Literal? ==> inner[i].c != '"' && inner[i].c != '\\'
  }

  predicate PieceOk(p: Piece) {
    match p
    case Plain(c) => !IsSpace(c) && c != '\\' && c != '\'' && c != '"'
    case Escape(_) => true
    case Single(text) => '\'' !in text
    case Double(inner) => InnerOk(inner)
  }

  predicate ItemOk(item: Item) {
    item.word != [] && (forall i | 0 <= i < |item.word| :: PieceOk(item.word[i])) && Spaces(item.gap)
  }

  /** Words with white space between any two of them. */
  predicate ItemsOk(items: seq<Item>) {
    forall i | 0 <= i < |items| :: ItemOk(items[i]) && (i < |items| - 1 ==> items[i].gap != "")
  }

  predicate TailOk(tail: Tail) {
    match tail
    case OpenSingle(text) => '\'' !in text
    case OpenDouble(inner) => InnerOk(inner)
    case OpenDoubleEscape(inner) => InnerOk(inner)
    case _ => true
  }

  predicate CommandOk(lead: string, items: seq<Item>, tail: Tail) {
    Spaces(lead) && ItemsOk(items) && TailOk(tail)
  }

  // ---------- its text and its meaning ----------

  function InnerText(inner: seq<Inner>): string {
    if inner == [] then ""
    else
      var last := inner[|inner| - 1];
      InnerText(inner[..|inner| - 1]) + if last.Literal? then [last.c] else ['\\', last.c]
  }

  function InnerMeaning(inner: seq<Inner>): string {
    seq(|inner|, i requires 0 <= i < |inner| => inner[i].c)
  }

  function PieceText(p: Piece): string {
    match p
    case Plain(c) => [c]
    case Escape(c) => ['\\', c]
    case Single(text) => ['\''] + text + ['\'']
    case Double(inner) => ['"'] + InnerText(inner) + ['"']
  }

  function PieceMeaning(p: Piece): string {
    match p
    case Plain(c) => [c]
    case Escape(c) => [c]
    case Single(text) => text
    case Double(inner) => InnerMeaning(inner)
  }

  function WordText(word: seq<Piece>): string {
    if word == [] then "" else WordText(word[..|word| - 1]) + PieceText(word[|word| - 1])
  }

  function WordMeaning(word: seq<Piece>): string {
    if word == [] then "" else WordMeaning(word[..|word| - 1]) + PieceMeaning(word[|word| - 1])
  }

  function ItemsText(items: seq<Item>): string {
    if items == [] then ""
    else
      var last := items[|items| - 1];
      ItemsText(items[..|items| - 1]) + (WordText(last.word) + last.gap)
  }

  function Arguments(items: seq<Item>): seq<string> {
    seq(|items|, i requires 0 <= i < |items| => WordMeaning(items[i].word))
  }

  function TailText(tail: Tail): string {
    match tail
    case Complete => ""
    case OpenEscape => ['\\']
    case OpenSingle(text) => ['\''] + text
    case OpenDouble(inner) => ['"'] + InnerText(inner)
    case OpenDoubleEscape(inner) => ['"'] + InnerText(inner) + ['\\']
  }

  function CommandText(lead: string, items: seq<Item>, tail: Tail): string {
    lead + ItemsText(items) + TailText(tail)
  }

  /** A complete command means its arguments; an open escape and an open quote are different errors. */
  function Meaning(items: seq<Item>, tail: Tail): Result<seq<string>, SplitError> {
    match tail
    case Complete => Ok(Arguments(items))
    case OpenEscape => Err(UnfinishedEscape)
    case OpenDoubleEscape(_) => Err(UnfinishedEscape)
    case _ => Err(UnterminatedQuote)
  }

  // ---------- every text has such a form ----------

  function AddPiece(items: seq<Item>, p: Piece): seq<Item> {
    if items != [] && items[|items| - 1].gap == "" then
      var last := items[|items| - 1];
      items[..|items| - 1] + [Item(last.word + [p], "")]
    else items + [Item([p], "")]
  }

  lemma WordGrows(word: seq<Piece>, p: Piece)
    ensures WordText(word + [p]) == WordText(word) + PieceText(p)
    ensures WordMeaning(word + [p]) == WordMeaning(word) + PieceMeaning(p)
  {
    assert (word + [p])[..|word|] == word;
  }

  lemma ItemsGrow(items: seq<Item>, item: Item)
    ensures ItemsText(items + [item]) == ItemsText(items) + (WordText(item.word) + item.gap)
  {
    assert (items + [item])[..|items|] == items;
  }

  lemma LastItem(items: seq<Item>)
    requires items != []
    ensures var last := items[|items| - 1];
            ItemsText(items) == ItemsText(items[..|items| - 1]) + (WordText(last.word) + last.gap)
  {
  }

  lemma StartsWord(items: seq<Item>, p: Piece)
    ensures ItemsText(items + [Item([p], "")]) == ItemsText(items) + PieceText(p)
  {
    ItemsGrow(items, Item([p], ""));
    WordGrows([], p);
    assert [] + [p] == [p];
    assert "" + PieceText(p) == PieceText(p) == PieceText(p) + "";
  }

  lemma ContinuesWord(items: seq<Item>, last: Item, p: Piece)
    requires last.gap == ""
    ensures ItemsText(items + [Item(last.word + [p], "")]) == ItemsText(items + [last]) + PieceText(p)
  {
    ItemsGrow(items, Item(last.word + [p], ""));
    ItemsGrow(items, last);
    WordGrows(last.word, p);
    assert WordText(last.word) + "" == WordText(last.word);
    assert WordText(last.word + [p]) + "" == WordText(last.word + [p]);
    Associates(ItemsText(items), WordText(last.word), PieceText(p));
  }

  lemma PieceFits(items: seq<Item>, p: Piece)
    requires ItemsOk(items) && PieceOk(p)
    ensures ItemsOk(AddPiece(items, p))
  {
  }

  lemma AddsPiece(items: seq<Item>, p: Piece)
    requires ItemsOk(items) && PieceOk(p)
    ensures ItemsOk(AddPiece(items, p)) && ItemsText(AddPiece(items, p)) == ItemsText(items) + PieceText(p)
  {
    PieceFits(items, p);
    if items != [] && items[|items| - 1].gap == "" {
      var init, last := items[..|items| - 1], items[|items| - 1];
      assert items == init + [last];
      ContinuesWord(init, last, p);
    } else {
      StartsWord(items, p);
    }
  }

  function AddGap(items: seq<Item>, c: char): seq<Item>
    requires items != []
  {
    var last := items[|items| - 1];
    items[..|items| - 1] + [last.(gap := last.gap + [c])]
  }

  lemma GapFits(items: seq<Item>, c: char)
    requires items != [] && ItemsOk(items) && IsSpace(c)
    ensures ItemsOk(AddGap(items, c))
  {
  }

  lemma GapText(before: string, word: string, gap: string, more: string)
    ensures before + (word + (gap + more)) == before + (word + gap) + more
  {
    Associates(word, gap, more);
    Associates(before, word + gap, more);
  }

  lemma AddsGap(items: seq<Item>, c: char)
    requires items != [] && ItemsOk(items) && IsSpace(c)
    ensures ItemsOk(AddGap(items, c)) && ItemsText(AddGap(items, c)) == ItemsText(items) + [c]
  {
    var init, last := items[..|items| - 1], items[|items| - 1];
    GapFits(items, c);
    ItemsGrow(init, last.(gap := last.gap + [c]));
    LastItem(items);
    GapText(ItemsText(init), WordText(last.word), last.gap, [c]);
  }

  lemma AddsInner(inner: seq<Inner>, next: Inner)
    ensures InnerText(inner + [next]) == InnerText(inner) + if next.Literal? then [next.c] else ['\\', next.c]
  {
    assert (inner + [next])[..|inner|] == inner;
  }

  // ---------- one more character ----------

  lemma CompleteText(lead: string, items: seq<Item>)
    ensures CommandText(lead, items, Complete) == lead + ItemsText(items)
  {
    var text := lead + ItemsText(items);
    assert text + "" == text;
  }

  lemma ClosedText(lead: string, before: string, tail: string, more: string)
    ensures lead + (before + (tail + more)) == lead + before + tail + more
  {
    Associates(lead, before, tail + more);
    Associates(lead + before, tail, more);
  }

  /** The command with a piece in the place of what was left open. */
  lemma Closes(lead: string, items: seq<Item>, tail: Tail, c: char, p: Piece)
    requires CommandOk(lead, items, tail) && PieceOk(p) && PieceText(p) == TailText(tail) + [c]
    ensures CommandOk(lead, AddPiece(items, p), Complete)
    ensures CommandText(lead, AddPiece(items, p), Complete) == CommandText(lead, items, tail) + [c]
  {
    AddsPiece(items, p);
    CompleteText(lead, AddPiece(items, p));
    ClosedText(lead, ItemsText(items), TailText(tail), [c]);
  }

  lemma StaysOpen(lead: string, items: seq<Item>, tail: Tail, c: char, next: Tail)
    requires CommandOk(lead, items, tail) && TailOk(next) && TailText(next) == TailText(tail) + [c]
    ensures CommandOk(lead, items, next) && CommandText(lead, items, next) == CommandText(lead, items, tail) + [c]
  {
    Associates(lead + ItemsText(items), TailText(tail), [c]);
  }

  lemma Spaced(lead: string, items: seq<Item>, c: char) returns (lead': string, items': seq<Item>)
    requires CommandOk(lead, items, Complete) && IsSpace(c)
    ensures CommandOk(lead', items', Complete)
    ensures CommandText(lead', items', Complete) == CommandText(lead, items, Complete) + [c]
  {
    assert forall text: string :: text + "" == text;
    if items == [] {
      lead', items' := lead + [c], [];
    } else {
      AddsGap(items, c);
      lead', items' := lead, AddGap(items, c);
      Associates(lead, ItemsText(items), [c]);
    }
  }

  lemma DoubleText(inner: seq<Inner>, next: Inner)
    ensures TailText(OpenDouble(inner + [next])) ==
            TailText(OpenDouble(inner)) + if next.Literal? then [next.c] else ['\\', next.c]
  {
    AddsInner(inner, next);
    Associates(['"'], InnerText(inner), if next.Literal? then [next.c] else ['\\', next.c]);
  }

  lemma DoubleEscapeText(inner: seq<Inner>, c: char)
    ensures TailText(OpenDouble(inner + [InnerEscape(c)])) == TailText(OpenDoubleEscape(inner)) + [c]
  {
    DoubleText(inner, InnerEscape(c));
    Associates(['"'] + InnerText(inner), ['\\'], [c]);
    assert ['\\'] + [c] == ['\\', c];
  }

  /** A command and one more character is a command again. */
  lemma OneMore(lead: string, items: seq<Item>, tail: Tail, c: char)
    returns (lead': string, items': seq<Item>, tail': Tail)
    requires CommandOk(lead, items, tail)
    ensures CommandOk(lead', items', tail')
    ensures CommandText(lead', items', tail') == CommandText(lead, items, tail) + [c]
  {
    lead', items', tail' := lead, items, Complete;
    match tail
    case Complete =>
      assert TailText(Complete) + [c] == [c];
      if c == '\\' {
        tail' := OpenEscape;
        StaysOpen(lead, items, tail, c, tail');
      } else if c == '\'' {
        tail' := OpenSingle("");
        assert ['\''] + "" == ['\''];
        StaysOpen(lead, items, tail, c, tail');
      } else if c == '"' {
        tail' := OpenDouble([]);
        assert ['"'] + "" == ['"'];
        StaysOpen(lead, items, tail, c, tail');
      } else if IsSpace(c) {
        lead', items' := Spaced(lead, items, c);
      } else {
        items' := AddPiece(items, Plain(c));
        Closes(lead, items, tail, c, Plain(c));
      }
    case OpenEscape =>
      items' := AddPiece(items, Escape(c));
      Closes(lead, items, tail, c, Escape(c));
    case OpenSingle(text) =>
      if c == '\'' {
        items' := AddPiece(items, Single(text));
        Closes(lead, items, tail, c, Single(text));
      } else {
        tail' := OpenSingle(text + [c]);
        Associates(['\''], text, [c]);
        StaysOpen(lead, items, tail, c, tail');
      }
    case OpenDouble(inner) =>
      if c == '"' {
        items' := AddPiece(items, Double(inner));
        Closes(lead, items, tail, c, Double(inner));
      } else if c == '\\' {
        tail' := OpenDoubleEscape(inner);
        StaysOpen(lead, items, tail, c, tail');
      } else {
        tail' := OpenDouble(inner + [Literal(c)]);
        DoubleText(inner, Literal(c));
        StaysOpen(lead, items, tail, c, tail');
      }
    case OpenDoubleEscape(inner) =>
      tail' := OpenDouble(inner + [InnerEscape(c)]);
      DoubleEscapeText(inner, c);
      StaysOpen(lead, items, tail, c, tail');
  }

  /** Every text is a command of this form. */
  lemma {:induction false} EveryTextIsCommand(text: string) returns (lead: string, items: seq<Item>, tail: Tail)
    ensures CommandOk(lead, items, tail) && CommandText(lead, items, tail) == text
    decreases |text|
  {
    if text == "" {
      lead, items, tail := "", [], Complete;
    } else {
      lead, items, tail := EveryTextIsCommand(text[..|text| - 1]);
      lead, items, tail := OneMore(lead, items, tail, text[|text| - 1]);
      assert text == text[..|text| - 1] + [text[|text| - 1]];
    }
  }

  // ---------- splitting gives the meaning ----------

  lemma ScanMore(s: Scan, text: string, c: char)
    ensures ScanAll(s, text + [c]) == Step(ScanAll(s, text), c)
  {
    ScanJoins(s, text, [c]);
    ScanOne(ScanAll(s, text), c);
  }

  predicate Outside(s: Scan) {
    s.mode.Unquoted? && !s.escaped
  }

  lemma {:induction false} ScanSpaces(s: Scan, gap: string)
    requires Outside(s) && Spaces(gap)
    ensures ScanAll(s, gap) == if gap != "" && s.started then Flush(s) else s
    decreases |gap|
  {
    if gap != "" {
      ScanSpaces(Step(s, gap[0]), gap[1..]);
    }
  }

  lemma {:induction false} ScanSingle(s: Scan, text: string)
    requires s.mode.SingleQuoted? && !s.escaped && '\'' !in text
    ensures ScanAll(s, text) == s.(word := s.word + text)
    decreases |text|
  {
    if text == "" {
      assert s.word + "" == s.word;
    } else {
      ScanSingle(Take(s, text[0]), text[1..]);
      Associates(s.word, [text[0]], text[1..]);
      assert [text[0]] + text[1..] == text;
    }
  }

  lemma {:induction false} ScanInner(s: Scan, inner: seq<Inner>)
    requires s.mode.DoubleQuoted? && !s.escaped && s.started && InnerOk(inner)
    ensures ScanAll(s, InnerText(inner)) == s.(word := s.word + InnerMeaning(inner))
    decreases |inner|
  {
    if inner == [] {
      assert s.word + InnerMeaning(inner) == s.word;
    } else {
      var init, last := inner[..|inner| - 1], inner[|inner| - 1];
      ScanInner(s, init);
      var before := ScanAll(s, InnerText(init));
      assert s.word + InnerMeaning(init) + [last.c] == s.word + InnerMeaning(inner);
      if last.Literal? {
        ScanMore(s, InnerText(init), last.c);
      } else {
        ScanMore(s, InnerText(init), '\\');
        ScanMore(s, InnerText(init) + ['\\'], last.c);
        assert InnerText(inner) == InnerText(init) + ['\\'] + [last.c];
        assert Step(before, '\\') == before.(escaped := true);
        assert before.started;
      }
    }
  }

  lemma ScanPiece(s: Scan, p: Piece)
    requires Outside(s) && PieceOk(p)
    ensures ScanAll(s, PieceText(p)) == s.(word := s.word + PieceMeaning(p), started := true)
  {
    match p
    case Plain(c) => ScanOne(s, c);
    case Escape(c) =>
      ScanOne(s, '\\');
      ScanMore(s, ['\\'], c);
      assert ['\\'] + [c] == ['\\', c];
    case Single(text) =>
      ScanOne(s, '\'');
      ScanJoins(s, ['\''], text);
      ScanSingle(Step(s, '\''), text);
      ScanMore(s, ['\''] + text, '\'');
    case Double(inner) =>
      ScanOne(s, '"');
      ScanJoins(s, ['"'], InnerText(inner));
      ScanInner(Step(s, '"'), inner);
      ScanMore(s, ['"'] + InnerText(inner), '"');
  }

  lemma {:induction false} ScanWord(s: Scan, word: seq<Piece>)
    requires Outside(s) && word != [] && forall i | 0 <= i < |word| :: PieceOk(word[i])
    ensures ScanAll(s, WordText(word)) == s.(word := s.word + WordMeaning(word), started := true)
    decreases |word|
  {
    var init, last := word[..|word| - 1], word[|word| - 1];
    assert word == init + [last];
    WordGrows(init, last);
    ScanJoins(s, WordText(init), PieceText(last));
    if init == [] {
      assert s.word + (WordMeaning(init) + PieceMeaning(last)) == s.word + PieceMeaning(last);
    } else {
      ScanWord(s, init);
      Associates(s.word, WordMeaning(init), PieceMeaning(last));
    }
    ScanPiece(ScanAll(s, WordText(init)), last);
  }

  /** The scan between two words: the arguments so far. */
  function Between(items: seq<Item>): Scan {
    START.(args := Arguments(items))
  }

  lemma {:induction false} ScanItems(lead: string, items: seq<Item>)
    requires Spaces(lead) && ItemsOk(items)
    ensures var s := ScanAll(START, lead + ItemsText(items));
            if items == [] || items[|items| - 1].gap != "" then s == Between(items)
            else s == Between(items[..|items| - 1]).(word := WordMeaning(items[|items| - 1].word), started := true)
    decreases |items|
  {
    if items == [] {
      assert lead + "" == lead;
      ScanSpaces(START, lead);
    } else {
      var init, last := items[..|items| - 1], items[|items| - 1];
      assert init != [] ==> init[|init| - 1] == items[|items| - 2];
      ScanItems(lead, init);
      ScanLast(lead, init, last);
      LastItem(items);
      ArgumentsGrow(items);
    }
  }

  lemma ArgumentsGrow(items: seq<Item>)
    ensures items != [] ==>
      Arguments(items) == Arguments(items[..|items| - 1]) + [WordMeaning(items[|items| - 1].word)]
  {
  }

  lemma ScanLast(lead: string, init: seq<Item>, last: Item)
    requires ScanAll(START, lead + ItemsText(init)) == Between(init) && ItemOk(last)
    ensures var word := Between(init).(word := WordMeaning(last.word), started := true);
            ScanAll(START, lead + (ItemsText(init) + (WordText(last.word) + last.gap))) ==
            if last.gap == "" then word else Flush(word)
  {
    var before := lead + ItemsText(init);
    Associates(lead, ItemsText(init), WordText(last.word) + last.gap);
    ScanJoins(START, before, WordText(last.word) + last.gap);
    ScanJoins(Between(init), WordText(last.word), last.gap);
    ScanWord(Between(init), last.word);
    assert "" + WordMeaning(last.word) == WordMeaning(last.word);
    ScanSpaces(Between(init).(word := WordMeaning(last.word), started := true), last.gap);
  }

  lemma ScanTail(s: Scan, tail: Tail)
    requires Outside(s) && TailOk(tail) && tail != Complete
    ensures Finish(ScanAll(s, TailText(tail))) ==
            Err(if tail.OpenEscape? || tail.OpenDoubleEscape? then UnfinishedEscape else UnterminatedQuote)
  {
    match tail
    case OpenEscape => ScanOne(s, '\\');
    case OpenSingle(text) =>
      ScanOne(s, '\'');
      ScanJoins(s, ['\''], text);
      ScanSingle(Step(s, '\''), text);
    case OpenDouble(inner) =>
      ScanOne(s, '"');
      ScanJoins(s, ['"'], InnerText(inner));
      ScanInner(Step(s, '"'), inner);
    case OpenDoubleEscape(inner) =>
      ScanOne(s, '"');
      ScanJoins(s, ['"'], InnerText(inner));
      ScanInner(Step(s, '"'), inner);
      ScanMore(s, ['"'] + InnerText(inner), '\\');
  }

  /** Splitting a command gives what it means. */
  lemma SplitMeans(lead: string, items: seq<Item>, tail: Tail)
    requires CommandOk(lead, items, tail)
    ensures Split(CommandText(lead, items, tail)) == Meaning(items, tail)
  {
    var text := lead + ItemsText(items);
    ScanItems(lead, items);
    ScanJoins(START, text, TailText(tail));
    if tail == Complete {
      CompleteText(lead, items);
      ArgumentsGrow(items);
    } else {
      ScanTail(ScanAll(START, text), tail);
    }
  }

  /** So for every text the result is that of its form: the two together say all of what splitting does. */
  lemma SplitIsMeaning(text: string) returns (lead: string, items: seq<Item>, tail: Tail)
    ensures CommandOk(lead, items, tail) && CommandText(lead, items, tail) == text
    ensures Split(text) == Meaning(items, tail)
  {
    lead, items, tail := EveryTextIsCommand(text);
    SplitMeans(lead, items, tail);
  }

  // ---------- arguments in any quoting ----------

  datatype Style = AsIs | Escaped | SingleQuotes | DoubleQuotes

  /** A backslash before each character. */
  function EscapeEach(arg: string): string {
    if arg == "" then "" else EscapeEach(arg[..|arg| - 1]) + PieceText(Escape(arg[|arg| - 1]))
  }

  /** A backslash before each double quote and backslash. */
  function Guard(arg: string): string {
    if arg == "" then ""
    else
      var last := arg[|arg| - 1];
      Guard(arg[..|arg| - 1]) + if last == '"' || last == '\\' then ['\\', last] else [last]
  }

  function InStyle(arg: string, style: Style): string {
    match style
    case AsIs => arg
    case Escaped => EscapeEach(arg)
    case SingleQuotes => Quote(arg)
    case DoubleQuotes => ['"'] + Guard(arg) + ['"']
  }

  /** Any argument can be quoted; without quotes it must not be empty, and as it is have nothing special in it. */
  predicate FitsStyle(arg: string, style: Style) {
    && (style == AsIs || style == Escaped ==> arg != "")
    && (style == AsIs ==>
          forall i | 0 <= i < |arg| :: !IsSpace(arg[i]) && arg[i] != '\\' && arg[i] != '\'' && arg[i] != '"')
  }

  lemma WordSplits(word: seq<Piece>)
    requires word != [] && forall i | 0 <= i < |word| :: PieceOk(word[i])
    ensures Split(WordText(word)) == Ok([WordMeaning(word)])
  {
    ScanWord(START, word);
    WordFinishes(WordText(word), WordMeaning(word));
  }

  lemma WordFinishes(text: string, meaning: string)
    requires ScanAll(START, text) == START.(word := START.word + meaning, started := true)
    ensures Split(text) == Ok([meaning])
  {
    assert START.word + meaning == meaning;
    assert START.args + [meaning] == [meaning];
  }

  predicate PiecesOk(word: seq<Piece>) {
    forall i | 0 <= i < |word| :: PieceOk(word[i])
  }

  /** The argument as a word of plain characters. */
  lemma {:induction false} PlainWord(arg: string) returns (word: seq<Piece>)
    requires arg == "" || FitsStyle(arg, AsIs)
    ensures |word| == |arg| && PiecesOk(word) && WordText(word) == arg && WordMeaning(word) == arg
    decreases |arg|
  {
    if arg == "" {
      word := [];
    } else {
      var init, last := arg[..|arg| - 1], arg[|arg| - 1];
      var before := PlainWord(init);
      word := before + [Plain(last)];
      WordGrows(before, Plain(last));
      assert arg == init + [last];
    }
  }

  lemma EndsInLast(arg: string)
    requires arg != ""
    ensures arg == arg[..|arg| - 1] + PieceMeaning(Escape(arg[|arg| - 1]))
  {
  }

  /** The argument as a word of escapes. */
  lemma {:induction false} EscapedWord(arg: string) returns (word: seq<Piece>)
    ensures |word| == |arg| && PiecesOk(word) && WordText(word) == EscapeEach(arg) && WordMeaning(word) == arg
    decreases |arg|
  {
    if arg == "" {
      word := [];
    } else {
      var init, last := arg[..|arg| - 1], arg[|arg| - 1];
      var before := EscapedWord(init);
      word := before + [Escape(last)];
      WordGrows(before, Escape(last));
      EndsInLast(arg);
    }
  }

  lemma {:induction false} GuardedInner(arg: string) returns (inner: seq<Inner>)
    ensures InnerOk(inner) && InnerText(inner) == Guard(arg) && InnerMeaning(inner) == arg
    decreases |arg|
  {
    if arg == "" {
      inner := [];
    } else {
      var init, last := arg[..|arg| - 1], arg[|arg| - 1];
      var before := GuardedInner(init);
      var next := if last == '"' || last == '\\' then InnerEscape(last) else Literal(last);
      inner := before + [next];
      AddsInner(before, next);
      assert InnerMeaning(inner) == InnerMeaning(before) + [last];
      assert arg == init + [last];
    }
  }

  lemma StyledSplits(arg: string, style: Style)
    requires FitsStyle(arg, style)
    ensures Split(InStyle(arg, style)) == Ok([arg])
  {
    match style
    case SingleQuotes => QuotedIsOneArgument(arg);
    case DoubleQuotes =>
      var inner := GuardedInner(arg);
      var piece := Double(inner);
      WordSplits([piece]);
      WordGrows([], piece);
      assert [] + [piece] == [piece];
      assert "" + PieceText(piece) == PieceText(piece) && "" + PieceMeaning(piece) == PieceMeaning(piece);
    case AsIs =>
      var word := PlainWord(arg);
      WordSplits(word);
    case Escaped =>
      var word := EscapedWord(arg);
      WordSplits(word);
  }

  function JoinInStyles(args: seq<string>, styles: seq<Style>): string
    requires |styles| == |args|
  {
    if args == [] then ""
    else if |args| == 1 then InStyle(args[0], styles[0])
    else InStyle(args[0], styles[0]) + [' '] + JoinInStyles(args[1..], styles[1..])
  }

  /** For every argument list, each argument written in any style it fits, joined with spaces, the list comes back. */
  lemma {:induction false} AnyQuotingRoundTrips(args: seq<string>, styles: seq<Style>)
    requires |styles| == |args| && forall i | 0 <= i < |args| :: FitsStyle(args[i], styles[i])
    ensures Split(JoinInStyles(args, styles)) == Ok(args)
    decreases |args|
  {
    if args != [] {
      StyledSplits(args[0], styles[0]);
      if |args| == 1 {
        assert [args[0]] == args;
      } else {
        AnyQuotingRoundTrips(args[1..], styles[1..]);
        SplitJoins(InStyle(args[0], styles[0]), ' ', JoinInStyles(args[1..], styles[1..]));
        assert [args[0]] + args[1..] == args;
      }
    }
  }
}

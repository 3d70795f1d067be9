/**
 Names in volume archives: what a raw tar name normalizes to, and the names packing and
 staging write. Names are byte strings.
*/
module VolumeNames {
  import opened Results

  const MAX_PATH_BYTES: nat := 4096

  // ---------- bytes ----------

  predicate Between(s: string, i: nat, low: int, high: int) {
    i < |s| && low <= s[i] as int <= high
  }

  predicate Continues(s: string, i: nat) {
    Between(s, i, 0x80, 0xBF)
  }

  /**
   The length of the first UTF-8 sequence of the text, or zero if it does not begin with one (RFC
   3629, section 4).
  */
  function RuneLength(s: string): (n: nat)
    ensures n <= |s|
  {
    if Between(s, 0, 0, 0x7F) then 1
    else if Between(s, 0, 0xC2, 0xDF) && Continues(s, 1) then 2
    else if Between(s, 0, 0xE0, 0xE0) && Between(s, 1, 0xA0, 0xBF) && Continues(s, 2) then 3
    else if (Between(s, 0, 0xE1, 0xEC) || Between(s, 0, 0xEE, 0xEF)) && Continues(s, 1) && Continues(s, 2) then 3
    else if Between(s, 0, 0xED, 0xED) && Between(s, 1, 0x80, 0x9F) && Continues(s, 2) then 3
    else if Between(s, 0, 0xF0, 0xF0) && Between(s, 1, 0x90, 0xBF) && Continues(s, 2) && Continues(s, 3) then 4
    else if Between(s, 0, 0xF1, 0xF3) && Continues(s, 1) && Continues(s, 2) && Continues(s, 3) then 4
    else if Between(s, 0, 0xF4, 0xF4) && Between(s, 1, 0x80, 0x8F) && Continues(s, 2) && Continues(s, 3) then 4
    else 0
  }

  predicate ValidUtf8(s: string) {
    s == "" || (RuneLength(s) > 0 && ValidUtf8(s[RuneLength(s)..]))
  }

  lemma {:induction false} ValidUtf8Suffix(s: string, c: char)
    requires c as int < 0x80
    ensures ValidUtf8(s + [c]) <==> ValidUtf8(s)
    decreases |s|
  {
    if s == "" {
      assert (s + [c])[1..] == "";
    } else {
      RuneLengthSuffix(s, c);
      var n := RuneLength(s);
      if n > 0 {
        assert (s + [c])[n..] == s[n..] + [c];
        ValidUtf8Suffix(s[n..], c);
      }
    }
  }

  lemma RuneLengthSuffix(s: string, c: char)
    requires s != "" && c as int < 0x80
    ensures RuneLength(s + [c]) == RuneLength(s)
  {
  }

  lemma ValidUtf8Prefix(c: char, s: string)
    requires c as int < 0x80
    ensures ValidUtf8([c] + s) <==> ValidUtf8(s)
  {
    assert ([c] + s)[1..] == s;
  }

  // ---------- paths ----------

  predicate GoodPart(part: string) {
    part != "" && part != "." && part != ".."
  }

  function FirstSlash(s: string): (k: nat)
    ensures k <= |s| && (k < |s| ==> s[k] == '/') && forall i | 0 <= i < k :: s[i] != '/'
  {
    if s == "" || s[0] == '/' then 0 else 1 + FirstSlash(s[1..])
  }

  /** No part between slashes is empty or a dot name. */
  predicate GoodPath(s: string) {
    var k := FirstSlash(s);
    GoodPart(s[..k]) && (k < |s| ==> GoodPath(s[k + 1..]))
  }

  lemma {:induction false} GoodPrefix(s: string, k: nat)
    requires GoodPath(s) && k < |s| && s[k] == '/'
    ensures GoodPath(s[..k])
    decreases |s|
  {
    var first := FirstSlash(s);
    if k == first {
      FirstSlashOf(s[..k], k);
      assert s[..k][..k] == s[..k];
    } else {
      FirstSlashOf(s[..k], first);
      assert s[..k][..first] == s[..first];
      assert s[..k][first + 1..] == s[first + 1..][..k - first - 1];
      GoodPrefix(s[first + 1..], k - first - 1);
    }
  }

  lemma FirstSlashOf(s: string, k: nat)
    requires k <= |s| && (k < |s| ==> s[k] == '/') && forall i | 0 <= i < k :: s[i] != '/'
    ensures FirstSlash(s) == k
  {
  }

  lemma DotSlashIsNotGood(s: string)
    requires "./" <= s
    ensures !GoodPath(s)
  {
    FirstSlashOf(s, 1);
    assert s[..1] == ".";
  }

  lemma DotIsNotGood()
    ensures !GoodPath(".")
  {
    FirstSlashOf(".", 1);
  }

  lemma GoodPathFacts(s: string)
    requires GoodPath(s)
    ensures s != "" && s[0] != '/' && s != "." && s[|s| - 1] != '/' && !("./" <= s)
  {
    GoodPathEnds(s);
    assert s[..FirstSlash(s)] != "";
    if "./" <= s {
      DotSlashIsNotGood(s);
    }
    DotIsNotGood();
  }

  lemma {:induction false} GoodPathEnds(s: string)
    requires GoodPath(s)
    ensures s != "" && s[|s| - 1] != '/'
    decreases |s|
  {
    var k := FirstSlash(s);
    if k < |s| {
      GoodPathEnds(s[k + 1..]);
    }
  }

  /** The last slash among the first `n` characters, or -1. */
  function LastSlash(s: string, n: nat): (k: int)
    requires n <= |s|
    ensures -1 <= k < n && (k >= 0 ==> s[k] == '/') && forall i | k < i < n :: s[i] != '/'
  {
    if n == 0 then -1 else if s[n - 1] == '/' then n - 1 else LastSlash(s, n - 1)
  }

  /** A normalized name. */
  datatype Path = Path(text: string)

  const ROOT := Path(".")

  /** The directory a name is in. */
  function Dir(name: Path): Path {
    var k := LastSlash(name.text, |name.text|);
    if k < 0 then ROOT else Path(name.text[..k])
  }

  /** The directories above a name, short of the root. */
  function Ancestors(name: Path): set<Path> {
    set k | 0 <= k < |name.text| && name.text[k] == '/' :: Path(name.text[..k])
  }

  /** Those of them that end at position `k` or before. */
  function AncestorsUpTo(name: Path, k: int): set<Path>
    requires k < |name.text|
  {
    set i | 0 <= i <= k && name.text[i] == '/' :: Path(name.text[..i])
  }

  /** Where a directory above a name ends: at a slash, or nowhere. */
  predicate Ends(name: Path, k: int) {
    -1 <= k < |name.text| && (k >= 0 ==> name.text[k] == '/')
  }

  function DirAt(name: Path, k: int): Path
    requires Ends(name, k)
  {
    if k < 0 then ROOT else Path(name.text[..k])
  }

  lemma DirOfDir(name: Path, k: int)
    requires Ends(name, k) && k >= 0
    ensures Dir(DirAt(name, k)) == DirAt(name, LastSlash(name.text, k))
  {
    SameLastSlash(name.text[..k], name.text, k);
    var j := LastSlash(name.text, k);
    assert j >= 0 ==> name.text[..k][..j] == name.text[..j];
  }

  lemma AncestorsOneUp(name: Path, k: int)
    requires Ends(name, k) && k >= 0
    ensures AncestorsUpTo(name, k) == {DirAt(name, k)} + AncestorsUpTo(name, LastSlash(name.text, k))
  {
  }

  lemma {:induction false} SameLastSlash(a: string, b: string, n: nat)
    requires n <= |a| && n <= |b| && a[..n] == b[..n]
    ensures LastSlash(a, n) == LastSlash(b, n)
  {
    if n > 0 {
      assert a[n - 1] == a[..n][n - 1] == b[n - 1];
      assert a[..n - 1] == a[..n][..n - 1] == b[..n - 1];
      SameLastSlash(a, b, n - 1);
    }
  }

  lemma AncestorsByDir(name: Path)
    ensures var k := LastSlash(name.text, |name.text|);
            Dir(name) == DirAt(name, k) && Ancestors(name) == AncestorsUpTo(name, k)
  {
  }

  // ---------- normalizing ----------

  datatype Root = Data | Native

  /** No control character, in text known to be valid UTF-8. */
  predicate NoControl(s: string) {
    forall i | 0 <= i < |s| :: 0x20 <= s[i] as int && s[i] as int != 0x7F
  }

  predicate SafeRaw(raw: string) {
    && |raw| <= MAX_PATH_BYTES + 8 && ValidUtf8(raw) && '\\' !in raw
    && (raw != "" ==> raw[0] != '/') && NoControl(raw)
  }

  function TrimPrefix(s: string, prefix: string): string {
    if prefix <= s then s[|prefix|..] else s
  }

  function TrimSlash(s: string): string {
    if s != "" && s[|s| - 1] == '/' then s[..|s| - 1] else s
  }

  function Trimmed(raw: string, directory: bool): string {
    var name := if raw == "./" && directory then "." else TrimPrefix(raw, "./");
    if directory then TrimSlash(name) else name
  }

  /** The name below the root of the archive, if it is there. */
  function BelowRoot(name: string, root: Root): Option<string> {
    if root.Native? then Some(name)
    else if name == "data" then Some(".")
    else if "data/" <= name then Some(name[5..])
    else None
  }

  predicate Acceptable(name: string, directory: bool) {
    (name == "." && directory) || (name != "" && |name| <= MAX_PATH_BYTES && GoodPath(name))
  }

  function EntryName(raw: string, root: Root, directory: bool): Option<string> {
    if !SafeRaw(raw) then None
    else match BelowRoot(Trimmed(raw, directory), root)
      case None => None
      case Some(name) => if Acceptable(name, directory) then Some(name) else None
  }

  /** The name written for an entry below the root of the target. */
  function OutputName(name: string, root: Root, directory: bool): string {
    var output := if root.Native? then name else if name == "." then "data" else "data/" + name;
    if directory then output + "/" else output
  }

  // ---------- round trips ----------

  /** What a normalized name can be made of. */
  predicate Safe(name: string) {
    ValidUtf8(name) && '\\' !in name && NoControl(name)
  }

  lemma SafeTail(s: string, n: nat)
    requires Safe(s) && n <= |s| && forall i | 0 <= i < n :: s[i] as int < 0x80
    ensures Safe(s[n..])
    decreases n
  {
    if n > 0 {
      assert s == [s[0]] + s[1..];
      ValidUtf8Prefix(s[0], s[1..]);
      SafeTail(s[1..], n - 1);
      assert s[1..][n - 1..] == s[n..];
    } else {
      assert s[0..] == s;
    }
  }

  lemma SafeTrim(s: string)
    requires Safe(s)
    ensures Safe(TrimSlash(s))
  {
    if s != "" && s[|s| - 1] == '/' {
      assert s == s[..|s| - 1] + ['/'];
      ValidUtf8Suffix(s[..|s| - 1], '/');
    }
  }

  lemma SafeAppend(s: string)
    requires Safe(s)
    ensures Safe(s + "/")
  {
    ValidUtf8Suffix(s, '/');
  }

  lemma SafeDot()
    ensures Safe(".")
  {
    ValidUtf8Prefix('.', "");
  }

  lemma {:induction false} SafeAscii(p: string, s: string)
    requires Safe(s) && forall i | 0 <= i < |p| :: 0x20 <= p[i] as int < 0x7F && p[i] != '\\'
    ensures Safe(p + s)
  {
    if p == "" {
      assert p + s == s;
    } else {
      SafeAscii(p[1..], s);
      ValidUtf8Prefix(p[0], p[1..] + s);
      assert p + s == [p[0]] + (p[1..] + s);
    }
  }

  lemma TrimmedIsSafe(raw: string, directory: bool)
    requires Safe(raw)
    ensures Safe(Trimmed(raw, directory))
  {
    var start := if raw == "./" && directory then "." else TrimPrefix(raw, "./");
    SafeDot();
    if "./" <= raw {
      SafeTail(raw, 2);
    }
    SafeTrim(start);
  }

  /** A normalized name is made of what its raw name was made of. */
  lemma EntryNameIsSafe(raw: string, root: Root, directory: bool)
    requires EntryName(raw, root, directory).Some?
    ensures Safe(EntryName(raw, root, directory).value)
  {
    TrimmedIsSafe(raw, directory);
    BelowRootIsSafe(Trimmed(raw, directory), root);
  }

  lemma BelowRootIsSafe(name: string, root: Root)
    requires Safe(name) && BelowRoot(name, root).Some?
    ensures Safe(BelowRoot(name, root).value)
  {
    SafeDot();
    if "data/" <= name {
      SafeTail(name, 5);
    }
  }

  /** A root name is a directory. */
  lemma RootIsDirectory(raw: string, root: Root, directory: bool)
    requires EntryName(raw, root, directory) == Some(".")
    ensures directory
  {
    DotIsNotGood();
  }

  /**
   Packing and staging undo each other: the name an accepted entry is packed under fits the
   raw limit and reads back to the same name, and so does the name it is staged under.
  */
  lemma NamesRoundTrip(raw: string, root: Root, directory: bool, target: Root)
    requires EntryName(raw, root, directory).Some?
    ensures var name := EntryName(raw, root, directory).value;
            EntryName(OutputName(name, target, directory), target, directory) == Some(name)
  {
    var name := EntryName(raw, root, directory).value;
    EntryNameIsSafe(raw, root, directory);
    if name == "." {
      RootIsDirectory(raw, root, directory);
      RootRoundTrips(target);
    } else {
      PathRoundTrips(name, target, directory);
    }
  }

  lemma RootRoundTrips(target: Root)
    ensures EntryName(OutputName(".", target, true), target, true) == Some(".")
  {
    SafeDot();
    SafeAppend(".");
    SafeAscii("data/", "");
    assert "data/" + "" == "data/";
    if target.Native? {
      assert OutputName(".", target, true) == "./";
      assert Trimmed("./", true) == ".";
    } else {
      assert OutputName(".", target, true) == "data/";
      assert TrimPrefix("data/", "./") == "data/" && TrimSlash("data/") == "data";
    }
  }

  lemma TrimsBack(base: string, directory: bool)
    requires base != "" && base != "." && base[|base| - 1] != '/' && !("./" <= base)
    ensures Trimmed(if directory then base + "/" else base, directory) == base
  {
    if directory {
      var raw := base + "/";
      assert raw[..|base|] == base;
      assert |base| >= 2 ==> (raw[..2] == base[..2]);
      assert |base| == 1 ==> raw[0] == base[0];
      assert !("./" <= raw);
      assert TrimSlash(raw) == base;
    }
  }

  lemma BaseIsSafe(name: string, target: Root)
    requires Safe(name) && GoodPath(name) && |name| <= MAX_PATH_BYTES
    ensures var base := OutputName(name, target, false);
      && Safe(base) && |base| <= MAX_PATH_BYTES + 5 && base != "" && base != "." && base[0] != '/'
      && base[|base| - 1] != '/'
      && !("./" <= base) && BelowRoot(base, target) == Some(name)
  {
    GoodPathFacts(name);
    var base := OutputName(name, target, false);
    if target.Data? {
      SafeAscii("data/", name);
      assert base[|base| - 1] == name[|name| - 1];
      assert base[0] == 'd' && base[5..] == name && |base| > 4;
    }
  }

  lemma EntryNameOf(raw: string, base: string, name: string, root: Root, directory: bool)
    requires Safe(raw) && raw != "" && raw[0] != '/' && |raw| <= MAX_PATH_BYTES + 8
    requires Trimmed(raw, directory) == base && BelowRoot(base, root) == Some(name) && Acceptable(name, directory)
    ensures EntryName(raw, root, directory) == Some(name)
  {
  }

  lemma PathRoundTrips(name: string, target: Root, directory: bool)
    requires Safe(name) && GoodPath(name) && |name| <= MAX_PATH_BYTES
    ensures EntryName(OutputName(name, target, directory), target, directory) == Some(name)
  {
    var base := OutputName(name, target, false);
    var raw := if directory then base + "/" else base;
    BaseIsSafe(name, target);
    TrimsBack(base, directory);
    SafeAppend(base);
    GoodPathFacts(name);
    EntryNameOf(raw, base, name, target, directory);
  }
}

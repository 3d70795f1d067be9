/** Which names of a volume archive are taken, told by positions in the text. */
module VolumePaths {
  import opened Results
  import opened VolumeNames

  // ---------- stretches between slashes ----------

  /** A stretch of the text from its begin or a slash to a slash or its end. */
  predicate IsPart(text: string, i: nat, j: nat) {
    && i <= j <= |text|
    && (i == 0 || text[i - 1] == '/') && (j == |text| || text[j] == '/')
    && (forall k | i <= k < j :: text[k] != '/')
  }

  /** No such stretch is empty or leads to the same or an upper directory. */
  ghost predicate StaysBelow(text: string) {
    forall i: nat, j: nat | IsPart(text, i, j) :: text[i..j] != "" && text[i..j] != "." && text[i..j] != ".."
  }

  /** The parts after the first slash, moved by its position. */
  lemma LaterPart(text: string, first: nat, i: nat, j: nat)
    requires first < |text| && text[first] == '/' && first < i
    ensures IsPart(text, i, j) <==> j > first && IsPart(text[first + 1..], i - first - 1, j - first - 1)
    ensures i <= j <= |text| ==> text[i..j] == text[first + 1..][i - first - 1..j - first - 1]
  {
  }

  lemma FirstPart(text: string, i: nat, j: nat)
    requires i <= FirstSlash(text)
    ensures IsPart(text, i, j) <==> i == 0 && j == FirstSlash(text)
  {
  }

  /** A path is good exactly if it stays below where it starts. */
  lemma {:induction false} GoodPathIff(text: string)
    ensures GoodPath(text) <==> StaysBelow(text)
    decreases |text|
  {
    var first := FirstSlash(text);
    FirstPart(text, 0, first);
    if first == |text| {
      forall i: nat, j: nat | IsPart(text, i, j) ensures i == 0 && j == first {
        FirstPart(text, i, j);
      }
    } else {
      GoodPathIff(text[first + 1..]);
      RestStays(text, first);
    }
  }

  lemma RestStays(text: string, first: nat)
    requires first == FirstSlash(text) && first < |text|
    ensures StaysBelow(text) <==> GoodPart(text[..first]) && StaysBelow(text[first + 1..])
  {
    var rest := text[first + 1..];
    FirstPart(text, 0, first);
    if StaysBelow(text) {
      forall i: nat, j: nat | IsPart(rest, i, j) ensures GoodPart(rest[i..j]) {
        LaterPart(text, first, first + 1 + i, first + 1 + j);
        assert IsPart(text, first + 1 + i, first + 1 + j);
      }
    }
    if GoodPart(text[..first]) && StaysBelow(rest) {
      forall i: nat, j: nat | IsPart(text, i, j) ensures text[i..j] != "" && text[i..j] != "." && text[i..j] != ".." {
        if i <= first {
          FirstPart(text, i, j);
        } else {
          LaterPart(text, first, i, j);
          assert IsPart(rest, i - first - 1, j - first - 1);
        }
      }
    }
  }

  // ---------- which raw names are taken ----------

  /** The raw name is short, without backslashes and control characters, valid UTF-8 and relative. */
  predicate IsSafeText(raw: string) {
    && |raw| <= 4104 && ValidUtf8(raw) && (raw == "" || raw[0] != '/')
    && (forall i | 0 <= i < |raw| :: raw[i] != '\\' && 0x20 <= raw[i] as int && raw[i] as int != 0x7F)
  }

  /** A name an entry can have: the root, for a directory, or a short path that stays below it. */
  ghost predicate IsEntryName(name: string, directory: bool) {
    (name == "." && directory) || (|name| <= 4096 && StaysBelow(name))
  }

  /** How the name can be written below the root of the archive. */
  predicate IsBase(base: string, name: string, root: Root) {
    match root
    case Native => base == name
    case Data => base == "data/" + name || (base == "data" && name == ".")
  }

  /** How that can be written: with a dot in front, and a slash at the end of a directory. */
  predicate Spells(raw: string, base: string, directory: bool) {
    || raw == base || raw == "./" + base
    || (directory && (raw == base + "/" || raw == "./" + base + "/"))
  }

  lemma AcceptableIff(name: string, directory: bool)
    ensures Acceptable(name, directory) <==> IsEntryName(name, directory)
  {
    GoodPathIff(name);
    FirstPart("", 0, 0);
    assert IsPart("", 0, 0);
  }

  lemma NoDotSlash(base: string)
    ensures "./" <= base <==> |base| >= 2 && base[0] == '.' && base[1] == '/'
  {
    if |base| >= 2 && base[0] == '.' && base[1] == '/' {
      assert base[..2] == "./";
    }
  }

  /** A base that can be named does not begin with a dot and a slash, and does not end with a slash. */
  lemma BaseShape(base: string, name: string, root: Root, directory: bool)
    requires IsBase(base, name, root) && Acceptable(name, directory)
    ensures base != "" && !("./" <= base) && base[|base| - 1] != '/'
    ensures BelowRoot(base, root) == Some(name)
  {
    if name != "." || !directory {
      GoodPathFacts(name);
    }
    NoDotSlash(base);
    if root.Data? && base == "data/" + name {
      assert base[0] == 'd' && base[|base| - 1] == name[|name| - 1] && base[5..] == name;
    }
  }

  lemma BelowRootIsBase(base: string, root: Root)
    requires BelowRoot(base, root).Some?
    ensures IsBase(base, BelowRoot(base, root).value, root)
  {
    if root.Data? && "data/" <= base {
      assert base == "data/" + base[5..];
    }
  }

  /** Trimming a spelling gives the base back. */
  lemma SpellingTrims(raw: string, base: string, directory: bool)
    requires Spells(raw, base, directory) && base != "" && !("./" <= base) && base[|base| - 1] != '/'
    ensures Trimmed(raw, directory) == base
  {
    if raw == "./" + base {
      assert raw[2..] == base && |raw| > 2;
    } else if raw == "./" + base + "/" {
      assert raw[2..] == base + "/" && |raw| > 2 && TrimSlash(base + "/") == base;
    } else if raw == base + "/" {
      SlashTrims(raw, base);
    }
  }

  lemma SlashTrims(raw: string, base: string)
    requires raw == base + "/" && base != "" && !("./" <= base) && base[|base| - 1] != '/'
    ensures Trimmed(raw, true) == base
  {
    assert TrimSlash(raw) == base;
    if |base| >= 2 {
      assert raw[..2] == base[..2];
      assert !("./" <= raw);
    } else {
      assert raw[0] == base[0] && raw[1] == '/';
      assert "./" <= raw ==> base == ".";
    }
  }

  /** What a raw name is trimmed to spells it. */
  lemma TrimmedIsSpelled(raw: string, directory: bool)
    ensures Spells(raw, Trimmed(raw, directory), directory)
  {
    var start := if raw == "./" && directory then "." else TrimPrefix(raw, "./");
    if "./" <= raw {
      assert raw == "./" + raw[2..];
    }
    if start != "" && start[|start| - 1] == '/' {
      assert start == start[..|start| - 1] + "/";
    }
  }

  /**
   Exactly the safe raw names that spell a name below the root are taken, for that name: the root
   itself or a path no part of which is empty or a dot name.
  */
  lemma EntryNameIff(raw: string, root: Root, directory: bool, name: string)
    ensures EntryName(raw, root, directory) == Some(name) <==>
      && IsSafeText(raw) && IsEntryName(name, directory)
      && exists base :: IsBase(base, name, root) && Spells(raw, base, directory)
  {
    AcceptableIff(name, directory);
    assert SafeRaw(raw) <==> IsSafeText(raw);
    if EntryName(raw, root, directory) == Some(name) {
      BelowRootIsBase(Trimmed(raw, directory), root);
      TrimmedIsSpelled(raw, directory);
    }
    if IsEntryName(name, directory) && exists base :: IsBase(base, name, root) && Spells(raw, base, directory) {
      var base :| IsBase(base, name, root) && Spells(raw, base, directory);
      BaseShape(base, name, root, directory);
      SpellingTrims(raw, base, directory);
    }
  }

  // ---------- what is written ----------

  /** Without the slash that ends the name of a directory. */
  function WithoutSlash(output: string, directory: bool): string {
    if directory && output != "" then output[..|output| - 1] else output
  }

  /** A written name is the root of the target or stays below it. */
  ghost predicate IsBelowTarget(output: string, target: Root, directory: bool) {
    var base := WithoutSlash(output, directory);
    && (directory ==> output != "" && output[|output| - 1] == '/')
    && match target
       case Native => base == "." || StaysBelow(base)
       case Data => base == "data" || ("data/" <= base && StaysBelow(base))
  }

  lemma OutputIsBelowTarget(raw: string, root: Root, directory: bool, target: Root)
    requires EntryName(raw, root, directory).Some?
    ensures var name := EntryName(raw, root, directory).value;
      && ((name == "." && directory) || StaysBelow(name))
      && IsBelowTarget(OutputName(name, target, directory), target, directory)
  {
    var name := EntryName(raw, root, directory).value;
    GoodPathIff(name);
    var base := OutputName(name, target, false);
    assert WithoutSlash(OutputName(name, target, directory), directory) == base;
    if target.Data? && name != "." {
      FirstSlashOf(base, 4);
      assert base[..4] == "data" && base[5..] == name;
      GoodPathIff(base);
    }
  }
}

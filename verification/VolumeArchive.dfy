/**
 Which tar entries a volume archive may hold. One pass over the headers, in whatever order
 they come, decides whether they describe a file tree within the supported limits.
*/
module VolumeArchive {
  import opened Results
  import opened VolumeNames
  import opened VolumePaths
  import opened VolumeTree

  const MAX_UINT32: int := 0xFFFF_FFFF

  datatype Kind = Regular | OldRegular | Directory | OtherKind

  /** A decoded tar header. */
  datatype Header = Header(
    name: string, kind: Kind, size: int, mode: int, uid: int, gid: int,
    link: string, major: int, minor: int, xattrs: nat, records: set<string>)

  const PLAIN_RECORDS := {"path", "size", "uid", "gid", "uname", "gname", "mtime", "atime", "ctime"}

  /** An ordinary file or directory with plain permissions and ownership and no extended metadata. */
  predicate ValidHeader(h: Header) {
    && !h.kind.OtherKind?
    && 0 <= h.size && (h.kind.Directory? ==> h.size == 0)
    && 0 <= h.mode < 512
    && 0 <= h.uid < MAX_UINT32 && 0 <= h.gid < MAX_UINT32
    && h.link == "" && h.major == 0 && h.minor == 0 && h.xattrs == 0
    && h.records <= PLAIN_RECORDS
  }

  function ReadEntry(h: Header, root: Root): Option<Entry<Path>> {
    if !ValidHeader(h) then None
    else match EntryName(h.name, root, h.kind.Directory?)
      case None => None
      case Some(name) => Some(Entry(Path(name), h.kind.Directory?, h.size))
  }

  function Length(name: Path): nat {
    |name.text|
  }

  // ---------- what is accepted ----------

  ghost predicate AllRead(headers: seq<Header>, root: Root) {
    forall i | 0 <= i < |headers| :: ReadEntry(headers[i], root).Some?
  }

  ghost predicate Lists(headers: seq<Header>, root: Root, entries: seq<Entry<Path>>) {
    |entries| == |headers| && forall i | 0 <= i < |headers| :: ReadEntry(headers[i], root) == Some(entries[i])
  }

  function Entries(headers: seq<Header>, root: Root): set<Entry<Path>> {
    set h | h in headers && ReadEntry(h, root).Some? :: ReadEntry(h, root).value
  }

  /**
   Every header can be read, no two have the same name, the root is there, nothing lies
   below a file, and names, directories above them, and sizes keep to the limits.
  */
  ghost predicate Accepts(headers: seq<Header>, root: Root) {
    && (forall h | h in headers :: ReadEntry(h, root).Some?)
    && |Names(Entries(headers, root))| == |headers|
    && ROOT in Names(Entries(headers, root))
    && Fits(Entries(headers, root), Ancestors, Length)
  }

  lemma EntriesOfList(headers: seq<Header>, root: Root, entries: seq<Entry<Path>>)
    requires Lists(headers, root, entries)
    ensures Entries(headers, root) == Elements(entries)
    ensures Accepts(headers, root) <==> Sound(entries, Ancestors, Length) && ROOT in Names(Elements(entries))
  {
    forall e | e in Elements(entries) ensures e in Entries(headers, root) {
      var i :| 0 <= i < |entries| && entries[i] == e;
      assert headers[i] in headers;
    }
    forall e | e in Entries(headers, root) ensures e in Elements(entries) {
      var i :| 0 <= i < |headers| && ReadEntry(headers[i], root) == Some(e);
      assert entries[i] == e;
    }
  }

  /** The order of the entries makes no difference. */
  lemma OrderDoesNotMatter(a: seq<Header>, b: seq<Header>, root: Root)
    requires multiset(a) == multiset(b)
    ensures Accepts(a, root) <==> Accepts(b, root)
    ensures Inspect(Entries(a, root)) == Inspect(Entries(b, root))
  {
    assert |multiset(a)| == |multiset(b)|;
    assert forall h :: h in a <==> h in multiset(a);
    assert forall h :: h in b <==> h in multiset(b);
    assert Entries(a, root) == Entries(b, root);
  }

  // ---------- the directories above an entry ----------

  predicate Normal(name: Path) {
    name == ROOT || GoodPath(name.text)
  }

  /** The root is not above itself: what a normalized name guarantees. */
  lemma DirIsRootOnlyAtEnd(name: Path, k: int)
    requires Normal(name) && Ends(name, k)
    ensures DirAt(name, k) == ROOT <==> k < 0
  {
    DotIsNotGood();
    if k >= 0 && name != ROOT {
      GoodPrefix(name.text, k);
    }
  }

  /** The directories above a name that end at `k` or before, the nearest one first. */
  function Upwards(name: Path, k: int): seq<Path>
    requires Ends(name, k)
    decreases k
  {
    if k < 0 then [] else [DirAt(name, k)] + Upwards(name, LastSlash(name.text, k))
  }

  function AllUpwards(name: Path): seq<Path> {
    Upwards(name, LastSlash(name.text, |name.text|))
  }

  lemma {:induction false} UpwardsAreAncestors(name: Path, k: int)
    requires Ends(name, k)
    ensures Members(Upwards(name, k)) == AncestorsUpTo(name, k)
    decreases k
  {
    if k >= 0 {
      var rest := Upwards(name, LastSlash(name.text, k));
      UpwardsAreAncestors(name, LastSlash(name.text, k));
      AncestorsOneUp(name, k);
      assert Members([DirAt(name, k)] + rest) == {DirAt(name, k)} + Members(rest);
    }
  }

  lemma UpwardsOf(name: Path)
    ensures Members(AllUpwards(name)) == Ancestors(name) && name !in Ancestors(name)
  {
    AncestorsByDir(name);
    UpwardsAreAncestors(name, LastSlash(name.text, |name.text|));
    assert forall a | a in Ancestors(name) :: |a.text| < |name.text|;
  }

  method NoteParent(parent: Path, start: Progress<Path>) returns (ok: bool, p: Progress<Path>)
    ensures NoteDirectory(parent, start, Length) == if ok then Some(p) else None
  {
    p := start;
    if parent in p.seen {
      return p.seen[parent], p;
    }
    if parent !in p.ancestors {
      if |p.seen| + |p.ancestors| >= MAX_ENTRIES || p.namesBytes + |parent.text| > MAX_NAMES_BYTES {
        return false, p;
      }
      p := WithAncestor(p, parent, Length);
    }
    ok := true;
  }

  /** Note the directories above `name`; stop at one that is a file, or when there is no room. */
  method NoteAncestors(name: Path, start: Progress<Path>) returns (ok: bool, p: Progress<Path>)
    requires Normal(name)
    ensures NoteDirectories(AllUpwards(name), start, Length) == if ok then Some(p) else None
  {
    p := start;
    var parent := Dir(name);
    ghost var k := LastSlash(name.text, |name.text|);
    DirIsRootOnlyAtEnd(name, k);
    while parent != ROOT
      invariant Ends(name, k) && parent == DirAt(name, k) && (parent == ROOT <==> k < 0)
      invariant NoteDirectories(AllUpwards(name), start, Length) == NoteDirectories(Upwards(name, k), p, Length)
      decreases k
    {
      DirOfDir(name, k);
      assert Upwards(name, k)[1..] == Upwards(name, LastSlash(name.text, k));
      var noted, next := NoteParent(parent, p);
      if !noted {
        return false, p;
      }
      p := next;
      parent := Dir(parent);
      k := LastSlash(name.text, k);
      DirIsRootOnlyAtEnd(name, k);
    }
    ok := true;
  }

  /** One entry: refuse a second one of its name, a file above another entry, or too much of anything. */
  method NoteEntry(e: Entry<Path>, start: Progress<Path>, bytes: nat) returns (ok: bool, p: Progress<Path>)
    requires Normal(e.name)
    ensures AddEntry(e, AllUpwards(e.name), start, bytes, Length) == if ok then Some(p) else None
  {
    p := start;
    if e.name in p.seen {
      return false, p;
    }
    if !e.directory && e.name in p.ancestors {
      return false, p;
    }
    var noted, above := NoteAncestors(e.name, p);
    if !noted {
      return false, p;
    }
    p := above;
    if e.name in p.ancestors {
      p := WithoutAncestor(p, e.name, Length);
    }
    if |p.seen| + |p.ancestors| >= MAX_ENTRIES || p.namesBytes + |e.name.text| > MAX_NAMES_BYTES {
      return false, p;
    }
    p := WithName(p, e.name, e.directory, Length);
    if e.size > MAX_INT64 - bytes {
      return false, p;
    }
    ok := true;
  }

  // ---------- the pass ----------

  /** The header written for an entry of the target. */
  function Rewritten(h: Header, root: Root, target: Root): Header
    requires ReadEntry(h, root).Some?
  {
    h.(name := OutputName(ReadEntry(h, root).value.name.text, target, h.kind.Directory?), records := {})
  }

  ghost predicate IsRewritten(h: Header, written: Header, root: Root, target: Root) {
    ReadEntry(h, root).Some? && written == Rewritten(h, root, target)
  }

  ghost predicate AllRewritten(headers: seq<Header>, written: seq<Header>, root: Root, target: Root) {
    && |written| == |headers|
    && forall i | 0 <= i < |headers| :: IsRewritten(headers[i], written[i], root, target)
  }

  /** What the pass made of the headers so far. */
  datatype Pass = Pass(p: Progress<Path>, counted: Inspection, written: seq<Header>)

  ghost predicate Passed(headers: seq<Header>, root: Root, target: Root, entries: seq<Entry<Path>>, s: Pass) {
    && Lists(headers, root, entries) && Sound(entries, Ancestors, Length)
    && Holds(s.p, Elements(entries), Ancestors, Length) && s.counted == Inspect(Elements(entries))
    && AllRewritten(headers, s.written, root, target)
  }

  /** Decide about an archive in one pass. `complete` says its end marker, its padding and its checksum are right. */
  method CopyVolumeEntries(
    headers: seq<Header>, complete: bool, root: Root, target: Root
  ) returns (r: Option<Inspection>, written: seq<Header>)
    ensures r.Some? <==> complete && Accepts(headers, root)
    ensures r.Some? ==> r.value == Inspect(Entries(headers, root)) && AllRewritten(headers, written, root, target)
    ensures r.Some? ==>
      forall i | 0 <= i < |headers| :: IsPlain(headers[i]) && KeepsEntry(headers[i], written[i], target)
  {
    var s := Pass(Progress(map[], {}, 0), Inspection(0, 0, 0), []);
    ghost var entries: seq<Entry<Path>> := [];
    NothingYet(Ancestors, Length);
    for i := 0 to |headers|
      invariant Passed(headers[..i], root, target, entries, s)
    {
      var read := ReadEntry(headers[i], root);
      if read.None? {
        UnreadableHeader(headers, root, i);
        return None, [];
      }
      var e := read.value;
      ReadEntryIsNormal(headers[i], root);
      var ok, next := NoteEntry(e, s.p, s.counted.bytes);
      if !ok {
        EntryRefused(headers, root, target, i, entries, e, s);
        return None, [];
      }
      EntryPassed(headers, root, target, i, entries, e, s, next);
      s := Pass(next, CountOne(s.counted, e), s.written + [Rewritten(headers[i], root, target)]);
      entries := entries + [e];
    }
    AllPassed(headers, root, target, entries, s);
    if !complete || ROOT !in s.p.seen {
      return None, [];
    }
    WrittenKeeps(headers, s.written, root, target);
    return Some(s.counted), s.written;
  }

  /** A regular file or a directory without content, with plain permissions, an owner and a group, and nothing else. */
  predicate IsPlain(h: Header) {
    && (h.kind == Regular || h.kind == OldRegular || (h.kind == Directory && h.size == 0))
    && h.size >= 0 && 0 <= h.mode <= 0x1FF
    && 0 <= h.uid <= 0xFFFF_FFFE && 0 <= h.gid <= 0xFFFF_FFFE
    && h.link == "" && h.major == 0 && h.minor == 0 && h.xattrs == 0
    && (forall r | r in h.records ::
          r in {"path", "size", "uid", "gid", "uname", "gname", "mtime", "atime", "ctime"})
  }

  /** The header written for an entry keeps all but the spelling of its name: the root of the target or below it. */
  ghost predicate KeepsEntry(h: Header, written: Header, target: Root) {
    && written.kind == h.kind && written.size == h.size && written.mode == h.mode
    && written.uid == h.uid && written.gid == h.gid
    && written.link == "" && written.major == 0 && written.minor == 0 && written.xattrs == 0 && written.records == {}
    && IsBelowTarget(written.name, target, h.kind == Directory)
  }

  /** Exactly the plain headers with a name that is taken are read, as an entry of that name, kind and size. */
  lemma ReadEntryIff(h: Header, root: Root, e: Entry<Path>)
    ensures ReadEntry(h, root) == Some(e) <==>
      && IsPlain(h) && e.directory == (h.kind == Directory) && e.size == h.size
      && IsSafeText(h.name) && IsEntryName(e.name.text, e.directory)
      && exists base :: IsBase(base, e.name.text, root) && Spells(h.name, base, e.directory)
  {
    EntryNameIff(h.name, root, h.kind.Directory?, e.name.text);
    assert ValidHeader(h) <==> IsPlain(h);
  }

  lemma HeaderKeeps(h: Header, written: Header, root: Root, target: Root)
    requires IsRewritten(h, written, root, target)
    ensures IsPlain(h) && KeepsEntry(h, written, target)
  {
    OutputIsBelowTarget(h.name, root, h.kind.Directory?, target);
    PlainKeeps(h, written, target);
  }

  lemma PlainKeeps(h: Header, written: Header, target: Root)
    requires ValidHeader(h) && written == h.(name := written.name, records := {})
    requires IsBelowTarget(written.name, target, h.kind.Directory?)
    ensures IsPlain(h) && KeepsEntry(h, written, target)
  {
  }

  lemma WrittenKeeps(headers: seq<Header>, written: seq<Header>, root: Root, target: Root)
    requires AllRewritten(headers, written, root, target)
    ensures forall i | 0 <= i < |headers| :: IsPlain(headers[i]) && KeepsEntry(headers[i], written[i], target)
  {
    forall i | 0 <= i < |headers| ensures IsPlain(headers[i]) && KeepsEntry(headers[i], written[i], target) {
      HeaderKeeps(headers[i], written[i], root, target);
    }
  }

  /** The entries of an accepted archive are its root and what stays below it. */
  lemma EntriesStayBelow(headers: seq<Header>, root: Root)
    ensures forall e | e in Entries(headers, root) :: (e.name == ROOT && e.directory) || StaysBelow(e.name.text)
  {
    forall e | e in Entries(headers, root)
      ensures (e.name == ROOT && e.directory) || StaysBelow(e.name.text)
    {
      var h :| h in headers && ReadEntry(h, root) == Some(e);
      OutputIsBelowTarget(h.name, root, h.kind.Directory?, root);
    }
  }

  lemma UnreadableHeader(headers: seq<Header>, root: Root, i: nat)
    requires i < |headers| && ReadEntry(headers[i], root).None?
    ensures !Accepts(headers, root)
  {
    assert headers[i] in headers;
  }

  lemma AllPassed(headers: seq<Header>, root: Root, target: Root, entries: seq<Entry<Path>>, s: Pass)
    requires Passed(headers[..|headers|], root, target, entries, s)
    ensures Accepts(headers, root) <==> ROOT in s.p.seen
    ensures s.counted == Inspect(Entries(headers, root)) && AllRewritten(headers, s.written, root, target)
  {
    assert headers[..|headers|] == headers;
    EntriesOfList(headers, root, entries);
  }

  lemma EntryPassed(
    headers: seq<Header>, root: Root, target: Root, i: nat, entries: seq<Entry<Path>>, e: Entry<Path>, s: Pass,
    next: Progress<Path>
  )
    requires i < |headers| && Passed(headers[..i], root, target, entries, s) && ReadEntry(headers[i], root) == Some(e)
    requires AddEntry(e, AllUpwards(e.name), s.p, s.counted.bytes, Length) == Some(next)
    ensures Passed(headers[..i + 1], root, target, entries + [e],
                   Pass(next, CountOne(s.counted, e), s.written + [Rewritten(headers[i], root, target)]))
  {
    UpwardsOf(e.name);
    EntryDecides(entries, e, AllUpwards(e.name), s.p, Ancestors, Length);
    CountsOneMore(entries, e, Ancestors, Length);
    ListsOneMore(headers, root, i, entries, e);
    RewritesOneMore(headers, root, target, i, s.written);
  }

  lemma ListsOneMore(headers: seq<Header>, root: Root, i: nat, entries: seq<Entry<Path>>, e: Entry<Path>)
    requires i < |headers| && Lists(headers[..i], root, entries) && ReadEntry(headers[i], root) == Some(e)
    ensures Lists(headers[..i + 1], root, entries + [e])
  {
  }

  lemma RewritesOneMore(headers: seq<Header>, root: Root, target: Root, i: nat, written: seq<Header>)
    requires i < |headers| && AllRewritten(headers[..i], written, root, target) && ReadEntry(headers[i], root).Some?
    ensures AllRewritten(headers[..i + 1], written + [Rewritten(headers[i], root, target)], root, target)
  {
    OneMoreRewritten(headers[..i], written, headers[i], Rewritten(headers[i], root, target), root, target);
    assert headers[..i + 1] == headers[..i] + [headers[i]];
  }

  lemma OneMoreRewritten(headers: seq<Header>, written: seq<Header>, h: Header, w: Header, root: Root, target: Root)
    requires AllRewritten(headers, written, root, target) && IsRewritten(h, w, root, target)
    ensures AllRewritten(headers + [h], written + [w], root, target)
  {
    forall i | 0 <= i < |headers| + 1 ensures IsRewritten((headers + [h])[i], (written + [w])[i], root, target) {
      if i < |headers| {
        assert IsRewritten(headers[i], written[i], root, target);
      }
    }
  }

  lemma EntryRefused(
    headers: seq<Header>, root: Root, target: Root, i: nat, entries: seq<Entry<Path>>, e: Entry<Path>, s: Pass
  )
    requires i < |headers| && Passed(headers[..i], root, target, entries, s) && ReadEntry(headers[i], root) == Some(e)
    requires AddEntry(e, AllUpwards(e.name), s.p, s.counted.bytes, Length).None?
    ensures !Accepts(headers, root)
  {
    UpwardsOf(e.name);
    EntryDecides(entries, e, AllUpwards(e.name), s.p, Ancestors, Length);
    ListsOneMore(headers, root, i, entries, e);
    if Accepts(headers, root) {
      SoundUpTo(headers, root, i + 1, entries + [e]);
    }
  }

  lemma ReadEntryIsNormal(h: Header, root: Root)
    requires ReadEntry(h, root).Some?
    ensures var e := ReadEntry(h, root).value; Normal(e.name) && (e.directory ==> e.size == 0)
  {
  }

  /** Every part of an acceptable archive is sound. */
  lemma SoundUpTo(headers: seq<Header>, root: Root, k: nat, entries: seq<Entry<Path>>)
    requires k <= |headers| && Lists(headers[..k], root, entries) && Accepts(headers, root)
    ensures Sound(entries, Ancestors, Length)
  {
    AcceptedIsRead(headers, root);
    var all := ListOf(headers, root);
    EntriesOfList(headers, root, all);
    PrefixIsSound(all, k, Ancestors, Length);
    SamePrefix(headers, root, k, all, entries);
  }

  lemma SamePrefix(headers: seq<Header>, root: Root, k: nat, all: seq<Entry<Path>>, entries: seq<Entry<Path>>)
    requires k <= |headers| && Lists(headers, root, all) && Lists(headers[..k], root, entries)
    ensures all[..k] == entries
  {
    forall i | 0 <= i < k ensures all[i] == entries[i] {
      assert headers[..k][i] == headers[i];
    }
  }

  lemma AcceptedIsRead(headers: seq<Header>, root: Root)
    requires Accepts(headers, root)
    ensures AllRead(headers, root)
  {
    forall i | 0 <= i < |headers| ensures ReadEntry(headers[i], root).Some? {
      assert headers[i] in headers;
    }
  }

  lemma {:induction false} ListOf(headers: seq<Header>, root: Root) returns (entries: seq<Entry<Path>>)
    requires AllRead(headers, root)
    ensures Lists(headers, root, entries)
    decreases |headers|
  {
    if headers == [] {
      entries := [];
    } else {
      var init, last := headers[..|headers| - 1], headers[|headers| - 1];
      var before := ListOf(init, root);
      entries := before + [ReadEntry(last, root).value];
    }
  }

  // ---------- the metadata budget ----------

  const MAX_METADATA_BYTES: nat := 64 * 1024 * 1024

  datatype ReadError = Canceled | MetadataExceeded

  /** The bytes of an archive; headers and padding may not take more than their budget, payload is not counted. */
  class VolumeTarInput {
    const source: string
    var read: nat
    var metadata: bool
    var metadataBytes: nat

    constructor (source: string)
      ensures Valid() && this.source == source && read == 0 && metadataBytes == 0
    {
      this.source := source;
      read, metadata, metadataBytes := 0, false, 0;
    }

    predicate Valid()
      reads this
    {
      metadataBytes <= MAX_METADATA_BYTES && metadataBytes <= read <= |source|
    }

    /** Read up to `wanted` bytes; the reader below gives no more than `ready` of them at once. */
    method Read(wanted: nat, ready: nat, canceled: bool) returns (r: Result<string, ReadError>)
      requires Valid()
      modifies this`read, this`metadataBytes
      ensures Valid()
      ensures r == Err(Canceled) <==> canceled
      ensures r == Err(MetadataExceeded) <==> !canceled && metadata && old(metadataBytes) == MAX_METADATA_BYTES
      ensures r.Err? ==> read == old(read) && metadataBytes == old(metadataBytes)
      ensures r.Ok? ==>
        && old(read) <= read && r.value == source[old(read)..read] && |r.value| <= wanted
        && metadataBytes == old(metadataBytes) + (if metadata then |r.value| else 0)
        && (wanted > 0 && ready > 0 && old(read) < |source| ==> r.value != "")
    {
      if canceled {
        return Err(Canceled);
      }
      var n := wanted;
      if metadata {
        var remaining := MAX_METADATA_BYTES - metadataBytes;
        if remaining <= 0 {
          return Err(MetadataExceeded);
        }
        if n > remaining {
          n := remaining;
        }
      }
      if n > ready {
        n := ready;
      }
      if n > |source| - read {
        n := |source| - read;
      }
      r := Ok(source[read..read + n]);
      read := read + n;
      if metadata {
        metadataBytes := metadataBytes + n;
      }
    }
  }

  // ---------- packing and staging ----------

  lemma RewrittenReadsBack(h: Header, root: Root, target: Root)
    requires ReadEntry(h, root).Some?
    ensures ReadEntry(Rewritten(h, root, target), target) == ReadEntry(h, root)
  {
    NamesRoundTrip(h.name, root, h.kind.Directory?, target);
  }

  /** What was accepted and rewritten is accepted again, and holds the very same entries. */
  lemma RewrittenIsAccepted(headers: seq<Header>, root: Root, target: Root, written: seq<Header>)
    requires AllRewritten(headers, written, root, target)
    ensures Entries(written, target) == Entries(headers, root)
    ensures Accepts(written, target) <==> Accepts(headers, root)
  {
    forall i | 0 <= i < |headers| ensures ReadEntry(written[i], target) == ReadEntry(headers[i], root) {
      assert IsRewritten(headers[i], written[i], root, target);
      RewrittenReadsBack(headers[i], root, target);
    }
    assert AllRead(headers, root) by {
      assert forall i | 0 <= i < |headers| :: IsRewritten(headers[i], written[i], root, target);
    }
    var entries := ListOf(headers, root);
    EntriesOfList(headers, root, entries);
    EntriesOfList(written, target, entries);
  }
}

/**
 Counting a file tree entry by entry. Names are abstract here: `up` gives the directories
 above a name, short of the root, and `length` its bytes.
*/
module VolumeTree {
  import opened Results
  import Ordering

  const MAX_ENTRIES: nat := 100_000
  const MAX_NAMES_BYTES: nat := 16 * 1024 * 1024
  const MAX_INT64: int := 0x7FFF_FFFF_FFFF_FFFF

  datatype Entry<N> = Entry(name: N, directory: bool, size: nat)

  // ---------- sums over sets ----------

  /** The sum of the weights of the members. */
  ghost function Total<T(!new)>(s: set<T>, weight: T -> nat): nat {
    if s == {} then 0 else var x :| x in s; weight(x) + Total(s - {x}, weight)
  }

  lemma {:induction false} TotalWithout<T(!new)>(s: set<T>, weight: T -> nat, x: T)
    requires x in s
    ensures Total(s, weight) == weight(x) + Total(s - {x}, weight)
    decreases s
  {
    var y :| y in s && Total(s, weight) == weight(y) + Total(s - {y}, weight);
    if y != x {
      TotalWithout(s - {y}, weight, x);
      TotalWithout(s - {x}, weight, y);
      assert s - {y} - {x} == s - {x} - {y};
    }
  }

  lemma TotalWith<T(!new)>(s: set<T>, weight: T -> nat, x: T)
    requires x !in s
    ensures Total(s + {x}, weight) == Total(s, weight) + weight(x)
  {
    TotalWithout(s + {x}, weight, x);
    assert s + {x} - {x} == s;
  }

  lemma {:induction false} TotalGrows<T(!new)>(a: set<T>, b: set<T>, weight: T -> nat)
    requires a <= b
    ensures Total(a, weight) <= Total(b, weight)
    decreases b - a
  {
    if a != b {
      var x :| x in b && x !in a;
      TotalWith(a, weight, x);
      TotalGrows(a + {x}, b, weight);
    }
  }

  // ---------- trees ----------

  function Names<N>(entries: set<Entry<N>>): set<N> {
    set e | e in entries :: e.name
  }

  /** The entries and all directories above them. */
  function Closure<N>(entries: set<Entry<N>>, up: N -> set<N>): set<N> {
    Names(entries) + set e, a | e in entries && a in up(e.name) :: a
  }

  /** No more names, and no longer ones in all, than supported. */
  ghost predicate WithinLimits<N(!new)>(names: set<N>, length: N -> nat) {
    |names| <= MAX_ENTRIES && Total(names, length) <= MAX_NAMES_BYTES
  }

  /** Nothing lies below a file. */
  ghost predicate NoFileAbove<N(!new)>(entries: set<Entry<N>>, up: N -> set<N>) {
    forall f, e | f in entries && e in entries && !f.directory :: f.name !in up(e.name)
  }

  ghost function Bytes<N(!new)>(entries: set<Entry<N>>): nat {
    Total(entries, (e: Entry<N>) => e.size)
  }

  /** Part of a tree that keeps to the limits. */
  ghost predicate Fits<N(!new)>(entries: set<Entry<N>>, up: N -> set<N>, length: N -> nat) {
    NoFileAbove(entries, up) && WithinLimits(Closure(entries, up), length) && Bytes(entries) <= MAX_INT64
  }

  lemma LimitsShrink<N(!new)>(a: set<N>, b: set<N>, length: N -> nat)
    requires a <= b && WithinLimits(b, length)
    ensures WithinLimits(a, length)
  {
    TotalGrows(a, b, length);
    Ordering.SubsetSize(a, b);
  }

  lemma FitsShrinks<N(!new)>(a: set<Entry<N>>, b: set<Entry<N>>, up: N -> set<N>, length: N -> nat)
    requires a <= b && Fits(b, up, length)
    ensures Fits(a, up, length)
  {
    LimitsShrink(Closure(a, up), Closure(b, up), length);
    TotalGrows(a, b, (e: Entry<N>) => e.size);
  }

  // ---------- the pass ----------

  /**
   What the pass keeps: the names it saw, with what they are, and the directories it knows only from
   names below them.
  */
  datatype Progress<N(==)> = Progress(seen: map<N, bool>, ancestors: set<N>, namesBytes: int)

  /** All names the pass knows of. */
  function Known<N>(p: Progress<N>): set<N> {
    p.seen.Keys + p.ancestors
  }

  ghost predicate Counts<N(!new)>(p: Progress<N>, length: N -> nat) {
    && p.seen.Keys !! p.ancestors
    && p.namesBytes == Total(Known(p), length)
    && WithinLimits(Known(p), length)
  }

  predicate HasRoom<N>(p: Progress<N>, name: N, length: N -> nat) {
    |p.seen| + |p.ancestors| < MAX_ENTRIES && p.namesBytes + length(name) <= MAX_NAMES_BYTES
  }

  lemma SizeOfBoth<T>(a: set<T>, b: set<T>)
    requires a !! b
    ensures |a + b| == |a| + |b|
  {
  }

  lemma RoomForOneMore<N(!new)>(p: Progress<N>, name: N, length: N -> nat)
    requires Counts(p, length) && name !in Known(p)
    ensures HasRoom(p, name, length) <==> WithinLimits(Known(p) + {name}, length)
    ensures Total(Known(p) + {name}, length) == p.namesBytes + length(name)
  {
    SizeOfBoth(p.seen.Keys, p.ancestors);
    SizeOfBoth(Known(p), {name});
    TotalWith(Known(p), length, name);
  }

  function WithAncestor<N>(p: Progress<N>, name: N, length: N -> nat): Progress<N> {
    Progress(p.seen, p.ancestors + {name}, p.namesBytes + length(name))
  }

  function WithoutAncestor<N>(p: Progress<N>, name: N, length: N -> nat): Progress<N> {
    Progress(p.seen, p.ancestors - {name}, p.namesBytes - length(name))
  }

  function WithName<N>(p: Progress<N>, name: N, directory: bool, length: N -> nat): Progress<N> {
    Progress(p.seen[name := directory], p.ancestors, p.namesBytes + length(name))
  }

  lemma AncestorIsKnown<N(!new)>(p: Progress<N>, name: N, length: N -> nat)
    requires p.seen.Keys !! p.ancestors && name !in Known(p)
    ensures var q := WithAncestor(p, name, length); Known(q) == Known(p) + {name} && q.seen.Keys !! q.ancestors
  {
  }

  lemma AncestorCounts<N(!new)>(p: Progress<N>, name: N, length: N -> nat)
    requires Counts(p, length) && name !in Known(p) && HasRoom(p, name, length)
    ensures Counts(WithAncestor(p, name, length), length) && Known(WithAncestor(p, name, length)) == Known(p) + {name}
  {
    RoomForOneMore(p, name, length);
    AncestorIsKnown(p, name, length);
  }

  lemma NameIsKnown<N(!new)>(p: Progress<N>, name: N, directory: bool, length: N -> nat)
    requires p.seen.Keys !! p.ancestors && name !in Known(p)
    ensures var q := WithName(p, name, directory, length); Known(q) == Known(p) + {name} && q.seen.Keys !! q.ancestors
  {
    assert WithName(p, name, directory, length).seen.Keys == p.seen.Keys + {name};
  }

  lemma NameCounts<N(!new)>(p: Progress<N>, name: N, directory: bool, length: N -> nat)
    requires Counts(p, length) && name !in Known(p) && HasRoom(p, name, length)
    ensures Counts(WithName(p, name, directory, length), length)
            && Known(WithName(p, name, directory, length)) == Known(p) + {name}
  {
    RoomForOneMore(p, name, length);
    NameIsKnown(p, name, directory, length);
  }

  lemma ForgottenCounts<N(!new)>(p: Progress<N>, name: N, length: N -> nat)
    requires Counts(p, length) && name in p.ancestors
    ensures Counts(WithoutAncestor(p, name, length), length)
            && Known(WithoutAncestor(p, name, length)) == Known(p) - {name}
  {
    TotalWithout(Known(p), length, name);
    assert p.seen.Keys + (p.ancestors - {name}) == Known(p) - {name};
    LimitsShrink(Known(p) - {name}, Known(p), length);
  }

  /** One directory above an entry noted, unless it is a file or there is no room. */
  function NoteDirectory<N>(parent: N, p: Progress<N>, length: N -> nat): Option<Progress<N>> {
    if parent in p.seen then (if p.seen[parent] then Some(p) else None)
    else if parent in p.ancestors then Some(p)
    else if HasRoom(p, parent, length) then Some(WithAncestor(p, parent, length))
    else None
  }

  lemma NoteDirectoryCounts<N(!new)>(parent: N, p: Progress<N>, length: N -> nat)
    requires Counts(p, length)
    ensures var noted := NoteDirectory(parent, p, length);
      && (noted.Some? <==> (parent in p.seen ==> p.seen[parent]) && WithinLimits(Known(p) + {parent}, length))
      && (noted.Some? ==>
            && noted.value.seen == p.seen && Counts(noted.value, length)
            && Known(noted.value) == Known(p) + {parent})
  {
    if parent in Known(p) {
      assert Known(p) + {parent} == Known(p);
    } else {
      RoomForOneMore(p, parent, length);
      if HasRoom(p, parent, length) {
        AncestorCounts(p, parent, length);
      }
    }
  }

  /** The directories above an entry noted one after the other. */
  function NoteDirectories<N>(chain: seq<N>, p: Progress<N>, length: N -> nat): Option<Progress<N>>
    decreases |chain|
  {
    if chain == [] then Some(p)
    else match NoteDirectory(chain[0], p, length)
      case None => None
      case Some(next) => NoteDirectories(chain[1..], next, length)
  }

  function Members<N>(chain: seq<N>): set<N> {
    set x | x in chain
  }

  predicate NoFileIn<N>(names: set<N>, seen: map<N, bool>) {
    forall a | a in names && a in seen :: seen[a]
  }

  lemma MembersFrom<N>(chain: seq<N>, known: set<N>)
    requires chain != []
    ensures Members(chain) == {chain[0]} + Members(chain[1..])
    ensures known + Members(chain) == known + {chain[0]} + Members(chain[1..])
  {
  }

  lemma NoRoomAbove<N(!new)>(part: set<N>, all: set<N>, length: N -> nat)
    requires part <= all
    ensures WithinLimits(all, length) ==> WithinLimits(part, length)
  {
    if WithinLimits(all, length) {
      LimitsShrink(part, all, length);
    }
  }

  lemma {:induction false} NoteDirectoriesCount<N(!new)>(chain: seq<N>, p: Progress<N>, length: N -> nat)
    requires Counts(p, length)
    ensures var noted := NoteDirectories(chain, p, length);
      && (noted.Some? <==> NoFileIn(Members(chain), p.seen) && WithinLimits(Known(p) + Members(chain), length))
      && (noted.Some? ==>
            && noted.value.seen == p.seen && Counts(noted.value, length)
            && Known(noted.value) == Known(p) + Members(chain))
    decreases |chain|
  {
    if chain == [] {
      assert Known(p) + Members(chain) == Known(p);
    } else {
      NoteDirectoryCounts(chain[0], p, length);
      MembersFrom(chain, Known(p));
      match NoteDirectory(chain[0], p, length)
      case Some(next) => NoteDirectoriesCount(chain[1..], next, length);
      case None => NoRoomAbove(Known(p) + {chain[0]}, Known(p) + Members(chain), length);
    }
  }

  /** The entry itself noted, once the directories above it are. */
  function NoteName<N>(e: Entry<N>, p: Progress<N>, length: N -> nat): Option<Progress<N>> {
    var q := if e.name in p.ancestors then WithoutAncestor(p, e.name, length) else p;
    if HasRoom(q, e.name, length) then Some(WithName(q, e.name, e.directory, length)) else None
  }

  lemma NoteNameCounts<N(!new)>(e: Entry<N>, p: Progress<N>, length: N -> nat)
    requires Counts(p, length) && e.name !in p.seen
    ensures var noted := NoteName(e, p, length);
      && (noted.Some? <==> WithinLimits(Known(p) + {e.name}, length))
      && (noted.Some? ==>
            && noted.value.seen == p.seen[e.name := e.directory] && Counts(noted.value, length)
            && Known(noted.value) == Known(p) + {e.name})
  {
    if e.name in p.ancestors {
      ForgottenCounts(p, e.name, length);
    }
    var q := if e.name in p.ancestors then WithoutAncestor(p, e.name, length) else p;
    assert Known(q) + {e.name} == Known(p) + {e.name};
    RoomForOneMore(q, e.name, length);
    if HasRoom(q, e.name, length) {
      NameCounts(q, e.name, e.directory, length);
    }
  }

  // ---------- one entry ----------

  datatype Inspection = Inspection(files: nat, directories: nat, bytes: nat)

  function Files<N(==)>(entries: set<Entry<N>>): set<Entry<N>> {
    set e | e in entries && !e.directory
  }

  ghost function Inspect<N(!new)>(entries: set<Entry<N>>): Inspection {
    Inspection(|Files(entries)|, |entries - Files(entries)|, Bytes(entries))
  }

  /** The pass saw these entries and knows what they are. */
  ghost predicate Sees<N(!new)>(seen: map<N, bool>, entries: set<Entry<N>>) {
    seen.Keys == Names(entries) && forall e | e in entries :: seen[e.name] == e.directory
  }

  lemma SeesOneMore<N(!new)>(seen: map<N, bool>, e: Entry<N>, entries: set<Entry<N>>)
    requires Sees(seen, entries) && e.name !in seen
    ensures Sees(seen[e.name := e.directory], entries + {e})
  {
    assert Names(entries + {e}) == Names(entries) + {e.name};
  }

  /** What the pass knows and has counted are these entries. */
  ghost predicate Holds<N(!new)>(p: Progress<N>, entries: set<Entry<N>>, up: N -> set<N>, length: N -> nat) {
    && Counts(p, length) && Sees(p.seen, entries) && Known(p) == Closure(entries, up)
    && Fits(entries, up, length)
  }

  lemma ClosureOfOneMore<N>(entries: set<Entry<N>>, e: Entry<N>, up: N -> set<N>)
    ensures Closure(entries + {e}, up) == Closure(entries, up) + up(e.name) + {e.name}
    ensures Names(entries + {e}) == Names(entries) + {e.name}
  {
  }

  /** With the new entry, a file lies above another entry exactly if one of the two checks fails. */
  lemma FileAboveOneMore<N(!new)>(
    p: Progress<N>, entries: set<Entry<N>>, e: Entry<N>, up: N -> set<N>, length: N -> nat
  )
    requires Holds(p, entries, up, length) && e.name !in p.seen && e.name !in up(e.name)
    ensures NoFileAbove(entries + {e}, up) <==> (e.directory || e.name !in p.ancestors) && NoFileIn(up(e.name), p.seen)
  {
    if !e.directory && e.name in p.ancestors {
      assert e.name in Closure(entries, up);
    }
    if NoFileAbove(entries + {e}, up) {
      forall a | a in up(e.name) && a in p.seen ensures p.seen[a] {
        var f :| f in entries && f.name == a;
      }
    }
  }

  lemma InspectOneMore<N(!new)>(entries: set<Entry<N>>, e: Entry<N>)
    requires e !in entries
    ensures var was := Inspect(entries);
            Inspect(entries + {e}) == CountOne(was, e)
  {
    TotalWith(entries, (x: Entry<N>) => x.size, e);
    if e.directory {
      OneMoreDirectory(entries, e);
    } else {
      OneMoreFile(entries, e);
    }
  }

  lemma OneMoreDirectory<N(!new)>(entries: set<Entry<N>>, e: Entry<N>)
    requires e !in entries && e.directory
    ensures var more := entries + {e};
            Files(more) == Files(entries) && more - Files(more) == (entries - Files(entries)) + {e}
  {
    assert Files(entries + {e}) == Files(entries);
  }

  lemma OneMoreFile<N(!new)>(entries: set<Entry<N>>, e: Entry<N>)
    requires e !in entries && !e.directory
    ensures var more := entries + {e};
            Files(more) == Files(entries) + {e} && more - Files(more) == entries - Files(entries)
  {
    assert Files(entries + {e}) == Files(entries) + {e};
  }

  /** All checks on one entry; `chain` lists the directories above it. */
  function AddEntry<N>(e: Entry<N>, chain: seq<N>, p: Progress<N>, bytes: nat, length: N -> nat): Option<Progress<N>> {
    if e.name in p.seen || (!e.directory && e.name in p.ancestors) then None
    else match NoteDirectories(chain, p, length)
      case None => None
      case Some(above) =>
        match NoteName(e, above, length)
        case None => None
        case Some(next) => if bytes + e.size > MAX_INT64 then None else Some(next)
  }

  /** Before the size is looked at. */
  lemma EntryNoted<N(!new)>(
    e: Entry<N>, chain: seq<N>, p: Progress<N>, entries: set<Entry<N>>, up: N -> set<N>, length: N -> nat
  )
    requires Holds(p, entries, up, length) && e.name !in p.seen && Members(chain) == up(e.name)
    requires NoFileIn(up(e.name), p.seen)
    ensures WithinLimits(Closure(entries + {e}, up), length) <==>
      NoteDirectories(chain, p, length).Some? && NoteName(e, NoteDirectories(chain, p, length).value, length).Some?
    ensures WithinLimits(Closure(entries + {e}, up), length) ==>
      var next := NoteName(e, NoteDirectories(chain, p, length).value, length).value;
      Counts(next, length) && next.seen == p.seen[e.name := e.directory] && Known(next) == Closure(entries + {e}, up)
  {
    ClosureOfOneMore(entries, e, up);
    NoteDirectoriesCount(chain, p, length);
    NoRoomAbove(Known(p) + up(e.name), Closure(entries + {e}, up), length);
    var noted := NoteDirectories(chain, p, length);
    if noted.Some? {
      NoteNameCounts(e, noted.value, length);
    }
  }

  lemma HoldsWithEntry<N(!new)>(
    next: Progress<N>, p: Progress<N>, e: Entry<N>, entries: set<Entry<N>>, up: N -> set<N>, length: N -> nat
  )
    requires Holds(p, entries, up, length) && e.name !in p.seen && next.seen == p.seen[e.name := e.directory]
    requires Counts(next, length) && Known(next) == Closure(entries + {e}, up) && Fits(entries + {e}, up, length)
    ensures Holds(next, entries + {e}, up, length)
  {
    SeesOneMore(p.seen, e, entries);
  }

  /** What an entry that is added, or not, means for the size and the files above others. */
  lemma AddsIfNoted<N(!new)>(e: Entry<N>, chain: seq<N>, p: Progress<N>, bytes: nat, length: N -> nat)
    ensures AddEntry(e, chain, p, bytes, length).Some? <==>
      && e.name !in p.seen && (e.directory || e.name !in p.ancestors) && NoteDirectories(chain, p, length).Some?
      && NoteName(e, NoteDirectories(chain, p, length).value, length).Some?
      && bytes + e.size <= MAX_INT64
    ensures AddEntry(e, chain, p, bytes, length).Some? ==>
      AddEntry(e, chain, p, bytes, length) == NoteName(e, NoteDirectories(chain, p, length).value, length)
  {
  }

  /** An entry is added exactly if its name is new and what there is then still fits. */
  lemma AddsEntryIff<N(!new)>(
    e: Entry<N>, chain: seq<N>, p: Progress<N>, entries: set<Entry<N>>, up: N -> set<N>, length: N -> nat
  )
    requires Holds(p, entries, up, length) && Members(chain) == up(e.name) && e.name !in up(e.name)
    ensures AddEntry(e, chain, p, Bytes(entries), length).Some?
            <==> e.name !in Names(entries) && Fits(entries + {e}, up, length)
  {
    AddsIfNoted(e, chain, p, Bytes(entries), length);
    if e.name !in p.seen {
      FileAboveOneMore(p, entries, e, up, length);
      TotalWith(entries, (x: Entry<N>) => x.size, e);
      NoteDirectoriesCount(chain, p, length);
      if NoFileIn(up(e.name), p.seen) {
        EntryNoted(e, chain, p, entries, up, length);
      }
    }
  }

  lemma AddedEntryHolds<N(!new)>(
    e: Entry<N>, chain: seq<N>, p: Progress<N>, entries: set<Entry<N>>, up: N -> set<N>, length: N -> nat
  )
    requires Holds(p, entries, up, length) && Members(chain) == up(e.name) && e.name !in up(e.name)
    requires AddEntry(e, chain, p, Bytes(entries), length).Some?
    ensures Holds(AddEntry(e, chain, p, Bytes(entries), length).value, entries + {e}, up, length)
  {
    AddsEntryIff(e, chain, p, entries, up, length);
    AddsIfNoted(e, chain, p, Bytes(entries), length);
    FileAboveOneMore(p, entries, e, up, length);
    EntryNoted(e, chain, p, entries, up, length);
    HoldsWithEntry(AddEntry(e, chain, p, Bytes(entries), length).value, p, e, entries, up, length);
  }

  // ---------- a list of entries ----------

  function Elements<N(==)>(list: seq<Entry<N>>): set<Entry<N>> {
    set e | e in list
  }

  /** No two entries have the same name, and they are part of a tree within the limits. */
  ghost predicate Sound<N(!new)>(list: seq<Entry<N>>, up: N -> set<N>, length: N -> nat) {
    |Names(Elements(list))| == |list| && Fits(Elements(list), up, length)
  }

  lemma ElementsOfOneMore<N(!new)>(list: seq<Entry<N>>, e: Entry<N>)
    ensures Elements(list + [e]) == Elements(list) + {e}
    ensures Names(Elements(list + [e])) == Names(Elements(list)) + {e.name}
  {
    assert Elements(list + [e]) == Elements(list) + {e};
  }

  /** Every entry adds at most one name. */
  lemma {:induction false} AtMostOneNameEach<N(!new)>(list: seq<Entry<N>>, k: nat)
    requires k <= |list|
    ensures |Names(Elements(list))| <= |Names(Elements(list[..k]))| + |list| - k
    decreases |list|
  {
    if k == |list| {
      assert list[..k] == list;
    } else {
      var init, last := list[..|list| - 1], list[|list| - 1];
      assert list == init + [last] && init[..k] == list[..k];
      ElementsOfOneMore(init, last);
      AtMostOneNameEach(init, k);
    }
  }

  lemma {:induction false} NamesAtMost<N(!new)>(list: seq<Entry<N>>)
    ensures |Names(Elements(list))| <= |list|
  {
    AtMostOneNameEach(list, 0);
    assert Names(Elements(list[..0])) == {};
  }

  /** What is not sound stays so, whatever follows. */
  lemma PrefixIsSound<N(!new)>(list: seq<Entry<N>>, k: nat, up: N -> set<N>, length: N -> nat)
    requires k <= |list| && Sound(list, up, length)
    ensures Sound(list[..k], up, length)
  {
    AtMostOneNameEach(list, k);
    NamesAtMost(list[..k]);
    FitsShrinks(Elements(list[..k]), Elements(list), up, length);
  }

  /** Whether the pass goes on after one more entry is whether the entries so far are sound. */
  lemma EntryDecides<N(!new)>(
    list: seq<Entry<N>>, e: Entry<N>, chain: seq<N>, p: Progress<N>, up: N -> set<N>, length: N -> nat
  )
    requires Sound(list, up, length) && Holds(p, Elements(list), up, length) && Members(chain) == up(e.name)
    requires e.name !in up(e.name)
    ensures var added := AddEntry(e, chain, p, Bytes(Elements(list)), length);
      && (added.Some? <==> Sound(list + [e], up, length))
      && (added.Some? ==> Holds(added.value, Elements(list + [e]), up, length))
  {
    ElementsOfOneMore(list, e);
    AddsEntryIff(e, chain, p, Elements(list), up, length);
    if AddEntry(e, chain, p, Bytes(Elements(list)), length).Some? {
      AddedEntryHolds(e, chain, p, Elements(list), up, length);
    }
  }

  function CountOne<N>(was: Inspection, e: Entry<N>): Inspection {
    if e.directory then Inspection(was.files, was.directories + 1, was.bytes + e.size)
    else Inspection(was.files + 1, was.directories, was.bytes + e.size)
  }

  lemma CountsOneMore<N(!new)>(list: seq<Entry<N>>, e: Entry<N>, up: N -> set<N>, length: N -> nat)
    requires |Names(Elements(list))| == |list| && |Names(Elements(list + [e]))| == |list| + 1
    ensures Inspect(Elements(list + [e])) == CountOne(Inspect(Elements(list)), e)
  {
    ElementsOfOneMore(list, e);
    assert e in Elements(list) ==> Names(Elements(list)) + {e.name} == Names(Elements(list));
    InspectOneMore(Elements(list), e);
  }

  lemma NothingYet<N(!new)>(up: N -> set<N>, length: N -> nat)
    ensures Sound([], up, length) && Holds(Progress(map[], {}, 0), Elements([]), up, length)
    ensures Inspect(Elements<N>([])) == Inspection(0, 0, 0)
  {
    assert Elements<N>([]) == {} && Names<N>({}) == {} && Closure<N>({}, up) == {} && Files<N>({}) == {};
    assert Known<N>(Progress(map[], {}, 0)) == {};
  }
}

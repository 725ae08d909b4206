/** The bounded directory walk of the `list_files` tool. */
module ListFiles {
  import Numerals
  import Text

  /** The name of a directory entry is never empty. */
  type Name = s: string | s != "" witness "."

  /** A directory entry: a file with its size, a directory, or something that is neither. */
  datatype Entry = File(name: Name, size: nat) | Directory(name: Name, entries: seq<Entry>) | Special(name: Name)

  function Join(dir: string, name: string): string
  {
    if dir == "" then name else dir + "/" + name
  }

  function Line(path: string, size: nat): string
  {
    path + " (" + Numerals.Print(size, 10) + " bytes)"
  }

  /** The files below a directory, in preorder, down to `depth` levels of subdirectories; no limit. */
  function Listing(e: Entry, path: string, depth: int): seq<string>
    requires e.Directory?
    decreases e, 1, 0
  {
    if depth < 0 then [] else ListFrom(e, path, depth, 0)
  }

  function ListFrom(e: Entry, path: string, depth: int, i: nat): seq<string>
    requires e.Directory? && i <= |e.entries|
    decreases e, 0, |e.entries| - i
  {
    if i == |e.entries| then [] else ListEntry(e.entries[i], path, depth) + ListFrom(e, path, depth, i + 1)
  }

  function ListEntry(e: Entry, path: string, depth: int): seq<string>
    decreases e, 2, 0
  {
    match e
    case File(name, size) => [Line(Join(path, name), size)]
    case Directory(name, _) => Listing(e, Join(path, name), depth - 1)
    case Special(_) => []
  }

  /** What an output of at most `maxFiles` lines holds after `more` was offered to it. */
  function Capped(output: seq<string>, more: seq<string>, maxFiles: int): seq<string>
  {
    if |output| >= maxFiles then output
    else if |output| + |more| <= maxFiles then output + more
    else (output + more)[..maxFiles]
  }

  /** Offering two lists in turn is offering them at once. */
  lemma CappedTwice(output: seq<string>, a: seq<string>, b: seq<string>, maxFiles: int)
    ensures Capped(Capped(output, a, maxFiles), b, maxFiles) == Capped(output, a + b, maxFiles)
  {
    assert output + a + b == output + (a + b);
    if |output| < maxFiles <= |output| + |a| {
      assert (output + (a + b))[..maxFiles] == (output + a)[..maxFiles];
    }
  }

  class Output {
    var lines: seq<string>

    constructor ()
      ensures lines == []
    {
      lines := [];
    }
  }

  /** `walk`, with its early exits and its shared output. */
  method Walk(dir: Entry, path: string, depth: int, maxFiles: int, output: Output)
    requires dir.Directory?
    modifies output
    ensures output.lines == Capped(old(output.lines), Listing(dir, path, depth), maxFiles)
    decreases dir
  {
    if depth < 0 || |output.lines| >= maxFiles {
      assert output.lines + [] == output.lines;
      return;
    }
    ghost var total := Capped(output.lines, Listing(dir, path, depth), maxFiles);
    var i := 0;
    while i < |dir.entries|
      invariant 0 <= i <= |dir.entries|
      invariant Capped(output.lines, ListFrom(dir, path, depth, i), maxFiles) == total
      decreases |dir.entries| - i
    {
      if |output.lines| >= maxFiles { return; }
      var entry := dir.entries[i];
      CappedTwice(output.lines, ListEntry(entry, path, depth), ListFrom(dir, path, depth, i + 1), maxFiles);
      match entry {
        case Directory(name, _) => Walk(entry, Join(path, name), depth - 1, maxFiles, output);
        case File(name, size) => output.lines := output.lines + [Line(Join(path, name), size)];
        case Special(_) => assert output.lines + [] == output.lines;
      }
      i := i + 1;
    }
    assert output.lines + [] == output.lines;
  }

  /** The `list_files` tool: the first `maxFiles` files of the listing; the flag says that the limit was
      reached, which it also does when nothing was cut off. */
  method Call(dir: Entry, path: string, depth: int, maxFiles: int) returns (files: seq<string>, truncated: bool)
    requires dir.Directory?
    ensures var all := Listing(dir, path, depth);
      && files == (if maxFiles <= 0 then [] else if |all| <= maxFiles then all else all[..maxFiles])
      && (truncated <==> |all| >= maxFiles)
      && (!truncated ==> files == all)
  {
    var output := new Output();
    Walk(dir, path, depth, maxFiles, output);
    files := output.lines;
    truncated := |files| >= maxFiles;
    assert [] + Listing(dir, path, depth) == Listing(dir, path, depth);
  }

  // ---- which files, in which order -------------------------------------------------------------------------------

  /** Where a file is: the position to take in each directory on the way down, and the names met there. */
  datatype Found = Found(place: seq<nat>, names: seq<Name>, size: nat)

  predicate IsFileAt(dir: Entry, f: Found)
    requires dir.Directory?
    decreases dir
  {
    && f.place != [] && f.names != [] && f.place[0] < |dir.entries|
    && var entry := dir.entries[f.place[0]];
      && f.names[0] == entry.name
      && match entry
         case File(_, size) => |f.place| == 1 == |f.names| && f.size == size
         case Directory(_, _) => IsFileAt(entry, Found(f.place[1..], f.names[1..], f.size))
         case Special(_) => false
  }

  /** What comes first in a preorder walk: at the first position where they differ, the smaller one. */
  predicate Precedes(p: seq<nat>, q: seq<nat>)
  {
    exists k :: 0 <= k < |p| && k < |q| && p[..k] == q[..k] && p[k] < q[k]
  }

  /** The line of a file names all directories on the way to it, from the root of the workspace. */
  function LineOf(path: string, f: Found): string
  {
    Line(Text.Join((if path == "" then [] else [path]) + f.names, "/"), f.size)
  }

  /** Exactly the files at positions from `i` on within the depth, in the order of a preorder walk. */
  ghost predicate InOrder(dir: Entry, depth: int, i: nat, found: seq<Found>)
    requires dir.Directory?
  {
    && (forall k :: 0 <= k < |found| ==>
          IsFileAt(dir, found[k]) && |found[k].place| <= depth + 1 && found[k].place[0] >= i)
    && (forall k, l :: 0 <= k < l < |found| ==> Precedes(found[k].place, found[l].place))
    && (forall f :: IsFileAt(dir, f) && |f.place| <= depth + 1 && f.place[0] >= i ==> f in found)
  }

  ghost predicate AreLines(lines: seq<string>, path: string, found: seq<Found>)
  {
    |lines| == |found| && forall k :: 0 <= k < |lines| ==> lines[k] == LineOf(path, found[k])
  }

  /** The listing is one line for each file within the depth, in preorder, under the names of its directories. */
  lemma {:induction false} ListingInOrder(dir: Entry, path: string, depth: int) returns (found: seq<Found>)
    requires dir.Directory?
    ensures InOrder(dir, depth, 0, found) && AreLines(Listing(dir, path, depth), path, found)
    decreases dir, 1, 0
  {
    if depth < 0 {
      found := [];
    } else {
      found := ListFromInOrder(dir, path, depth, 0);
    }
  }

  lemma {:induction false} ListFromInOrder(dir: Entry, path: string, depth: int, i: nat) returns (found: seq<Found>)
    requires dir.Directory? && depth >= 0 && i <= |dir.entries|
    ensures InOrder(dir, depth, i, found) && AreLines(ListFrom(dir, path, depth, i), path, found)
    decreases dir, 0, |dir.entries| - i
  {
    if i == |dir.entries| {
      found := [];
    } else {
      var rest := ListFromInOrder(dir, path, depth, i + 1);
      var own := ListEntryInOrder(dir, path, depth, i);
      found := own + rest;
      EntryThenRest(dir, depth, i, own, rest);
    }
  }

  /** The same for the files of entry `i`. */
  ghost predicate EntryInOrder(dir: Entry, depth: int, i: nat, found: seq<Found>)
    requires dir.Directory?
  {
    && (forall k :: 0 <= k < |found| ==>
          IsFileAt(dir, found[k]) && |found[k].place| <= depth + 1 && found[k].place[0] == i)
    && (forall k, l :: 0 <= k < l < |found| ==> Precedes(found[k].place, found[l].place))
    && (forall f :: IsFileAt(dir, f) && |f.place| <= depth + 1 && f.place[0] == i ==> f in found)
  }

  lemma {:induction false} EntryThenRest(dir: Entry, depth: int, i: nat, own: seq<Found>, rest: seq<Found>)
    requires dir.Directory? && EntryInOrder(dir, depth, i, own) && InOrder(dir, depth, i + 1, rest)
    ensures InOrder(dir, depth, i, own + rest)
  {
    var found := own + rest;
    forall k, l | 0 <= k < l < |found| ensures Precedes(found[k].place, found[l].place) {
      if k < |own| <= l {
        assert found[k].place[..0] == found[l].place[..0];
      }
    }
  }

  /** A file of a subdirectory, seen from the directory. */
  function Down(i: nat, name: Name, f: Found): Found
  {
    Found([i] + f.place, [name] + f.names, f.size)
  }

  lemma {:induction false} ListEntryInOrder(dir: Entry, path: string, depth: int, i: nat) returns (own: seq<Found>)
    requires dir.Directory? && depth >= 0 && i < |dir.entries|
    ensures EntryInOrder(dir, depth, i, own) && AreLines(ListEntry(dir.entries[i], path, depth), path, own)
    decreases dir, 0, 0
  {
    match dir.entries[i] {
      case File(name, size) =>
        own := [Found([i], [name], size)];
        assert Text.Join([name], "/") == name && Text.Join([path, name], "/") == path + "/" + name;
        assert [path] + [name] == [path, name];
        forall f | IsFileAt(dir, f) && f.place[0] == i ensures f == own[0] {
          assert f.place == [i] && f.names == [name];
        }
      case Directory(name, _) =>
        var inner := ListingInOrder(dir.entries[i], Join(path, name), depth - 1);
        own := seq(|inner|, k requires 0 <= k < |inner| => Down(i, name, inner[k]));
        DownInOrder(dir, depth, i, inner, own);
        DownLines(Listing(dir.entries[i], Join(path, name), depth - 1), path, i, name, inner, own);
      case Special(_) =>
        own := [];
    }
  }

  predicate AllDown(dir: Entry, i: nat, inner: seq<Found>, own: seq<Found>)
    requires dir.Directory? && i < |dir.entries|
  {
    |own| == |inner| && forall k :: 0 <= k < |own| ==> own[k] == Down(i, dir.entries[i].name, inner[k])
  }

  lemma {:induction false} DownInOrder(dir: Entry, depth: int, i: nat, inner: seq<Found>, own: seq<Found>)
    requires dir.Directory? && i < |dir.entries| && dir.entries[i].Directory?
    requires InOrder(dir.entries[i], depth - 1, 0, inner) && AllDown(dir, i, inner, own)
    ensures EntryInOrder(dir, depth, i, own)
  {
    forall k | 0 <= k < |own| ensures IsFileAt(dir, own[k]) {
      DownIsFile(dir, i, inner[k]);
    }
    forall k, l | 0 <= k < l < |own| ensures Precedes(own[k].place, own[l].place) {
      PrecedesDown(i, inner[k].place, inner[l].place);
    }
    forall f | IsFileAt(dir, f) && |f.place| <= depth + 1 && f.place[0] == i ensures f in own {
      var f' := UpFrom(dir, i, f);
      var k :| 0 <= k < |inner| && inner[k] == f';
      assert own[k] == f;
    }
  }

  lemma {:induction false} DownIsFile(dir: Entry, i: nat, f: Found)
    requires dir.Directory? && i < |dir.entries| && dir.entries[i].Directory? && IsFileAt(dir.entries[i], f)
    ensures IsFileAt(dir, Down(i, dir.entries[i].name, f))
  {
    var d := Down(i, dir.entries[i].name, f);
    assert d.place[1..] == f.place && d.names[1..] == f.names;
  }

  lemma {:induction false} UpFrom(dir: Entry, i: nat, f: Found) returns (f': Found)
    requires dir.Directory? && i < |dir.entries| && dir.entries[i].Directory? && IsFileAt(dir, f) && f.place[0] == i
    ensures IsFileAt(dir.entries[i], f') && |f'.place| == |f.place| - 1 && f == Down(i, dir.entries[i].name, f')
  {
    f' := Found(f.place[1..], f.names[1..], f.size);
    assert f.place == [i] + f'.place && f.names == [dir.entries[i].name] + f'.names;
  }

  lemma PrecedesDown(i: nat, p: seq<nat>, q: seq<nat>)
    requires Precedes(p, q)
    ensures Precedes([i] + p, [i] + q)
  {
    var k :| 0 <= k < |p| && k < |q| && p[..k] == q[..k] && p[k] < q[k];
    assert ([i] + p)[..k + 1] == [i] + p[..k] && ([i] + q)[..k + 1] == [i] + q[..k];
    assert ([i] + p)[k + 1] < ([i] + q)[k + 1];
  }

  lemma {:induction false} DownLines(lines: seq<string>, path: string, i: nat, name: Name, inner: seq<Found>,
      own: seq<Found>)
    requires AreLines(lines, Join(path, name), inner)
    requires |own| == |inner| && forall k :: 0 <= k < |own| ==> own[k] == Down(i, name, inner[k])
    ensures AreLines(lines, path, own)
  {
    forall k | 0 <= k < |lines| ensures lines[k] == LineOf(path, own[k]) {
      JoinDown(path, name, inner[k].names);
    }
  }

  lemma {:induction false} JoinDown(path: string, name: Name, names: seq<Name>)
    ensures Text.Join((if path == "" then [] else [path]) + ([name] + names), "/") ==
      Text.Join([Join(path, name)] + names, "/")
  {
    var names' := [name] + names;
    assert names'[1..] == names && ([Join(path, name)] + names)[1..] == names;
    if path == "" {
      assert [] + names' == names';
    } else {
      assert ([path] + names')[1..] == names';
      if names == [] {
        assert names' == [name];
      } else {
        Associate(path, "/", name, "/" + Text.Join(names, "/"));
      }
    }
  }

  lemma Associate(a: string, b: string, c: string, d: string)
    ensures a + b + (c + d) == a + b + c + d
  {
  }
}

/** How `DropBoxStorage.listdir` turns the entries of a folder's metadata
    into the names of its sub-directories and files. */
module Listing {
  import opened Text
  import opened DropboxApi

  /** The listing `listdir` returns: `(directories, files)`. */
  datatype Listing = Listing(directories: seq<string>, files: seq<string>)

  /** The name an entry is listed under: its path with the first occurrence
      of the folder's resolved path cut out, then the first `/`. */
  function ChildName(fullPath: string, path: string): string
  {
    RemoveFirst(RemoveFirst(path, fullPath), "/")
  }

  /** The entries with their paths rewritten to the names they are listed
      under, in the order the remote gave them. */
  function Rewritten(fullPath: string, entries: seq<Entry>): seq<Entry>
  {
    seq(|entries|, i requires 0 <= i < |entries| => Entry(ChildName(fullPath, entries[i].path), entries[i].isDir))
  }

  /** The paths of the entries whose `isDir` flag is `dirs`, in entry order. */
  function Names(entries: seq<Entry>, dirs: bool): seq<string>
  {
    if entries == [] then []
    else (if entries[0].isDir == dirs then [entries[0].path] else []) + Names(entries[1..], dirs)
  }

  /** The listing of a folder whose metadata has `entries`. */
  function ListingOf(fullPath: string, entries: seq<Entry>): Listing
  {
    Listing(Names(Rewritten(fullPath, entries), true), Names(Rewritten(fullPath, entries), false))
  }

  /** Listing a concatenation lists the parts one after the other: the order
      of the entries is kept within each sequence. */
  lemma {:induction false} NamesAppend(a: seq<Entry>, b: seq<Entry>, dirs: bool)
    ensures Names(a + b, dirs) == Names(a, dirs) + Names(b, dirs)
  {
    if a == [] {
      assert a + b == b;
    } else {
      assert (a + b)[0] == a[0];
      assert (a + b)[1..] == a[1..] + b;
      NamesAppend(a[1..], b, dirs);
    }
  }

  /** Listing one more entry adds its path to the sequence its `isDir` flag
      selects and leaves the other sequence as it was. */
  lemma NamesExtend(entries: seq<Entry>, i: nat, dirs: bool)
    requires i < |entries|
    ensures Names(entries[..i + 1], dirs)
            == Names(entries[..i], dirs) + (if entries[i].isDir == dirs then [entries[i].path] else [])
  {
    assert entries[..i + 1] == entries[..i] + [entries[i]];
    NamesAppend(entries[..i], [entries[i]], dirs);
    assert Names([entries[i]], dirs) == (if entries[i].isDir == dirs then [entries[i].path] else []) + Names([], dirs);
  }

  /** Every entry goes to exactly one of the two sequences. */
  lemma {:induction false} NamesPartition(entries: seq<Entry>)
    ensures |Names(entries, true)| + |Names(entries, false)| == |entries|
  {
    if entries != [] {
      NamesPartition(entries[1..]);
    }
  }

  /** Every entry is listed exactly once: the two sequences together are as
      long as the entries. */
  lemma ListingPartitions(fullPath: string, entries: seq<Entry>)
    ensures |ListingOf(fullPath, entries).directories| + |ListingOf(fullPath, entries).files| == |entries|
  {
    NamesPartition(Rewritten(fullPath, entries));
  }

  /** Entry `i` is listed, under its child name, in `directories` when it is
      a directory and in `files` otherwise, right after the names of the
      entries before it that went to the same sequence; the other sequence
      gets nothing from it. */
  lemma ListingPlacesEntry(fullPath: string, entries: seq<Entry>, i: nat)
    requires i < |entries|
    ensures var listed := Rewritten(fullPath, entries);
            var k := |Names(listed[..i], entries[i].isDir)|;
            k < |Names(listed, entries[i].isDir)| &&
            Names(listed, entries[i].isDir)[k] == ChildName(fullPath, entries[i].path)
    ensures var listed := Rewritten(fullPath, entries);
            |Names(listed[..i + 1], !entries[i].isDir)| == |Names(listed[..i], !entries[i].isDir)|
  {
    var listed := Rewritten(fullPath, entries);
    var w := entries[i].isDir;
    assert listed[i] == Entry(ChildName(fullPath, entries[i].path), w);
    assert listed == listed[..i + 1] + listed[i + 1..];
    NamesAppend(listed[..i + 1], listed[i + 1..], w);
    NamesExtend(listed, i, w);
    NamesExtend(listed, i, !w);
  }

  /** The child `n` of the folder resolved to `fullPath`, reported as
      `fullPath + "/" + n`, is listed as `n`. */
  lemma ChildNameOfChild(fullPath: string, n: string)
    ensures ChildName(fullPath, fullPath + "/" + n) == n
  {
    assert fullPath + "/" + n == fullPath + ("/" + n);
    RemoveFirstPrefix(fullPath, "/" + n);
    RemoveFirstPrefix("/", n);
  }

  /** At the root, resolved to `/`, a child reported as `"/" + n` is listed as
      `n` provided `n` holds no `/`: both removals then eat the same leading
      slash's worth of text only once. */
  lemma ChildNameAtRoot(n: string)
    requires '/' !in n
    ensures ChildName("/", "/" + n) == n
  {
    RemoveFirstPrefix("/", n);
    RemoveFirstAbsent(n, '/');
  }

  /** A folder holding the file `f` and then the directory `d` lists `d` as
      its one directory and `f` as its one file (for the folder `/a` with
      `/a/b.txt` and `/a/c`: directories `["c"]`, files `["b.txt"]`). */
  lemma ListingOfTwoChildren(fullPath: string, f: string, d: string)
    ensures ListingOf(fullPath, [Entry(fullPath + "/" + f, false), Entry(fullPath + "/" + d, true)])
            == Listing([d], [f])
  {
    ListingOfFileAndDirectory(fullPath, Entry(fullPath + "/" + f, false), Entry(fullPath + "/" + d, true));
    ChildNameOfChild(fullPath, f);
    ChildNameOfChild(fullPath, d);
  }

  lemma ListingOfFileAndDirectory(fullPath: string, file: Entry, dir: Entry)
    requires !file.isDir && dir.isDir
    ensures ListingOf(fullPath, [file, dir]) == Listing([ChildName(fullPath, dir.path)], [ChildName(fullPath, file.path)])
  {
    var listed := Rewritten(fullPath, [file, dir]);
    var f, d := Entry(ChildName(fullPath, file.path), false), Entry(ChildName(fullPath, dir.path), true);
    assert listed == [f] + [d];
    assert Names([d], true) == [d.path] + Names([], true);
    assert Names([d], false) == [] + Names([], false);
    assert Names([f], true) == [] + Names([], true);
    assert Names([f], false) == [f.path] + Names([], false);
    NamesAppend([f], [d], true);
    NamesAppend([f], [d], false);
  }
}

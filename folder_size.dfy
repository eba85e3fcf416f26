/**
 * `getFolderSize(folderPath)`: the total size of the regular files below a folder.
 * A folder is the list of entries `os.scandir` yields for it; an entry is a file
 * with its size, a sub-folder with its own entries, or something that is neither
 * (a socket, a broken link), which adds nothing.
 */
module FolderSize {

  datatype Entry = File(size: nat) | Folder(entries: seq<Entry>) | Special

  /** The bytes one entry accounts for. */
  function EntrySize(e: Entry): nat
    decreases e, 1
  {
    match e
    case File(size) => size
    case Folder(entries) => TotalSize(entries)
    case Special => 0
  }

  /** The bytes a folder's entries account for, summed in scan order. */
  function TotalSize(entries: seq<Entry>): nat
    decreases entries, 0
  {
    if entries == [] then 0
    else TotalSize(entries[..|entries| - 1]) + EntrySize(entries[|entries| - 1])
  }

  /** `getFolderSize`: the loop over the scanned entries, recursing into sub-folders. */
  method GetFolderSize(entries: seq<Entry>) returns (totalSize: nat)
    ensures totalSize == TotalSize(entries)
    decreases entries
  {
    totalSize := 0;
    for i := 0 to |entries|
      invariant totalSize == TotalSize(entries[..i])
    {
      assert entries[..i + 1][..i] == entries[..i];
      match entries[i] {
        case File(size) =>
          totalSize := totalSize + size;
        case Folder(sub) =>
          var subSize := GetFolderSize(sub);
          totalSize := totalSize + subSize;
        case Special =>
      }
    }
    assert entries[..|entries|] == entries;
  }

  /** The size of two entry lists one after the other is the sum of their sizes. */
  lemma {:induction false} TotalSizeAppend(a: seq<Entry>, b: seq<Entry>)
    ensures TotalSize(a + b) == TotalSize(a) + TotalSize(b)
    decreases |b|
  {
    if b == [] {
      assert a + b == a;
    } else {
      assert (a + b)[..|a + b| - 1] == a + b[..|b| - 1];
      assert (a + b)[|a + b| - 1] == b[|b| - 1];
      TotalSizeAppend(a, b[..|b| - 1]);
    }
  }

  /** Each entry's size is part of the folder's size. */
  lemma EntryWithinTotal(entries: seq<Entry>, i: nat)
    requires i < |entries|
    ensures EntrySize(entries[i]) <= TotalSize(entries)
    ensures TotalSize(entries) == TotalSize(entries[..i]) + EntrySize(entries[i]) + TotalSize(entries[i + 1..])
  {
    assert entries == entries[..i] + [entries[i]] + entries[i + 1..];
    TotalSizeAppend(entries[..i] + [entries[i]], entries[i + 1..]);
    TotalSizeAppend(entries[..i], [entries[i]]);
    assert [entries[i]][..0] == [];
  }

  /** Adding a file anywhere in a folder grows its size by exactly the file's size. */
  lemma AddFile(a: seq<Entry>, b: seq<Entry>, size: nat)
    ensures TotalSize(a + [File(size)] + b) == TotalSize(a + b) + size
  {
    TotalSizeAppend(a + [File(size)], b);
    TotalSizeAppend(a, [File(size)]);
    TotalSizeAppend(a, b);
    assert [File(size)][..0] == [];
  }

  /** Folders contribute only through their contents: an empty folder or a special entry adds nothing. */
  lemma EmptyEntriesAddNothing(a: seq<Entry>, b: seq<Entry>, e: Entry)
    requires e == Special || e == Folder([])
    ensures TotalSize(a + [e] + b) == TotalSize(a + b)
  {
    TotalSizeAppend(a + [e], b);
    TotalSizeAppend(a, [e]);
    TotalSizeAppend(a, b);
    assert [e][..0] == [];
  }

  /** The folder reached by following the indices in `path` gets a new file at its end. */
  function AddFileAt(entries: seq<Entry>, path: seq<nat>, size: nat): seq<Entry>
    decreases |path|
  {
    if path == [] then entries + [File(size)]
    else if path[0] < |entries| && entries[path[0]].Folder? then
      entries[path[0] := Folder(AddFileAt(entries[path[0]].entries, path[1..], size))]
    else entries
  }

  /** Adding a file at any depth never makes the folder smaller; where the path leads to a folder it grows by the file's size. */
  lemma {:induction false} AddFileAtGrows(entries: seq<Entry>, path: seq<nat>, size: nat)
    ensures TotalSize(AddFileAt(entries, path, size)) >= TotalSize(entries)
    ensures TotalSize(AddFileAt(entries, path, size)) == TotalSize(entries) + size
         || AddFileAt(entries, path, size) == entries
    decreases |path|
  {
    if path == [] {
      AddFile(entries, [], size);
      assert entries + [File(size)] + [] == entries + [File(size)];
      assert entries + [] == entries;
    } else if path[0] < |entries| && entries[path[0]].Folder? {
      var i := path[0];
      var inner := AddFileAt(entries[i].entries, path[1..], size);
      AddFileAtGrows(entries[i].entries, path[1..], size);
      var updated := entries[i := Folder(inner)];
      EntryWithinTotal(entries, i);
      EntryWithinTotal(updated, i);
      assert updated[..i] == entries[..i];
      assert updated[i + 1..] == entries[i + 1..];
      if inner == entries[i].entries {
        assert updated == entries;
      }
    }
  }
}

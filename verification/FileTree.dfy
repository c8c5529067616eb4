/** Whether a saved file list can be written as a file tree on any system. File systems that
    ignore letter case compare names by a key, which is a parameter here. */
module FileTree {
  import opened Text

  datatype Verdict =
    | Accepted
    | DuplicateFile(name: string)
    | SameName(name: string, first: string)
    | FileIsFolder(file: string)
    | SameFolder(folder: string, first: string)

  /** The folders a path lies in, outermost first: what stands before each of its slashes. */
  function Folders(path: string): seq<string>
  {
    if path == "" then []
    else
      var front := path[..|path| - 1];
      if path[|path| - 1] == '/' then Folders(front) + [front] else Folders(front)
  }

  /** The first of these names with this key. */
  function FirstWith(names: seq<string>, key: string -> string, k: string): (r: Option<string>)
    ensures r.Some? ==> key(r.value) == k && r.value in names
    ensures r.None? ==> forall i | 0 <= i < |names| :: key(names[i]) != k
  {
    if names == [] then None
    else
      var before := FirstWith(names[..|names| - 1], key, k);
      if before.Some? then before
      else if key(names[|names| - 1]) == k then Some(names[|names| - 1])
      else None
  }

  function Copies(files: seq<string>, name: string): nat
  {
    if files == [] then 0
    else Copies(files[..|files| - 1], name) + if files[|files| - 1] == name then 1 else 0
  }

  function KeptCopies(kept: map<string, nat>, name: string): nat
  {
    if name in kept then kept[name] else 0
  }

  /** What is wrong with a file that comes after these. */
  function FileVerdict(before: seq<string>, file: string, kept: map<string, nat>, key: string -> string): Verdict
  {
    match FirstWith(before, key, key(file))
    case None => Accepted
    case Some(first) =>
      if first == file then
        if Copies(before, file) + 1 <= KeptCopies(kept, file) then Accepted else DuplicateFile(file)
      else if first in kept && file in kept then Accepted
      else SameName(file, first)
  }

  function FilesVerdict(files: seq<string>, kept: map<string, nat>, key: string -> string): Verdict
  {
    if files == [] then Accepted
    else
      var before, file := files[..|files| - 1], files[|files| - 1];
      var verdict := FilesVerdict(before, kept, key);
      if verdict.Accepted? then FileVerdict(before, file, kept, key) else verdict
  }

  /** Each key's first file. */
  function FirstFiles(files: seq<string>, key: string -> string): seq<string>
  {
    if files == [] then []
    else
      var before, file := files[..|files| - 1], files[|files| - 1];
      if FirstWith(before, key, key(file)).None? then FirstFiles(before, key) + [file] else FirstFiles(before, key)
  }

  function AllFolders(files: seq<string>): seq<string>
  {
    if files == [] then [] else AllFolders(files[..|files| - 1]) + Folders(files[|files| - 1])
  }

  function FolderVerdict(files: seq<string>, before: seq<string>, folder: string, key: string -> string): Verdict
  {
    var file := FirstWith(files, key, key(folder));
    var first := FirstWith(before, key, key(folder));
    if file.Some? then FileIsFolder(file.value)
    else if first.Some? && first.value != folder then SameFolder(folder, first.value)
    else Accepted
  }

  function FoldersVerdict(files: seq<string>, folders: seq<string>, key: string -> string): Verdict
  {
    if folders == [] then Accepted
    else
      var before, folder := folders[..|folders| - 1], folders[|folders| - 1];
      var verdict := FoldersVerdict(files, before, key);
      if verdict.Accepted? then FolderVerdict(files, before, folder, key) else verdict
  }

  function TreeVerdict(files: seq<string>, kept: map<string, nat>, key: string -> string): Verdict
  {
    var verdict := FilesVerdict(files, kept, key);
    if verdict.Accepted? then FoldersVerdict(files, AllFolders(FirstFiles(files, key)), key) else verdict
  }

  // ---- The check ----

  /** The dictionary of first spellings, by key. */
  ghost predicate HoldsFirsts(firsts: map<string, string>, names: seq<string>, key: string -> string)
  {
    forall k ::
      && (k in firsts <==> FirstWith(names, key, k).Some?)
      && (k in firsts ==> Some(firsts[k]) == FirstWith(names, key, k))
  }

  ghost predicate Counts(copies: map<string, nat>, names: seq<string>)
  {
    forall name :: KeptCopies(copies, name) == Copies(names, name)
  }

  lemma {:induction false} LookUp(firsts: map<string, string>, names: seq<string>, key: string -> string, k: string)
    requires HoldsFirsts(firsts, names, key)
    ensures FirstWith(names, key, k) == if k in firsts then Some(firsts[k]) else None
  {
  }

  lemma {:induction false} AddFirst(
      firsts: map<string, string>, names: seq<string>, name: string, key: string -> string)
    requires HoldsFirsts(firsts, names, key)
    ensures HoldsFirsts(if key(name) in firsts then firsts else firsts[key(name) := name], names + [name], key)
  {
    assert (names + [name])[..|names|] == names;
  }

  lemma {:induction false} AddCopy(copies: map<string, nat>, names: seq<string>, name: string)
    requires Counts(copies, names)
    ensures Counts(copies[name := KeptCopies(copies, name) + 1], names + [name])
    ensures KeptCopies(copies, name) == Copies(names, name)
  {
    assert (names + [name])[..|names|] == names;
    forall other
      ensures KeptCopies(copies[name := KeptCopies(copies, name) + 1], other) == Copies(names + [name], other)
    {
      assert KeptCopies(copies, other) == Copies(names, other);
    }
  }

  lemma {:induction false} NextFile(files: seq<string>, i: nat, kept: map<string, nat>, key: string -> string)
    requires i < |files| && FilesVerdict(files[..i], kept, key).Accepted?
    ensures files[..i + 1] == files[..i] + [files[i]]
    ensures FilesVerdict(files[..i + 1], kept, key) == FileVerdict(files[..i], files[i], kept, key)
    ensures FirstFiles(files[..i + 1], key) ==
            if FirstWith(files[..i], key, key(files[i])).None? then FirstFiles(files[..i], key) + [files[i]]
            else FirstFiles(files[..i], key)
  {
    assert files[..i + 1][..i] == files[..i];
  }

  lemma {:induction false} NextFolder(files: seq<string>, done: seq<string>, folder: string, key: string -> string)
    requires FoldersVerdict(files, done, key).Accepted?
    ensures FoldersVerdict(files, done + [folder], key) == FolderVerdict(files, done, folder, key)
  {
    assert (done + [folder])[..|done|] == done;
  }

  /** The first problem of the list, or that there is none. `kept` counts names already saved. */
  method CheckFileTree(files: seq<string>, kept: map<string, nat>, key: string -> string) returns (verdict: Verdict)
    ensures verdict == TreeVerdict(files, kept, key)
  {
    hide HoldsFirsts, FoldersVerdict, FirstFiles, FilesVerdict, Folders;
    var names: seq<string>, filesByKey: map<string, string>;
    verdict, names, filesByKey := CheckNames(files, kept, key);
    if !verdict.Accepted? {
      return;
    }
    var seen: map<string, string> := map[];
    ghost var done: seq<string> := [];
    NoFolders(files, key);
    for i := 0 to |names|
      invariant done == AllFolders(names[..i])
      invariant HoldsFirsts(seen, done, key) && FoldersVerdict(files, done, key).Accepted?
    {
      var folders := Folders(names[i]);
      ghost var before := done;
      for d := 0 to |folders|
        invariant done == before + folders[..d]
        invariant HoldsFirsts(seen, done, key) && FoldersVerdict(files, done, key).Accepted?
      {
        var folder := folders[d];
        var k := key(folder);
        LookUp(filesByKey, files, key, k);
        LookUp(seen, done, key, k);
        AddFirst(seen, done, folder, key);
        NextFolder(files, done, folder, key);
        if k in filesByKey {
          RestOfFolders(files, names, i, d, key);
          return FileIsFolder(filesByKey[k]);
        }
        if k !in seen {
          seen := seen[k := folder];
        }
        if seen[k] != folder {
          RestOfFolders(files, names, i, d, key);
          return SameFolder(folder, seen[k]);
        }
        done := done + [folder];
        assert folders[..d + 1] == folders[..d] + [folder];
      }
      assert folders[..|folders|] == folders;
      assert names[..i + 1][..i] == names[..i];
    }
    assert names[..|names|] == names;
    verdict := Accepted;
  }

  lemma {:induction false} NoFolders(files: seq<string>, key: string -> string)
    ensures HoldsFirsts(map[], [], key) && FoldersVerdict(files, [], key).Accepted?
  {
  }

  method CheckNames(files: seq<string>, kept: map<string, nat>, key: string -> string)
    returns (verdict: Verdict, names: seq<string>, filesByKey: map<string, string>)
    ensures verdict == FilesVerdict(files, kept, key)
    ensures verdict.Accepted? ==> names == FirstFiles(files, key) && HoldsFirsts(filesByKey, files, key)
  {
    hide Counts, Copies, FirstWith, HoldsFirsts, FilesVerdict, FirstFiles;
    names, filesByKey := [], map[];
    var copies: map<string, nat> := map[];
    NoFiles(kept, key);
    for i := 0 to |files|
      invariant FilesVerdict(files[..i], kept, key).Accepted?
      invariant names == FirstFiles(files[..i], key)
      invariant HoldsFirsts(filesByKey, files[..i], key) && Counts(copies, files[..i])
    {
      var file := files[i];
      var k := key(file);
      NextFile(files, i, kept, key);
      LookUp(filesByKey, files[..i], key, k);
      AddFirst(filesByKey, files[..i], file, key);
      AddCopy(copies, files[..i], file);
      copies := copies[file := KeptCopies(copies, file) + 1];
      if k in filesByKey {
        var first := filesByKey[k];
        if first == file {
          if copies[file] > KeptCopies(kept, file) {
            RestOfFiles(files, i, kept, key);
            return DuplicateFile(file), names, filesByKey;
          }
        } else if first !in kept || file !in kept {
          RestOfFiles(files, i, kept, key);
          return SameName(file, first), names, filesByKey;
        }
      } else {
        filesByKey := filesByKey[k := file];
        names := names + [file];
      }
    }
    assert files[..|files|] == files;
    verdict := Accepted;
  }

  lemma {:induction false} NoFiles(kept: map<string, nat>, key: string -> string)
    ensures FilesVerdict([], kept, key).Accepted? && FirstFiles([], key) == []
    ensures HoldsFirsts(map[], [], key) && Counts(map[], [])
  {
  }

  /** The first problem stays the first. */
  lemma {:induction false} RestOfFiles(files: seq<string>, i: nat, kept: map<string, nat>, key: string -> string)
    requires i < |files| && FilesVerdict(files[..i], kept, key).Accepted?
    requires !FileVerdict(files[..i], files[i], kept, key).Accepted?
    ensures FilesVerdict(files, kept, key) == FileVerdict(files[..i], files[i], kept, key)
  {
    var n := |files| - 1;
    if i < n {
      assert files[..n][..i] == files[..i];
      RestOfFiles(files[..n], i, kept, key);
    }
  }

  lemma {:induction false} RestOfFolderList(files: seq<string>, folders: seq<string>, i: nat, key: string -> string)
    requires i < |folders| && FoldersVerdict(files, folders[..i], key).Accepted?
    requires !FolderVerdict(files, folders[..i], folders[i], key).Accepted?
    ensures FoldersVerdict(files, folders, key) == FolderVerdict(files, folders[..i], folders[i], key)
  {
    var n := |folders| - 1;
    if i < n {
      assert folders[..n][..i] == folders[..i];
      RestOfFolderList(files, folders[..n], i, key);
    }
  }

  lemma {:induction false} FoldersInList(names: seq<string>, i: nat)
    requires i < |names|
    ensures AllFolders(names[..i]) + Folders(names[i]) <= AllFolders(names)
  {
    var n := |names| - 1;
    if i < n {
      assert names[..n][..i] == names[..i];
      FoldersInList(names[..n], i);
    }
  }

  lemma {:induction false} RestOfFolders(files: seq<string>, names: seq<string>, i: nat, d: nat, key: string -> string)
    requires i < |names| && d < |Folders(names[i])|
    requires
      var before := AllFolders(names[..i]) + Folders(names[i])[..d];
      && FoldersVerdict(files, before, key).Accepted?
      && !FolderVerdict(files, before, Folders(names[i])[d], key).Accepted?
    ensures FoldersVerdict(files, AllFolders(names), key) ==
            FolderVerdict(files, AllFolders(names[..i]) + Folders(names[i])[..d], Folders(names[i])[d], key)
  {
    hide FoldersVerdict, FolderVerdict, AllFolders, Folders;
    FoldersInList(names, i);
    var at := |AllFolders(names[..i])| + d;
    var before := AllFolders(names[..i]) + Folders(names[i])[..d];
    assert (AllFolders(names[..i]) + Folders(names[i]))[..at] == before;
    assert AllFolders(names)[..at] == before;
    RestOfFolderList(files, AllFolders(names), at, key);
  }

  // ---- What acceptance means ----

  ghost predicate KeysDiffer(files: seq<string>, key: string -> string)
  {
    forall i, j | 0 <= i < j < |files| :: key(files[i]) != key(files[j])
  }

  /** A slash of a path, and the folder before it. */
  predicate IsFolderOf(path: string, at: nat)
  {
    at < |path| && path[at] == '/'
  }

  ghost predicate NoFileIsFolder(files: seq<string>, key: string -> string)
  {
    forall i, j, at: nat | 0 <= i < |files| && 0 <= j < |files| && IsFolderOf(files[i], at) ::
      key(files[i][..at]) != key(files[j])
  }

  ghost predicate FoldersSpelledOnce(files: seq<string>, key: string -> string)
  {
    forall i, j, at: nat, bt: nat |
      0 <= i < |files| && 0 <= j < |files| && IsFolderOf(files[i], at) && IsFolderOf(files[j], bt) ::
      key(files[i][..at]) == key(files[j][..bt]) ==> files[i][..at] == files[j][..bt]
  }

  lemma {:induction false} FoldersAreBeforeSlashes(path: string, folder: string)
    ensures folder in Folders(path) <==> exists at: nat :: IsFolderOf(path, at) && path[..at] == folder
  {
    if path != "" {
      var n := |path| - 1;
      FoldersAreBeforeSlashes(path[..n], folder);
      if exists at: nat :: IsFolderOf(path, at) && path[..at] == folder {
        var at: nat :| IsFolderOf(path, at) && path[..at] == folder;
        assert at < n ==> IsFolderOf(path[..n], at) && path[..n][..at] == folder;
      }
      if folder in Folders(path[..n]) {
        var at: nat :| IsFolderOf(path[..n], at) && path[..n][..at] == folder;
        assert IsFolderOf(path, at) && path[..at] == folder;
      }
      assert path[n] == '/' ==> IsFolderOf(path, n);
    }
  }

  lemma {:induction false} AllFoldersAreTheirs(files: seq<string>, folder: string)
    ensures folder in AllFolders(files) <==> exists i :: 0 <= i < |files| && folder in Folders(files[i])
  {
    hide Folders;
    if files != [] {
      var front, last := files[..|files| - 1], files[|files| - 1];
      AllFoldersAreTheirs(front, folder);
      assert forall i | 0 <= i < |front| :: front[i] == files[i];
      assert folder in AllFolders(files) <==> folder in AllFolders(front) || folder in Folders(last);
    }
  }

  lemma {:induction false} NoneWithKey(files: seq<string>, key: string -> string, k: string)
    ensures FirstWith(files, key, k).None? <==> forall i | 0 <= i < |files| :: key(files[i]) != k
  {
    if FirstWith(files, key, k).Some? {
      var i :| 0 <= i < |files| && files[i] == FirstWith(files, key, k).value;
    }
  }

  lemma {:induction false} KeysDifferMore(front: seq<string>, last: string, key: string -> string)
    ensures KeysDiffer(front + [last], key) <==>
            KeysDiffer(front, key) && forall i | 0 <= i < |front| :: key(front[i]) != key(last)
  {
    var files := front + [last];
    assert files[|front|] == last && forall i | 0 <= i < |front| :: files[i] == front[i];
  }

  lemma {:induction false} FilesAccepted(files: seq<string>, key: string -> string)
    ensures FilesVerdict(files, map[], key).Accepted? <==> KeysDiffer(files, key)
    ensures KeysDiffer(files, key) ==> FirstFiles(files, key) == files
  {
    hide KeysDiffer, FirstWith;
    if files == [] {
      NoKeysDiffer(key);
    } else {
      var front, last := files[..|files| - 1], files[|files| - 1];
      assert files == front + [last];
      FilesAccepted(front, key);
      NoneWithKey(front, key, key(last));
      KeysDifferMore(front, last, key);
    }
  }

  lemma {:induction false} NoKeysDiffer(key: string -> string)
    ensures KeysDiffer([], key)
  {
  }

  ghost predicate FoldersAreFine(files: seq<string>, folders: seq<string>, key: string -> string)
  {
    && (forall i, j | 0 <= i < |folders| && 0 <= j < |files| :: key(folders[i]) != key(files[j]))
    && (forall i, j | 0 <= i < j < |folders| :: key(folders[i]) == key(folders[j]) ==> folders[i] == folders[j])
  }

  lemma {:induction false} FolderIsFine(files: seq<string>, before: seq<string>, folder: string, key: string -> string)
    requires FoldersAreFine(files, before, key)
    ensures FolderVerdict(files, before, folder, key).Accepted? <==> FoldersAreFine(files, before + [folder], key)
  {
    var all := before + [folder];
    assert all[|before|] == folder && forall i | 0 <= i < |before| :: all[i] == before[i];
    NoneWithKey(files, key, key(folder));
    NoneWithKey(before, key, key(folder));
    var first := FirstWith(before, key, key(folder));
    hide FirstWith;
    if first.Some? {
      var i :| 0 <= i < |before| && before[i] == first.value;
    }
  }

  lemma {:induction false} FrontIsFine(files: seq<string>, before: seq<string>, folder: string, key: string -> string)
    requires FoldersAreFine(files, before + [folder], key)
    ensures FoldersAreFine(files, before, key)
  {
    assert forall i | 0 <= i < |before| :: (before + [folder])[i] == before[i];
  }

  lemma {:induction false} FoldersAccepted(files: seq<string>, folders: seq<string>, key: string -> string)
    ensures FoldersVerdict(files, folders, key).Accepted? <==> FoldersAreFine(files, folders, key)
  {
    if folders != [] {
      hide FolderVerdict, FoldersAreFine;
      var before, folder := folders[..|folders| - 1], folders[|folders| - 1];
      assert folders == before + [folder];
      FoldersAccepted(files, before, key);
      if FoldersAreFine(files, folders, key) {
        FrontIsFine(files, before, folder, key);
      }
      if FoldersAreFine(files, before, key) {
        FolderIsFine(files, before, folder, key);
      }
    }
  }

  lemma {:induction false} FolderListOfFiles(files: seq<string>, i: nat, at: nat)
    requires i < |files| && IsFolderOf(files[i], at)
    ensures files[i][..at] in AllFolders(files)
  {
    FoldersAreBeforeSlashes(files[i], files[i][..at]);
    AllFoldersAreTheirs(files, files[i][..at]);
  }

  lemma {:induction false} FolderOfSomeFile(files: seq<string>, folder: string)
    requires folder in AllFolders(files)
    ensures exists i, at: nat :: 0 <= i < |files| && IsFolderOf(files[i], at) && files[i][..at] == folder
  {
    AllFoldersAreTheirs(files, folder);
    var i :| 0 <= i < |files| && folder in Folders(files[i]);
    FoldersAreBeforeSlashes(files[i], folder);
  }

  lemma {:induction false} FineFolders(files: seq<string>, key: string -> string)
    ensures FoldersAreFine(files, AllFolders(files), key) <==>
            NoFileIsFolder(files, key) && FoldersSpelledOnce(files, key)
  {
    hide AllFolders;
    var folders := AllFolders(files);
    if FoldersAreFine(files, folders, key) {
      forall i, j, at: nat | 0 <= i < |files| && 0 <= j < |files| && IsFolderOf(files[i], at)
        ensures key(files[i][..at]) != key(files[j])
      {
        FolderListOfFiles(files, i, at);
      }
      forall i, j, at: nat, bt: nat |
        0 <= i < |files| && 0 <= j < |files| && IsFolderOf(files[i], at) && IsFolderOf(files[j], bt)
        && key(files[i][..at]) == key(files[j][..bt])
        ensures files[i][..at] == files[j][..bt]
      {
        FolderListOfFiles(files, i, at);
        FolderListOfFiles(files, j, bt);
      }
    }
    if NoFileIsFolder(files, key) && FoldersSpelledOnce(files, key) {
      forall i | 0 <= i < |folders|
        ensures exists k, at: nat :: 0 <= k < |files| && IsFolderOf(files[k], at) && files[k][..at] == folders[i]
      {
        FolderOfSomeFile(files, folders[i]);
      }
    }
  }

  /** With no kept names, a list is accepted exactly when its files' keys all differ, no folder
      has a file's key, and folders with one key are spelled one way. */
  lemma {:induction false} AcceptedExactly(files: seq<string>, key: string -> string)
    ensures TreeVerdict(files, map[], key).Accepted? <==>
            KeysDiffer(files, key) && NoFileIsFolder(files, key) && FoldersSpelledOnce(files, key)
  {
    FilesAccepted(files, key);
    FoldersAccepted(files, AllFolders(FirstFiles(files, key)), key);
    FineFolders(files, key);
  }

  // ---- With names that are kept ----

  /** The first spelling of a name may come as often as it is saved, and once in any case. Any
      other spelling may come, as often as it likes, when both are saved. */
  ghost predicate IsSpared(files: seq<string>, file: string, kept: map<string, nat>, key: string -> string)
  {
    match FirstWith(files, key, key(file))
    case None => false
    case Some(first) =>
      if file == first then Copies(files, file) <= 1 || Copies(files, file) <= KeptCopies(kept, file)
      else first in kept && file in kept
  }

  ghost predicate NamesAreSpared(files: seq<string>, kept: map<string, nat>, key: string -> string)
  {
    forall i | 0 <= i < |files| :: IsSpared(files, files[i], kept, key)
  }

  lemma {:induction false} CopiesOfMember(files: seq<string>, name: string)
    ensures Copies(files, name) >= 1 <==> name in files
  {
    if files != [] {
      CopiesOfMember(files[..|files| - 1], name);
      assert files == files[..|files| - 1] + [files[|files| - 1]];
    }
  }

  /** A name of the front, once one more file is there. */
  lemma {:induction false} SparedWithMore(
      front: seq<string>, last: string, name: string, kept: map<string, nat>, key: string -> string)
    requires name in front
    ensures IsSpared(front + [last], name, kept, key) ==> IsSpared(front, name, kept, key)
    ensures IsSpared(front, name, kept, key) && IsSpared(front + [last], last, kept, key) ==>
              IsSpared(front + [last], name, kept, key)
  {
    assert (front + [last])[..|front|] == front;
    CopiesOfMember(front, name);
  }

  /** The last file, checked against those before it, is checked as in the whole list. */
  lemma {:induction false} LastIsSpared(front: seq<string>, last: string, kept: map<string, nat>, key: string -> string)
    ensures FileVerdict(front, last, kept, key).Accepted? <==> IsSpared(front + [last], last, kept, key)
  {
    assert (front + [last])[..|front|] == front;
    CopiesOfMember(front, last);
  }

  lemma {:induction false} NamesAcceptedExactly(files: seq<string>, kept: map<string, nat>, key: string -> string)
    ensures FilesVerdict(files, kept, key).Accepted? <==> NamesAreSpared(files, kept, key)
  {
    if files != [] {
      var front, last := files[..|files| - 1], files[|files| - 1];
      assert files == front + [last];
      NamesAcceptedExactly(front, kept, key);
      LastIsSpared(front, last, kept, key);
      hide IsSpared, FileVerdict;
      forall i | 0 <= i < |front|
        ensures IsSpared(files, files[i], kept, key) ==> IsSpared(front, front[i], kept, key)
        ensures IsSpared(front, front[i], kept, key) && IsSpared(files, last, kept, key) ==>
                  IsSpared(files, files[i], kept, key)
      {
        SparedWithMore(front, last, front[i], kept, key);
      }
    }
  }

  /** The first files have the keys of all. */
  lemma {:induction false} FirstFilesHaveAllKeys(files: seq<string>, key: string -> string)
    ensures forall name | name in FirstFiles(files, key) :: HasKey(files, key, key(name))
    ensures forall name | name in files :: HasKey(FirstFiles(files, key), key, key(name))
  {
    if files != [] {
      var front, last := files[..|files| - 1], files[|files| - 1];
      assert files == front + [last];
      FirstFilesHaveAllKeys(front, key);
      var before := FirstFiles(front, key);
      MoreKeys(front, last, key);
      MoreKeys(before, last, key);
      hide HasKey;
      var found := FirstWith(front, key, key(last));
      hide FirstWith;
      if found.Some? {
        assert HasKey(before, key, key(found.value));
      }
    }
  }

  ghost predicate HasKey(files: seq<string>, key: string -> string, k: string)
  {
    exists i | 0 <= i < |files| :: key(files[i]) == k
  }

  lemma {:induction false} MoreKeys(files: seq<string>, last: string, key: string -> string)
    ensures forall k :: HasKey(files, key, k) ==> HasKey(files + [last], key, k)
    ensures HasKey(files + [last], key, key(last))
  {
    assert (files + [last])[|files|] == last;
    assert forall i | 0 <= i < |files| :: (files + [last])[i] == files[i];
  }

  lemma {:induction false} SameKeysSameFolders(
      files: seq<string>, others: seq<string>, folders: seq<string>, key: string -> string)
    requires forall name | name in files :: HasKey(others, key, key(name))
    requires FoldersAreFine(others, folders, key)
    ensures FoldersAreFine(files, folders, key)
  {
    forall i, j | 0 <= i < |folders| && 0 <= j < |files|
      ensures key(folders[i]) != key(files[j])
    {
      assert HasKey(others, key, key(files[j]));
      var k :| 0 <= k < |others| && key(others[k]) == key(files[j]);
    }
  }

  /** A list is accepted if and only if its names are spared, and, of the files that are the
      first of their key, no folder has a file's key and folders of one key are spelled one way. */
  lemma {:induction false} KeptAcceptedExactly(files: seq<string>, kept: map<string, nat>, key: string -> string)
    ensures
      var firsts := FirstFiles(files, key);
      TreeVerdict(files, kept, key).Accepted? <==>
        NamesAreSpared(files, kept, key) && NoFileIsFolder(firsts, key) && FoldersSpelledOnce(firsts, key)
  {
    hide FilesVerdict, FirstFiles, AllFolders, FoldersVerdict, NamesAreSpared;
    hide NoFileIsFolder, FoldersSpelledOnce, FoldersAreFine;
    var firsts := FirstFiles(files, key);
    var folders := AllFolders(firsts);
    NamesAcceptedExactly(files, kept, key);
    FoldersAccepted(files, folders, key);
    FineFolders(firsts, key);
    FirstFilesHaveAllKeys(files, key);
    if FoldersAreFine(files, folders, key) {
      SameKeysSameFolders(firsts, files, folders, key);
    }
    if FoldersAreFine(firsts, folders, key) {
      SameKeysSameFolders(files, firsts, folders, key);
    }
  }

  /** A list with no name more often than it is saved, so any saved project saved again, never
      fails for its file names, but can for its folders. */
  lemma {:induction false} SavedAgainExactly(files: seq<string>, kept: map<string, nat>, key: string -> string)
    requires forall i | 0 <= i < |files| :: Copies(files, files[i]) <= KeptCopies(kept, files[i])
    ensures
      var firsts := FirstFiles(files, key);
      TreeVerdict(files, kept, key).Accepted? <==> NoFileIsFolder(firsts, key) && FoldersSpelledOnce(firsts, key)
  {
    hide FirstFiles, TreeVerdict, NoFileIsFolder, FoldersSpelledOnce;
    KeptAcceptedExactly(files, kept, key);
    forall i | 0 <= i < |files|
      ensures IsSpared(files, files[i], kept, key)
    {
      SavedIsSpared(files, i, kept, key);
    }
  }

  lemma {:induction false} SavedIsSpared(files: seq<string>, i: nat, kept: map<string, nat>, key: string -> string)
    requires i < |files|
    requires forall n | 0 <= n < |files| :: Copies(files, files[n]) <= KeptCopies(kept, files[n])
    ensures IsSpared(files, files[i], kept, key)
  {
    hide FirstWith;
    CopiesOfMember(files, files[i]);
    var first := FirstWith(files, key, key(files[i]));
    assert first.Some?;
    CopiesOfMember(files, first.value);
    var n :| 0 <= n < |files| && files[n] == first.value;
  }

  /** Only the first spelling is counted: a second one may come more often than it is saved. */
  lemma {:induction false} SecondSpellingRepeats(first: string, second: string, key: string -> string)
    requires first != second && key(first) == key(second) && '/' !in first
    ensures
      var kept := map[first := 1, second := 1];
      TreeVerdict([first, second, second], kept, key).Accepted? && Copies([first, second, second], second) == 2
  {
    var files, kept := [first, second, second], map[first := 1, second := 1];
    assert files[..2] == [first, second] && [first, second][..1] == [first] && [first][..0] == [];
    assert FirstWith([first], key, key(second)) == Some(first);
    assert FirstWith([first, second], key, key(second)) == Some(first);
    assert FirstWith(files, key, key(second)) == Some(first);
    hide FirstWith;
    assert Copies([first], second) == 0 && Copies([first, second], second) == 1 && Copies(files, second) == 2;
    assert Copies([first], first) == 1 && Copies([first, second], first) == 1 && Copies(files, first) == 1;
    hide Copies;
    KeptAcceptedExactly(files, kept, key);
    OnlyFirst(first, second, key);
  }

  lemma {:induction false} OnlyFirst(first: string, second: string, key: string -> string)
    requires key(first) == key(second)
    ensures FirstFiles([first, second, second], key) == [first]
  {
    var files := [first, second, second];
    assert files[..2] == [first, second] && [first, second][..1] == [first] && [first][..0] == [];
    assert FirstWith([first], key, key(second)) == Some(first);
    assert FirstWith([first, second], key, key(second)) == Some(first);
    hide FirstWith;
    assert FirstFiles([first], key) == [first] by {
    }
    assert FirstFiles([first, second], key) == [first];
  }


  // ---- What a refusal says ----

  /** The first name with its key is at `j`. */
  predicate IsFirstAt(names: seq<string>, key: string -> string, j: nat)
  {
    j < |names| && forall m | 0 <= m < j :: key(names[m]) != key(names[j])
  }

  lemma {:induction false} FirstIsAt(names: seq<string>, key: string -> string, k: string) returns (j: nat)
    requires FirstWith(names, key, k).Some?
    ensures IsFirstAt(names, key, j) && names[j] == FirstWith(names, key, k).value && key(names[j]) == k
  {
    var n := |names| - 1;
    if FirstWith(names[..n], key, k).Some? {
      j := FirstIsAt(names[..n], key, k);
    } else {
      j := n;
    }
  }

  /** File `i` is a spelling more often there than saved. */
  ghost predicate RepeatsAt(files: seq<string>, kept: map<string, nat>, key: string -> string, i: nat, name: string)
  {
    && i < |files| && files[i] == name && Copies(files[..i + 1], name) > KeptCopies(kept, name)
    && exists j: nat :: j < i && IsFirstAt(files, key, j) && files[j] == name
  }

  /** File `i` is another spelling of an earlier name, and not both were saved so. */
  ghost predicate RespellsAt(
      files: seq<string>, kept: map<string, nat>, key: string -> string, i: nat, name: string, first: string)
  {
    && i < |files| && files[i] == name != first && !(name in kept && first in kept) && key(name) == key(first)
    && exists j: nat :: j < i && IsFirstAt(files, key, j) && files[j] == first
  }

  ghost predicate FileVerdictIsTrue(files: seq<string>, kept: map<string, nat>, key: string -> string, verdict: Verdict)
  {
    match verdict
    case DuplicateFile(name) => exists i: nat :: RepeatsAt(files, kept, key, i, name)
    case SameName(name, first) => exists i: nat :: RespellsAt(files, kept, key, i, name, first)
    case _ => false
  }

  lemma {:induction false} FirstAtMore(names: seq<string>, key: string -> string, n: nat, j: nat)
    requires n <= |names| && IsFirstAt(names[..n], key, j)
    ensures IsFirstAt(names, key, j)
  {
    assert forall m | 0 <= m < n :: names[..n][m] == names[m];
  }

  lemma {:induction false} LastFileTells(files: seq<string>, kept: map<string, nat>, key: string -> string)
    requires files != []
    requires !FileVerdict(files[..|files| - 1], files[|files| - 1], kept, key).Accepted?
    ensures
      FileVerdictIsTrue(files, kept, key, FileVerdict(files[..|files| - 1], files[|files| - 1], kept, key))
  {
    var n := |files| - 1;
    var before, file := files[..n], files[n];
    var j := FirstIsAt(before, key, key(file));
    FirstAtMore(files, key, n, j);
    assert files[j] == before[j] && files[..n + 1] == files;
    var verdict := FileVerdict(before, file, kept, key);
    if verdict.DuplicateFile? {
      assert RepeatsAt(files, kept, key, n, file);
    } else {
      assert RespellsAt(files, kept, key, n, file, before[j]);
    }
  }

  lemma {:induction false} FileVerdictTells(files: seq<string>, kept: map<string, nat>, key: string -> string)
    requires !FilesVerdict(files, kept, key).Accepted?
    ensures FileVerdictIsTrue(files, kept, key, FilesVerdict(files, kept, key))
  {
    hide FileVerdict, Copies;
    var n := |files| - 1;
    var verdict := FilesVerdict(files, kept, key);
    if FilesVerdict(files[..n], kept, key).Accepted? {
      LastFileTells(files, kept, key);
    } else {
      FileVerdictTells(files[..n], kept, key);
      VerdictStaysTrue(files, n, kept, key, verdict);
    }
  }

  lemma {:induction false} VerdictStaysTrue(
      files: seq<string>, n: nat, kept: map<string, nat>, key: string -> string, verdict: Verdict)
    requires n <= |files| && FileVerdictIsTrue(files[..n], kept, key, verdict)
    ensures FileVerdictIsTrue(files, kept, key, verdict)
  {
    hide Copies;
    forall j: nat | IsFirstAt(files[..n], key, j)
      ensures IsFirstAt(files, key, j) && files[j] == files[..n][j]
    {
      FirstAtMore(files, key, n, j);
    }
    match verdict
    case DuplicateFile(name) =>
      var i: nat :| RepeatsAt(files[..n], kept, key, i, name);
      assert files[..n][..i + 1] == files[..i + 1] && files[..n][i] == files[i];
      assert RepeatsAt(files, kept, key, i, name);
    case SameName(name, first) =>
      var i: nat :| RespellsAt(files[..n], kept, key, i, name, first);
      assert files[..n][i] == files[i];
      assert RespellsAt(files, kept, key, i, name, first);
  }

  /** A folder of some file of the list. */
  ghost predicate IsFolderIn(files: seq<string>, folder: string)
  {
    exists i, at: nat :: 0 <= i < |files| && IsFolderOf(files[i], at) && files[i][..at] == folder
  }

  /** A folder of the list has the key of the file named; the folders named are two with one key. */
  ghost predicate FolderVerdictIsTrue(files: seq<string>, folders: seq<string>, key: string -> string, verdict: Verdict)
  {
    match verdict
    case FileIsFolder(file) =>
      && (exists j: nat :: IsFirstAt(files, key, j) && files[j] == file)
      && (exists folder :: folder in folders && key(folder) == key(file))
    case SameFolder(folder, first) =>
      folder in folders && first in folders && folder != first && key(folder) == key(first)
    case _ => false
  }

  lemma {:induction false} LastFolderTells(
      files: seq<string>, before: seq<string>, folder: string, key: string -> string)
    requires !FolderVerdict(files, before, folder, key).Accepted?
    ensures FolderVerdictIsTrue(files, before + [folder], key, FolderVerdict(files, before, folder, key))
  {
    assert folder in before + [folder];
    if FirstWith(files, key, key(folder)).Some? {
      var j := FirstIsAt(files, key, key(folder));
    }
    hide FirstWith;
  }

  lemma {:induction false} FolderVerdictTells(files: seq<string>, folders: seq<string>, key: string -> string)
    requires !FoldersVerdict(files, folders, key).Accepted?
    ensures FolderVerdictIsTrue(files, folders, key, FoldersVerdict(files, folders, key))
  {
    hide FolderVerdict;
    var before, folder := folders[..|folders| - 1], folders[|folders| - 1];
    assert folders == before + [folder];
    if FoldersVerdict(files, before, key).Accepted? {
      LastFolderTells(files, before, folder, key);
    } else {
      FolderVerdictTells(files, before, key);
    }
  }

  lemma {:induction false} FirstFilesAreFiles(files: seq<string>, key: string -> string)
    ensures forall file | file in FirstFiles(files, key) :: file in files
  {
    if files != [] {
      hide FirstWith;
      FirstFilesAreFiles(files[..|files| - 1], key);
    }
  }

  lemma {:induction false} FoldersAreTheirs(files: seq<string>, key: string -> string)
    ensures forall folder | folder in AllFolders(FirstFiles(files, key)) :: IsFolderIn(files, folder)
  {
    hide FirstFiles, AllFolders, FirstWith;
    FirstFilesAreFiles(files, key);
    var firsts := FirstFiles(files, key);
    forall folder | folder in AllFolders(firsts)
      ensures IsFolderIn(files, folder)
    {
      FolderOfSomeFile(firsts, folder);
      var i, at: nat :| 0 <= i < |firsts| && IsFolderOf(firsts[i], at) && firsts[i][..at] == folder;
      assert firsts[i] in files;
    }
  }

  /** A refusal names what is wrong: a file with more copies than saved or with another spelling
      before it, a file that a folder is in the way of, or two spellings of one folder. */
  lemma {:induction false} VerdictTells(files: seq<string>, kept: map<string, nat>, key: string -> string)
    ensures
      var verdict := TreeVerdict(files, kept, key);
      match verdict
      case Accepted => true
      case DuplicateFile(name) => exists i: nat :: RepeatsAt(files, kept, key, i, name)
      case SameName(name, first) => exists i: nat :: RespellsAt(files, kept, key, i, name, first)
      case FileIsFolder(file) =>
        && (exists j: nat :: IsFirstAt(files, key, j) && files[j] == file)
        && (exists folder :: IsFolderIn(files, folder) && key(folder) == key(file))
      case SameFolder(folder, first) =>
        IsFolderIn(files, folder) && IsFolderIn(files, first) && folder != first && key(folder) == key(first)
  {
    hide FilesVerdict, FoldersVerdict, FirstFiles, AllFolders, IsFolderIn, RepeatsAt, RespellsAt, IsFirstAt;
    if !FilesVerdict(files, kept, key).Accepted? {
      FileVerdictTells(files, kept, key);
    } else if !FoldersVerdict(files, AllFolders(FirstFiles(files, key)), key).Accepted? {
      FolderVerdictTells(files, AllFolders(FirstFiles(files, key)), key);
      FoldersAreTheirs(files, key);
    }
  }
}

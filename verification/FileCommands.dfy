/** The file commands step by step, over a filesystem that remembers every tree it went through. */
module FileCommands {
  import opened Wrappers
  import opened PathText
  import opened FileTree
  import opened LocalFiles
  import LocalFileRuns

  /** Between the tree before a write and the tree after it: the target holds what it held or the whole new content,
      and apart from the temporary file nothing else is different. */
  ghost predicate Between(before: Tree, now: Tree, place: Place, temporary: Place, content: Bytes) {
    && (Lookup(now, place) == Lookup(before, place) || Lookup(now, place) == Some(File(content)))
    && forall q :: q != place && q != temporary ==> Lookup(now, q) == Lookup(before, q)
  }

  /** Every tree since then was in between. */
  ghost predicate WholeSince(before: Tree, trail: seq<Tree>, since: nat, place: Place, temporary: Place,
                             content: Bytes) {
    since <= |trail| && forall k :: since <= k < |trail| ==> Between(before, trail[k], place, temporary, content)
  }

  class FileSystem {
    var tree: Tree
    const hops: nat
    ghost var trail: seq<Tree>

    constructor (tree: Tree, hops: nat)
      ensures this.tree == tree && this.hops == hops && trail == []
    {
      this.tree, this.hops, trail := tree, hops, [];
    }

    function Folder(path: Place): Option<Place>
      reads this
    {
      Resolve(tree, path, hops)
    }

    /** Opens a file that must not exist yet. */
    method CreateNew(path: Place, name: Name, allowed: bool) returns (file: Option<Place>)
      modifies this
      ensures file == if allowed && old(Folder(path)).Some? && old(Folder(path)).value in old(tree)
                         && old(tree)[old(Folder(path)).value].Directory?
                         && old(Folder(path)).value + [name] !in old(tree)
                      then Some(old(Folder(path)).value + [name]) else None
      ensures tree == if file.Some? then old(tree)[file.value := File([])] else old(tree)
      ensures trail == if file.Some? then old(trail) + [tree] else old(trail)
    {
      var folder := Folder(path);
      if !allowed || folder.None? || folder.value !in tree || !tree[folder.value].Directory?
         || folder.value + [name] in tree {
        return None;
      }
      tree := tree[folder.value + [name] := File([])];
      trail := trail + [tree];
      return Some(folder.value + [name]);
    }

    method Append(file: Place, bytes: Bytes)
      requires file in tree && tree[file].File?
      modifies this
      ensures tree == old(tree)[file := File(old(tree)[file].content + bytes)] && trail == old(trail) + [tree]
    {
      tree := tree[file := File(tree[file].content + bytes)];
      trail := trail + [tree];
    }

    method RemoveFile(path: Place, name: Name, allowed: bool)
      modifies this
      ensures tree == if allowed && old(Folder(path)).Some?
                      then old(tree) - (if IsFile(old(tree), old(Folder(path)).value + [name])
                                        then {old(Folder(path)).value + [name]} else {})
                      else old(tree)
      ensures trail == old(trail) + [tree]
    {
      var folder := Folder(path);
      if allowed && folder.Some? && IsFile(tree, folder.value + [name]) {
        tree := tree - {folder.value + [name]};
      }
      trail := trail + [tree];
    }

    static predicate IsDirectory(tree: Tree, p: Place) {
      p in tree && tree[p].Directory?
    }

    static predicate IsFile(tree: Tree, p: Place) {
      p in tree && tree[p].File?
    }

    /** Puts the file in the place of whatever is not a directory there, in one step. */
    method Rename(path: Place, from: Name, to: Name, trailing: bool, allowed: bool) returns (ok: bool)
      requires Folder(path).Some? && IsFile(tree, Folder(path).value + [from])
      modifies this
      ensures var (a, b) := (old(Folder(path)).value + [from], old(Folder(path)).value + [to]);
        && ok == (allowed && !trailing && !(b in old(tree) && old(tree)[b].Directory?))
        && tree == if ok then (old(tree) - {a})[b := old(tree)[a]] else old(tree)
      ensures trail == old(trail) + [tree]
    {
      var a, b := Folder(path).value + [from], Folder(path).value + [to];
      ok := allowed && !trailing && !(b in tree && tree[b].Directory?);
      if ok {
        tree := (tree - {a})[b := tree[a]];
      }
      trail := trail + [tree];
    }

    method Trash(p: Place, allowed: bool) returns (ok: bool)
      modifies this
      ensures ok == (allowed && p != []) && tree == if ok then Without(old(tree), p) else old(tree)
    {
      ok := allowed && p != [];
      if ok {
        tree := Without(tree, p);
        trail := trail + [tree];
      }
    }
  }

  /** What the operating system enumerates: every name in the directory, each once, in whatever order. */
  ghost predicate Enumerates(tree: Tree, directory: Place, listing: seq<Name>) {
    && (forall i, j :: 0 <= i < j < |listing| ==> listing[i] != listing[j])
    && forall name :: name in listing <==> directory + [name] in tree
  }

  /** The step from checking a write to doing it. */
  lemma WriteTextIs(tree: Tree, root: Option<Place>, text: string, content: Bytes, w: Weather, hops: nat)
    ensures var target := ResolveForWrite(tree, root, text, hops);
      && (target.Done? ==> root.Some? && Resolve(tree, target.value.folder, hops).Some?)
      && WriteText(tree, root, text, content, w, hops)
         == if |content| > MAX_TEXT_FILE_BYTES then (tree, Failed(TooLarge))
            else if target.Failed? then (tree, Failed(target.error))
            else Replace(tree, Resolve(tree, target.value.folder, hops).value, target.value, content, w)
  {
    hide Replace, Resolve, Pieces, OsParts, Walk;
  }

  /** While nothing is done, every tree since then was in between, for there was none. */
  lemma NothingSince(before: Tree, trail: seq<Tree>, content: Bytes)
    ensures forall place, temporary :: WholeSince(before, trail, |trail|, place, temporary, content)
  {
  }

  /** The place that is checked for a write is the one that the path names. */
  lemma TargetIsNamed(tree: Tree, root: Place, text: string, hops: nat)
    ensures var target := ResolveForWrite(tree, Some(root), text, hops);
      target.Done? ==>
        forall place :: Named(tree, root, text, place, hops) ==>
          && Resolve(tree, target.value.folder, hops) == Some(Parent(place))
          && place == Parent(place) + [target.value.name]
  {
    hide Resolve, Pieces, OsParts, Walk;
  }

  lemma WrittenWhereNamed(tree: Tree, root: Place, text: string, content: Bytes, w: Weather, hops: nat)
    requires WriteText(tree, Some(root), text, content, w, hops).1.Done?
    ensures WellFormed(tree) ==>
      exists place :: Named(tree, root, text, place, hops)
                      && WriteText(tree, Some(root), text, content, w, hops).0 == tree[place := File(content)]
  {
    hide WriteText, Named, WellFormed;
    if WellFormed(tree) {
      var place := WriteContained(tree, root, text, content, w, hops);
    }
  }

  class FileExecutor {
    const fs: FileSystem
    var roots: map<string, Place>
    /** Every root ever approved. */
    ghost var approved: set<Place>

    constructor (fs: FileSystem)
      ensures this.fs == fs && roots == map[] && approved == {}
    {
      this.fs, roots, approved := fs, map[], {};
    }

    ghost function Disk(): LocalFileRuns.Disk
      reads this, fs
    {
      LocalFileRuns.Disk(fs.tree, roots, approved)
    }

    /** `at` is the working directory. What is recorded is the directory to which the path leads. */
    method ApproveLocalRoot(rootId: string, path: string, at: Place) returns (r: Outcome<()>)
      modifies this
      ensures Disk() == LocalFileRuns.Do(old(Disk()), LocalFileRuns.Approve(rootId, path), at, fs.hops)
      ensures var place := Walk(fs.tree, if path != "" && path[0] == '/' then [] else at, OsParts(path), fs.hops);
        && (r.Done? <==> path != "" && place.Some? && FileSystem.IsDirectory(fs.tree, place.value))
        && roots == (if r.Done? then old(roots)[rootId := place.value] else old(roots))
    {
      var root := ApproveRoot(fs.tree, at, path, fs.hops);
      if root.Failed? {
        return Failed(root.error);
      }
      roots, approved := roots[rootId := root.value], approved + {root.value};
      return Done(());
    }

    method TrashPath(rootId: string, text: string, allowed: bool) returns (r: Outcome<()>)
      modifies fs
      ensures (fs.tree, r) == LocalFiles.TrashPath(old(fs.tree), Lookup(roots, rootId), text, allowed, fs.hops)
      ensures forall at :: Disk() == LocalFileRuns.Do(old(Disk()), LocalFileRuns.Trash(rootId, text, allowed), at,
                                                      fs.hops)
    {
      var place := ResolveExisting(fs.tree, Lookup(roots, rootId), text, fs.hops);
      if place.Failed? {
        return Failed(place.error);
      }
      var ok := fs.Trash(place.value, allowed);
      r := if ok then Done(()) else Failed(CannotTrash);
    }

    /** `listing` is what the operating system enumerates. What is shown is exactly what is in the directory, each entry
        once, with its path from the root. */
    method ListDirectory(rootId: string, text: string, listing: seq<Name>) returns (r: Outcome<seq<DirectoryEntry>>)
      requires forall directory :: ResolveExisting(fs.tree, Lookup(roots, rootId), text, fs.hops) == Done(directory) ==>
                 Enumerates(fs.tree, directory, listing)
      ensures var directory := ResolveExisting(fs.tree, Lookup(roots, rootId), text, fs.hops);
        && (r.Done? <==> directory.Done? && FileSystem.IsDirectory(fs.tree, directory.value))
        && (r.Done? ==>
              && (forall k :: 0 <= k < |r.value| ==>
                    directory.value + [r.value[k].name] in fs.tree
                    && r.value[k] == Listed(fs.tree, roots[rootId], directory.value, r.value[k].name))
              && (forall name :: directory.value + [name] in fs.tree ==>
                    exists k :: 0 <= k < |r.value| && r.value[k].name == name)
              && (forall j, k :: 0 <= j < k < |r.value| ==> r.value[j].name != r.value[k].name))
    {
      var directory := ResolveExisting(fs.tree, Lookup(roots, rootId), text, fs.hops);
      if directory.Failed? {
        return Failed(directory.error);
      }
      if !FileSystem.IsDirectory(fs.tree, directory.value) {
        return Failed(NotDirectory);
      }
      var entries := [];
      for i := 0 to |listing|
        invariant |entries| == i && forall k :: 0 <= k < i ==>
          entries[k] == Listed(fs.tree, roots[rootId], directory.value, listing[k])
      {
        entries := entries + [Listed(fs.tree, roots[rootId], directory.value, listing[i])];
      }
      r := Done(entries);
      assert forall name :: name in listing ==> exists k :: 0 <= k < |listing| && entries[k].name == name;
    }

    /** `decodes` tells whether the bytes are UTF-8. */
    method ReadTextFile(rootId: string, text: string, decodes: bool) returns (r: Outcome<Bytes>)
      ensures r == ReadText(fs.tree, Lookup(roots, rootId), text, decodes, fs.hops)
      ensures r.Done? && WellFormed(fs.tree) ==>
        && rootId in roots && |r.value| <= MAX_TEXT_FILE_BYTES
        && exists p :: roots[rootId] <= p && Canonical(fs.tree, p) && fs.tree[p] == File(r.value)
    {
      var place := ResolveExisting(fs.tree, Lookup(roots, rootId), text, fs.hops);
      if place.Failed? {
        return Failed(place.error);
      }
      if !FileSystem.IsFile(fs.tree, place.value) {
        return Failed(NotText);
      }
      var content := fs.tree[place.value].content;
      if |content| > MAX_TEXT_FILE_BYTES {
        return Failed(TooLarge);
      }
      r := if decodes then Done(content) else Failed(NotText);
      if r.Done? && WellFormed(fs.tree) {
        ReadInside(fs.tree, roots[rootId], text, decodes, fs.hops);
      }
    }

    /** Writes what is left again and again, as far as the operating system takes it. */
    method WriteAll(file: Place, content: Bytes, sizes: seq<nat>) returns (ok: bool)
      requires file in fs.tree && fs.tree[file] == File([])
      modifies fs
      ensures var n := Progress(0, |content|, sizes);
        ok == (n == |content|) && fs.tree == old(fs.tree)[file := File(content[..n])]
      ensures |old(fs.trail)| <= |fs.trail| && fs.trail[..|old(fs.trail)|] == old(fs.trail)
      ensures forall k, q :: |old(fs.trail)| <= k < |fs.trail| && q != file ==>
        Lookup(fs.trail[k], q) == Lookup(old(fs.tree), q)
    {
      var done, i := 0, 0;
      while done < |content| && i < |sizes| && sizes[i] != 0
        invariant done <= |content| && i <= |sizes|
        invariant fs.tree == old(fs.tree)[file := File(content[..done])]
        invariant Progress(done, |content|, sizes[i..]) == Progress(0, |content|, sizes)
        invariant |old(fs.trail)| <= |fs.trail| && fs.trail[..|old(fs.trail)|] == old(fs.trail)
        invariant forall k, q :: |old(fs.trail)| <= k < |fs.trail| && q != file ==>
          Lookup(fs.trail[k], q) == Lookup(old(fs.tree), q)
      {
        var n := if done + sizes[i] < |content| then done + sizes[i] else |content|;
        assert sizes[i..][1..] == sizes[i + 1..];
        assert content[..done] + content[done..n] == content[..n];
        fs.Append(file, content[done..n]);
        done, i := n, i + 1;
      }
      ok := done == |content|;
    }

    /** The content goes to the place that the path names. Whatever fails on the way, at every moment this place is
        whole: it holds all of the old or all of the new. */
    method WriteTextFile(rootId: string, text: string, content: Bytes, w: Weather) returns (r: Outcome<()>)
      modifies fs
      ensures (fs.tree, r) == WriteText(old(fs.tree), Lookup(roots, rootId), text, content, w, fs.hops)
      ensures forall at :: Disk() == LocalFileRuns.Do(old(Disk()), LocalFileRuns.Write(rootId, text, content, w), at,
                                                      fs.hops)
      ensures r.Done? ==> rootId in roots
      ensures r.Done? && WellFormed(old(fs.tree)) ==>
        exists place :: Named(old(fs.tree), roots[rootId], text, place, fs.hops)
                        && fs.tree == old(fs.tree)[place := File(content)]
      ensures forall place :: rootId in roots && Named(old(fs.tree), roots[rootId], text, place, fs.hops)
                              && place != Parent(place) + [w.temporary] ==>
                WholeSince(old(fs.tree), fs.trail, |old(fs.trail)|, place, Parent(place) + [w.temporary], content)
    {
      hide ResolveForWrite, WriteText, Resolve, Progress, Between, WholeSince, Named, WellFormed;
      ghost var before := fs.tree;
      WriteTextIs(before, Lookup(roots, rootId), text, content, w, fs.hops);
      NothingSince(before, fs.trail, content);
      if |content| > MAX_TEXT_FILE_BYTES {
        return Failed(TooLarge);
      }
      var resolved := ResolveForWrite(fs.tree, Lookup(roots, rootId), text, fs.hops);
      if resolved.Failed? {
        return Failed(resolved.error);
      }
      TargetIsNamed(before, roots[rootId], text, fs.hops);
      var target := resolved.value;
      ghost var folder := Resolve(before, target.folder, fs.hops).value;
      ghost var place, temporary := folder + [target.name], folder + [w.temporary];
      var file := fs.CreateNew(target.folder, w.temporary, w.creates);
      if file.None? {
        return Failed(CannotCreate);
      }
      ghost var start, soFar := |old(fs.trail)|, fs.trail;
      var ok := WriteAll(file.value, content, w.sizes);
      ghost var n := Progress(0, |content|, w.sizes);
      StillResolves(before, target.folder, fs.hops, temporary, File(content[..n]));
      assert fs.tree == before[temporary := File(content[..n])];
      Filled(before, soFar, fs.trail, place, temporary, content);
      ghost var filled := fs.trail;
      if place != temporary {
        BetweenCases(before, place, temporary, content, n);
      }
      if !ok || !w.syncs {
        fs.RemoveFile(target.folder, w.temporary, w.removes);
        assert before[temporary := File(content[..n])] - {temporary} == before;
        OneMore(before, filled, start, fs.tree, place, temporary, content);
        return Failed(CannotWrite);
      }
      assert content[..|content|] == content;
      var renamed := fs.Rename(target.folder, w.temporary, target.name, target.trailing, w.renames);
      if !renamed {
        ghost var stuck := fs.tree;
        OneMore(before, filled, start, stuck, place, temporary, content);
        fs.RemoveFile(target.folder, w.temporary, w.removes);
        assert before[temporary := File(content)] - {temporary} == before;
        OneMore(before, filled + [stuck], start, fs.tree, place, temporary, content);
        return Failed(CannotRename);
      }
      assert (before[temporary := File(content)] - {temporary})[place := File(content)]
          == before[place := File(content)];
      OneMore(before, filled, start, fs.tree, place, temporary, content);
      WrittenWhereNamed(before, roots[rootId], text, content, w, fs.hops);
      return Done(());
    }
  }

  /** While the temporary file is made and filled, only that file changes. */
  lemma Filled(before: Tree, soFar: seq<Tree>, trail: seq<Tree>, place: Place, file: Place, content: Bytes)
    requires soFar != [] && |soFar| <= |trail| && trail[..|soFar|] == soFar
    requires soFar[|soFar| - 1] == before[file := File([])]
    requires forall k, q :: |soFar| <= k < |trail| && q != file ==>
      Lookup(trail[k], q) == Lookup(before[file := File([])], q)
    ensures place != file ==> WholeSince(before, trail, |soFar| - 1, place, file, content)
  {
    assert trail[|soFar| - 1] == trail[..|soFar|][|soFar| - 1];
    forall k | |soFar| - 1 <= k < |trail| && place != file
      ensures Between(before, trail[k], place, file, content)
    {
      assert forall q :: q != file ==> Lookup(trail[k], q) == Lookup(before, q);
    }
  }

  /** The trees a write can pass through once its temporary file is filled. */
  lemma BetweenCases(before: Tree, place: Place, file: Place, content: Bytes, n: nat)
    requires n <= |content| && place != file
    ensures Between(before, before, place, file, content)
    ensures Between(before, before[file := File(content[..n])], place, file, content)
    ensures Between(before, before[place := File(content)], place, file, content)
  {
  }

  lemma OneMore(before: Tree, trail: seq<Tree>, since: nat, now: Tree, place: Place, file: Place, content: Bytes)
    requires place != file ==> WholeSince(before, trail, since, place, file, content)
    requires place != file ==> Between(before, now, place, file, content)
    ensures place != file ==> WholeSince(before, trail + [now], since, place, file, content)
  {
    hide Between;
  }

  /** The folder is found again while the temporary file is in it, whatever it holds. */
  lemma StillResolves(tree: Tree, path: Place, hops: nat, p: Place, e: Entry)
    requires Resolve(tree, path, hops).Some? && p !in tree
    ensures Resolve(tree[p := e], path, hops) == Resolve(tree, path, hops)
  {
    WalkUndisturbed(tree, [], Downs(path), hops, p, e);
  }
}

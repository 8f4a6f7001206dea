/** What the file commands find, said through the tree alone: what a write wrote is what a read of the same path reads,
    what was trashed is gone, what was approved is the directory chosen. */
module LocalFileTrips {
  import opened Wrappers
  import opened PathText
  import opened FileTree
  import opened LocalFiles

  // ---------------------------------------------------------------- approving

  lemma PiecesAfterSlash(s: string)
    ensures Pieces("/" + s) == [""] + Pieces(s) && OsParts("/" + s) == [Here] + OsParts(s)
  {
    assert ("/" + s)[1..] == s;
    assert Pieces("/" + s) == [""] + Pieces(s);
  }

  lemma PathFromTop(p: Place)
    requires ProperNames(p)
    ensures OsParts("/" + Join(p)) == [Here] + if p == [] then [Here] else Downs(p)
  {
    PiecesAfterSlash(Join(p));
    if p == [] {
      assert Pieces("") == [""];
    } else {
      JoinRoundTrip(p);
    }
  }

  /** The path from one place to another: as often up as it takes, then down by names. */
  function WayTo(ups: nat, names: seq<Name>): seq<string> {
    seq(ups, i => "..") + names
  }

  lemma StartsWithName(ups: nat, names: seq<Name>)
    requires ups + |names| > 0 && ProperNames(names)
    ensures var path := Join(WayTo(ups, names));
      path != "" && path[0] != '/' && OsParts(path) == Ups(ups) + Downs(names)
  {
    var way := WayTo(ups, names);
    forall i | 0 <= i < |way|
      ensures '/' !in way[i] && way[i] != "" && way[i] != "." && (way[i] == ".." <==> i < ups)
    {
      assert i >= ups ==> ProperName(names[i - ups]);
    }
    PiecesOfJoin(way);
    assert Join(way)[0] == way[0][0];
    assert Parts(way) == Ups(ups) + Downs(names);
  }

  lemma WalkStill(tree: Tree, parts: seq<Part>, hops: nat)
    requires [] in tree && tree[[]].Directory?
    ensures Walk(tree, [], [Here] + parts, hops) == Walk(tree, [], parts, hops)
    ensures Walk(tree, [], [Here], hops) == Some([])
  {
    assert ([Here] + parts)[1..] == parts && [Here][1..] == [];
  }

  lemma RelativeApproved(tree: Tree, at: Place, p: Place, k: nat, hops: nat)
    requires Canonical(tree, at) && tree[at].Directory? && Canonical(tree, p) && tree[p].Directory? && ProperNames(p)
    requires k <= |at| && k <= |p| && at[..k] == p[..k] && at != p
    ensures ApproveRoot(tree, at, Join(WayTo(|at| - k, p[k..])), hops) == Done(p)
  {
    hide Walk, OsParts, Downs, Join, ProperNames;
    SomeProper(p, k);
    StartsWithName(|at| - k, p[k..]);
    RelativeLeads(tree, at, p, k, hops);
  }

  lemma SomeProper(p: Place, k: nat)
    requires k <= |p| && ProperNames(p)
    ensures ProperNames(p[k..])
  {
  }

  lemma AbsoluteApproved(tree: Tree, at: Place, p: Place, hops: nat)
    requires ProperNames(p) && Canonical(tree, p) && tree[p].Directory? && [] in tree && tree[[]].Directory?
    ensures ApproveRoot(tree, at, "/" + Join(p), hops) == Done(p)
  {
    hide Walk, OsParts, Downs, Join, ProperNames, Resolve;
    PathFromTop(p);
    WalkStill(tree, if p == [] then [Here] else Downs(p), hops);
    WalkDown(tree, p, 0, hops);
    assert p[..0] == [] && p[0..] == p;
  }

  /** A directory is approved as itself: by its path from the top wherever one works, and by every path from the
      working directory that goes up to a directory above both and down by names. */
  lemma ApprovedIsChosen(tree: Tree, at: Place, p: Place, hops: nat)
    requires WellFormed(tree) && p in tree && tree[p].Directory?
    ensures ApproveRoot(tree, at, "/" + Join(p), hops) == Done(p)
    ensures at in tree && tree[at].Directory? && at != p ==>
      forall k :: 0 <= k <= |at| && k <= |p| && at[..k] == p[..k] ==>
        ApproveRoot(tree, at, Join(WayTo(|at| - k, p[k..])), hops) == Done(p)
  {
    TreeNamesProper(tree, p);
    CanonicalIs(tree, p);
    CanonicalIs(tree, at);
    hide ApproveRoot, Join, ProperNames, Canonical, WayTo;
    AbsoluteApproved(tree, at, p, hops);
    if at in tree && tree[at].Directory? && at != p {
      forall k | 0 <= k <= |at| && k <= |p| && at[..k] == p[..k]
        ensures ApproveRoot(tree, at, Join(WayTo(|at| - k, p[k..])), hops) == Done(p)
      {
        RelativeApproved(tree, at, p, k, hops);
      }
    }
  }

  /** Exactly the directories are approved, each as the place where its path leads. */
  lemma ApprovedIff(tree: Tree, at: Place, path: string, hops: nat, p: Place)
    ensures ApproveRoot(tree, at, path, hops) == Done(p)
      <==> && path != "" && p in tree && tree[p].Directory?
           && Walk(tree, if path[0] == '/' then [] else at, OsParts(path), hops) == Some(p)
  {
    hide Walk, OsParts;
    if path != "" && path[0] == '/' {
    }
  }

  // ---------------------------------------------------------------- reading back what was written

  lemma {:induction false} NamesOfMore(pieces: seq<string>, last: string)
    requires last != "" && last != "."
    ensures Names(pieces + [last]) == Names(pieces) + [last]
  {
    if pieces == [] {
      assert [last][1..] == [];
    } else {
      assert (pieces + [last])[1..] == pieces[1..] + [last];
      NamesOfMore(pieces[1..], last);
    }
  }

  lemma WalkByName(tree: Tree, before: seq<Part>, first: Name, rest: seq<Part>, names: seq<Name>, last: Name, hops: nat)
    requires Walk(tree, [], before + [Down(first)] + rest + [Down(last)], hops)
          == Walk(tree, [], before + [Down(first)] + Downs(names) + [Down(last)], hops)
    ensures Walk(tree, [], before + ([Down(first)] + rest) + [Down(last)], hops)
         == Walk(tree, [], before + Downs([first] + names) + [Down(last)], hops)
  {
    hide Walk;
    assert Downs([first] + names) == [Down(first)] + Downs(names);
    assert before + ([Down(first)] + rest) == before + [Down(first)] + rest;
    assert before + ([Down(first)] + Downs(names)) == before + [Down(first)] + Downs(names);
  }

  /** Dots and empty pieces on the way make no difference, as long as a name follows. */
  lemma {:induction false} WalkByNames(tree: Tree, before: seq<Part>, pieces: seq<string>, last: Name, hops: nat)
    requires ".." !in pieces
    ensures Walk(tree, [], before + Parts(pieces) + [Down(last)], hops)
         == Walk(tree, [], before + Downs(Names(pieces)) + [Down(last)], hops)
    decreases |pieces|
  {
    hide Walk;
    if pieces == [] {
      assert Parts(pieces) == Downs(Names(pieces));
    } else {
      var first, rest := pieces[0], pieces[1..];
      assert first in pieces && forall p :: p in rest ==> p in pieces;
      assert Parts(pieces) == [PartOf(first)] + Parts(rest);
      if first == "" || first == "." {
        assert Names(pieces) == Names(rest);
        assert before + Parts(pieces) + [Down(last)] == before + [Here] + (Parts(rest) + [Down(last)]);
        assert before + Parts(rest) + [Down(last)] == before + (Parts(rest) + [Down(last)]);
        WalkHere(tree, [], before, Parts(rest) + [Down(last)], hops);
        WalkByNames(tree, before, rest, last, hops);
      } else {
        assert Names(pieces) == [first] + Names(rest);
        WalkByNames(tree, before + [Down(first)], rest, last, hops);
        WalkByName(tree, before, first, Parts(rest), Names(rest), last, hops);
      }
    }
  }

  /** An accepted path that ends with a name leads where its names lead, whatever dots there are on the way. */
  lemma NamesResolve(tree: Tree, root: Place, text: string, hops: nat)
    requires ValidRelative(text) && Pieces(text)[|Pieces(text)| - 1] !in {"", "."}
    ensures Names(Pieces(text)) != []
    ensures Walk(tree, [], Downs(root) + OsParts(text), hops) == Resolve(tree, root + Names(Pieces(text)), hops)
  {
    ValidRelativeIff(text);
    hide Walk, ValidRelative, Pieces, Names;
    var pieces := Pieces(text);
    var init, last := pieces[..|pieces| - 1], pieces[|pieces| - 1];
    assert pieces == init + [last];
    if text == "" {
      EmptyPieces();
    }
    NamesOfMore(init, last);
    assert last in pieces && forall p :: p in init ==> p in pieces;
    WalkByNames(tree, Downs(root), init, last, hops);
    assert Downs(root) + OsParts(text) == Downs(root) + Parts(init) + [Down(last)];
    assert Downs(root + Names(pieces)) == Downs(root) + Downs(Names(init)) + [Down(last)];
  }

  lemma EmptyPieces()
    ensures Pieces("") == [""]
  {
  }

  /** Where a new file is, is found by the last step of a path just if the way to its directory does not need what was
      there before. */
  lemma FileReached(tree: Tree, folder: Place, name: Name, front: seq<Part>, content: Bytes, hops: nat)
    requires folder in tree && tree[folder].Directory? && Walk(tree, [], front, hops) == Some(folder)
    ensures var place := folder + [name];
      var found := Walk(tree[place := File(content)], [], front + [Down(name)], hops);
      && (found.Some? ==> found == Some(place))
      && (found.Some? <==> Walk(tree - {place}, [], front, hops).Some?)
  {
    hide Walk;
    var place := folder + [name];
    var tree', without := tree[place := File(content)], tree - {place};
    assert tree' - {place} == without;
    WalkLast(tree', [], front, name, hops);
    if Walk(without, [], front, hops).Some? {
      WalkGrows(without, tree, [], front, hops);
      WalkGrows(without, tree', [], front, hops);
    }
    if Walk(tree', [], front + [Down(name)], hops).Some? {
      WalkWithoutFile(tree', [], front, hops, place);
      WalkGrows(without, tree, [], front, hops);
    }
  }

  lemma LastStep(path: Place)
    requires path != []
    ensures Downs(path) == Downs(path[..|path| - 1]) + [Down(path[|path| - 1])]
  {
  }

  /** The same for the path of a file, and without a link in its place there is nothing to it. */
  lemma PathReached(tree: Tree, place: Place, path: Place, content: Bytes, hops: nat)
    requires path != [] && place != [] && path[|path| - 1] == place[|place| - 1]
    requires place[..|place| - 1] in tree && tree[place[..|place| - 1]].Directory?
    requires Resolve(tree, path[..|path| - 1], hops) == Some(place[..|place| - 1])
    requires place in tree ==> !tree[place].Directory?
    ensures var (found, front) := (Resolve(tree[place := File(content)], path, hops), path[..|path| - 1]);
      && (found.Some? ==> found == Some(place))
      && (found.Some? <==> Resolve(tree - {place}, front, hops).Some?)
      && (!(place in tree && tree[place].Link?) ==> found.Some?)
  {
    hide Walk, Downs;
    var folder, name, front := place[..|place| - 1], place[|place| - 1], path[..|path| - 1];
    LastStep(path);
    assert place == folder + [name];
    FileReached(tree, folder, name, Downs(front), content, hops);
    if place !in tree {
      assert tree - {place} == tree;
    } else if tree[place].File? {
      WalkWithoutFile(tree, [], Downs(front), hops, place);
    }
  }

  /** Reading the path of a successful write gives the content back, unless the file has taken the place of the very
      link through which its own directory was found: exactly then the path leads nowhere. */
  lemma WriteThenRead(tree: Tree, root: Place, text: string, content: Bytes, w: Weather, hops: nat)
    returns (place: Place)
    requires WellFormed(tree) && LinkFree(tree, root)
    requires WriteText(tree, Some(root), text, content, w, hops).1.Done?
    ensures root < place && Named(tree, root, text, place, hops)
    ensures var (tree', path) := (tree[place := File(content)], root + Names(Pieces(text)));
      && WriteText(tree, Some(root), text, content, w, hops).0 == tree'
      && var again := ReadText(tree', Some(root), text, true, hops);
         && (again == Done(content) <==> Resolve(tree - {place}, path[..|path| - 1], hops).Some?)
         && (again != Done(content) ==> again == Failed(CannotResolve))
         && (!(place in tree && tree[place].Link?) ==> again == Done(content))
  {
    hide WriteText, Pieces, Names, OsParts, ValidRelative, Walk, Resolve, LinkFree, WellFormed, Downs;
    place := WriteContained(tree, root, text, content, w, hops);
    var tree', path := tree[place := File(content)], root + Names(Pieces(text));
    WriteAccepted(tree, root, text, content, w, hops);
    PathReached(tree, place, path, content, hops);
    NamesResolve(tree', root, text, hops);
  }

  lemma WriteAccepted(tree: Tree, root: Place, text: string, content: Bytes, w: Weather, hops: nat)
    requires WriteText(tree, Some(root), text, content, w, hops).1.Done?
    ensures ValidRelative(text) && Pieces(text)[|Pieces(text)| - 1] !in {"", "."} && |content| <= MAX_TEXT_FILE_BYTES
  {
    hide ValidRelative, Pieces, Names, OsParts, Walk, Resolve;
  }

  /** It can happen: a link to its own directory, and a write through it to its own name. */
  lemma WriteCutsItsOwnWay(content: Bytes, w: Weather)
    requires |content| <= MAX_TEXT_FILE_BYTES && Takes(w.sizes, |content|)
    requires w.creates && w.syncs && w.renames && w.temporary != "x"
    ensures var tree: Tree := map[[] := Directory, ["x"] := Link(false, [Here])];
      && WellFormed(tree)
      && WriteText(tree, Some([]), "x/x", content, w, 40).1.Done?
      && WriteText(tree, Some([]), "x/x", content, w, 40).0 == tree[["x"] := File(content)]
      && ReadText(tree[["x"] := File(content)], Some([]), "x/x", true, 40) == Failed(CannotResolve)
  {
    hide Walk, Resolve, Takes, Downs, OsParts, Pieces, Names, WriteText, ReadText, LinkFree, WellFormed;
    var tree: Tree := map[[] := Directory, ["x"] := Link(false, [Here])];
    LoopParts();
    LoopResolves(tree);
    LoopWellFormed(tree);
    LoopWrites(tree, content, w);
    var place := WriteThenRead(tree, [], "x/x", content, w, 40);
    assert [] + ["x", "x"] == ["x", "x"] && ["x", "x"][..1] == ["x"];
    assert place[..|place| - 1] == [] && place == ["x"];
  }

  lemma LoopWrites(tree: Tree, content: Bytes, w: Weather)
    requires tree == map[[] := Directory, ["x"] := Link(false, [Here])]
    requires |content| <= MAX_TEXT_FILE_BYTES && Takes(w.sizes, |content|)
    requires w.creates && w.syncs && w.renames && w.temporary != "x"
    ensures WriteText(tree, Some([]), "x/x", content, w, 40).1.Done?
  {
    hide Walk, Resolve, Takes, Downs, OsParts, Pieces, Names, WriteText;
    LoopParts();
    LoopResolves(tree);
    assert ([] + ["x", "x"])[..1] == ["x"];
    assert ([] + [w.temporary])[0] != ["x"][0];
    WriteSucceedsIff(tree, [], "x/x", content, w, 40);
  }

  lemma LoopWellFormed(tree: Tree)
    requires tree == map[[] := Directory, ["x"] := Link(false, [Here])]
    ensures WellFormed(tree) && LinkFree(tree, [])
  {
    assert Parent(["x"]) == [];
  }

  lemma LoopWalks(tree: Tree, rest: seq<Part>, hops: nat)
    requires tree == map[[] := Directory, ["x"] := Link(false, [Here])] && hops > 0
    ensures Walk(tree, [], [Down("x")] + rest, hops) == Walk(tree, [], rest, hops - 1)
  {
    var parts := [Down("x")] + rest;
    assert parts[0] == Down("x") && parts[1..] == rest && [] + ["x"] == ["x"];
    assert ([Here] + rest)[0] == Here && ([Here] + rest)[1..] == rest;
    assert Walk(tree, [], [Here] + rest, hops - 1) == Walk(tree, [], rest, hops - 1);
  }

  lemma LoopParts()
    ensures Pieces("x/x") == ["x", "x"] && Names(["x", "x"]) == ["x", "x"]
    ensures Downs(["x"]) == [Down("x")] && Downs([]) + OsParts("x/x") == [Down("x")] + [Down("x")]
  {
    SplitName("x", "x");
    SplitName("x", "");
    assert "x" + "/" + "x" == "x/x";
    NamesOfProper(["x", "x"]);
  }

  lemma LoopResolves(tree: Tree)
    requires tree == map[[] := Directory, ["x"] := Link(false, [Here])]
    ensures Resolve(tree, ["x"], 40) == Some([]) && Walk(tree, [], Downs([]) + OsParts("x/x"), 40) == Some([])
    ensures Resolve(tree - {["x"]}, ["x"], 40) == None
  {
    LoopParts();
    hide Pieces, Downs, OsParts;
    assert [Down("x")] + [] == [Down("x")] && [] + ["x"] == ["x"];
    LoopWalks(tree, [Down("x")], 40);
    LoopWalks(tree, [], 39);
    LoopWalks(tree, [], 40);
  }

  // ---------------------------------------------------------------- when the commands succeed

  function Sum(sizes: seq<nat>): nat {
    if sizes == [] then 0 else sizes[0] + Sum(sizes[1..])
  }

  /** Before a write takes nothing or the writes end, enough was taken. */
  ghost predicate Takes(sizes: seq<nat>, total: nat) {
    exists k :: 0 <= k <= |sizes| && Sum(sizes[..k]) >= total && forall i :: 0 <= i < k ==> sizes[i] != 0
  }

  lemma {:induction false} ProgressIff(done: nat, total: nat, sizes: seq<nat>)
    requires done <= total
    ensures Progress(done, total, sizes) == total <==> Takes(sizes, total - done)
    decreases |sizes|
  {
    if done == total {
      assert Sum(sizes[..0]) >= 0;
    } else if sizes != [] && sizes[0] != 0 {
      var next := if done + sizes[0] < total then done + sizes[0] else total;
      ProgressIff(next, total, sizes[1..]);
      TakesMore(sizes, total - done);
    }
  }

  lemma TakesMore(sizes: seq<nat>, total: nat)
    requires sizes != [] && sizes[0] != 0 && total > 0
    ensures Takes(sizes, total) <==> Takes(sizes[1..], if sizes[0] < total then total - sizes[0] else 0)
  {
    var rest, less := sizes[1..], if sizes[0] < total then total - sizes[0] else 0;
    if Takes(sizes, total) {
      var k :| 0 <= k <= |sizes| && Sum(sizes[..k]) >= total && forall i :: 0 <= i < k ==> sizes[i] != 0;
      assert sizes[..k][1..] == rest[..k - 1];
      assert Sum(rest[..k - 1]) >= less && forall i :: 0 <= i < k - 1 ==> rest[i] != 0;
    }
    if Takes(rest, less) {
      var k :| 0 <= k <= |rest| && Sum(rest[..k]) >= less && forall i :: 0 <= i < k ==> rest[i] != 0;
      assert sizes[..k + 1][1..] == rest[..k];
      assert Sum(sizes[..k + 1]) >= total && forall i :: 0 <= i < k + 1 ==> sizes[i] != 0;
    }
  }

  /** When a write succeeds: the content is not too long, the path has only names and dots and ends with a name, the
      directory before it and whatever is there now lie under the root, and the operating system does its part. */
  lemma WriteSucceedsIff(tree: Tree, root: Place, text: string, content: Bytes, w: Weather, hops: nat)
    ensures var (path, now) := (root + Names(Pieces(text)), Walk(tree, [], Downs(root) + OsParts(text), hops));
      WriteText(tree, Some(root), text, content, w, hops).1.Done?
      <==> && |content| <= 2_097_152
           && (text == "" || (text[0] != '/' && ".." !in Pieces(text)))
           && Pieces(text)[|Pieces(text)| - 1] !in {"", "."} && path != []
           && var folder := Resolve(tree, path[..|path| - 1], hops);
              && folder.Some? && root <= folder.value && folder.value in tree && tree[folder.value].Directory?
              && (now.Some? ==> root <= now.value)
              && w.creates && folder.value + [w.temporary] !in tree
              && Takes(w.sizes, |content|) && w.syncs && w.renames
              && !(folder.value + [path[|path| - 1]] in tree && tree[folder.value + [path[|path| - 1]]].Directory?)
  {
    hide Walk, Resolve, Pieces, Names, OsParts, Downs, Takes, ValidRelative, Progress;
    ValidRelativeIff(text);
    ProgressIff(0, |content|, w.sizes);
  }

  /** A read gives a content just if the path, by names and dots, leads to a file with it under the root, it is not too
      long, and it is UTF-8. */
  lemma ReadIff(tree: Tree, root: Place, text: string, decodes: bool, hops: nat, bytes: Bytes)
    ensures ReadText(tree, Some(root), text, decodes, hops) == Done(bytes)
      <==> && decodes && |bytes| <= 2_097_152
           && (text == "" || (text[0] != '/' && ".." !in Pieces(text)))
           && var now := Walk(tree, [], Downs(root) + OsParts(text), hops);
              && now.Some? && root <= now.value && now.value in tree && tree[now.value] == File(bytes)
  {
    hide Walk, Pieces, OsParts, Downs, ValidRelative;
    ValidRelativeIff(text);
  }

  /** What a path leads to under the root is moved to the trash with all that is below it, and nothing else; the path
      leads nowhere then. */
  lemma TrashIff(tree: Tree, root: Place, text: string, allowed: bool, hops: nat)
    ensures var (now, after) := (Walk(tree, [], Downs(root) + OsParts(text), hops),
                                 TrashPath(tree, Some(root), text, allowed, hops));
      && (after.1.Done? <==> && allowed && (text == "" || (text[0] != '/' && ".." !in Pieces(text)))
                             && now.Some? && root <= now.value && now.value != [])
      && (after.1.Failed? ==> after.0 == tree)
      && (after.1.Done? ==>
            && (forall p :: Lookup(after.0, p) == if now.value <= p then None else Lookup(tree, p))
            && ResolveExisting(after.0, Some(root), text, hops) == Failed(CannotResolve))
  {
    hide Walk, Pieces, OsParts, Downs, ValidRelative;
    ValidRelativeIff(text);
    var after := TrashPath(tree, Some(root), text, allowed, hops);
    var parts := Downs(root) + OsParts(text);
    if after.1.Done? && Walk(after.0, [], parts, hops).Some? {
      WalkGrows(after.0, tree, [], parts, hops);
      WalkLast(after.0, [], parts, "", hops);
    }
  }

  /** A path that leads out of the root is refused by every command, and nothing changes. */
  lemma EscapeRefused(tree: Tree, root: Place, text: string, content: Bytes, w: Weather, flag: bool, hops: nat)
    requires var now := Walk(tree, [], Downs(root) + OsParts(text), hops); now.Some? && !(root <= now.value)
    ensures ReadText(tree, Some(root), text, flag, hops).Failed?
    ensures TrashPath(tree, Some(root), text, flag, hops).1.Failed?
    ensures TrashPath(tree, Some(root), text, flag, hops).0 == tree
    ensures WriteText(tree, Some(root), text, content, w, hops).1.Failed?
    ensures WriteText(tree, Some(root), text, content, w, hops).0 == tree
  {
    hide Walk, Pieces, OsParts, Downs, Resolve, Names, ValidRelative;
  }
}

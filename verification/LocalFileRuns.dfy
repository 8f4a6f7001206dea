/** Whole runs of file commands: what they keep, and that nothing outside the approved roots ever changes. */
module LocalFileRuns {
  import opened Wrappers
  import opened PathText
  import opened FileTree
  import opened LocalFiles

  /** `approved` remembers every root ever approved; no command reads it. */
  datatype Disk = Disk(tree: Tree, roots: map<string, Place>, approved: set<Place>)

  datatype Op =
    | Approve(rootId: string, path: string)
    | Write(rootId: string, text: string, content: Bytes, w: Weather)
    | Trash(rootId: string, text: string, allowed: bool)

  function Do(d: Disk, op: Op, at: Place, hops: nat): Disk {
    match op
    case Approve(rootId, path) =>
      var root := ApproveRoot(d.tree, at, path, hops);
      if root.Failed? then d
      else d.(roots := d.roots[rootId := root.value], approved := d.approved + {root.value})
    case Write(rootId, text, content, w) =>
      d.(tree := WriteText(d.tree, Lookup(d.roots, rootId), text, content, w, hops).0)
    case Trash(rootId, text, allowed) =>
      d.(tree := TrashPath(d.tree, Lookup(d.roots, rootId), text, allowed, hops).0)
  }

  /** The drawn name of a temporary file is a proper name. */
  predicate Drawn(op: Op) {
    op.Write? ==> ProperName(op.w.temporary)
  }

  function Run(d: Disk, ops: seq<Op>, at: Place, hops: nat): Disk
    decreases |ops|
  {
    if ops == [] then d else Run(Do(d, ops[0], at, hops), ops[1..], at, hops)
  }

  /** The working directory is reached without links, and so is every root as far as it still exists. */
  ghost predicate Sound(d: Disk, at: Place) {
    && WellFormed(d.tree) && LinkFree(d.tree, at)
    && d.roots.Values <= d.approved
    && forall root :: root in d.approved ==> LinkFree(d.tree, root)
  }

  /** Any link there is was there before, and nothing but files came in. */
  ghost predicate NoNewLinks(tree: Tree, tree': Tree) {
    forall p :: p in tree' && tree'[p].Link? ==> p in tree && tree[p] == tree'[p]
  }

  /** Outside these roots both trees are the same. */
  ghost predicate SameOutside(tree: Tree, tree': Tree, roots: set<Place>) {
    forall p :: (forall root :: root in roots ==> !(root <= p)) ==> Lookup(tree, p) == Lookup(tree', p)
  }

  lemma LinkFreeKept(tree: Tree, tree': Tree, p: Place)
    requires NoNewLinks(tree, tree') && LinkFree(tree, p)
    ensures LinkFree(tree', p)
  {
  }

  lemma {:induction false} PiecesHaveNoSlash(s: string)
    ensures forall i :: 0 <= i < |Pieces(s)| ==> '/' !in Pieces(s)[i]
  {
    if s != "" {
      PiecesHaveNoSlash(s[1..]);
      var rest := Pieces(s[1..]);
      assert '/' !in rest[0];
      assert Pieces(s) == if s[0] == '/' then [""] + rest else [[s[0]] + rest[0]] + rest[1..];
    }
  }

  lemma {:induction false} NamesProper(pieces: seq<string>)
    requires ".." !in pieces && forall i :: 0 <= i < |pieces| ==> '/' !in pieces[i]
    ensures ProperNames(Names(pieces))
  {
    if pieces != [] {
      assert pieces[0] in pieces && forall p :: p in pieces[1..] ==> p in pieces;
      NamesProper(pieces[1..]);
    }
  }

  lemma TargetNameProper(tree: Tree, root: Place, text: string, hops: nat)
    requires LinkFree(tree, root) && ResolveForWrite(tree, Some(root), text, hops).Done?
    ensures ProperName(ResolveForWrite(tree, Some(root), text, hops).value.name)
  {
    ValidRelativeIff(text);
    PiecesHaveNoSlash(text);
    if text == "" {
      assert Names(Pieces("")) == [];
    } else {
      NamesProper(Pieces(text));
    }
    var names := Names(Pieces(text));
    if names == [] {
      RootIsNotWritten(tree, root, text, hops);
    }
  }

  /** A new file under a proper name in a directory. */
  lemma NewFileOk(tree: Tree, root: Place, folder: Place, name: Name, content: Bytes)
    requires WellFormed(tree) && folder in tree && tree[folder].Directory? && root <= folder && ProperName(name)
    requires folder + [name] in tree ==> !tree[folder + [name]].Directory?
    ensures var tree' := tree[folder + [name] := File(content)];
      WellFormed(tree') && NoNewLinks(tree, tree') && SameOutside(tree, tree', {root})
  {
    var p := folder + [name];
    assert Parent(p) == folder && root <= p;
    assert root in {root};
  }

  lemma WriteKeeps(tree: Tree, root: Place, text: string, content: Bytes, w: Weather, hops: nat)
    requires WellFormed(tree) && LinkFree(tree, root) && ProperName(w.temporary)
    ensures var tree' := WriteText(tree, Some(root), text, content, w, hops).0;
      WellFormed(tree') && NoNewLinks(tree, tree') && SameOutside(tree, tree', {root})
  {
    var (tree', r) := WriteText(tree, Some(root), text, content, w, hops);
    if r.Done? {
      var place := WriteContained(tree, root, text, content, w, hops);
      var target := ResolveForWrite(tree, Some(root), text, hops).value;
      TargetNameProper(tree, root, text, hops);
      FolderInside(tree, root, text, hops);
      var folder := Resolve(tree, target.folder, hops).value;
      assert tree' == tree[folder + [target.name] := File(content)];
      hide WriteText, WellFormed, NoNewLinks, SameOutside, Resolve, ResolveForWrite, LinkFree;
      NewFileOk(tree, root, folder, target.name, content);
    } else {
      var folder, n := WriteFails(tree, Some(root), text, content, w, hops);
      hide WriteText, WellFormed, LinkFree;
      if tree' != tree {
        NewFileOk(tree, root, folder, w.temporary, content[..n]);
      }
    }
  }

  lemma TrashKeeps(tree: Tree, root: Place, text: string, allowed: bool, hops: nat)
    requires WellFormed(tree)
    ensures var tree' := TrashPath(tree, Some(root), text, allowed, hops).0;
      WellFormed(tree') && NoNewLinks(tree, tree') && SameOutside(tree, tree', {root})
  {
    var (tree', r) := TrashPath(tree, Some(root), text, allowed, hops);
    ExistingInside(tree, root, text, hops);
    if r.Done? {
      var p := ResolveExisting(tree, Some(root), text, hops).value;
      hide ResolveExisting, Canonical;
      forall q | q in tree' && q != []
        ensures Parent(q) in tree' && tree'[Parent(q)] == tree[Parent(q)]
      {
        assert p <= Parent(q) ==> p <= q;
      }
      forall q | !(root <= q)
        ensures Lookup(tree, q) == Lookup(tree', q)
      {
        assert root <= p && (p <= q ==> root <= q);
      }
      assert root in {root};
    }
  }

  lemma OutsideMore(tree: Tree, tree': Tree, root: Place, roots: set<Place>)
    requires SameOutside(tree, tree', {root}) && root in roots
    ensures SameOutside(tree, tree', roots)
  {
  }

  lemma OutsideChain(tree: Tree, tree1: Tree, tree2: Tree, roots: set<Place>, more: set<Place>)
    requires SameOutside(tree, tree1, roots) && SameOutside(tree1, tree2, more) && roots <= more
    ensures SameOutside(tree, tree2, more)
  {
  }

  lemma LinksChain(tree: Tree, tree1: Tree, tree2: Tree)
    requires NoNewLinks(tree, tree1) && NoNewLinks(tree1, tree2)
    ensures NoNewLinks(tree, tree2)
  {
  }

  lemma WorkingPlace(tree: Tree, at: Place)
    requires WellFormed(tree) && at in tree && LinkFree(tree, at)
    ensures Canonical(tree, at)
  {
    CanonicalIs(tree, at);
    assert at[..|at|] == at;
  }

  /** One command keeps the disk sound, creates no link, and changes nothing outside the roots approved so far. */
  lemma DoKeeps(d: Disk, op: Op, at: Place, hops: nat)
    requires Sound(d, at) && Drawn(op)
    ensures var d' := Do(d, op, at, hops);
      && Sound(d', at) && d.approved <= d'.approved
      && NoNewLinks(d.tree, d'.tree) && SameOutside(d.tree, d'.tree, d'.approved)
  {
    var d' := Do(d, op, at, hops);
    match op
    case Approve(rootId, path) =>
      if at in d.tree || (path != "" && path[0] == '/') {
        if at in d.tree { WorkingPlace(d.tree, at); }
        CanonicalIs(d.tree, []);
        ApprovedIsCanonical(d.tree, if at in d.tree then at else [], path, hops);
      }
    case Write(rootId, text, content, w) =>
      if rootId in d.roots {
        hide WriteText, WellFormed, LinkFree, NoNewLinks, SameOutside;
        WriteKeeps(d.tree, d.roots[rootId], text, content, w, hops);
        TreeSound(d, d', d.roots[rootId], at);
      }
    case Trash(rootId, text, allowed) =>
      if rootId in d.roots {
        hide TrashPath, WellFormed, LinkFree, NoNewLinks, SameOutside;
        TrashKeeps(d.tree, d.roots[rootId], text, allowed, hops);
        TreeSound(d, d', d.roots[rootId], at);
      }
  }

  lemma TreeSound(d: Disk, d': Disk, root: Place, at: Place)
    requires Sound(d, at) && d' == d.(tree := d'.tree) && root in d.roots.Values
    requires WellFormed(d'.tree) && NoNewLinks(d.tree, d'.tree) && SameOutside(d.tree, d'.tree, {root})
    ensures Sound(d', at) && SameOutside(d.tree, d'.tree, d'.approved)
  {
    hide LinkFree, NoNewLinks, SameOutside, WellFormed;
    LinkFreeKept(d.tree, d'.tree, at);
    forall r | r in d'.approved
      ensures LinkFree(d'.tree, r)
    {
      LinkFreeKept(d.tree, d'.tree, r);
    }
    OutsideMore(d.tree, d'.tree, root, d.approved);
  }

  /** Over any run of file commands no link is ever created and, whatever links there are, no place changes that
      does not lie under a root approved by then. */
  lemma {:induction false} RunContained(d: Disk, ops: seq<Op>, at: Place, hops: nat)
    requires Sound(d, at) && forall k :: 0 <= k < |ops| ==> Drawn(ops[k])
    ensures var d' := Run(d, ops, at, hops);
      && Sound(d', at) && d.approved <= d'.approved
      && NoNewLinks(d.tree, d'.tree) && SameOutside(d.tree, d'.tree, d'.approved)
    decreases |ops|
  {
    if ops != [] {
      var d1 := Do(d, ops[0], at, hops);
      var d' := Run(d1, ops[1..], at, hops);
      hide Do, Sound, NoNewLinks, SameOutside, Drawn;
      DoKeeps(d, ops[0], at, hops);
      RunContained(d1, ops[1..], at, hops);
      OutsideChain(d.tree, d1.tree, d'.tree, d1.approved, d'.approved);
      LinksChain(d.tree, d1.tree, d'.tree);
    }
  }
}

/** A filesystem tree with symbolic links, and how the operating system resolves a path in it. */
module FileTree {
  import opened Wrappers
  import opened PathText

  /** A place in the tree: the names from the top down to it. */
  type Place = seq<Name>

  type Bytes = seq<bv8>

  datatype Entry = File(content: Bytes) | Directory | Link(absolute: bool, target: seq<Part>)

  type Tree = map<Place, Entry>

  function Parent(p: Place): Place {
    if p == [] then [] else p[..|p| - 1]
  }

  /** Every entry sits in a directory and has a proper name, and the top is a directory. */
  ghost predicate WellFormed(tree: Tree) {
    && [] in tree && tree[[]].Directory?
    && forall p :: p in tree && p != [] ==> Parent(p) in tree && tree[Parent(p)].Directory? && ProperName(p[|p| - 1])
  }

  /** Resolving a path: each step needs a directory, a link is followed, and `hops` bounds how many. */
  function Walk(tree: Tree, at: Place, parts: seq<Part>, hops: nat): Option<Place>
    decreases hops, |parts|
  {
    if parts == [] then if at in tree then Some(at) else None
    else if at !in tree || !tree[at].Directory? then None
    else match parts[0]
      case Here => Walk(tree, at, parts[1..], hops)
      case Up => Walk(tree, Parent(at), parts[1..], hops)
      case Down(name) =>
        var next := at + [name];
        if next !in tree then None
        else if tree[next].Link? then
          if hops == 0 then None
          else Walk(tree, if tree[next].absolute then [] else at, tree[next].target + parts[1..], hops - 1)
        else Walk(tree, next, parts[1..], hops)
  }

  function Downs(names: seq<Name>): seq<Part> {
    seq(|names|, i requires 0 <= i < |names| => Down(names[i]))
  }

  /** The place itself and all above it are free of links: the path is canonical. */
  ghost predicate Canonical(tree: Tree, p: Place) {
    p in tree && !tree[p].Link? && forall k :: 0 <= k < |p| ==> p[..k] in tree && tree[p[..k]].Directory?
  }

  lemma {:induction false} InTreeAbove(tree: Tree, p: Place, k: nat)
    requires WellFormed(tree) && p in tree && k < |p|
    ensures p[..k] in tree && tree[p[..k]].Directory?
    decreases |p| - k
  {
    if k == |p| - 1 {
      assert Parent(p) == p[..k];
    } else {
      InTreeAbove(tree, p, k + 1);
      assert p[..k + 1] != [] && Parent(p[..k + 1]) == p[..k];
    }
  }

  lemma CanonicalIs(tree: Tree, p: Place)
    requires WellFormed(tree)
    ensures Canonical(tree, p) <==> p in tree && !tree[p].Link?
  {
    if p in tree {
      forall k | 0 <= k < |p|
        ensures p[..k] in tree && tree[p[..k]].Directory?
      {
        InTreeAbove(tree, p, k);
      }
    }
  }

  /** Whatever links a walk goes through, it ends at a canonical place. */
  lemma {:induction false} WalkIsCanonical(tree: Tree, at: Place, parts: seq<Part>, hops: nat)
    requires WellFormed(tree) && Canonical(tree, at)
    ensures var r := Walk(tree, at, parts, hops); r.Some? ==> Canonical(tree, r.value)
    decreases hops, |parts|
  {
    if parts != [] && tree[at].Directory? {
      match parts[0]
      case Here => WalkIsCanonical(tree, at, parts[1..], hops);
      case Up =>
        CanonicalIs(tree, Parent(at));
        WalkIsCanonical(tree, Parent(at), parts[1..], hops);
      case Down(name) =>
        var next := at + [name];
        if next in tree {
          CanonicalIs(tree, next);
          CanonicalIs(tree, []);
          if !tree[next].Link? {
            WalkIsCanonical(tree, next, parts[1..], hops);
          } else if hops > 0 {
            WalkIsCanonical(tree, if tree[next].absolute then [] else at, tree[next].target + parts[1..], hops - 1);
          }
        }
    }
  }

  /** Walking down to a canonical place, name by name, ends there: canonicalising is idempotent. */
  lemma {:induction false} WalkDown(tree: Tree, p: Place, k: nat, hops: nat)
    requires Canonical(tree, p) && k <= |p|
    ensures Walk(tree, p[..k], Downs(p[k..]), hops) == Some(p)
    decreases |p| - k
  {
    if k == |p| {
      assert p[..k] == p && Downs(p[k..]) == [];
    } else {
      assert Downs(p[k..])[0] == Down(p[k]) && Downs(p[k..])[1..] == Downs(p[k + 1..]);
      assert p[..k] + [p[k]] == p[..k + 1];
      assert k + 1 < |p| || p[..k + 1] == p;
      WalkDown(tree, p, k + 1, hops);
    }
  }

  /** Resolving a path given from the top. */
  function Resolve(tree: Tree, path: Place, hops: nat): Option<Place> {
    Walk(tree, [], Downs(path), hops)
  }

  lemma CanonicalResolves(tree: Tree, p: Place, hops: nat)
    requires Canonical(tree, p)
    ensures Resolve(tree, p, hops) == Some(p)
  {
    WalkDown(tree, p, 0, hops);
    assert p[..0] == [] && p[0..] == p;
  }

  /** The other tree has all that this one has. */
  ghost predicate Within(tree: Tree, more: Tree) {
    forall p :: p in tree ==> p in more && more[p] == tree[p]
  }

  /** In a tree that has more, every walk that succeeded ends where it did. */
  lemma {:induction false} WalkGrows(tree: Tree, more: Tree, at: Place, parts: seq<Part>, hops: nat)
    requires Within(tree, more) && Walk(tree, at, parts, hops).Some?
    ensures Walk(more, at, parts, hops) == Walk(tree, at, parts, hops)
    decreases hops, |parts|
  {
    if parts != [] {
      match parts[0]
      case Here => WalkGrows(tree, more, at, parts[1..], hops);
      case Up => WalkGrows(tree, more, Parent(at), parts[1..], hops);
      case Down(name) =>
        var next := at + [name];
        if !tree[next].Link? {
          WalkGrows(tree, more, next, parts[1..], hops);
        } else {
          WalkGrows(tree, more, if tree[next].absolute then [] else at, tree[next].target + parts[1..], hops - 1);
        }
    }
  }

  /** A new entry does not change where any walk that succeeded before ends. */
  lemma WalkUndisturbed(tree: Tree, at: Place, parts: seq<Part>, hops: nat, p: Place, e: Entry)
    requires p !in tree && Walk(tree, at, parts, hops).Some?
    ensures Walk(tree[p := e], at, parts, hops) == Walk(tree, at, parts, hops)
  {
    WalkGrows(tree, tree[p := e], at, parts, hops);
  }

  /** A walk that does not end at a file never needed it. */
  lemma {:induction false} WalkWithoutFile(tree: Tree, at: Place, parts: seq<Part>, hops: nat, p: Place)
    requires p in tree && tree[p].File?
    requires Walk(tree, at, parts, hops).Some? && Walk(tree, at, parts, hops).value != p
    ensures Walk(tree - {p}, at, parts, hops) == Walk(tree, at, parts, hops)
    decreases hops, |parts|
  {
    if parts != [] {
      match parts[0]
      case Here => WalkWithoutFile(tree, at, parts[1..], hops, p);
      case Up => WalkWithoutFile(tree, Parent(at), parts[1..], hops, p);
      case Down(name) =>
        var next := at + [name];
        if !tree[next].Link? {
          WalkWithoutFile(tree, next, parts[1..], hops, p);
        } else {
          WalkWithoutFile(tree, if tree[next].absolute then [] else at, tree[next].target + parts[1..], hops - 1, p);
        }
    }
  }

  /** A walk that ends with a step down goes to a directory first, and into it then. */
  lemma {:induction false} WalkLast(tree: Tree, at: Place, parts: seq<Part>, name: Name, hops: nat)
    ensures var front, whole := Walk(tree, at, parts, hops), Walk(tree, at, parts + [Down(name)], hops);
      && (front.Some? ==> front.value in tree)
      && (whole.Some? ==> front.Some? && tree[front.value].Directory? && front.value + [name] in tree)
      && (front.Some? && tree[front.value].Directory?
          && front.value + [name] in tree && !tree[front.value + [name]].Link? ==>
            whole == Some(front.value + [name]))
    decreases hops, |parts|
  {
    var all := parts + [Down(name)];
    if parts == [] {
      assert all[0] == Down(name) && all[1..] == [];
    } else {
      assert all[0] == parts[0] && all[1..] == parts[1..] + [Down(name)];
      if at in tree && tree[at].Directory? {
        match parts[0]
        case Here => WalkLast(tree, at, parts[1..], name, hops);
        case Up => WalkLast(tree, Parent(at), parts[1..], name, hops);
        case Down(first) =>
          var next := at + [first];
          if next in tree {
            if !tree[next].Link? {
              WalkLast(tree, next, parts[1..], name, hops);
            } else if hops > 0 {
              var target := tree[next].target;
              assert target + parts[1..] + [Down(name)] == target + (parts[1..] + [Down(name)]);
              WalkLast(tree, if tree[next].absolute then [] else at, target + parts[1..], name, hops - 1);
            }
          }
      }
    }
  }

  /** Standing still makes no difference, as long as something follows. */
  lemma {:induction false} WalkHere(tree: Tree, at: Place, before: seq<Part>, after: seq<Part>, hops: nat)
    requires after != []
    ensures Walk(tree, at, before + [Here] + after, hops) == Walk(tree, at, before + after, hops)
    decreases hops, |before|
  {
    var with, without := before + [Here] + after, before + after;
    if before == [] {
      assert with[0] == Here && with[1..] == after && without == after;
    } else {
      assert with[0] == before[0] && with[1..] == before[1..] + [Here] + after;
      assert without[0] == before[0] && without[1..] == before[1..] + after;
      if at in tree && tree[at].Directory? {
        match before[0]
        case Here => WalkHere(tree, at, before[1..], after, hops);
        case Up => WalkHere(tree, Parent(at), before[1..], after, hops);
        case Down(name) =>
          var next := at + [name];
          if next in tree {
            if !tree[next].Link? {
              WalkHere(tree, next, before[1..], after, hops);
            } else if hops > 0 {
              var target := tree[next].target;
              assert target + with[1..] == target + before[1..] + [Here] + after;
              assert target + without[1..] == target + before[1..] + after;
              WalkHere(tree, if tree[next].absolute then [] else at, target + before[1..], after, hops - 1);
            }
          }
      }
    }
  }

  function Ups(n: nat): seq<Part> {
    seq(n, i => Up)
  }

  /** From one canonical place to another: up to where they part, then down. */
  lemma {:induction false} RelativeLeads(tree: Tree, at: Place, p: Place, k: nat, hops: nat)
    requires Canonical(tree, at) && tree[at].Directory? && Canonical(tree, p)
    requires k <= |at| && k <= |p| && at[..k] == p[..k]
    ensures Walk(tree, at, Ups(|at| - k) + Downs(p[k..]), hops) == Some(p)
    decreases |at|
  {
    var parts := Ups(|at| - k) + Downs(p[k..]);
    if k == |at| {
      assert parts == Downs(p[k..]) && at == p[..k];
      WalkDown(tree, p, k, hops);
    } else {
      assert parts[0] == Up && parts[1..] == Ups(|at| - 1 - k) + Downs(p[k..]);
      assert Parent(at) == at[..|at| - 1];
      assert forall j :: 0 <= j < |Parent(at)| ==> Parent(at)[..j] == at[..j];
      RelativeLeads(tree, Parent(at), p, k, hops);
    }
  }

  /** A link leads to the place it names, be it from the top or relative to the directory it is in; one link takes one
      hop. */
  lemma LinkLeads(tree: Tree, at: Place, name: Name, p: Place, k: nat, hops: nat)
    requires Canonical(tree, at) && tree[at].Directory? && Canonical(tree, p) && at + [name] in tree
    requires k <= |at| && k <= |p| && at[..k] == p[..k]
    requires tree[at + [name]] in {Link(true, Downs(p)), Link(false, Ups(|at| - k) + Downs(p[k..]))}
    ensures Walk(tree, at, [Down(name)], hops) == if hops == 0 then None else Some(p)
  {
    hide Walk, Downs, Ups;
    OneLink(tree, at, name, hops);
    if hops > 0 {
      if tree[at + [name]].absolute {
        CanonicalResolves(tree, p, hops - 1);
      } else {
        RelativeLeads(tree, at, p, k, hops - 1);
      }
    }
  }

  lemma OneLink(tree: Tree, at: Place, name: Name, hops: nat)
    requires at in tree && tree[at].Directory? && at + [name] in tree && tree[at + [name]].Link?
    ensures var link := tree[at + [name]];
      Walk(tree, at, [Down(name)], hops)
      == if hops == 0 then None else Walk(tree, if link.absolute then [] else at, link.target, hops - 1)
  {
    var link := tree[at + [name]];
    assert [Down(name)][1..] == [] && link.target + [] == link.target;
  }
}

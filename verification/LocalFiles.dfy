/** The file commands of the executor as functions of a filesystem tree, and what they can touch. */
module LocalFiles {
  import opened Wrappers
  import opened PathText
  import opened FileTree

  const MAX_TEXT_FILE_BYTES: nat := 2 * 1024 * 1024

  datatype FileError =
    | NotApproved | NotRelative | NoParent | CannotResolve | Escaped
    | TooLarge | NotDirectory | NotText | CannotCreate | CannotWrite | CannotRename | CannotTrash

  datatype Outcome<+T> = Done(value: T) | Failed(error: FileError)

  /** What the operating system decides while a file is written, and the name drawn for the temporary file. */
  datatype Weather = Weather(
    temporary: Name, creates: bool, sizes: seq<nat>, syncs: bool, renames: bool, removes: bool)

  /** Where a write goes: the name, and the folder it is in as written, links and all.
      `trailing` says that the text goes on after the name with a separator or a dot. */
  datatype Target = Target(folder: Place, name: Name, trailing: bool)

  // ---------------------------------------------------------------- the commands

  function ResolveExisting(tree: Tree, root: Option<Place>, text: string, hops: nat): Outcome<Place> {
    if root.None? then Failed(NotApproved)
    else if !ValidRelative(text) then Failed(NotRelative)
    else
      var place := Walk(tree, [], Downs(root.value) + OsParts(text), hops);
      if place.None? then Failed(CannotResolve)
      else if !(root.value <= place.value) then Failed(Escaped)
      else Done(place.value)
  }

  function ResolveForWrite(tree: Tree, root: Option<Place>, text: string, hops: nat): Outcome<Target> {
    if root.None? then Failed(NotApproved)
    else if !ValidRelative(text) then Failed(NotRelative)
    else
      var path := root.value + Names(Pieces(text));
      var folder := Resolve(tree, Parent(path), hops);
      var existing := Walk(tree, [], Downs(root.value) + OsParts(text), hops);
      if path == [] then Failed(NoParent)
      else if folder.None? then Failed(CannotResolve)
      else if !(root.value <= folder.value) then Failed(Escaped)
      else if existing.Some? && !(root.value <= existing.value) then Failed(Escaped)
      else Done(Target(Parent(path), path[|path| - 1], Pieces(text)[|Pieces(text)| - 1] in {"", "."}))
  }

  /** How many bytes come out of writing again and again what is left; 0 or no more means an error. */
  function Progress(done: nat, total: nat, sizes: seq<nat>): (n: nat)
    requires done <= total
    ensures done <= n <= total
    decreases |sizes|
  {
    if done == total || sizes == [] || sizes[0] == 0 then done
    else Progress(if done + sizes[0] < total then done + sizes[0] else total, total, sizes[1..])
  }

  /** Writing a text file, from the tree before to the tree after. */
  function WriteText(tree: Tree, root: Option<Place>, text: string, content: Bytes, w: Weather, hops: nat)
    : (Tree, Outcome<()>)
  {
    var target := ResolveForWrite(tree, root, text, hops);
    if |content| > MAX_TEXT_FILE_BYTES then (tree, Failed(TooLarge))
    else if target.Failed? then (tree, Failed(target.error))
    else Replace(tree, Resolve(tree, target.value.folder, hops).value, target.value, content, w)
  }

  /** Writes a temporary file in the folder and renames it over the target. */
  function Replace(tree: Tree, folder: Place, target: Target, content: Bytes, w: Weather): (Tree, Outcome<()>) {
    var temporary, place := folder + [w.temporary], folder + [target.name];
    var n := Progress(0, |content|, w.sizes);
    if !w.creates || folder !in tree || !tree[folder].Directory? || temporary in tree then (tree, Failed(CannotCreate))
    else if n < |content| || !w.syncs then
      (if w.removes then tree else tree[temporary := File(content[..n])], Failed(CannotWrite))
    else if !w.renames || target.trailing || (place in tree && tree[place].Directory?) then
      (if w.removes then tree else tree[temporary := File(content)], Failed(CannotRename))
    else (tree[place := File(content)], Done(()))
  }

  function ReadText(tree: Tree, root: Option<Place>, text: string, decodes: bool, hops: nat): Outcome<Bytes> {
    match ResolveExisting(tree, root, text, hops)
    case Failed(e) => Failed(e)
    case Done(p) =>
      if p !in tree || !tree[p].File? then Failed(NotText)
      else if |tree[p].content| > MAX_TEXT_FILE_BYTES then Failed(TooLarge)
      else if !decodes then Failed(NotText)
      else Done(tree[p].content)
  }

  /** The tree without a place and all that is below it. */
  function Without(tree: Tree, p: Place): Tree {
    map q | q in tree && !(p <= q) :: tree[q]
  }

  function TrashPath(tree: Tree, root: Option<Place>, text: string, allowed: bool, hops: nat): (Tree, Outcome<()>) {
    match ResolveExisting(tree, root, text, hops)
    case Failed(e) => (tree, Failed(e))
    case Done(p) => if allowed && p != [] then (Without(tree, p), Done(())) else (tree, Failed(CannotTrash))
  }

  /** `at` is the working directory. */
  function ApproveRoot(tree: Tree, at: Place, path: string, hops: nat): Outcome<Place> {
    var place := Walk(tree, if path != "" && path[0] == '/' then [] else at, OsParts(path), hops);
    if path == "" || place.None? then Failed(CannotResolve)
    else if place.value !in tree || !tree[place.value].Directory? then Failed(NotDirectory)
    else Done(place.value)
  }

  // ---------------------------------------------------------------- what a root has to be

  /** No link on the way down to the place, as far as the way exists. */
  ghost predicate LinkFree(tree: Tree, p: Place) {
    forall k :: 0 <= k <= |p| && p[..k] in tree ==> !tree[p[..k]].Link?
  }

  lemma {:induction false} WalkLinkFree(tree: Tree, p: Place, k: nat, hops: nat)
    requires LinkFree(tree, p) && k <= |p|
    ensures var r := Walk(tree, p[..k], Downs(p[k..]), hops); r.Some? ==> r.value == p
    decreases |p| - k
  {
    if k == |p| {
      assert p[..k] == p && Downs(p[k..]) == [];
    } else {
      assert Downs(p[k..])[0] == Down(p[k]) && Downs(p[k..])[1..] == Downs(p[k + 1..]);
      assert p[..k] + [p[k]] == p[..k + 1];
      WalkLinkFree(tree, p, k + 1, hops);
    }
  }

  lemma ResolveLinkFree(tree: Tree, p: Place, hops: nat)
    requires LinkFree(tree, p)
    ensures Resolve(tree, p, hops).Some? ==> Resolve(tree, p, hops).value == p
  {
    WalkLinkFree(tree, p, 0, hops);
    assert p[..0] == [] && p[0..] == p;
  }

  /** What is approved as a root is a directory reached without links. */
  lemma ApprovedIsCanonical(tree: Tree, at: Place, path: string, hops: nat)
    requires WellFormed(tree) && Canonical(tree, at)
    ensures var r := ApproveRoot(tree, at, path, hops);
      r.Done? ==> Canonical(tree, r.value) && tree[r.value].Directory? && LinkFree(tree, r.value)
  {
    var start := if path != "" && path[0] == '/' then [] else at;
    CanonicalIs(tree, []);
    WalkIsCanonical(tree, start, OsParts(path), hops);
    var r := ApproveRoot(tree, at, path, hops);
    if r.Done? {
      assert forall k :: k == |r.value| ==> r.value[..k] == r.value;
    }
  }

  // ---------------------------------------------------------------- containment

  /** Reading, listing and trashing start from a canonical place under the root, whatever links the path runs
      through. */
  lemma ExistingInside(tree: Tree, root: Place, text: string, hops: nat)
    requires WellFormed(tree)
    ensures var r := ResolveExisting(tree, Some(root), text, hops);
      r.Done? ==> root <= r.value && Canonical(tree, r.value)
  {
    CanonicalIs(tree, []);
    WalkIsCanonical(tree, [], Downs(root) + OsParts(text), hops);
  }

  /** What is read is the content of a file under the root, and not too long. */
  lemma ReadInside(tree: Tree, root: Place, text: string, decodes: bool, hops: nat)
    requires WellFormed(tree)
    requires ReadText(tree, Some(root), text, decodes, hops).Done?
    ensures var bytes := ReadText(tree, Some(root), text, decodes, hops).value;
      |bytes| <= MAX_TEXT_FILE_BYTES && exists p :: root <= p && Canonical(tree, p) && tree[p] == File(bytes)
  {
    ExistingInside(tree, root, text, hops);
  }

  /** The folder of an accepted target is a canonical place under the root. */
  lemma FolderInside(tree: Tree, root: Place, text: string, hops: nat)
    requires WellFormed(tree)
    ensures var r := ResolveForWrite(tree, Some(root), text, hops);
      r.Done? ==> var folder := Resolve(tree, r.value.folder, hops);
        folder.Some? && root <= folder.value && Canonical(tree, folder.value)
  {
    CanonicalIs(tree, []);
    WalkIsCanonical(tree, [], Downs(Parent(root + Names(Pieces(text)))), hops);
  }

  /** Writing to the root itself, by an empty path or by dots, is rejected. */
  lemma RootIsNotWritten(tree: Tree, root: Place, text: string, hops: nat)
    requires LinkFree(tree, root) && Names(Pieces(text)) == []
    ensures ResolveForWrite(tree, Some(root), text, hops).Failed?
  {
    assert root + [] == root;
    if root != [] {
      assert forall k :: 0 <= k <= |Parent(root)| ==> Parent(root)[..k] == root[..k];
      ResolveLinkFree(tree, Parent(root), hops);
    }
  }

  /** The place that a path names from the root: the last name, in the directory to which the names before it lead. */
  ghost predicate Named(tree: Tree, root: Place, text: string, place: Place, hops: nat) {
    var path := root + Names(Pieces(text));
    && path != [] && place != [] && place[|place| - 1] == path[|path| - 1]
    && Resolve(tree, path[..|path| - 1], hops) == Some(place[..|place| - 1])
  }

  /** A successful write changes exactly one entry: the place that the path names, in a directory under the root, gets
      the whole content. A link of that name is replaced, what it pointed to is left alone. */
  lemma WriteContained(tree: Tree, root: Place, text: string, content: Bytes, w: Weather, hops: nat)
    returns (place: Place)
    requires WellFormed(tree) && WriteText(tree, Some(root), text, content, w, hops).1.Done?
    ensures root < place && Canonical(tree, Parent(place)) && tree[Parent(place)].Directory?
    ensures WriteText(tree, Some(root), text, content, w, hops).0 == tree[place := File(content)]
    ensures place in tree ==> !tree[place].Directory?
    ensures Named(tree, root, text, place, hops)
    ensures LinkFree(tree, root) ==> Names(Pieces(text)) != []
  {
    hide Walk, OsParts, Pieces, Names, ValidRelative, Progress, LinkFree, WellFormed;
    FolderInside(tree, root, text, hops);
    var t := ResolveForWrite(tree, Some(root), text, hops).value;
    var folder := Resolve(tree, t.folder, hops).value;
    place := folder + [t.name];
    assert Parent(place) == folder;
    if LinkFree(tree, root) && Names(Pieces(text)) == [] {
      RootIsNotWritten(tree, root, text, hops);
    }
  }

  /** All that is new is a temporary file, holding a beginning of the content, in a directory under the root. */
  ghost predicate Leftover(tree: Tree, root: Option<Place>, folder: Place, name: Name, content: Bytes, n: nat,
                           tree': Tree)
  {
    && root.Some? && root.value <= folder && folder in tree && tree[folder].Directory?
    && folder + [name] !in tree && n <= |content|
    && tree' == tree[folder + [name] := File(content[..n])]
  }

  lemma ReplaceFails(tree: Tree, folder: Place, target: Target, content: Bytes, w: Weather) returns (n: nat)
    requires Replace(tree, folder, target, content, w).1.Failed?
    ensures var (tree', r) := Replace(tree, folder, target, content, w);
      && r.error in {CannotCreate, CannotWrite, CannotRename}
      && n <= |content| && (r.error == CannotRename ==> n == |content|)
      && (if w.removes || r.error == CannotCreate then tree' == tree
          else && folder in tree && tree[folder].Directory? && folder + [w.temporary] !in tree
               && tree' == tree[folder + [w.temporary] := File(content[..n])])
  {
    n := Progress(0, |content|, w.sizes);
    hide Progress;
    if n == |content| {
      assert content[..n] == content;
    }
    var r := Replace(tree, folder, target, content, w).1;
    n := if r.error == CannotRename then |content| else n;
  }

  /** A failed write leaves the tree as it was, unless its temporary file was made and cannot be removed: then exactly
      that file is new, and holds all of the content if only the renaming failed. */
  lemma WriteFails(tree: Tree, root: Option<Place>, text: string, content: Bytes, w: Weather, hops: nat)
    returns (folder: Place, n: nat)
    requires WellFormed(tree) && WriteText(tree, root, text, content, w, hops).1.Failed?
    ensures var (tree', r) := WriteText(tree, root, text, content, w, hops);
      && (r.error == CannotRename ==> n == |content|)
      && if w.removes || r.error !in {CannotWrite, CannotRename} then tree' == tree
         else Leftover(tree, root, folder, w.temporary, content, n, tree')
  {
    var target := ResolveForWrite(tree, root, text, hops);
    folder, n := [], 0;
    if target.Done? && |content| <= MAX_TEXT_FILE_BYTES {
      FolderInside(tree, root.value, text, hops);
      folder := Resolve(tree, target.value.folder, hops).value;
      assert WriteText(tree, root, text, content, w, hops) == Replace(tree, folder, target.value, content, w);
      hide Resolve, ResolveForWrite, WellFormed, Canonical, WriteText, Replace;
      n := ReplaceFails(tree, folder, target.value, content, w);
    } else {
      ResolvingFails(tree, root, text, hops);
    }
  }

  lemma ResolvingFails(tree: Tree, root: Option<Place>, text: string, hops: nat)
    ensures var r := ResolveForWrite(tree, root, text, hops); r.Failed? ==> r.error !in {CannotWrite, CannotRename}
  {
    hide Resolve, Walk, ValidRelative;
  }

  // ---------------------------------------------------------------- listing

  datatype DirectoryEntry = DirectoryEntry(name: Name, relativePath: string, isDirectory: bool)

  /** The entry of a directory under the root, with its path from the root as text. */
  function Listed(tree: Tree, root: Place, directory: Place, name: Name): DirectoryEntry
    requires root <= directory && directory + [name] in tree
  {
    DirectoryEntry(name, Join((directory + [name])[|root|..]), tree[directory + [name]].Directory?)
  }

  lemma {:induction false} TreeNamesProper(tree: Tree, p: Place)
    requires WellFormed(tree) && p in tree
    ensures ProperNames(p)
  {
    if p != [] {
      TreeNamesProper(tree, Parent(p));
      assert p == Parent(p) + [p[|p| - 1]];
    }
  }

  lemma DownsOfJoin(root: Place, names: seq<Name>)
    requires names != [] && ProperNames(names)
    ensures ValidRelative(Join(names)) && Names(Pieces(Join(names))) == names
    ensures Downs(root) + OsParts(Join(names)) == Downs(root + names)
  {
    JoinRoundTrip(names);
    hide Join, Names, Pieces, ValidRelative, OsParts, ProperNames;
  }

  lemma ResolveJoined(tree: Tree, root: Place, names: seq<Name>, hops: nat)
    requires names != [] && ProperNames(names) && Canonical(tree, root + names)
    ensures ResolveExisting(tree, Some(root), Join(names), hops) == Done(root + names)
  {
    hide Join, Names, Pieces, ValidRelative, OsParts, ProperNames, Canonical, Walk, Downs;
    DownsOfJoin(root, names);
    CanonicalResolves(tree, root + names, hops);
  }

  /** What a listing says leads back: the relative path of an entry is accepted, its names joined to the root are the
      entry, and unless the entry is a link, resolving the path gives that very entry. */
  lemma ListRoundTrip(tree: Tree, root: Place, text: string, name: Name, hops: nat)
    requires WellFormed(tree) && ResolveExisting(tree, Some(root), text, hops).Done?
    requires ResolveExisting(tree, Some(root), text, hops).value + [name] in tree
    ensures var directory := ResolveExisting(tree, Some(root), text, hops).value;
      && root <= directory
      && Listed(tree, root, directory, name).name == name
      && (Listed(tree, root, directory, name).isDirectory <==> tree[directory + [name]].Directory?)
      && var path := Listed(tree, root, directory, name).relativePath;
         && ValidRelative(path) && root + Names(Pieces(path)) == directory + [name]
         && (!tree[directory + [name]].Link? ==>
               ResolveExisting(tree, Some(root), path, hops) == Done(directory + [name]))
  {
    ExistingInside(tree, root, text, hops);
    var place := ResolveExisting(tree, Some(root), text, hops).value + [name];
    var names := place[|root|..];
    TreeNamesProper(tree, place);
    assert root + names == place && ProperNames(names);
    CanonicalIs(tree, place);
    hide Join, Names, Pieces, ValidRelative, OsParts, ProperNames, Canonical, Walk, Downs, WellFormed, ResolveExisting;
    DownsOfJoin(root, names);
    if !tree[place].Link? {
      ResolveJoined(tree, root, names, hops);
    }
  }
}

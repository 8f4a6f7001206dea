/** Relative paths as text: how the executor takes them apart, how the operating system walks them, and what the
    control plane checks before it stores one. Unix rules throughout. */
module PathText {
  import opened Wrappers

  type Name = string

  /** What the path library sees in a path. */
  datatype Component = RootDir | CurDir | ParentDir | Normal(name: Name)

  /** What the operating system does with a path, one piece at a time. */
  datatype Part = Here | Up | Down(name: Name)

  // ---------------------------------------------------------------- taking a path apart

  /** Splits at every separator; empty pieces stay. */
  function Split(s: string, separator: char -> bool): (r: seq<string>)
    ensures |r| > 0
  {
    if s == "" then [""]
    else
      var rest := Split(s[1..], separator);
      if separator(s[0]) then [""] + rest else [[s[0]] + rest[0]] + rest[1..]
  }

  function Slash(): char -> bool {
    c => c == '/'
  }

  function SlashOrBackslash(): char -> bool {
    c => c == '/' || c == '\\'
  }

  function Pieces(s: string): (r: seq<string>)
    ensures |r| > 0
  {
    Split(s, Slash())
  }

  /** Empty pieces and inner dots are dropped. */
  function Plain(pieces: seq<string>): seq<Component> {
    if pieces == [] then []
    else
      var p := pieces[0];
      (if p == "" || p == "." then [] else if p == ".." then [ParentDir] else [Normal(p)]) + Plain(pieces[1..])
  }

  /** A leading separator is a root, a leading dot is kept. */
  function Components(s: string): seq<Component> {
    if s == "" then []
    else (if s[0] == '/' then [RootDir] else if Pieces(s)[0] == "." then [CurDir] else []) + Plain(Pieces(s))
  }

  function PartOf(piece: string): Part {
    if piece == "" || piece == "." then Here else if piece == ".." then Up else Down(piece)
  }

  function Parts(pieces: seq<string>): seq<Part> {
    seq(|pieces|, i requires 0 <= i < |pieces| => PartOf(pieces[i]))
  }

  /** Every piece is a step; a trailing separator still asks for a directory. */
  function OsParts(s: string): seq<Part> {
    Parts(Pieces(s))
  }

  /** The check of the executor: only names and leading dots. */
  predicate ValidRelative(s: string) {
    s == "" || forall c :: c in Components(s) ==> c.Normal? || c.CurDir?
  }

  /** The check of the control plane when a version of a file is registered. */
  predicate SyncAccepts(s: string) {
    !(s != "" && s[0] == '/') && ".." !in Split(s, SlashOrBackslash())
  }

  /** The names in a path, dots and empty pieces dropped. */
  function Names(pieces: seq<string>): seq<Name> {
    if pieces == [] then []
    else (if pieces[0] == "" || pieces[0] == "." then [] else [pieces[0]]) + Names(pieces[1..])
  }

  // ---------------------------------------------------------------- what the pieces are

  /** From `i` on the text reads `p`, up to its end or a separator, and so before it; no separator is in between. */
  ghost predicate PieceAt(s: string, separator: char -> bool, i: nat, p: string) {
    && i + |p| <= |s| && s[i..i + |p|] == p && (forall c :: c in p ==> !separator(c))
    && (i == 0 || separator(s[i - 1])) && (i + |p| == |s| || separator(s[i + |p|]))
  }

  lemma PieceLater(s: string, separator: char -> bool, i: nat, p: string)
    requires s != ""
    ensures PieceAt(s, separator, i + 1, p) <==> PieceAt(s[1..], separator, i, p) && (i == 0 ==> separator(s[0]))
  {
    if i + 1 + |p| <= |s| {
      assert s[i + 1..i + 1 + |p|] == s[1..][i..i + |p|];
    }
  }

  lemma PieceFirst(s: string, separator: char -> bool, p: string)
    requires s != ""
    ensures PieceAt(s, separator, 0, p)
      <==> if separator(s[0]) then p == "" else p != "" && p[0] == s[0] && PieceAt(s[1..], separator, 0, p[1..])
  {
    if p != "" {
      assert p == [p[0]] + p[1..];
      if |p| <= |s| {
        assert s[..|p|] == [s[0]] + s[1..][..|p| - 1];
        assert s[..|p|][0] == s[0] && s[..|p|][1..] == s[1..][..|p| - 1];
      }
    }
  }

  ghost predicate SomePiece(s: string, separator: char -> bool, from: nat, p: string) {
    exists i: nat :: from <= i && PieceAt(s, separator, i, p)
  }

  lemma LaterPiece(s: string, separator: char -> bool, p: string)
    requires s != ""
    ensures SomePiece(s, separator, 1, p) <==> SomePiece(s[1..], separator, if separator(s[0]) then 0 else 1, p)
  {
    hide PieceAt;
    var from := if separator(s[0]) then 0 else 1;
    if SomePiece(s, separator, 1, p) {
      var i: nat :| 1 <= i && PieceAt(s, separator, i, p);
      PieceLater(s, separator, i - 1, p);
      assert PieceAt(s[1..], separator, i - 1, p);
    }
    if SomePiece(s[1..], separator, from, p) {
      var i: nat :| from <= i && PieceAt(s[1..], separator, i, p);
      PieceLater(s, separator, i, p);
      assert PieceAt(s, separator, i + 1, p);
    }
  }

  lemma {:induction false} FirstAndRest(s: string, separator: char -> bool, p: string)
    ensures p == Split(s, separator)[0] <==> PieceAt(s, separator, 0, p)
    ensures p in Split(s, separator)[1..] <==> SomePiece(s, separator, 1, p)
    decreases |s|
  {
    if s != "" {
      hide PieceAt, SomePiece;
      var rest := Split(s[1..], separator);
      PieceFirst(s, separator, p);
      LaterPiece(s, separator, p);
      FirstAndRest(s[1..], separator, p);
      if separator(s[0]) {
        assert Split(s, separator)[1..] == rest && rest == [rest[0]] + rest[1..];
        AnyPiece(s[1..], separator, p);
      } else {
        assert Split(s, separator)[1..] == rest[1..];
        if p != "" {
          FirstAndRest(s[1..], separator, p[1..]);
          assert p == [s[0]] + rest[0] <==> p[0] == s[0] && p[1..] == rest[0] by {
            assert p == [p[0]] + p[1..];
          }
        }
      }
    }
  }

  lemma AnyPiece(s: string, separator: char -> bool, p: string)
    ensures SomePiece(s, separator, 0, p) <==> PieceAt(s, separator, 0, p) || SomePiece(s, separator, 1, p)
  {
    hide PieceAt;
  }

  /** The pieces are just what stands between separators. */
  lemma SplitIff(s: string, separator: char -> bool, p: string)
    ensures p in Split(s, separator) <==> exists i: nat :: PieceAt(s, separator, i, p)
  {
    var pieces := Split(s, separator);
    assert pieces == [pieces[0]] + pieces[1..];
    hide PieceAt, Split;
    FirstAndRest(s, separator, p);
    AnyPiece(s, separator, p);
  }

  /** From `i` on the text climbs: two dots, with a separator of either kind or an end on both sides. */
  predicate ClimbsAt(s: string, i: nat) {
    && i + 2 <= |s| && s[i] == '.' && s[i + 1] == '.'
    && (i == 0 || s[i - 1] == '/' || s[i - 1] == '\\')
    && (i + 2 == |s| || s[i + 2] == '/' || s[i + 2] == '\\')
  }

  /** The control plane stores just the paths that do not begin at the top and climb nowhere. */
  lemma SyncAcceptsIff(s: string)
    ensures SyncAccepts(s) <==> !(s != "" && s[0] == '/') && forall i: nat :: !ClimbsAt(s, i)
  {
    SplitIff(s, SlashOrBackslash(), "..");
    forall i: nat
      ensures ClimbsAt(s, i) <==> PieceAt(s, SlashOrBackslash(), i, "..")
    {
      if i + 2 <= |s| {
        assert s[i..i + 2] == [s[i], s[i + 1]] && ".." == ['.', '.'];
      }
    }
    hide PieceAt, ClimbsAt, Split;
  }

  // ---------------------------------------------------------------- the checks agree

  lemma {:induction false} PlainHas(pieces: seq<string>)
    ensures ParentDir in Plain(pieces) <==> ".." in pieces
    ensures RootDir !in Plain(pieces)
  {
    if pieces != [] {
      PlainHas(pieces[1..]);
      assert pieces == [pieces[0]] + pieces[1..];
    }
  }

  /** The executor accepts exactly the texts that do not begin with a separator and have no parent piece. */
  lemma ValidRelativeIff(s: string)
    ensures ValidRelative(s) <==> s == "" || (s[0] != '/' && ".." !in Pieces(s))
  {
    var pieces := Pieces(s);
    PlainHas(pieces);
    hide Pieces, Plain;
    if s != "" {
      var first := if s[0] == '/' then [RootDir] else if pieces[0] == "." then [CurDir] else [];
      assert Components(s) == first + Plain(pieces);
      assert RootDir in Components(s) <==> s[0] == '/';
      assert ParentDir in Components(s) <==> ".." in pieces;
      hide Components;
      if RootDir !in Components(s) && ParentDir !in Components(s) {
        forall c | c in Components(s) ensures c.Normal? || c.CurDir? {
        }
      }
    }
  }

  predicate Clean(piece: string) {
    '\\' !in piece
  }

  /** Splitting at backslashes too leaves the pieces alone that have none. */
  lemma {:induction false} FinerSplit(s: string, p: string)
    requires Clean(p)
    ensures p == Split(s, Slash())[0] ==> p == Split(s, SlashOrBackslash())[0]
    ensures p in Split(s, Slash()) ==> p in Split(s, SlashOrBackslash())
  {
    if s != "" {
      var coarse, fine := Split(s[1..], Slash()), Split(s[1..], SlashOrBackslash());
      FinerSplit(s[1..], p);
      if s[0] != '/' {
        if p == [s[0]] + coarse[0] {
          assert p[1..] == coarse[0] && Clean(p[1..]) && s[0] == p[0];
          FinerSplit(s[1..], p[1..]);
        }
        if p in coarse[1..] {
          FinerRest(s[1..], p);
        }
      }
    }
  }

  lemma {:induction false} FinerRest(s: string, p: string)
    requires Clean(p) && p in Split(s, Slash())[1..]
    ensures p in Split(s, SlashOrBackslash())[1..]
  {
    if s != "" {
      var coarse := Split(s[1..], Slash());
      if s[0] == '/' {
        assert Split(s, Slash())[1..] == coarse;
        assert Split(s, SlashOrBackslash())[1..] == Split(s[1..], SlashOrBackslash());
        FinerSplit(s[1..], p);
      } else {
        assert Split(s, Slash())[1..] == coarse[1..];
        FinerRest(s[1..], p);
        var fine := Split(s[1..], SlashOrBackslash());
        if s[0] == '\\' {
          assert Split(s, SlashOrBackslash())[1..] == fine;
        } else {
          assert Split(s, SlashOrBackslash())[1..] == fine[1..];
        }
      }
    }
  }

  /** Whatever path the control plane stores, the executor accepts. */
  lemma SyncPathsAreValid(s: string)
    requires SyncAccepts(s)
    ensures ValidRelative(s)
  {
    ValidRelativeIff(s);
    if s != "" {
      FinerSplit(s, "..");
    }
  }

  /** How deep below its start the walk ends, unless it ever climbs above it. */
  function Depth(parts: seq<Part>, depth: nat): Option<nat> {
    if parts == [] then Some(depth)
    else match parts[0]
      case Here => Depth(parts[1..], depth)
      case Up => if depth == 0 then None else Depth(parts[1..], depth - 1)
      case Down(_) => Depth(parts[1..], depth + 1)
  }

  lemma {:induction false} NoUpStaysBelow(parts: seq<Part>, depth: nat)
    requires Up !in parts
    ensures Depth(parts, depth).Some? && Depth(parts, depth).value >= depth
  {
    if parts != [] {
      assert parts[0] in parts && forall p :: p in parts[1..] ==> p in parts;
      match parts[0]
      case Here => NoUpStaysBelow(parts[1..], depth);
      case Down(_) => NoUpStaysBelow(parts[1..], depth + 1);
    }
  }

  /** No path the executor accepts climbs above the root, at any point of the walk. */
  lemma ValidStaysBelow(s: string, k: nat)
    requires ValidRelative(s) && k <= |OsParts(s)|
    ensures Depth(OsParts(s)[..k], 0).Some?
  {
    ValidRelativeIff(s);
    var pieces := Pieces(s);
    forall i | 0 <= i < |pieces|
      ensures OsParts(s)[i] != Up
    {
      assert pieces[i] in pieces;
    }
    NoUpStaysBelow(OsParts(s)[..k], 0);
  }

  // ---------------------------------------------------------------- names joined and taken apart again

  /** A name a directory entry can have. */
  predicate ProperName(n: Name) {
    n != "" && n != "." && n != ".." && '/' !in n
  }

  predicate ProperNames(names: seq<Name>) {
    forall i :: 0 <= i < |names| ==> ProperName(names[i])
  }

  function Join(names: seq<Name>): string {
    if names == [] then ""
    else if |names| == 1 then names[0]
    else names[0] + "/" + Join(names[1..])
  }

  lemma {:induction false} SplitName(n: Name, rest: string)
    requires '/' !in n
    ensures Pieces(n) == [n]
    ensures Pieces(n + "/" + rest) == [n] + Pieces(rest)
  {
    if n == "" {
      assert n + "/" + rest == "/" + rest;
      assert ("/" + rest)[1..] == rest;
    } else {
      SplitName(n[1..], rest);
      assert (n + "/" + rest)[1..] == n[1..] + "/" + rest;
      assert n == [n[0]] + n[1..];
    }
  }

  lemma {:induction false} PiecesOfJoin(names: seq<string>)
    requires names != [] && forall i :: 0 <= i < |names| ==> '/' !in names[i]
    ensures Pieces(Join(names)) == names
  {
    if |names| == 1 {
      SplitName(names[0], "");
    } else {
      PiecesOfJoin(names[1..]);
      SplitName(names[0], Join(names[1..]));
    }
  }

  lemma {:induction false} NamesOfProper(names: seq<Name>)
    requires ProperNames(names)
    ensures Names(names) == names
  {
    if names != [] {
      assert ProperName(names[0]) && ProperNames(names[1..]);
      NamesOfProper(names[1..]);
    }
  }

  /** A path put together from proper names is accepted, and is taken apart into the same names. */
  lemma JoinRoundTrip(names: seq<Name>)
    requires names != [] && ProperNames(names)
    ensures ValidRelative(Join(names)) && Names(Pieces(Join(names))) == names
    ensures OsParts(Join(names)) == seq(|names|, i requires 0 <= i < |names| => Down(names[i]))
  {
    assert forall i :: 0 <= i < |names| ==> ProperName(names[i]);
    PiecesOfJoin(names);
    NamesOfProper(names);
    ValidRelativeIff(Join(names));
    assert ProperName(names[0]);
    assert Join(names)[0] == names[0][0];
  }
}

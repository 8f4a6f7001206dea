/** The automatic evaluation of an improvement candidate. */
module CandidateEvaluator {
  import opened Wrappers

  datatype Kind = Memory | Prompt | ToolPolicy

  datatype Status = Draft | Ready | Failed | Active | RolledBack

  /** `score` counts thousandths. */
  datatype Candidate = Candidate(
    id: nat, userId: nat, kind: Kind, before: string, after: string,
    status: Status, score: Option<nat>, safetyPassed: Option<bool>,
    createdAt: int, activatedAt: Option<int>)

  // ---------------------------------------------------------------- patterns

  /** A piece of a pattern: one of several texts; an optional text is the choice of it or nothing. */
  type Choice = seq<string>

  type Pattern = seq<Choice>

  const UNSAFE_PATTERNS: seq<Pattern> := [
    [["bypass "], ["all ", ""], ["approval"], ["s", ""]],
    [["disable "], ["the ", ""], ["audit", "security"]],
    [["steal", "exfiltrat"]],
    [["raw.shell"]],
    [["self"], ["-", " "], ["modify"], ["ing", ""], [" code"]]
  ]

  /** Whether the pattern matches at the start of the text. */
  ghost predicate MatchesHere(p: Pattern, s: string) {
    p == [] || exists i :: 0 <= i < |p[0]| && p[0][i] <= s && MatchesHere(p[1..], s[|p[0][i]|..])
  }

  /** Ignoring the case of ASCII letters; no other letter folds to one of them. */
  function Lower(c: char): char {
    if 'A' <= c <= 'Z' then (c as int + 32) as char else c
  }

  function Fold(s: string): string {
    seq(|s|, i requires 0 <= i < |s| => Lower(s[i]))
  }

  ghost predicate Matches(p: Pattern, s: string) {
    exists k :: 0 <= k <= |s| && MatchesHere(p, Fold(s)[k..])
  }

  /** Every text that a pattern stands for. */
  function Phrases(p: Pattern): seq<string> {
    if p == [] then [""] else Spread(p[0], Phrases(p[1..]))
  }

  function Spread(heads: seq<string>, tails: seq<string>): seq<string> {
    if heads == [] then [] else Prefixed(heads[0], tails) + Spread(heads[1..], tails)
  }

  function Prefixed(head: string, tails: seq<string>): (r: seq<string>)
    ensures |r| == |tails| && forall i :: 0 <= i < |r| ==> r[i] == head + tails[i]
  {
    seq(|tails|, i requires 0 <= i < |tails| => head + tails[i])
  }

  predicate StartsWithAny(phrases: seq<string>, s: string) {
    exists i :: 0 <= i < |phrases| && phrases[i] <= s
  }

  lemma {:induction false} SpreadStarts(heads: seq<string>, tails: seq<string>, s: string)
    ensures StartsWithAny(Spread(heads, tails), s)
        <==> exists i :: 0 <= i < |heads| && heads[i] <= s && StartsWithAny(tails, s[|heads[i]|..])
  {
    if heads != [] {
      SpreadStarts(heads[1..], tails, s);
      var first, rest := Prefixed(heads[0], tails), Spread(heads[1..], tails);
      assert Spread(heads, tails) == first + rest;
      PrefixedStarts(heads[0], tails, s);
      assert StartsWithAny(first + rest, s) <==> StartsWithAny(first, s) || StartsWithAny(rest, s) by {
        assert forall i :: 0 <= i < |first| ==> (first + rest)[i] == first[i];
        assert forall i :: 0 <= i < |rest| ==> (first + rest)[|first| + i] == rest[i];
      }
      assert forall i :: 0 < i < |heads| ==> heads[i] == heads[1..][i - 1];
    }
  }

  lemma PrefixedStarts(head: string, tails: seq<string>, s: string)
    ensures StartsWithAny(Prefixed(head, tails), s) <==> head <= s && StartsWithAny(tails, s[|head|..])
  {
    forall i | 0 <= i < |tails|
      ensures head + tails[i] <= s <==> head <= s && tails[i] <= s[|head|..]
    {
      if head + tails[i] <= s {
        assert s[..|head|] == head;
        assert s[|head|..][..|tails[i]|] == tails[i];
      }
      if head <= s && tails[i] <= s[|head|..] {
        assert s == s[..|head|] + s[|head|..];
      }
    }
  }

  /** Matching a pattern is finding one of its phrases. */
  lemma {:induction false} MatchesPhrases(p: Pattern, s: string)
    ensures MatchesHere(p, s) <==> StartsWithAny(Phrases(p), s)
  {
    if p == [] {
      assert Phrases(p)[0] <= s;
    } else {
      SpreadStarts(p[0], Phrases(p[1..]), s);
      forall i | 0 <= i < |p[0]| && p[0][i] <= s
        ensures MatchesHere(p[1..], s[|p[0][i]|..]) <==> StartsWithAny(Phrases(p[1..]), s[|p[0][i]|..])
      {
        MatchesPhrases(p[1..], s[|p[0][i]|..]);
      }
    }
  }

  // ---------------------------------------------------------------- the three questions

  predicate IsSpace(c: char) {
    || c in {'\t', '\n', '\r', ' ', '\U{0B}', '\U{0C}', '\U{A0}', '\U{1680}', '\U{2028}', '\U{2029}', '\U{202F}',
             '\U{205F}', '\U{3000}', '\U{FEFF}'}
    || '\U{2000}' <= c <= '\U{200A}'
  }

  function TrimStart(s: string): string {
    if s != "" && IsSpace(s[0]) then TrimStart(s[1..]) else s
  }

  function TrimEnd(s: string): string {
    if s != "" && IsSpace(s[|s| - 1]) then TrimEnd(s[..|s| - 1]) else s
  }

  function Trim(s: string): string {
    TrimEnd(TrimStart(s))
  }

  /** Length in UTF-16 units. */
  function Units(s: string): nat {
    if s == "" then 0 else Units(s[..|s| - 1]) + if s[|s| - 1] >= '\U{10000}' then 2 else 1
  }

  predicate Changed(c: Candidate) {
    Trim(c.before) != Trim(c.after)
  }

  predicate Meaningful(c: Candidate) {
    Units(Trim(c.after)) >= 8
  }

  predicate Finds(phrases: seq<string>, s: string) {
    exists k :: 0 <= k <= |s| && StartsWithAny(phrases, s[k..])
  }

  predicate Safe(c: Candidate) {
    forall i :: 0 <= i < |UNSAFE_PATTERNS| ==> !Finds(Phrases(UNSAFE_PATTERNS[i]), Fold(c.after))
  }

  /** A third of the points, rounded to thousandths. */
  function Score(points: nat): nat {
    (2000 * points + 3) / 6
  }

  function One(b: bool): nat {
    if b then 1 else 0
  }

  function Evaluate(c: Candidate): Candidate {
    var score := Score(One(Changed(c)) + One(Meaningful(c)) + One(Safe(c)));
    c.(status := if Safe(c) && score >= 800 then Ready else Failed, score := Some(score), safetyPassed := Some(Safe(c)))
  }

  predicate Passes(c: Candidate) {
    Changed(c) && Meaningful(c) && Safe(c)
  }

  /** A text is safe just when no pattern matches anywhere in it. */
  lemma SafeIff(c: Candidate)
    ensures Safe(c) <==> forall i :: 0 <= i < |UNSAFE_PATTERNS| ==> !Matches(UNSAFE_PATTERNS[i], c.after)
  {
    forall i | 0 <= i < |UNSAFE_PATTERNS|
      ensures Finds(Phrases(UNSAFE_PATTERNS[i]), Fold(c.after)) <==> Matches(UNSAFE_PATTERNS[i], c.after)
    {
      forall k | 0 <= k <= |c.after|
        ensures MatchesHere(UNSAFE_PATTERNS[i], Fold(c.after)[k..])
           <==> StartsWithAny(Phrases(UNSAFE_PATTERNS[i]), Fold(c.after)[k..])
      {
        MatchesPhrases(UNSAFE_PATTERNS[i], Fold(c.after)[k..]);
      }
    }
  }

  // ---------------------------------------------------------------- safety as a reader would check it

  /** The same character, or the small and the capital form of one ASCII letter. */
  predicate SameLetter(a: char, b: char) {
    || a == b
    || ('a' <= a <= 'z' && 'A' <= b <= 'Z' && a as int - 'a' as int == b as int - 'A' as int)
    || ('A' <= a <= 'Z' && 'a' <= b <= 'z' && a as int - 'A' as int == b as int - 'a' as int)
  }

  predicate SameLetters(s: string, t: string) {
    |s| == |t| && forall i :: 0 <= i < |s| ==> SameLetter(s[i], t[i])
  }

  predicate OccursAt(phrase: string, s: string, k: nat) {
    k + |phrase| <= |s| && SameLetters(phrase, s[k..k + |phrase|])
  }

  /** The phrase stands somewhere in the text, in whatever mix of cases. */
  predicate Occurs(phrase: string, s: string) {
    exists k :: 0 <= k <= |s| && OccursAt(phrase, s, k)
  }

  /** What no candidate may say. */
  const UNSAFE_PHRASES: seq<string> := [
    "bypass approval", "bypass all approval",
    "disable audit", "disable security", "disable the audit", "disable the security",
    "steal", "exfiltrat", "raw.shell",
    "self-modify code", "self modify code", "self-modifying code", "self modifying code"
  ]

  ghost predicate SaysNothingUnsafe(s: string) {
    forall i :: 0 <= i < |UNSAFE_PHRASES| ==> !Occurs(UNSAFE_PHRASES[i], s)
  }

  predicate Small(phrase: string) {
    forall i :: 0 <= i < |phrase| ==> !('A' <= phrase[i] <= 'Z')
  }

  lemma OccursFolded(phrase: string, s: string, k: nat)
    requires Small(phrase) && k <= |s|
    ensures phrase <= Fold(s)[k..] <==> OccursAt(phrase, s, k)
  {
    if k + |phrase| <= |s| {
      forall i | 0 <= i < |phrase|
        ensures phrase[i] == Fold(s)[k..][i] <==> SameLetter(phrase[i], s[k..k + |phrase|][i])
      {
        assert Fold(s)[k..][i] == Lower(s[k + i]) && s[k..k + |phrase|][i] == s[k + i];
      }
    }
  }

  lemma FindsOccurs(phrases: seq<string>, s: string)
    requires forall i :: 0 <= i < |phrases| ==> Small(phrases[i])
    ensures Finds(phrases, Fold(s)) <==> exists i :: 0 <= i < |phrases| && Occurs(phrases[i], s)
  {
    hide OccursAt, Fold, Small;
    FoldLength(s);
    forall i, k | 0 <= i < |phrases| && 0 <= k <= |s|
      ensures phrases[i] <= Fold(s)[k..] <==> OccursAt(phrases[i], s, k)
    {
      OccursFolded(phrases[i], s, k);
    }
    if Finds(phrases, Fold(s)) {
      var k :| 0 <= k <= |s| && StartsWithAny(phrases, Fold(s)[k..]);
      var i :| 0 <= i < |phrases| && phrases[i] <= Fold(s)[k..];
      assert OccursAt(phrases[i], s, k);
    }
    if i :| 0 <= i < |phrases| && Occurs(phrases[i], s) {
      var k :| 0 <= k <= |s| && OccursAt(phrases[i], s, k);
      assert StartsWithAny(phrases, Fold(s)[k..]);
    }
  }

  lemma FoldLength(s: string)
    ensures |Fold(s)| == |s|
  {
  }

  /** One more piece in front: the phrases that begin with its first text, then those with its second. */
  lemma PhrasesOne(head: string, rest: Pattern)
    ensures Phrases([[head]] + rest) == Prefixed(head, Phrases(rest))
  {
    assert ([[head]] + rest)[1..] == rest && [head][1..] == [];
    assert Spread([head], Phrases(rest)) == Prefixed(head, Phrases(rest)) + [];
  }

  lemma PhrasesTwo(first: string, second: string, rest: Pattern)
    ensures Phrases([[first, second]] + rest) == Prefixed(first, Phrases(rest)) + Prefixed(second, Phrases(rest))
  {
    assert ([[first, second]] + rest)[1..] == rest && [first, second][1..] == [second] && [second][1..] == [];
    assert Spread([second], Phrases(rest)) == Prefixed(second, Phrases(rest)) + [];
  }

  lemma NoPhrases()
    ensures Phrases([]) == [""]
  {
  }

  lemma BypassPhrasesFrom3()
    ensures Phrases([["s", ""]])
         == ["s", ""]
  {
    hide Phrases, Prefixed;
    NoPhrases();
    var rest: Pattern := [];
    PhrasesTwo("s", "", rest);
    assert [["s", ""]] + rest == [["s", ""]];
    assert "s" + "" == "s" && "" + "" == "";
  }

  lemma BypassPhrasesFrom2()
    ensures Phrases([["approval"], ["s", ""]])
         == ["approvals", "approval"]
  {
    hide Phrases, Prefixed;
    BypassPhrasesFrom3();
    var rest: Pattern := [["s", ""]];
    PhrasesOne("approval", rest);
    assert [["approval"]] + rest == [["approval"], ["s", ""]];
    assert "approval" + "s" == "approvals" && "approval" + "" == "approval";
  }

  lemma BypassPhrasesFrom1()
    ensures Phrases([["all ", ""], ["approval"], ["s", ""]])
         == ["all approvals", "all approval", "approvals", "approval"]
  {
    hide Phrases, Prefixed;
    BypassPhrasesFrom2();
    var rest: Pattern := [["approval"], ["s", ""]];
    PhrasesTwo("all ", "", rest);
    assert [["all ", ""]] + rest == [["all ", ""], ["approval"], ["s", ""]];
    assert "all " + "approvals" == "all approvals" && "all " + "approval" == "all approval";
    assert "" + "approvals" == "approvals" && "" + "approval" == "approval";
  }

  lemma BypassPhrases()
    ensures Phrases([["bypass "], ["all ", ""], ["approval"], ["s", ""]])
         == ["bypass all approvals", "bypass all approval", "bypass approvals", "bypass approval"]
  {
    hide Phrases, Prefixed;
    BypassPhrasesFrom1();
    var rest: Pattern := [["all ", ""], ["approval"], ["s", ""]];
    PhrasesOne("bypass ", rest);
    assert [["bypass "]] + rest == [["bypass "], ["all ", ""], ["approval"], ["s", ""]];
    assert "bypass " + "all approvals" == "bypass all approvals" && "bypass " + "all approval" == "bypass all approval";
    assert "bypass " + "approvals" == "bypass approvals" && "bypass " + "approval" == "bypass approval";
  }

  lemma DisablePhrasesFrom2()
    ensures Phrases([["audit", "security"]])
         == ["audit", "security"]
  {
    hide Phrases, Prefixed;
    NoPhrases();
    var rest: Pattern := [];
    PhrasesTwo("audit", "security", rest);
    assert [["audit", "security"]] + rest == [["audit", "security"]];
    assert "audit" + "" == "audit" && "security" + "" == "security";
  }

  lemma DisablePhrasesFrom1()
    ensures Phrases([["the ", ""], ["audit", "security"]])
         == ["the audit", "the security", "audit", "security"]
  {
    hide Phrases, Prefixed;
    DisablePhrasesFrom2();
    var rest: Pattern := [["audit", "security"]];
    PhrasesTwo("the ", "", rest);
    assert [["the ", ""]] + rest == [["the ", ""], ["audit", "security"]];
    assert "the " + "audit" == "the audit" && "the " + "security" == "the security";
    assert "" + "audit" == "audit" && "" + "security" == "security";
  }

  lemma DisablePhrases()
    ensures Phrases([["disable "], ["the ", ""], ["audit", "security"]])
         == ["disable the audit", "disable the security", "disable audit", "disable security"]
  {
    hide Phrases, Prefixed;
    DisablePhrasesFrom1();
    var rest: Pattern := [["the ", ""], ["audit", "security"]];
    PhrasesOne("disable ", rest);
    assert [["disable "]] + rest == [["disable "], ["the ", ""], ["audit", "security"]];
    assert "disable " + "the audit" == "disable the audit" && "disable " + "the security" == "disable the security";
    assert "disable " + "audit" == "disable audit" && "disable " + "security" == "disable security";
  }

  lemma StealPhrases()
    ensures Phrases([["steal", "exfiltrat"]])
         == ["steal", "exfiltrat"]
  {
    hide Phrases, Prefixed;
    NoPhrases();
    var rest: Pattern := [];
    PhrasesTwo("steal", "exfiltrat", rest);
    assert [["steal", "exfiltrat"]] + rest == [["steal", "exfiltrat"]];
    assert "steal" + "" == "steal" && "exfiltrat" + "" == "exfiltrat";
  }

  lemma ShellPhrases()
    ensures Phrases([["raw.shell"]])
         == ["raw.shell"]
  {
    hide Phrases, Prefixed;
    NoPhrases();
    var rest: Pattern := [];
    PhrasesOne("raw.shell", rest);
    assert [["raw.shell"]] + rest == [["raw.shell"]];
    assert "raw.shell" + "" == "raw.shell";
  }

  lemma SelfPhrasesFrom4()
    ensures Phrases([[" code"]])
         == [" code"]
  {
    hide Phrases, Prefixed;
    NoPhrases();
    var rest: Pattern := [];
    PhrasesOne(" code", rest);
    assert [[" code"]] + rest == [[" code"]];
    assert " code" + "" == " code";
  }

  lemma SelfPhrasesFrom3()
    ensures Phrases([["ing", ""], [" code"]])
         == ["ing code", " code"]
  {
    hide Phrases, Prefixed;
    SelfPhrasesFrom4();
    var rest: Pattern := [[" code"]];
    PhrasesTwo("ing", "", rest);
    assert [["ing", ""]] + rest == [["ing", ""], [" code"]];
    assert "ing" + " code" == "ing code" && "" + " code" == " code";
  }

  lemma SelfPhrasesFrom2()
    ensures Phrases([["modify"], ["ing", ""], [" code"]])
         == ["modifying code", "modify code"]
  {
    hide Phrases, Prefixed;
    SelfPhrasesFrom3();
    var rest: Pattern := [["ing", ""], [" code"]];
    PhrasesOne("modify", rest);
    assert [["modify"]] + rest == [["modify"], ["ing", ""], [" code"]];
    assert "modify" + "ing code" == "modifying code" && "modify" + " code" == "modify code";
  }

  lemma SelfPhrasesFrom1()
    ensures Phrases([["-", " "], ["modify"], ["ing", ""], [" code"]])
         == ["-modifying code", "-modify code", " modifying code", " modify code"]
  {
    hide Phrases, Prefixed;
    SelfPhrasesFrom2();
    var rest: Pattern := [["modify"], ["ing", ""], [" code"]];
    PhrasesTwo("-", " ", rest);
    assert [["-", " "]] + rest == [["-", " "], ["modify"], ["ing", ""], [" code"]];
    assert "-" + "modifying code" == "-modifying code" && "-" + "modify code" == "-modify code";
    assert " " + "modifying code" == " modifying code" && " " + "modify code" == " modify code";
  }

  lemma SelfJoined()
    ensures "self" + "-modifying code" == "self-modifying code" && "self" + "-modify code" == "self-modify code"
    ensures "self" + " modifying code" == "self modifying code" && "self" + " modify code" == "self modify code"
  {
  }

  lemma SelfPhrases()
    ensures Phrases([["self"], ["-", " "], ["modify"], ["ing", ""], [" code"]])
         == ["self-modifying code", "self-modify code", "self modifying code", "self modify code"]
  {
    hide Phrases, Prefixed;
    SelfPhrasesFrom1();
    var rest: Pattern := [["-", " "], ["modify"], ["ing", ""], [" code"]];
    PhrasesOne("self", rest);
    assert [["self"]] + rest == [["self"], ["-", " "], ["modify"], ["ing", ""], [" code"]];
    SelfJoined();
  }

  /** Where a phrase stands, its beginnings stand too. */
  lemma OccursShorter(p: string, q: string, s: string)
    requires p <= q && Occurs(q, s)
    ensures Occurs(p, s)
  {
    var k :| 0 <= k <= |s| && OccursAt(q, s, k);
    forall i | 0 <= i < |p| ensures SameLetter(p[i], s[k..k + |p|][i]) {
      assert SameLetter(q[i], s[k..k + |q|][i]) && s[k..k + |q|][i] == s[k..k + |p|][i];
    }
    assert OccursAt(p, s, k);
  }

  lemma FindsBypass(s: string)
    ensures Finds(Phrases([["bypass "], ["all ", ""], ["approval"], ["s", ""]]), Fold(s)) <==>
              Occurs("bypass approval", s) || Occurs("bypass all approval", s)
  {
    hide Finds, Fold, Occurs, Phrases;
    BypassPhrases();
    var all := ["bypass all approvals", "bypass all approval", "bypass approvals", "bypass approval"];
    assert Small(all[0]) && Small(all[1]) && Small(all[2]) && Small(all[3]);
    FindsOccurs(all, s);
    if Occurs(all[0], s) { OccursShorter(all[1], all[0], s); }
    if Occurs(all[2], s) { OccursShorter(all[3], all[2], s); }
    assert Occurs(all[1], s) || Occurs(all[3], s) ==> exists i :: 0 <= i < |all| && Occurs(all[i], s);
  }

  lemma FindsDisable(s: string)
    ensures Finds(Phrases([["disable "], ["the ", ""], ["audit", "security"]]), Fold(s)) <==>
              || Occurs("disable audit", s) || Occurs("disable security", s)
              || Occurs("disable the audit", s) || Occurs("disable the security", s)
  {
    hide Finds, Fold, Occurs, Phrases;
    DisablePhrases();
    var all := ["disable the audit", "disable the security", "disable audit", "disable security"];
    assert Small(all[0]) && Small(all[1]) && Small(all[2]) && Small(all[3]);
    FindsOccurs(all, s);
  }

  lemma FindsSteal(s: string)
    ensures Finds(Phrases([["steal", "exfiltrat"]]), Fold(s)) <==> Occurs("steal", s) || Occurs("exfiltrat", s)
    ensures Finds(Phrases([["raw.shell"]]), Fold(s)) <==> Occurs("raw.shell", s)
  {
    hide Finds, Fold, Occurs, Phrases;
    StealPhrases();
    ShellPhrases();
    var two, one := ["steal", "exfiltrat"], ["raw.shell"];
    assert Small(two[0]) && Small(two[1]) && Small(one[0]);
    FindsOccurs(two, s);
    FindsOccurs(one, s);
  }

  lemma FindsSelf(s: string)
    ensures Finds(Phrases([["self"], ["-", " "], ["modify"], ["ing", ""], [" code"]]), Fold(s)) <==>
              || Occurs("self-modify code", s) || Occurs("self modify code", s)
              || Occurs("self-modifying code", s) || Occurs("self modifying code", s)
  {
    hide Finds, Fold, Occurs, Phrases;
    SelfPhrases();
    var all := ["self-modifying code", "self-modify code", "self modifying code", "self modify code"];
    assert Small(all[0]) && Small(all[1]) && Small(all[2]) && Small(all[3]);
    FindsOccurs(all, s);
  }

  /** Reading the phrases: a candidate is safe just when none of them stands anywhere in its text, in any mix of
      cases. */
  lemma SafeIffNothingUnsafe(c: Candidate)
    ensures Safe(c) <==> SaysNothingUnsafe(c.after)
  {
    hide Finds, Fold, Occurs, Phrases;
    FindsBypass(c.after);
    FindsDisable(c.after);
    FindsSteal(c.after);
    FindsSelf(c.after);
    FivePatterns(c);
    ThirteenPhrases(c.after);
  }

  lemma FivePatterns(c: Candidate)
    ensures Safe(c) <==>
      && !Finds(Phrases([["bypass "], ["all ", ""], ["approval"], ["s", ""]]), Fold(c.after))
      && !Finds(Phrases([["disable "], ["the ", ""], ["audit", "security"]]), Fold(c.after))
      && !Finds(Phrases([["steal", "exfiltrat"]]), Fold(c.after))
      && !Finds(Phrases([["raw.shell"]]), Fold(c.after))
      && !Finds(Phrases([["self"], ["-", " "], ["modify"], ["ing", ""], [" code"]]), Fold(c.after))
  {
    hide Finds, Fold, Phrases;
    assert |UNSAFE_PATTERNS| == 5;
    assert UNSAFE_PATTERNS[0] == [["bypass "], ["all ", ""], ["approval"], ["s", ""]];
    assert UNSAFE_PATTERNS[1] == [["disable "], ["the ", ""], ["audit", "security"]];
    assert UNSAFE_PATTERNS[2] == [["steal", "exfiltrat"]] && UNSAFE_PATTERNS[3] == [["raw.shell"]];
    assert UNSAFE_PATTERNS[4] == [["self"], ["-", " "], ["modify"], ["ing", ""], [" code"]];
  }

  lemma ThirteenPhrases(s: string)
    ensures SaysNothingUnsafe(s) <==>
      && !Occurs("bypass approval", s) && !Occurs("bypass all approval", s)
      && !Occurs("disable audit", s) && !Occurs("disable security", s)
      && !Occurs("disable the audit", s) && !Occurs("disable the security", s)
      && !Occurs("steal", s) && !Occurs("exfiltrat", s) && !Occurs("raw.shell", s)
      && !Occurs("self-modify code", s) && !Occurs("self modify code", s)
      && !Occurs("self-modifying code", s) && !Occurs("self modifying code", s)
  {
    hide Occurs;
    var p := UNSAFE_PHRASES;
    assert |p| == 13 && p[0] == "bypass approval" && p[1] == "bypass all approval";
    assert p[2] == "disable audit" && p[3] == "disable security";
    assert p[4] == "disable the audit" && p[5] == "disable the security";
    assert p[6] == "steal" && p[7] == "exfiltrat" && p[8] == "raw.shell";
    assert p[9] == "self-modify code" && p[10] == "self modify code";
    assert p[11] == "self-modifying code" && p[12] == "self modifying code";
  }

  /** Two texts that differ at most in the case of letters are both safe or both unsafe. */
  lemma CaseDoesNotMatter(c: Candidate, c': Candidate)
    requires SameLetters(c.after, c'.after)
    ensures Safe(c) == Safe(c')
  {
    hide Safe, Occurs, UNSAFE_PHRASES;
    SafeIffNothingUnsafe(c);
    SafeIffNothingUnsafe(c');
    forall i | 0 <= i < |UNSAFE_PHRASES|
      ensures Occurs(UNSAFE_PHRASES[i], c.after) <==> Occurs(UNSAFE_PHRASES[i], c'.after)
    {
      if Occurs(UNSAFE_PHRASES[i], c.after) { OccursAlike(UNSAFE_PHRASES[i], c.after, c'.after); }
      if Occurs(UNSAFE_PHRASES[i], c'.after) { OccursAlike(UNSAFE_PHRASES[i], c'.after, c.after); }
    }
  }

  lemma OccursAlike(phrase: string, s: string, t: string)
    requires SameLetters(s, t) && Occurs(phrase, s)
    ensures Occurs(phrase, t)
  {
    var k :| 0 <= k <= |s| && OccursAt(phrase, s, k);
    forall i | 0 <= i < |phrase| ensures SameLetter(phrase[i], t[k..k + |phrase|][i]) {
      assert SameLetter(phrase[i], s[k..k + |phrase|][i]) && SameLetter(s[k + i], t[k + i]);
    }
    assert OccursAt(phrase, t, k);
  }

  // ---------------------------------------------------------------- trimming and counting

  predicate Blank(s: string) {
    forall i :: 0 <= i < |s| ==> IsSpace(s[i])
  }

  lemma {:induction false} TrimStartIs(s: string) returns (a: string)
    ensures s == a + TrimStart(s) && Blank(a)
    ensures TrimStart(s) != "" ==> !IsSpace(TrimStart(s)[0])
  {
    if s != "" && IsSpace(s[0]) {
      a := TrimStartIs(s[1..]);
      a := [s[0]] + a;
    } else {
      a := "";
    }
  }

  lemma {:induction false} TrimEndIs(s: string) returns (b: string)
    ensures s == TrimEnd(s) + b && Blank(b)
    ensures TrimEnd(s) != "" ==> !IsSpace(TrimEnd(s)[|TrimEnd(s)| - 1])
  {
    if s != "" && IsSpace(s[|s| - 1]) {
      b := TrimEndIs(s[..|s| - 1]);
      b := b + [s[|s| - 1]];
    } else {
      b := "";
    }
  }

  /** Trimming takes away nothing but blanks at both ends, and all of them. */
  lemma TrimIs(s: string) returns (a: string, b: string)
    ensures s == a + Trim(s) + b && Blank(a) && Blank(b)
    ensures Trim(s) != "" ==> !IsSpace(Trim(s)[0]) && !IsSpace(Trim(s)[|Trim(s)| - 1])
  {
    a := TrimStartIs(s);
    b := TrimEndIs(TrimStart(s));
  }

  /** Characters outside the basic plane count twice. */
  lemma {:induction false} UnitsAre(s: string, t: string)
    ensures Units(s + t) == Units(s) + Units(t)
    ensures |s| <= Units(s) && ((forall i :: 0 <= i < |s| ==> s[i] < '\U{10000}') ==> Units(s) == |s|)
    ensures (forall i :: 0 <= i < |s| ==> s[i] >= '\U{10000}') ==> Units(s) == 2 * |s|
    decreases |s| + |t|
  {
    if t == "" {
      assert s + t == s;
      if s != "" {
        UnitsAre(s[..|s| - 1], "");
      }
    } else {
      assert (s + t)[..|s + t| - 1] == s + t[..|t| - 1];
      UnitsAre(s, t[..|t| - 1]);
    }
  }

  // ---------------------------------------------------------------- the verdict

  /** Passing is a matter of the content alone. */
  lemma PassesByContent(c: Candidate, c': Candidate)
    requires c.before == c'.before && c.after == c'.after
    ensures Passes(c) == Passes(c') && Safe(c) == Safe(c')
  {
    hide Finds, Trim, Units;
  }

  /** A candidate becomes ready just when its content changed, is at least 8 units long and says nothing unsafe, in
      whatever mix of cases; else it has failed. The score counts thousandths of the three points, and the threshold
      leaves no room for two of them. Nothing but the verdict changes. */
  lemma ReadyIff(c: Candidate)
    ensures var e := Evaluate(c);
      var changed, meaningful := Trim(c.before) != Trim(c.after), Units(Trim(c.after)) >= 8;
      var safe := SaysNothingUnsafe(c.after);
      && e == c.(status := e.status, score := e.score, safetyPassed := Some(safe))
      && e.status == (if changed && meaningful && safe then Ready else Failed)
      && (e.status == Ready <==> Passes(c))
      && e.score == match One(changed) + One(meaningful) + One(safe)
                    case 3 => Some(1000) case 2 => Some(667) case 1 => Some(333) case _ => Some(0)
  {
    hide Safe, SaysNothingUnsafe, Trim, Units;
    SafeIffNothingUnsafe(c);
    assert Score(0) == 0 && Score(1) == 333 && Score(2) == 667 && Score(3) == 1000;
  }

  /** A text with an unsafe phrase in it, in any mix of cases, is never made ready. */
  lemma UnsafeNeverReady(c: Candidate, i: nat, k: nat)
    requires i < |UNSAFE_PHRASES| && k + |UNSAFE_PHRASES[i]| <= |c.after|
    requires SameLetters(UNSAFE_PHRASES[i], c.after[k..k + |UNSAFE_PHRASES[i]|])
    ensures Evaluate(c).status == Failed && Evaluate(c).safetyPassed == Some(false)
  {
    hide Evaluate, Trim, Units, UNSAFE_PHRASES, SameLetters;
    ReadyIff(c);
    assert OccursAt(UNSAFE_PHRASES[i], c.after, k);
  }
}

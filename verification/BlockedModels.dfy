// The blocked-model matcher of packages/core/src/model-blocking.ts: names without a
// wildcard go to a set compared by toLowerCase, patterns with one are compiled to the
// source of a regular expression with the flags i and u. Names are ASCII without line
// breaks; patterns are any text.
module BlockedModels {
  import opened JsonValues
  import Texts

  const LONG_S: char := '\U{17F}'
  const KELVIN_SIGN: char := '\U{212A}'
  const DOTTED_I: char := '\U{130}'
  const COMBINING_DOT: char := '\U{307}'

  predicate IsAscii(c: char) {
    c < '\U{80}'
  }

  predicate IsLineTerminator(c: char) {
    c == '\n' || c == '\r' || c == '\U{2028}' || c == '\U{2029}'
  }

  predicate IsName(s: string) {
    forall i :: 0 <= i < |s| ==> IsAscii(s[i]) && !IsLineTerminator(s[i])
  }

  function AsciiLower(c: char): char
    requires IsAscii(c)
  {
    if 'A' <= c <= 'Z' then (c as int + 32) as char else c
  }

  // Simple case folding, by which /iu compares characters. Only two characters outside
  // ASCII fold into it; where the others fold to makes no difference to an ASCII name.
  function Fold(c: char): char {
    if c == LONG_S then 's'
    else if c == KELVIN_SIGN then 'k'
    else if IsAscii(c) then AsciiLower(c)
    else c
  }

  // toLowerCase of one character. The long s is lower case already; only the Kelvin sign
  // goes into ASCII, and a dotted I becomes an i with a combining mark.
  function LowerChar(c: char): string {
    if c == KELVIN_SIGN then "k"
    else if c == DOTTED_I then ['i', COMBINING_DOT]
    else if IsAscii(c) then [AsciiLower(c)]
    else [c]
  }

  function Lower(s: string): string {
    if s == "" then "" else LowerChar(s[0]) + Lower(s[1..])
  }

  // ---- Glob patterns: what they mean --------------------------------------------------

  // `*` is any run of characters, `?` any one, everything else itself up to case.
  predicate Glob(pattern: string, name: string)
    decreases |pattern|
  {
    if pattern == "" then name == ""
    else if pattern[0] == '*' then exists k :: 0 <= k <= |name| && Glob(pattern[1..], name[k..])
    else name != "" && (pattern[0] == '?' || Fold(pattern[0]) == Fold(name[0])) && Glob(pattern[1..], name[1..])
  }

  predicate ContainsWildcard(pattern: string) {
    '*' in pattern || '?' in pattern
  }

  // ---- Regular expressions --------------------------------------------------------------

  const SYNTAX_CHARACTERS := "^$\\.*+?()[]{}|"

  datatype Atom = Literal(c: char) | AnyChar

  datatype Term = InputStart | InputEnd | One(atom: Atom) | Star(atom: Atom)

  // An atom and the quantifier after it; only the quantifier `*` is read here.
  function ParseAtom(atom: Atom, rest: string): (r: Option<(Term, string)>)
    ensures r.Some? ==> |r.value.1| <= |rest|
  {
    if rest == "" then Some((One(atom), rest))
    else if rest[0] == '*' then
      if |rest| > 1 && rest[1] in "*+?{" then None else Some((Star(atom), rest[1..]))
    else if rest[0] in "+?{" then None
    else Some((One(atom), rest))
  }

  // The first term of a pattern in Unicode mode, where a syntax character stands for itself
  // only behind a backslash. None for what is not a pattern, and for syntax not read here.
  function ParseTerm(source: string): (r: Option<(Term, string)>)
    requires source != ""
    ensures r.Some? ==> |r.value.1| < |source|
  {
    var c := source[0];
    if c == '^' then Some((InputStart, source[1..]))
    else if c == '$' then Some((InputEnd, source[1..]))
    else if c == '\\' then
      if |source| > 1 && (source[1] in SYNTAX_CHARACTERS || source[1] == '/')
      then ParseAtom(Literal(source[1]), source[2..]) else None
    else if c == '.' then ParseAtom(AnyChar, source[1..])
    else if c in SYNTAX_CHARACTERS then None
    else ParseAtom(Literal(c), source[1..])
  }

  function Parse(source: string): Option<seq<Term>>
    decreases |source|
  {
    if source == "" then Some([])
    else
      var first := ParseTerm(source);
      if first.None? then None
      else
        var terms := Parse(first.value.1);
        if terms.None? then None else Some([first.value.0] + terms.value)
  }

  predicate AtomMatches(atom: Atom, c: char) {
    match atom
    case Literal(x) => Fold(x) == Fold(c)
    case AnyChar => !IsLineTerminator(c)
  }

  // Whether the terms match the input from position `at` on.
  predicate MatchesAt(terms: seq<Term>, input: string, at: nat)
    requires at <= |input|
    decreases |terms|, |input| - at
  {
    if terms == [] then true
    else
      match terms[0]
      case InputStart => at == 0 && MatchesAt(terms[1..], input, at)
      case InputEnd => at == |input| && MatchesAt(terms[1..], input, at)
      case One(atom) => at < |input| && AtomMatches(atom, input[at]) && MatchesAt(terms[1..], input, at + 1)
      case Star(atom) =>
        MatchesAt(terms[1..], input, at) ||
        (at < |input| && AtomMatches(atom, input[at]) && MatchesAt(terms, input, at + 1))
  }

  // RegExp.prototype.test: some position of the input starts a match.
  predicate Test(source: string, input: string) {
    var terms := Parse(source);
    terms.Some? && exists at :: 0 <= at <= |input| && MatchesAt(terms.value, input, at)
  }

  // ---- Compiling a pattern ----------------------------------------------------------------

  function EscapeRegExpChar(c: char): string {
    if c in SYNTAX_CHARACTERS then ['\\', c] else [c]
  }

  function Piece(c: char): string {
    if c == '*' then ".*" else if c == '?' then "." else EscapeRegExpChar(c)
  }

  function Pieces(pattern: string): string {
    if pattern == "" then "" else Piece(pattern[0]) + Pieces(pattern[1..])
  }

  lemma {:induction false} PiecesAppend(front: string, c: char)
    ensures Pieces(front + [c]) == Pieces(front) + Piece(c)
  {
    if front == "" {
      assert ([c])[1..] == "";
      assert Pieces("") == "";
      assert front + [c] == [c];
    } else {
      PiecesAppend(front[1..], c);
      assert (front + [c])[1..] == front[1..] + [c];
    }
  }

  method GlobToRegExp(pattern: string) returns (source: string)
    ensures source == "^" + Pieces(pattern) + "$"
  {
    source := "^";
    var i := 0;
    while i < |pattern|
      invariant 0 <= i <= |pattern|
      invariant source == "^" + Pieces(pattern[..i])
    {
      var ch := pattern[i];
      PiecesAppend(pattern[..i], ch);
      assert pattern[..i + 1] == pattern[..i] + [ch];
      if ch == '*' {
        source := source + ".*";
      } else if ch == '?' {
        source := source + ".";
      } else {
        source := source + EscapeRegExpChar(ch);
      }
      i := i + 1;
    }
    assert pattern[..i] == pattern;
    source := source + "$";
  }

  // The terms that a pattern is meant to become.
  function Terms(pattern: string): seq<Term> {
    if pattern == "" then [InputEnd] else [TermOf(pattern[0])] + Terms(pattern[1..])
  }

  // What follows a piece never starts with a quantifier.
  lemma {:induction false} NoQuantifierNext(pattern: string)
    ensures var rest := Pieces(pattern) + "$"; rest != "" && rest[0] !in "*+?{"
  {
    if pattern != "" {
      assert (Pieces(pattern) + "$")[0] == Piece(pattern[0])[0];
    }
  }

  function TermOf(c: char): Term {
    if c == '*' then Star(AnyChar) else if c == '?' then One(AnyChar) else One(Literal(c))
  }

  lemma ParsePiece(c: char, rest: string)
    requires rest != "" && rest[0] !in "*+?{"
    ensures ParseTerm(Piece(c) + rest) == Some((TermOf(c), rest))
  {
    var source := Piece(c) + rest;
    if c == '*' {
      assert source[1..] == "*" + rest && (source[1..])[1..] == rest;
    } else if c == '?' {
      assert source[1..] == rest;
    } else {
      ParseEscaped(c, rest);
    }
  }

  lemma ParseEscaped(c: char, rest: string)
    requires rest != "" && rest[0] !in "*+?{"
    ensures ParseTerm(EscapeRegExpChar(c) + rest) == Some((One(Literal(c)), rest))
  {
    var source := EscapeRegExpChar(c) + rest;
    if c in SYNTAX_CHARACTERS {
      assert source[0] == '\\' && source[1] == c && source[2..] == rest;
    } else {
      assert source[0] == c && source[1..] == rest;
      NotSyntax(c);
    }
  }

  lemma NotSyntax(c: char)
    requires c !in SYNTAX_CHARACTERS
    ensures c != '^' && c != '$' && c != '\\' && c != '.'
  {
    var s := SYNTAX_CHARACTERS;
    assert s[0] == '^' && s[1] == '$' && s[2] == '\\' && s[3] == '.';
  }

  lemma {:induction false} ParsePieces(pattern: string)
    ensures Parse(Pieces(pattern) + "$") == Some(Terms(pattern))
  {
    hide ParseTerm, Piece;
    if pattern == "" {
      ParseEnd();
      assert Pieces(pattern) + "$" == "$";
    } else {
      var rest := Pieces(pattern[1..]) + "$";
      assert Pieces(pattern) + "$" == Piece(pattern[0]) + rest;
      NoQuantifierNext(pattern[1..]);
      ParsePiece(pattern[0], rest);
      ParsePieces(pattern[1..]);
      PieceIsNotEmpty(pattern[0]);
    }
  }

  lemma PieceIsNotEmpty(c: char)
    ensures Piece(c) != ""
  {
  }

  lemma ParseEnd()
    ensures Parse("$") == Some([InputEnd])
  {
    assert "$"[1..] == "";
    assert ParseTerm("$") == Some((InputEnd, ""));
    assert Parse("") == Some([]);
    assert [InputEnd] + [] == [InputEnd];
  }

  // Every pattern, whatever its characters, compiles to a regular expression, and to the
  // one meant.
  lemma {:induction false} CompiledPatternParses(pattern: string)
    ensures Parse("^" + Pieces(pattern) + "$") == Some([InputStart] + Terms(pattern))
  {
    ParsePieces(pattern);
    var source := "^" + Pieces(pattern) + "$";
    assert source[1..] == Pieces(pattern) + "$";
  }

  lemma {:induction false} TermsMeanGlob(pattern: string, name: string, at: nat)
    requires IsName(name) && at <= |name|
    ensures MatchesAt(Terms(pattern), name, at) <==> Glob(pattern, name[at..])
    decreases |pattern|, |name| - at
  {
    var terms := Terms(pattern);
    if pattern == "" {
      assert terms[1..] == [];
    } else {
      assert terms[1..] == Terms(pattern[1..]);
      var rest := name[at..];
      if pattern[0] == '*' {
        TermsMeanGlob(pattern[1..], name, at);
        assert rest[0..] == rest;
        if at < |name| {
          TermsMeanGlob(pattern, name, at + 1);
          StarTakesOne(pattern, rest);
          assert rest[1..] == name[at + 1..];
        } else {
          assert rest == "";
        }
      } else if at < |name| {
        TermsMeanGlob(pattern[1..], name, at + 1);
        assert rest[1..] == name[at + 1..] && rest[0] == name[at];
      }
    }
  }

  // A star takes nothing, or one character and then as before.
  lemma {:induction false} StarTakesOne(pattern: string, name: string)
    requires pattern != "" && pattern[0] == '*' && name != ""
    ensures Glob(pattern, name) <==> Glob(pattern[1..], name) || Glob(pattern, name[1..])
  {
    var p := pattern[1..];
    if Glob(pattern, name) {
      var k :| 0 <= k <= |name| && Glob(p, name[k..]);
      if k == 0 {
        assert name[0..] == name;
      } else {
        assert name[1..][k - 1..] == name[k..];
      }
    }
    if Glob(p, name) { assert name[0..] == name; }
    if Glob(pattern, name[1..]) {
      var k :| 0 <= k <= |name[1..]| && Glob(p, name[1..][k..]);
      assert name[1..][k..] == name[k + 1..];
    }
  }

  // The compiled expression matches exactly the names the pattern means.
  lemma {:induction false} CompiledPatternMeansGlob(pattern: string, name: string)
    requires IsName(name)
    ensures Test("^" + Pieces(pattern) + "$", name) <==> Glob(pattern, name)
  {
    CompiledPatternParses(pattern);
    var terms := [InputStart] + Terms(pattern);
    assert terms[1..] == Terms(pattern);
    TermsMeanGlob(pattern, name, 0);
    assert name[0..] == name;
    assert MatchesAt(terms, name, 0) <==> Glob(pattern, name);
  }

  // ---- The matcher ----------------------------------------------------------------------

  // The set of exact names, lower-cased, and the sources of the compiled patterns.
  datatype Matcher = Matcher(exact: set<string>, wildcard: seq<string>)

  predicate Matches(m: Matcher, model: string) {
    Lower(model) in m.exact || exists i :: 0 <= i < |m.wildcard| && Test(m.wildcard[i], model)
  }

  predicate IsExactEntry(raw: string) {
    Texts.Trim(raw) != "" && !ContainsWildcard(Texts.Trim(raw))
  }

  predicate IsWildcardEntry(raw: string) {
    Texts.Trim(raw) != "" && ContainsWildcard(Texts.Trim(raw))
  }

  // What the matcher holds after reading `entries`.
  ghost predicate Holds(entries: seq<string>, exact: set<string>, wildcard: seq<string>) {
    && (forall name :: name in exact <==>
        exists i :: 0 <= i < |entries| && IsExactEntry(entries[i]) && name == Lower(Texts.Trim(entries[i])))
    && (forall source :: source in wildcard <==>
          exists i :: 0 <= i < |entries| && IsWildcardEntry(entries[i]) &&
              source == "^" + Pieces(Texts.Trim(entries[i])) + "$")
  }

  method CreateBlockedModelMatcher(blockedModels: Option<seq<string>>) returns (m: Option<Matcher>)
    ensures m.Some? <==>
            blockedModels.Some? &&
            exists i :: 0 <= i < |blockedModels.value| && Texts.Trim(blockedModels.value[i]) != ""
    ensures m.Some? ==> Holds(blockedModels.value, m.value.exact, m.value.wildcard)
  {
    hide Texts.Trim, Pieces, Lower;
    if blockedModels.None? || |blockedModels.value| == 0 { return None; }
    var blocked := blockedModels.value;
    var exact: set<string> := {};
    var wildcard: seq<string> := [];
    var i := 0;
    while i < |blocked|
      invariant 0 <= i <= |blocked|
      invariant Holds(blocked[..i], exact, wildcard)
      invariant exact == {} && wildcard == [] <==> forall k :: 0 <= k < i ==> Texts.Trim(blocked[k]) == ""
    {
      var pattern := Texts.Trim(blocked[i]);
      ghost var e, w := exact, wildcard;
      if |pattern| > 0 {
        if ContainsWildcard(pattern) {
          var source := GlobToRegExp(pattern);
          wildcard := wildcard + [source];
        } else {
          exact := exact + {Lower(pattern)};
        }
      }
      HoldsNext(blocked, i, e, w, exact, wildcard);
      i := i + 1;
    }
    assert blocked[..i] == blocked;
    if |exact| == 0 && |wildcard| == 0 { return None; }
    return Some(Matcher(exact, wildcard));
  }

  lemma HoldsNext(blocked: seq<string>, i: nat, e: set<string>, w: seq<string>, exact: set<string>,
                  wildcard: seq<string>)
    requires i < |blocked| && Holds(blocked[..i], e, w)
    requires exact == if IsExactEntry(blocked[i]) then e + {Lower(Texts.Trim(blocked[i]))} else e
    requires wildcard == if IsWildcardEntry(blocked[i]) then w + ["^" + Pieces(Texts.Trim(blocked[i])) + "$"] else w
    ensures Holds(blocked[..i + 1], exact, wildcard)
  {
    hide Texts.Trim, Pieces, Lower, ContainsWildcard;
    var now := blocked[..i + 1];
    assert forall k :: 0 <= k < i ==> now[k] == blocked[..i][k];
    assert now[i] == blocked[i];
  }

  // ---- Exact names ------------------------------------------------------------------------

  predicate AllAscii(s: string) {
    forall i :: 0 <= i < |s| ==> IsAscii(s[i])
  }

  lemma {:induction false} LowerOfAscii(s: string)
    requires AllAscii(s)
    ensures |Lower(s)| == |s| && forall i :: 0 <= i < |s| ==> Lower(s)[i] == AsciiLower(s[i])
  {
    if s != "" { LowerOfAscii(s[1..]); }
  }

  // The two characters agree for the set lookup, and they agree up to case.
  predicate SameLower(p: char, c: char) {
    LowerChar(p) == LowerChar(c)
  }

  lemma LowerAgreesUnlessLongS(p: char, c: char)
    requires IsAscii(c)
    ensures SameLower(p, c) <==> Fold(p) == Fold(c) && p != LONG_S
  {
  }

  // Lower-casing is compared character by character when the name is ASCII: nothing but
  // one character goes to one ASCII character.
  lemma {:induction false} LowerIsCharByChar(pattern: string, name: string)
    requires AllAscii(name)
    ensures Lower(pattern) == Lower(name) <==>
            |pattern| == |name| && forall i :: 0 <= i < |name| ==> SameLower(pattern[i], name[i])
  {
    LowerOfAscii(name);
    if pattern == "" || name == "" {
      if pattern != "" { assert LowerChar(pattern[0]) != ""; }
    } else {
      LowerIsCharByChar(pattern[1..], name[1..]);
      LowerOfAscii(name[1..]);
      LowerSplits(pattern, name);
      assert |pattern| == |name| ==> forall i :: 1 <= i < |name| ==>
          pattern[i] == pattern[1..][i - 1] && name[i] == name[1..][i - 1];
    }
  }

  lemma LowerCharShape(c: char)
    ensures |LowerChar(c)| == 1 || (|LowerChar(c)| == 2 && !IsAscii(LowerChar(c)[1]))
  {
  }

  lemma {:induction false} LowerSplits(pattern: string, name: string)
    requires pattern != "" && name != "" && AllAscii(name)
    ensures Lower(pattern) == Lower(name) <==> SameLower(pattern[0], name[0]) && Lower(pattern[1..]) == Lower(name[1..])
  {
    var p, n := LowerChar(pattern[0]), LowerChar(name[0]);
    LowerOfAscii(name);
    assert Lower(pattern) == p + Lower(pattern[1..]) && Lower(name) == n + Lower(name[1..]);
    if Lower(pattern) == Lower(name) {
      assert forall i :: 0 <= i < |p| ==> p[i] == Lower(name)[i];
      LowerCharShape(pattern[0]);
      assert (p + Lower(pattern[1..]))[1..] == Lower(pattern[1..]);
      assert (n + Lower(name[1..]))[1..] == Lower(name[1..]);
      assert p[0] == n[0];
    }
  }

  lemma {:induction false} GlobWithoutWildcard(pattern: string, name: string)
    requires !ContainsWildcard(pattern)
    ensures Glob(pattern, name) <==>
            |pattern| == |name| && forall i :: 0 <= i < |name| ==> Fold(pattern[i]) == Fold(name[i])
  {
    if pattern != "" && name != "" {
      assert pattern[0] in pattern;
      assert !ContainsWildcard(pattern[1..]) by {
        assert forall c :: c in pattern[1..] ==> c in pattern;
      }
      GlobWithoutWildcard(pattern[1..], name[1..]);
      assert |pattern| == |name| ==> forall i :: 1 <= i < |name| ==>
          pattern[i] == pattern[1..][i - 1] && name[i] == name[1..][i - 1];
    } else if pattern != "" {
      assert pattern[0] in pattern;
    }
  }

  // The lookup in the set means the same as the pattern, but for a long s.
  lemma {:induction false} LookupMeansGlob(pattern: string, name: string)
    requires AllAscii(name) && !ContainsWildcard(pattern)
    ensures Lower(pattern) == Lower(name) <==> Glob(pattern, name) && LONG_S !in pattern
  {
    LowerIsCharByChar(pattern, name);
    GlobWithoutWildcard(pattern, name);
    if |pattern| == |name| {
      forall i | 0 <= i < |name|
        ensures SameLower(pattern[i], name[i]) <==> Fold(pattern[i]) == Fold(name[i]) && pattern[i] != LONG_S
      {
        LowerAgreesUnlessLongS(pattern[i], name[i]);
      }
    }
  }

  lemma {:induction false} GlobFoldsToAscii(pattern: string, name: string)
    requires AllAscii(name) && !ContainsWildcard(pattern)
    ensures Glob(pattern, name) ==> forall i :: 0 <= i < |pattern| ==> IsAscii(Fold(pattern[i]))
  {
    GlobWithoutWildcard(pattern, name);
    forall i | 0 <= i < |pattern| && i < |name|
      ensures Fold(pattern[i]) == Fold(name[i]) ==> IsAscii(Fold(pattern[i]))
    {
      assert IsAscii(name[i]);
    }
  }

  // A pattern that the set lookup and the compiled expression read differently: it has a
  // long s, and the rest of it is ASCII up to case.
  predicate ReadsDifferently(pattern: string) {
    LONG_S in pattern && forall i :: 0 <= i < |pattern| ==> IsAscii(Fold(pattern[i]))
  }

  function Folded(pattern: string): string {
    seq(|pattern|, i requires 0 <= i < |pattern| => Fold(pattern[i]))
  }

  // The shortcut through the set is right for every ASCII name exactly when the pattern is
  // not one of those.
  lemma {:induction false} ShortcutIsExactIff(pattern: string)
    requires !ContainsWildcard(pattern)
    ensures (forall name :: AllAscii(name) ==> (Lower(pattern) == Lower(name) <==> Glob(pattern, name))) <==>
            !ReadsDifferently(pattern)
  {
    if ReadsDifferently(pattern) {
      var name := Folded(pattern);
      LookupMeansGlob(pattern, name);
      GlobWithoutWildcard(pattern, name);
      assert AllAscii(name) && Glob(pattern, name);
    } else {
      forall name | AllAscii(name) ensures Lower(pattern) == Lower(name) <==> Glob(pattern, name) {
        LookupMeansGlob(pattern, name);
        GlobFoldsToAscii(pattern, name);
      }
    }
  }

  // An entry of the list blocks a name: trimmed, it is not empty and means the name.
  ghost predicate Blocks(raw: string, name: string) {
    Texts.Trim(raw) != "" && Glob(Texts.Trim(raw), name)
  }

  // The entry behind a match, and the match behind an entry.
  lemma {:induction false} MatchedEntry(entries: seq<string>, m: Matcher, name: string)
    requires Holds(entries, m.exact, m.wildcard)
    requires forall i :: 0 <= i < |entries| && IsExactEntry(entries[i]) ==>
               (Lower(Texts.Trim(entries[i])) == Lower(name) <==> BlocksInFact(entries[i], name))
    requires forall i :: 0 <= i < |entries| && IsWildcardEntry(entries[i]) ==>
               (Test("^" + Pieces(Texts.Trim(entries[i])) + "$", name) <==> BlocksInFact(entries[i], name))
    ensures Matches(m, name) ==> exists i :: 0 <= i < |entries| && BlocksInFact(entries[i], name)
  {
    hide Texts.Trim, Test, Pieces, Glob, Lower, BlocksInFact, ContainsWildcard;
    if Lower(name) in m.exact {
      var i :| 0 <= i < |entries| && IsExactEntry(entries[i]) && Lower(name) == Lower(Texts.Trim(entries[i]));
      assert BlocksInFact(entries[i], name);
    } else if Matches(m, name) {
      var k :| 0 <= k < |m.wildcard| && Test(m.wildcard[k], name);
      assert m.wildcard[k] in m.wildcard;
      var i :| 0 <= i < |entries| && IsWildcardEntry(entries[i]) &&
          m.wildcard[k] == "^" + Pieces(Texts.Trim(entries[i])) + "$";
      assert BlocksInFact(entries[i], name);
    }
  }

  lemma {:induction false} BlockingEntry(entries: seq<string>, m: Matcher, name: string)
    requires Holds(entries, m.exact, m.wildcard)
    requires forall i :: 0 <= i < |entries| && IsExactEntry(entries[i]) ==>
               (Lower(Texts.Trim(entries[i])) == Lower(name) <==> BlocksInFact(entries[i], name))
    requires forall i :: 0 <= i < |entries| && IsWildcardEntry(entries[i]) ==>
               (Test("^" + Pieces(Texts.Trim(entries[i])) + "$", name) <==> BlocksInFact(entries[i], name))
    ensures (exists i :: 0 <= i < |entries| && BlocksInFact(entries[i], name)) ==> Matches(m, name)
  {
    hide Texts.Trim, Test, Pieces, Glob, Lower, ContainsWildcard;
    if i :| 0 <= i < |entries| && BlocksInFact(entries[i], name) {
      if IsWildcardEntry(entries[i]) {
        var source := "^" + Pieces(Texts.Trim(entries[i])) + "$";
        assert source in m.wildcard;
        var k :| 0 <= k < |m.wildcard| && m.wildcard[k] == source;
        assert Test(m.wildcard[k], name);
      } else {
        assert IsExactEntry(entries[i]);
        assert Lower(Texts.Trim(entries[i])) in m.exact;
      }
    }
  }

  // What an entry blocks in fact: an exact entry with a long s blocks no ASCII name.
  ghost predicate BlocksInFact(raw: string, name: string) {
    Blocks(raw, name) && (IsWildcardEntry(raw) || LONG_S !in Texts.Trim(raw))
  }

  // The matcher blocks an ASCII name exactly when some entry does.
  lemma MatcherBlocksWhatEntriesDo(entries: seq<string>, m: Matcher, name: string)
    requires Holds(entries, m.exact, m.wildcard) && IsName(name)
    ensures Matches(m, name) <==> exists i :: 0 <= i < |entries| && BlocksInFact(entries[i], name)
  {
    hide Texts.Trim, Test, Pieces, Glob, Lower, ContainsWildcard;
    forall i | 0 <= i < |entries| && IsExactEntry(entries[i])
      ensures Lower(Texts.Trim(entries[i])) == Lower(name) <==> BlocksInFact(entries[i], name)
    {
      LookupMeansGlob(Texts.Trim(entries[i]), name);
    }
    forall i | 0 <= i < |entries| && IsWildcardEntry(entries[i])
      ensures Test("^" + Pieces(Texts.Trim(entries[i])) + "$", name) <==> BlocksInFact(entries[i], name)
    {
      CompiledPatternMeansGlob(Texts.Trim(entries[i]), name);
    }
    MatchedEntry(entries, m, name);
    BlockingEntry(entries, m, name);
  }

  // So it blocks exactly what the entries mean as patterns, as long as none of the exact
  // ones is read differently by the two ways of comparing.
  lemma MatcherMeansGlobs(entries: seq<string>, m: Matcher, name: string)
    requires Holds(entries, m.exact, m.wildcard) && IsName(name)
    requires forall i :: 0 <= i < |entries| && IsExactEntry(entries[i]) ==> !ReadsDifferently(Texts.Trim(entries[i]))
    ensures Matches(m, name) <==> exists i :: 0 <= i < |entries| && Blocks(entries[i], name)
  {
    hide Texts.Trim, Matches, Holds, Glob, Lower, ContainsWildcard;
    MatcherBlocksWhatEntriesDo(entries, m, name);
    forall i | 0 <= i < |entries| ensures Blocks(entries[i], name) <==> BlocksInFact(entries[i], name) {
      if !IsWildcardEntry(entries[i]) && Texts.Trim(entries[i]) != "" {
        GlobFoldsToAscii(Texts.Trim(entries[i]), name);
      }
    }
  }

  // With a long s the same word blocks or does not block depending on whether the entry
  // also has a wildcard.
  lemma LongSIsReadTwoWays()
    ensures var pattern := [LONG_S]; var starred := [LONG_S, '*'];
            Lower(pattern) != Lower("s") && Test("^" + Pieces(starred) + "$", "s")
  {
    var pattern, starred := [LONG_S], [LONG_S, '*'];
    LowerIsCharByChar(pattern, "s");
    assert !SameLower(pattern[0], "s"[0]);
    CompiledPatternMeansGlob(starred, "s");
    assert starred[1..] == "*" && "s"[1..] == "" && "*"[1..] == "";
    assert ""[0..] == "" && Glob("", "");
    assert Glob("*", "");
  }

  // ---- What a glob means, piece by piece -----------------------------------------------

  const CAPITALS := "ABCDEFGHIJKLMNOPQRSTUVWXYZ"
  const SMALL := "abcdefghijklmnopqrstuvwxyz"

  // The same character, or the same letter in the other case.
  ghost predicate SameLetter(a: char, b: char) {
    a == b || exists k :: 0 <= k < 26 && Case(k, a, b)
  }

  ghost predicate Case(k: nat, a: char, b: char)
    requires k < 26
  {
    (a == CAPITALS[k] && b == SMALL[k]) || (a == SMALL[k] && b == CAPITALS[k])
  }

  lemma LetterAt(k: nat)
    requires k < 26
    ensures CAPITALS[k] as int == 'A' as int + k && SMALL[k] as int == 'a' as int + k
  {
  }

  lemma LowerComparesLetters(a: char, b: char)
    requires IsAscii(a) && IsAscii(b)
    ensures AsciiLower(a) == AsciiLower(b) <==> SameLetter(a, b)
  {
    forall k | 0 <= k < 26 { LetterAt(k); }
    if AsciiLower(a) == AsciiLower(b) && a != b {
      assert Case(AsciiLower(b) as int - 'a' as int, a, b);
    }
  }

  // Folding compares letters; besides, the long s is an s and the Kelvin sign a k.
  lemma FoldComparesLetters(c: char, d: char)
    requires IsAscii(d)
    ensures Fold(c) == Fold(d) <==>
            SameLetter(c, d) || (c == LONG_S && SameLetter('s', d)) || (c == KELVIN_SIGN && SameLetter('k', d))
  {
    forall a | IsAscii(a) { LowerComparesLetters(a, d); }
    if !IsAscii(c) { LettersAreAscii(c, d); }
    hide SameLetter;
  }

  lemma LettersAreAscii(c: char, d: char)
    requires !IsAscii(c) && IsAscii(d)
    ensures !SameLetter(c, d)
  {
    forall k | 0 <= k < 26 { LetterAt(k); }
  }

  // A star is any text, a question mark any character, everything else itself up to case.
  lemma {:induction false} GlobOfOne(c: char, name: string)
    requires AllAscii(name)
    ensures c == '*' ==> Glob([c], name)
    ensures c == '?' ==> (Glob([c], name) <==> |name| == 1)
    ensures c != '*' && c != '?' && IsAscii(c) ==> (Glob([c], name) <==> |name| == 1 && SameLetter(c, name[0]))
  {
    hide Fold, SameLetter, IsAscii;
    assert [c][1..] == "";
    if c == '*' {
      assert name[|name|..] == "";
      assert Glob([c][1..], name[|name|..]);
    } else if name != "" {
      assert IsAscii(name[0]);
      FoldComparesLetters(c, name[0]);
      assert Glob([c][1..], name[1..]) <==> |name| == 1;
      if IsAscii(c) { NoSpecialCharacter(c); }
    }
  }

  lemma NoSpecialCharacter(c: char)
    requires IsAscii(c)
    ensures c != LONG_S && c != KELVIN_SIGN
  {
  }

  // Patterns in a row match names in a row.
  lemma {:induction false} GlobOfConcatenation(p: string, q: string, name: string)
    ensures Glob(p + q, name) <==> exists k :: 0 <= k <= |name| && Glob(p, name[..k]) && Glob(q, name[k..])
    decreases |p|
  {
    hide Fold;
    if p == "" {
      assert p + q == q && name[..0] == "" && name[0..] == name;
    } else {
      var rest := p[1..];
      assert (p + q)[1..] == rest + q;
      if p[0] == '*' {
        StarThenConcatenation(p, q, name);
      } else if name != "" {
        GlobOfConcatenation(rest, q, name[1..]);
        OneThenConcatenation(p, q, name);
      }
    }
  }

  lemma {:induction false} StarThenConcatenation(p: string, q: string, name: string)
    requires p != "" && p[0] == '*'
    ensures Glob(p + q, name) <==> exists k :: 0 <= k <= |name| && Glob(p, name[..k]) && Glob(q, name[k..])
    decreases |p|, 0
  {
    hide Glob;
    assert (p + q)[1..] == p[1..] + q && (p + q)[0] == '*';
    StarIsAnyText(p + q, name);
    if i :| 0 <= i <= |name| && Glob(p[1..] + q, name[i..]) {
      GlobOfConcatenation(p[1..], q, name[i..]);
      var j :| 0 <= j <= |name[i..]| && Glob(p[1..], name[i..][..j]) && Glob(q, name[i..][j..]);
      assert name[..i + j][i..] == name[i..][..j] && name[i..][j..] == name[i + j..];
      StarIsAnyText(p, name[..i + j]);
    }
    if k :| 0 <= k <= |name| && Glob(p, name[..k]) && Glob(q, name[k..]) {
      StarIsAnyText(p, name[..k]);
      var i :| 0 <= i <= |name[..k]| && Glob(p[1..], name[..k][i..]);
      assert name[i..][..k - i] == name[..k][i..] && name[i..][k - i..] == name[k..];
      GlobOfConcatenation(p[1..], q, name[i..]);
    }
  }

  lemma {:induction false} StarIsAnyText(p: string, name: string)
    requires p != "" && p[0] == '*'
    ensures Glob(p, name) <==> exists k :: 0 <= k <= |name| && Glob(p[1..], name[k..])
  {
  }

  lemma {:induction false} OneThenConcatenation(p: string, q: string, name: string)
    requires p != "" && p[0] != '*' && name != ""
    requires Glob(p[1..] + q, name[1..]) <==>
             exists k :: 0 <= k <= |name[1..]| && Glob(p[1..], name[1..][..k]) && Glob(q, name[1..][k..])
    ensures Glob(p + q, name) <==> exists k :: 0 <= k <= |name| && Glob(p, name[..k]) && Glob(q, name[k..])
  {
    hide Fold;
    assert (p + q)[1..] == p[1..] + q;
    if Glob(p + q, name) {
      var k :| 0 <= k <= |name[1..]| && Glob(p[1..], name[1..][..k]) && Glob(q, name[1..][k..]);
      assert name[..k + 1][1..] == name[1..][..k] && name[1..][k..] == name[k + 1..];
      assert Glob(p, name[..k + 1]);
    }
    if k :| 0 <= k <= |name| && Glob(p, name[..k]) && Glob(q, name[k..]) {
      assert k > 0;
      assert name[..k][1..] == name[1..][..k - 1] && name[1..][k - 1..] == name[k..];
    }
  }

  // ---- Case does not matter ---------------------------------------------------------------

  ghost predicate SameUpToCase(a: string, b: string) {
    |a| == |b| && forall i :: 0 <= i < |a| ==> SameLetter(a[i], b[i])
  }

  lemma {:induction false} GlobUpToCase(pattern: string, a: string, b: string)
    requires AllAscii(a) && AllAscii(b) && SameUpToCase(a, b)
    ensures Glob(pattern, a) ==> Glob(pattern, b)
    decreases |pattern|
  {
    hide SameLetter, Fold;
    if pattern != "" && Glob(pattern, a) {
      if pattern[0] == '*' {
        var k :| 0 <= k <= |a| && Glob(pattern[1..], a[k..]);
        GlobUpToCase(pattern[1..], a[k..], b[k..]);
      } else {
        assert IsAscii(a[0]) && IsAscii(b[0]) && SameLetter(a[0], b[0]);
        FoldComparesLetters(a[0], b[0]);
        GlobUpToCase(pattern[1..], a[1..], b[1..]);
      }
    }
  }

  // Names that differ in case only are blocked alike, whatever the entries are.
  lemma CaseDoesNotMatter(entries: seq<string>, m: Matcher, a: string, b: string)
    requires Holds(entries, m.exact, m.wildcard) && IsName(a) && IsName(b)
    requires SameUpToCase(a, b) && SameUpToCase(b, a)
    ensures Matches(m, a) <==> Matches(m, b)
  {
    hide Texts.Trim, Test, Pieces, Glob, Lower, ContainsWildcard, SameUpToCase, Matches, Holds;
    MatcherBlocksWhatEntriesDo(entries, m, a);
    MatcherBlocksWhatEntriesDo(entries, m, b);
    forall i | 0 <= i < |entries| ensures BlocksInFact(entries[i], a) <==> BlocksInFact(entries[i], b) {
      GlobUpToCase(Texts.Trim(entries[i]), a, b);
      GlobUpToCase(Texts.Trim(entries[i]), b, a);
    }
  }
}

/** Wildcard patterns for user names (internal/webhook/v1alpha1/service_account_validator.go): the
    translation to a regular expression and its meaning. */
module Glob {
  import opened Text

  // ---------------------------------------------------------------- the translation, on text

  const META := "\\.+*?()|[]{}^$"

  predicate IsMeta(c: char) {
    c in META
  }

  /** `regexp.QuoteMeta`. */
  function QuoteMeta(p: string): string {
    if p == "" then "" else (if IsMeta(p[0]) then ['\\', p[0]] else [p[0]]) + QuoteMeta(p[1..])
  }

  /** `strings.ReplaceAll` with a non-empty `what`. */
  function ReplaceAll(s: string, what: string, with: string): string
    requires what != ""
  {
    if |s| < |what| then s
    else if what <= s then with + ReplaceAll(s[|what|..], what, with)
    else [s[0]] + ReplaceAll(s[1..], what, with)
  }

  function CompilePattern(pattern: string): string {
    var escaped := ReplaceAll(QuoteMeta(pattern), "\\*", ".*");
    "^" + ReplaceAll(escaped, "\\?", ".") + "$"
  }

  // ---------------------------------------------------------------- the regular expressions it can produce

  datatype Atom = Begin | End | Lit(c: char) | Any | AnyRun

  /** The part of the regular expression syntax without groups, classes, alternatives and repetition
      of anything but a dot. */
  function ParseRegexp(re: string): (r: Option<seq<Atom>>) {
    if re == "" then Some([])
    else if re[0] == '\\' then
      if |re| >= 2 && IsMeta(re[1]) then Prepend(Lit(re[1]), ParseRegexp(re[2..])) else None
    else if re[0] == '.' then
      if |re| >= 2 && re[1] == '*' then Prepend(AnyRun, ParseRegexp(re[2..])) else Prepend(Any, ParseRegexp(re[1..]))
    else if re[0] == '^' then Prepend(Begin, ParseRegexp(re[1..]))
    else if re[0] == '$' then Prepend(End, ParseRegexp(re[1..]))
    else if IsMeta(re[0]) then None
    else Prepend(Lit(re[0]), ParseRegexp(re[1..]))
  }

  function Prepend(a: Atom, r: Option<seq<Atom>>): Option<seq<Atom>> {
    if r.None? then None else Some([a] + r.value)
  }

  /** The atoms match from position `i` on. A dot matches anything but a newline. */
  predicate MatchFrom(atoms: seq<Atom>, s: string, i: nat)
    requires i <= |s|
    decreases |atoms|, |s| - i
  {
    if atoms == [] then true
    else
      match atoms[0]
      case Begin => i == 0 && MatchFrom(atoms[1..], s, i)
      case End => i == |s| && MatchFrom(atoms[1..], s, i)
      case Lit(c) => i < |s| && s[i] == c && MatchFrom(atoms[1..], s, i + 1)
      case Any => i < |s| && s[i] != '\n' && MatchFrom(atoms[1..], s, i + 1)
      case AnyRun => MatchFrom(atoms[1..], s, i) || (i < |s| && s[i] != '\n' && MatchFrom(atoms, s, i + 1))
  }

  /** `regexp.MatchString`: a match anywhere in the text; an expression that does not parse matches nothing. */
  predicate MatchString(re: string, s: string) {
    var atoms := ParseRegexp(re);
    atoms.Some? && exists i :: 0 <= i <= |s| && MatchFrom(atoms.value, s, i)
  }

  // ---------------------------------------------------------------- the meaning of a pattern

  /** `*` stands for any run and `?` for any one of the characters `wild` admits; all else for itself. */
  ghost predicate Denotes(pattern: string, s: string, wild: char -> bool)
    decreases |pattern|
  {
    if pattern == "" then s == ""
    else if pattern[0] == '*' then
      exists k :: 0 <= k <= |s| && AllWild(s, k, wild) && Denotes(pattern[1..], s[k..], wild)
    else s != "" && (if pattern[0] == '?' then wild(s[0]) else s[0] == pattern[0]) && Denotes(pattern[1..], s[1..], wild)
  }

  predicate AllWild(s: string, k: nat, wild: char -> bool)
    requires k <= |s|
  {
    forall i :: 0 <= i < k ==> wild(s[i])
  }

  const NotNewline: char -> bool := c => c != '\n'
  const Anything: char -> bool := c => true

  // ---------------------------------------------------------------- token by token

  function Token(c: char): string {
    if c == '*' then ".*" else if c == '?' then "." else if IsMeta(c) then ['\\', c] else [c]
  }

  /** After the first replacement question marks are still escaped. */
  function HalfToken(c: char): string {
    if c == '*' then ".*" else if IsMeta(c) then ['\\', c] else [c]
  }

  function Tokens(p: string): string {
    if p == "" then "" else Token(p[0]) + Tokens(p[1..])
  }

  function HalfTokens(p: string): string {
    if p == "" then "" else HalfToken(p[0]) + HalfTokens(p[1..])
  }

  /** None of these texts starts with a bare wildcard, so no replacement reaches across two tokens. */
  predicate NoBareStart(s: string) {
    s != "" ==> s[0] != '*' && s[0] != '?'
  }

  lemma {:induction false} BareStarts(p: string)
    ensures NoBareStart(QuoteMeta(p)) && NoBareStart(HalfTokens(p)) && NoBareStart(Tokens(p))
  {
    if p != "" {
      assert IsMeta('*') && IsMeta('?');
      hide IsMeta;
      assert QuoteMeta(p)[0] == if IsMeta(p[0]) then '\\' else p[0];
      assert HalfTokens(p)[0] == HalfToken(p[0])[0] && Tokens(p)[0] == Token(p[0])[0];
    }
  }

  /** Replacing an escaped `w` acts on the first token alone, whatever follows. */
  lemma {:induction false} ReplaceToken(token: string, rest: string, w: char, with: string)
    requires (w == '*' || w == '?') && NoBareStart(rest)
    requires token == ".*" || (|token| == 2 && token[0] == '\\') || (|token| == 1 && token[0] != '\\')
    ensures var what := ['\\', w];
            ReplaceAll(token + rest, what, with) == (if token == what then with else token) + ReplaceAll(rest, what, with)
  {
    var what, s := ['\\', w], token + rest;
    if token == what {
      assert what <= s && s[2..] == rest;
    } else if |token| == 1 {
      assert s[1..] == rest && !(what <= s);
      if rest == "" {
        assert |s| < |what| && s == token && ReplaceAll(rest, what, with) == "";
      } else {
        assert [s[0]] == token;
      }
    } else {
      assert !(what <= s) by { assert s[0] == token[0] && s[1] == token[1]; }
      var t := s[1..];
      assert t[0] == token[1] && t[1..] == rest;
      if rest == "" {
        assert |t| < |what| && t == [token[1]] && ReplaceAll(rest, what, with) == "";
      } else {
        assert !(what <= t) by { assert t[1] == rest[0]; }
      }
      assert ReplaceAll(t, what, with) == [token[1]] + ReplaceAll(rest, what, with);
      assert [token[0]] + ([token[1]] + ReplaceAll(rest, what, with)) == token + ReplaceAll(rest, what, with);
    }
  }

  lemma {:induction false} FirstReplacement(p: string)
    ensures ReplaceAll(QuoteMeta(p), "\\*", ".*") == HalfTokens(p)
  {
    if p != "" {
      FirstReplacement(p[1..]);
      BareStarts(p[1..]);
      assert IsMeta('*') && IsMeta('\\');
      var token := if IsMeta(p[0]) then ['\\', p[0]] else [p[0]];
      ReplaceToken(token, QuoteMeta(p[1..]), '*', ".*");
    }
  }

  lemma {:induction false} SecondReplacement(p: string)
    ensures ReplaceAll(HalfTokens(p), "\\?", ".") == Tokens(p)
  {
    if p != "" {
      SecondReplacement(p[1..]);
      BareStarts(p[1..]);
      assert IsMeta('?') && IsMeta('\\');
      ReplaceToken(HalfToken(p[0]), HalfTokens(p[1..]), '?', ".");
    }
  }

  /** Each character of the pattern becomes one token, backslashes and all other metacharacters included. */
  lemma {:induction false} CompiledTokens(pattern: string)
    ensures CompilePattern(pattern) == "^" + Tokens(pattern) + "$"
  {
    FirstReplacement(pattern);
    SecondReplacement(pattern);
  }

  function AtomOf(c: char): Atom {
    if c == '*' then AnyRun else if c == '?' then Any else Lit(c)
  }

  function Atoms(p: string): seq<Atom> {
    if p == "" then [End] else [AtomOf(p[0])] + Atoms(p[1..])
  }

  lemma {:induction false} TokenParses(c: char, rest: string)
    requires rest != "" && rest[0] != '*'
    ensures ParseRegexp(Token(c) + rest) == Prepend(AtomOf(c), ParseRegexp(rest))
  {
    var re := Token(c) + rest;
    assert re[|Token(c)|..] == rest;
    if c == '?' {
      assert re[0] == '.' && re[1] == rest[0];
    } else if c == '*' {
      assert re[0] == '.' && re[1] == '*';
    } else if IsMeta(c) {
      assert re[0] == '\\' && re[1] == c;
    } else {
      assert IsMeta('\\') && IsMeta('.') && IsMeta('^') && IsMeta('$');
      assert re[0] == c;
    }
  }

  /** The compiled text parses, to one atom for each character. */
  lemma {:induction false} TokensParse(p: string)
    ensures ParseRegexp(Tokens(p) + "$") == Some(Atoms(p))
  {
    if p == "" {
      assert Tokens(p) + "$" == "$" && "$"[1..] == "";
      assert ParseRegexp("") == Some([]) && ParseRegexp("$") == Prepend(End, ParseRegexp(""));
      assert [End] + [] == [End];
    } else {
      hide ParseRegexp, Token;
      TokensParse(p[1..]);
      BareStarts(p[1..]);
      var rest := Tokens(p[1..]) + "$";
      assert Tokens(p) + "$" == Token(p[0]) + rest;
      assert rest[0] == '$' || rest[0] == Tokens(p[1..])[0];
      TokenParses(p[0], rest);
    }
  }

  // ---------------------------------------------------------------- the meaning is preserved

  lemma {:induction false} RunMatches(p: string, s: string, i: nat, k: nat)
    requires p != "" && p[0] == '*' && i + k <= |s|
    requires AllWild(s[i..], k, NotNewline) && MatchFrom(Atoms(p[1..]), s, i + k)
    ensures MatchFrom(Atoms(p), s, i)
    decreases k
  {
    assert Atoms(p)[1..] == Atoms(p[1..]) && Atoms(p)[0] == AnyRun;
    if k > 0 {
      assert s[i..][0] == s[i] && s[i + 1..] == s[i..][1..];
      assert AllWild(s[i + 1..], k - 1, NotNewline);
      RunMatches(p, s, i + 1, k - 1);
    }
  }

  lemma {:induction false} RunStep(p: string, s: string, i: nat)
    requires p != "" && p[0] == '*' && i <= |s|
    ensures MatchFrom(Atoms(p), s, i) <==>
              MatchFrom(Atoms(p[1..]), s, i) || (i < |s| && s[i] != '\n' && MatchFrom(Atoms(p), s, i + 1))
  {
    assert Atoms(p)[1..] == Atoms(p[1..]) && Atoms(p)[0] == AnyRun;
  }

  lemma {:induction false} WildStep(s: string, i: nat, k: nat)
    requires i < |s| && i + 1 + k <= |s| && s[i] != '\n' && AllWild(s[i + 1..], k, NotNewline)
    ensures AllWild(s[i..], k + 1, NotNewline)
  {
    assert forall j :: 0 < j < k + 1 ==> s[i..][j] == s[i + 1..][j - 1];
  }

  lemma {:induction false} RunFound(p: string, s: string, i: nat) returns (k: nat)
    requires p != "" && p[0] == '*' && i <= |s| && MatchFrom(Atoms(p), s, i)
    ensures i + k <= |s| && AllWild(s[i..], k, NotNewline) && MatchFrom(Atoms(p[1..]), s, i + k)
    decreases |s| - i
  {
    hide MatchFrom, Atoms;
    RunStep(p, s, i);
    if MatchFrom(Atoms(p[1..]), s, i) {
      k := 0;
    } else {
      k := RunFound(p, s, i + 1);
      WildStep(s, i, k);
      k := k + 1;
    }
  }

  lemma {:induction false} MatchIsDenotes(p: string, s: string, i: nat)
    requires i <= |s|
    ensures MatchFrom(Atoms(p), s, i) <==> Denotes(p, s[i..], NotNewline)
    decreases |p|, 1
  {
    if p == "" {
      assert [End][1..] == [];
    } else if p[0] == '*' {
      RunIsDenotes(p, s, i);
    } else {
      assert Atoms(p)[1..] == Atoms(p[1..]) && Atoms(p)[0] == AtomOf(p[0]);
      if i < |s| {
        MatchIsDenotes(p[1..], s, i + 1);
        assert s[i..][1..] == s[i + 1..] && s[i..][0] == s[i];
      }
    }
  }

  lemma {:induction false} RunIsDenotes(p: string, s: string, i: nat)
    requires p != "" && p[0] == '*' && i <= |s|
    ensures MatchFrom(Atoms(p), s, i) <==> Denotes(p, s[i..], NotNewline)
    decreases |p|, 0
  {
    hide MatchFrom, AllWild, Atoms;
    if MatchFrom(Atoms(p), s, i) {
      var k := RunFound(p, s, i);
      MatchIsDenotes(p[1..], s, i + k);
      assert s[i..][k..] == s[i + k..];
    }
    if Denotes(p, s[i..], NotNewline) {
      var k :| 0 <= k <= |s[i..]| && AllWild(s[i..], k, NotNewline) && Denotes(p[1..], s[i..][k..], NotNewline);
      assert s[i..][k..] == s[i + k..];
      MatchIsDenotes(p[1..], s, i + k);
      RunMatches(p, s, i, k);
    }
  }

  predicate MatchPattern(pattern: string, s: string) {
    MatchString(CompilePattern(pattern), s)
  }

  /** The compiled expression accepts exactly what the pattern denotes, for every pattern and every
      text, when wildcards stand for anything but a newline. */
  lemma {:induction false} GlobPreserved(pattern: string, s: string)
    ensures MatchPattern(pattern, s) <==> Denotes(pattern, s, NotNewline)
  {
    hide ParseRegexp, Tokens;
    CompiledTokens(pattern);
    TokensParse(pattern);
    var rest := Tokens(pattern) + "$";
    assert "^" + Tokens(pattern) + "$" == "^" + rest;
    CaretFirst(rest);
    var atoms := [Begin] + Atoms(pattern);
    assert atoms[1..] == Atoms(pattern);
    MatchIsDenotes(pattern, s, 0);
    assert s[0..] == s;
    assert MatchFrom(atoms, s, 0) <==> MatchFrom(Atoms(pattern), s, 0);
    assert forall i :: 0 < i <= |s| ==> !MatchFrom(atoms, s, i);
  }

  lemma {:induction false} CaretFirst(rest: string)
    ensures ParseRegexp("^" + rest) == Prepend(Begin, ParseRegexp(rest))
  {
    assert ("^" + rest)[1..] == rest;
  }

  lemma {:induction false} SameWild(pattern: string, s: string)
    requires '\n' !in s
    ensures Denotes(pattern, s, NotNewline) <==> Denotes(pattern, s, Anything)
    decreases |pattern|
  {
    if pattern != "" {
      if pattern[0] == '*' {
        forall k | 0 <= k <= |s| ensures Denotes(pattern[1..], s[k..], NotNewline) <==> Denotes(pattern[1..], s[k..], Anything) {
          SameWild(pattern[1..], s[k..]);
        }
        assert forall k :: 0 <= k <= |s| ==> AllWild(s, k, NotNewline) && AllWild(s, k, Anything);
      } else if s != "" {
        SameWild(pattern[1..], s[1..]);
      }
    }
  }

  /** On names without newlines the wildcards stand for anything at all. */
  lemma {:induction false} GlobOnNames(pattern: string, name: string)
    requires '\n' !in name
    ensures MatchPattern(pattern, name) <==> Denotes(pattern, name, Anything)
  {
    hide Denotes, MatchPattern;
    GlobPreserved(pattern, name);
    SameWild(pattern, name);
  }

  /** The pattern "*" stands for exactly the texts of characters its wildcard admits. */
  lemma {:induction false} StarDenotes(s: string, wild: char -> bool)
    ensures Denotes("*", s, wild) <==> AllWild(s, |s|, wild)
  {
    assert "*"[1..] == "";
    assert s[|s|..] == "";
    assert forall k :: 0 <= k <= |s| && s[k..] == "" ==> k == |s|;
    assert forall k :: 0 <= k <= |s| ==> (Denotes("*"[1..], s[k..], wild) <==> s[k..] == "");
  }

  /** All patterns mean what they should on a name exactly when it holds no newline: on any other "*"
      fails. */
  lemma {:induction false} GlobExactIff(name: string)
    ensures (forall pattern :: MatchPattern(pattern, name) <==> Denotes(pattern, name, Anything)) <==> '\n' !in name
  {
    hide MatchPattern, Denotes;
    if '\n' !in name {
      forall pattern: string
        ensures MatchPattern(pattern, name) <==> Denotes(pattern, name, Anything)
      {
        GlobOnNames(pattern, name);
      }
    } else {
      GlobPreserved("*", name);
      StarDenotes(name, NotNewline);
      StarDenotes(name, Anything);
      var i :| 0 <= i < |name| && name[i] == '\n';
      assert !NotNewline(name[i]);
    }
  }
}

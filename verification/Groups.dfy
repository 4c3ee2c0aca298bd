/** The group list in a header (internal/authmiddleware/utils.go), on bytes. */
module Groups {

  type Byte = b: int | 0 <= b < 256
  type Text = seq<Byte>

  const QUOTE: Byte := 34
  const COMMA: Byte := 44
  const SPACE: Byte := 32

  predicate IsSeparator(b: Byte) {
    b == COMMA || b == SPACE
  }

  // ---------------------------------------------------------------- joining

  predicate ContainsSpecialChars(g: Text) {
    exists i :: 0 <= i < |g| && IsSeparator(g[i])
  }

  function Printed(g: Text): Text {
    if ContainsSpecialChars(g) then [QUOTE] + g + [QUOTE] else g
  }

  function Join(gs: seq<Text>): Text {
    if gs == [] then [] else if |gs| == 1 then Printed(gs[0]) else Printed(gs[0]) + [COMMA] + Join(gs[1..])
  }

  lemma {:induction false} JoinSnoc(gs: seq<Text>, g: Text)
    ensures Join(gs + [g]) == if gs == [] then Printed(g) else Join(gs) + [COMMA] + Printed(g)
  {
    hide Printed;
    if |gs| >= 1 {
      assert (gs + [g])[1..] == gs[1..] + [g];
      JoinSnoc(gs[1..], g);
      if |gs| == 1 { assert gs[1..] == []; }
    }
  }

  method JoinGroups(groups: seq<Text>) returns (r: Text)
    ensures r == Join(groups)
  {
    hide Printed;
    r := [];
    for i := 0 to |groups|
      invariant r == Join(groups[..i])
    {
      assert groups[..i + 1] == groups[..i] + [groups[i]];
      JoinSnoc(groups[..i], groups[i]);
      if i > 0 {
        r := r + [COMMA];
      }
      r := r + Printed(groups[i]);
    }
    assert groups[..|groups|] == groups;
  }

  // ---------------------------------------------------------------- splitting

  /** `string(rune(b))`: a byte above 127 is taken for a Latin-1 character and becomes two bytes. */
  function Encode(b: Byte): Text {
    if b < 128 then [b] else [192 + b / 64, 128 + b % 64]
  }

  /** The first quote from `i` on, or the length. */
  function NextQuote(s: Text, i: nat): (j: nat)
    requires i <= |s|
    ensures i <= j <= |s| && (j < |s| ==> s[j] == QUOTE) && forall k :: i <= k < j ==> s[k] != QUOTE
    decreases |s| - i
  {
    if i == |s| || s[i] == QUOTE then i else NextQuote(s, i + 1)
  }

  predicate TokenStart(s: Text, i: nat)
    requires i < |s|
  {
    i == 0 || IsSeparator(s[i - 1])
  }

  /** A quoted section begins at `i`: a quote where a token may start, closed later on. */
  predicate Opens(s: Text, i: nat)
    requires i < |s|
  {
    s[i] == QUOTE && TokenStart(s, i) && NextQuote(s, i + 1) < |s|
  }

  function Flush(current: Text): seq<Text> {
    if current == [] then [] else [current]
  }

  /** What the scan still yields from position `i` with a token under way. */
  function SplitFrom(s: Text, i: nat, current: Text): seq<Text>
    requires i <= |s|
    decreases |s| - i
  {
    if i == |s| then Flush(current)
    else if Opens(s, i) then
      var end := NextQuote(s, i + 1);
      [s[i + 1..end]] + SplitFrom(s, end + 1, current)
    else if IsSeparator(s[i]) then Flush(current) + SplitFrom(s, i + 1, [])
    else SplitFrom(s, i + 1, current + Encode(s[i]))
  }

  method FindQuote(s: Text, i: nat) returns (end: nat)
    requires i <= |s|
    ensures end == NextQuote(s, i)
  {
    end := i;
    while end < |s| && s[end] != QUOTE
      invariant i <= end <= |s|
      invariant NextQuote(s, end) == NextQuote(s, i)
    {
      end := end + 1;
    }
  }

  method SplitGroups(s: Text) returns (r: seq<Text>)
    ensures r == SplitFrom(s, 0, [])
  {
    hide NextQuote, Encode;
    r := [];
    var current: Text := [];
    var i := 0;
    while i < |s|
      invariant i <= |s|
      invariant SplitFrom(s, 0, []) == r + SplitFrom(s, i, current)
    {
      if s[i] == QUOTE && (i == 0 || s[i - 1] == COMMA || s[i - 1] == SPACE) {
        var end := FindQuote(s, i + 1);
        if end < |s| {
          r := r + [s[i + 1..end]];
          i := end + 1;
          continue;
        }
      }
      if s[i] == COMMA || s[i] == SPACE {
        if |current| > 0 {
          r := r + [current];
          current := [];
        }
      } else {
        current := current + Encode(s[i]);
      }
      i := i + 1;
    }
    if |current| > 0 {
      r := r + [current];
    }
  }

  // ---------------------------------------------------------------- exactly which lists survive

  predicate HasQuote(g: Text) {
    exists i :: 0 <= i < |g| && g[i] == QUOTE
  }

  predicate Ascii(g: Text) {
    forall i :: 0 <= i < |g| ==> g[i] < 128
  }

  /** No quote appears when these groups are printed. */
  predicate PrintsNoQuote(gs: seq<Text>) {
    forall i :: 0 <= i < |gs| ==> !HasQuote(gs[i]) && !ContainsSpecialChars(gs[i])
  }

  /** A group that is quoted must not hold a quote; a group that is not must be ASCII, and if it opens
      with a quote, no further quote may follow anywhere. */
  predicate Safe(gs: seq<Text>) {
    gs == [] || (
      && Safe(gs[1..])
      && var g := gs[0];
      if ContainsSpecialChars(g) then !HasQuote(g)
      else Ascii(g) && (g != [] && g[0] == QUOTE ==> !HasQuote(g[1..]) && PrintsNoQuote(gs[1..])))
  }

  predicate NonEmpty(gs: seq<Text>) {
    forall i :: 0 <= i < |gs| ==> gs[i] != []
  }

  /** The scan stands at the start of the printed groups `gs`, which end the text. */
  ghost predicate At(s: Text, i: nat, gs: seq<Text>) {
    i <= |s| && s[i..] == Join(gs) && (i > 0 ==> IsSeparator(s[i - 1]))
  }

  function EncodeAll(g: Text): Text {
    if g == [] then [] else EncodeAll(g[..|g| - 1]) + Encode(g[|g| - 1])
  }

  lemma {:induction false} EncodeLength(g: Text)
    ensures |EncodeAll(g)| >= |g|
    ensures Ascii(g) ==> EncodeAll(g) == g
    ensures !Ascii(g) ==> |EncodeAll(g)| > |g|
  {
    if g != [] {
      var front := g[..|g| - 1];
      EncodeLength(front);
      assert g == front + [g[|g| - 1]];
      assert Ascii(front) && g[|g| - 1] < 128 ==> Ascii(g);
    }
  }

  /** A stretch without separators and without an opening quote is collected into one token. */
  lemma {:induction false} Collect(s: Text, i: nat, n: nat)
    requires i + n <= |s|
    requires forall k :: i <= k < i + n ==> !IsSeparator(s[k]) && !Opens(s, k)
    ensures SplitFrom(s, i, []) == SplitFrom(s, i + n, EncodeAll(s[i..i + n]))
    decreases n
  {
    if n > 0 {
      Collect(s, i, n - 1);
      var t := s[i..i + n];
      assert t[..n - 1] == s[i..i + n - 1] && t[n - 1] == s[i + n - 1];
    } else {
      assert s[i..i] == [];
    }
  }

  lemma {:induction false} NoQuoteAhead(gs: seq<Text>)
    ensures !HasQuote(Join(gs)) <==> PrintsNoQuote(gs)
  {
    if gs != [] {
      var g, rest := gs[0], gs[1..];
      NoQuoteAhead(rest);
      PrintedQuote(g);
      if |gs| == 1 {
        assert rest == [];
        assert PrintsNoQuote(gs) <==> !HasQuote(g) && !ContainsSpecialChars(g);
      } else {
        QuoteParts(Printed(g), [COMMA] + Join(rest));
        QuoteParts([COMMA], Join(rest));
        assert Printed(g) + [COMMA] + Join(rest) == Printed(g) + ([COMMA] + Join(rest));
        NoQuoteParts(gs);
      }
    }
  }

  lemma {:induction false} NoQuoteParts(gs: seq<Text>)
    requires gs != []
    ensures PrintsNoQuote(gs) <==> !HasQuote(gs[0]) && !ContainsSpecialChars(gs[0]) && PrintsNoQuote(gs[1..])
  {
    hide HasQuote, ContainsSpecialChars;
    assert forall i :: 0 < i < |gs| ==> gs[i] == gs[1..][i - 1];
  }

  lemma {:induction false} PrintedQuote(g: Text)
    ensures HasQuote(Printed(g)) <==> HasQuote(g) || ContainsSpecialChars(g)
  {
    if ContainsSpecialChars(g) {
      assert Printed(g)[0] == QUOTE;
    }
  }

  lemma {:induction false} QuoteParts(a: Text, b: Text)
    ensures HasQuote(a + b) <==> HasQuote(a) || HasQuote(b)
  {
    if i :| 0 <= i < |a| && a[i] == QUOTE { assert (a + b)[i] == QUOTE; }
    if i :| 0 <= i < |b| && b[i] == QUOTE { assert (a + b)[|a| + i] == QUOTE; }
    if i :| 0 <= i < |a + b| && (a + b)[i] == QUOTE {
      if i < |a| { assert a[i] == QUOTE; } else { assert b[i - |a|] == QUOTE; }
    }
  }

  lemma {:induction false} QuoteAhead(s: Text, i: nat)
    requires i <= |s|
    ensures NextQuote(s, i) < |s| <==> HasQuote(s[i..])
  {
    if k :| 0 <= k < |s[i..]| && s[i..][k] == QUOTE { assert s[i + k] == QUOTE; }
    if NextQuote(s, i) < |s| { assert s[i..][NextQuote(s, i) - i] == QUOTE; }
  }

  /** Position after the first printed group: the end, or the comma before the next group. */
  lemma {:induction false} AfterGroup(s: Text, i: nat, gs: seq<Text>)
    requires At(s, i, gs) && gs != []
    ensures var j := i + |Printed(gs[0])|;
            && j <= |s| && s[i..j] == Printed(gs[0])
            && (|gs| == 1 ==> j == |s|)
            && (|gs| > 1 ==> j < |s| && s[j] == COMMA && At(s, j + 1, gs[1..]))
            && s[j..] == if |gs| == 1 then [] else [COMMA] + Join(gs[1..])
  {
    hide Printed;
    var p := Printed(gs[0]);
    var j := i + |p|;
    assert s[i..][..|p|] == p && s[i..][..|p|] == s[i..j];
    assert s[i..][|p|..] == s[j..];
    if |gs| > 1 {
      assert s[j..] == [COMMA] + Join(gs[1..]);
      assert s[j] == s[j..][0];
      assert s[j + 1..] == s[j..][1..];
    }
  }

  /** After the token of a group, the rest of the groups. */
  lemma {:induction false} Continue(s: Text, i: nat, gs: seq<Text>, current: Text)
    requires At(s, i, gs) && gs != []
    ensures SplitFrom(s, i + |Printed(gs[0])|, current) ==
              Flush(current) + if |gs| == 1 then [] else SplitFrom(s, i + |Printed(gs[0])| + 1, [])
  {
    AfterGroup(s, i, gs);
  }

  lemma {:induction false} QuotedGroup(s: Text, i: nat, gs: seq<Text>)
    requires At(s, i, gs) && gs != [] && ContainsSpecialChars(gs[0])
    ensures i < |s| && Opens(s, i)
    ensures var end := NextQuote(s, i + 1);
            end <= i + 1 + |gs[0]| && s[i + 1..end] <= gs[0] && (end == i + 1 + |gs[0]| <==> !HasQuote(gs[0]))
  {
    hide ContainsSpecialChars, Join;
    AfterGroup(s, i, gs);
    var g := gs[0];
    assert Printed(g) == [QUOTE] + g + [QUOTE];
    assert |Printed(g)| == |g| + 2;
    ClosingQuote(s, i, g);
  }

  lemma {:induction false} ClosingQuote(s: Text, i: nat, g: Text)
    requires i + |g| + 2 <= |s| && s[i..i + |g| + 2] == [QUOTE] + g + [QUOTE]
    ensures s[i] == QUOTE
    ensures var end := NextQuote(s, i + 1);
            end < |s| && end <= i + 1 + |g| && s[i + 1..end] <= g && (end == i + 1 + |g| <==> !HasQuote(g))
  {
    var t := s[i..i + |g| + 2];
    assert t[0] == s[i] && t[|g| + 1] == s[i + |g| + 1] == QUOTE;
    assert t[1..|g| + 1] == g;
    assert forall k {:trigger g[k]} :: 0 <= k < |g| ==> s[i + 1 + k] == t[1 + k] == g[k];
    assert s[i + 1..i + 1 + |g|] == g;
    var end := NextQuote(s, i + 1);
    assert s[i + 1..end] == s[i + 1..i + 1 + |g|][..end - i - 1];
    if HasQuote(g) {
      var k :| 0 <= k < |g| && g[k] == QUOTE;
      assert s[i + 1 + k] == s[i + 1..i + 1 + |g|][k] == QUOTE;
    }
    assert end < i + 1 + |g| ==> g[end - i - 1] == s[end];
  }

  lemma {:induction false} PlainBytes(s: Text, i: nat, gs: seq<Text>, k: nat)
    requires At(s, i, gs) && gs != [] && !ContainsSpecialChars(gs[0]) && k < |gs[0]|
    ensures i + k < |s| && s[i + k] == gs[0][k] && !IsSeparator(s[i + k]) && (k > 0 ==> !Opens(s, i + k))
  {
    AfterGroup(s, i, gs);
    var g := gs[0];
    assert s[i + k] == s[i..i + |g|][k];
    if k > 0 {
      assert s[i + k - 1] == s[i..i + |g|][k - 1] == g[k - 1];
    }
  }

  lemma {:induction false} TailSplit(s: Text, i: nat, g: Text)
    requires g != [] && i + |g| <= |s| && s[i..i + |g|] == g
    ensures s[i + 1..] == g[1..] + s[i + |g|..] && s[i] == g[0]
  {
    assert s[i + 1..] == s[i + 1..i + |g|] + s[i + |g|..];
    assert s[i + 1..i + |g|] == s[i..i + |g|][1..];
    assert s[i] == s[i..i + |g|][0];
  }

  /** Whether a double quote follows the first byte of a plain group. */
  lemma {:induction false} QuoteAfterPlain(s: Text, i: nat, gs: seq<Text>)
    requires At(s, i, gs) && gs != [] && gs[0] != [] && !ContainsSpecialChars(gs[0])
    ensures i < |s| && s[i] == gs[0][0]
    ensures HasQuote(s[i + 1..]) <==> HasQuote(gs[0][1..]) || !PrintsNoQuote(gs[1..])
  {
    hide At, Join, HasQuote, PrintsNoQuote, ContainsSpecialChars;
    AfterGroup(s, i, gs);
    var g := gs[0];
    assert Printed(g) == g;
    TailSplit(s, i, g);
    QuoteParts(g[1..], s[i + |g|..]);
    NoQuoteAhead(gs[1..]);
    NoQuoteInComma();
    if |gs| > 1 {
      QuoteParts([COMMA], Join(gs[1..]));
    } else {
      assert gs[1..] == [];
    }
  }

  /** Whether a plain group is mistaken for a quoted section. */
  lemma {:induction false} PlainOpens(s: Text, i: nat, gs: seq<Text>)
    requires At(s, i, gs) && gs != [] && gs[0] != [] && !ContainsSpecialChars(gs[0])
    ensures i < |s|
    ensures Opens(s, i) <==> gs[0][0] == QUOTE && (HasQuote(gs[0][1..]) || !PrintsNoQuote(gs[1..]))
  {
    hide At, HasQuote, PrintsNoQuote, ContainsSpecialChars, NextQuote, TokenStart;
    QuoteAfterPlain(s, i, gs);
    AtStart(s, i, gs);
    QuoteAhead(s, i + 1);
  }

  lemma {:induction false} AtStart(s: Text, i: nat, gs: seq<Text>)
    requires At(s, i, gs) && i < |s|
    ensures TokenStart(s, i)
  {
    hide Join;
  }

  lemma {:induction false} NoQuoteInComma()
    ensures !HasQuote([COMMA]) && !HasQuote([]) && PrintsNoQuote([])
  {
  }

  /** The scan from the start of the printed groups gives them back exactly when they are safe. */
  lemma {:induction false} RoundTripFrom(s: Text, i: nat, gs: seq<Text>)
    requires At(s, i, gs) && NonEmpty(gs)
    ensures SplitFrom(s, i, []) == gs <==> Safe(gs)
    decreases |gs|
  {
    if gs == [] {
    } else if ContainsSpecialChars(gs[0]) {
      QuotedCase(s, i, gs);
    } else {
      PlainCase(s, i, gs);
    }
  }

  lemma {:induction false} RestOfGroups(s: Text, i: nat, gs: seq<Text>)
    requires At(s, i, gs) && gs != [] && NonEmpty(gs)
    ensures var rest := if |gs| == 1 then [] else SplitFrom(s, i + |Printed(gs[0])| + 1, []);
            rest == gs[1..] <==> Safe(gs[1..])
    decreases |gs|, 0
  {
    AfterGroup(s, i, gs);
    if |gs| > 1 {
      assert NonEmpty(gs[1..]);
      RoundTripFrom(s, i + |Printed(gs[0])| + 1, gs[1..]);
    } else {
      assert gs[1..] == [];
    }
  }

  lemma {:induction false} ConsEqual(x: Text, rest: seq<Text>, gs: seq<Text>)
    requires gs != []
    ensures [x] + rest == gs <==> x == gs[0] && rest == gs[1..]
  {
    assert ([x] + rest)[1..] == rest && ([x] + rest)[0] == x;
    assert gs == [gs[0]] + gs[1..];
  }

  lemma {:induction false} QuotedUnfold(s: Text, i: nat)
    requires i < |s| && Opens(s, i)
    ensures var end := NextQuote(s, i + 1);
            end < |s| && SplitFrom(s, i, []) == [s[i + 1..end]] + SplitFrom(s, end + 1, [])
  {
  }

  lemma {:induction false} SafeQuoted(gs: seq<Text>)
    requires gs != [] && ContainsSpecialChars(gs[0])
    ensures Safe(gs) <==> !HasQuote(gs[0]) && Safe(gs[1..])
  {
  }

  lemma {:induction false} QuotedCase(s: Text, i: nat, gs: seq<Text>)
    requires At(s, i, gs) && gs != [] && NonEmpty(gs) && ContainsSpecialChars(gs[0])
    ensures SplitFrom(s, i, []) == gs <==> Safe(gs)
    decreases |gs|, 1
  {
    hide At, NonEmpty, HasQuote, ContainsSpecialChars, SplitFrom, Opens, Safe, NextQuote, Join;
    QuotedGroup(s, i, gs);
    QuotedUnfold(s, i);
    SafeQuoted(gs);
    var end := NextQuote(s, i + 1);
    var g := gs[0];
    ConsEqual(s[i + 1..end], SplitFrom(s, end + 1, []), gs);
    if HasQuote(g) {
      assert |s[i + 1..end]| < |g|;
    } else {
      assert s[i + 1..end] == g;
      assert end + 1 == i + |Printed(g)|;
      Continue(s, i, gs, []);
      RestOfGroups(s, i, gs);
    }
  }

  lemma {:induction false} PlainCase(s: Text, i: nat, gs: seq<Text>)
    requires At(s, i, gs) && gs != [] && NonEmpty(gs) && !ContainsSpecialChars(gs[0])
    ensures SplitFrom(s, i, []) == gs <==> Safe(gs)
    decreases |gs|, 2
  {
    hide At, HasQuote, PrintsNoQuote, Ascii, ContainsSpecialChars, SplitFrom, Opens;
    assert gs[0] != [];
    PlainOpens(s, i, gs);
    if Opens(s, i) {
      TakenForQuoted(s, i, gs);
    } else {
      PlainKept(s, i, gs);
    }
  }

  lemma {:induction false} PlainKept(s: Text, i: nat, gs: seq<Text>)
    requires At(s, i, gs) && gs != [] && NonEmpty(gs) && !ContainsSpecialChars(gs[0]) && i < |s| && !Opens(s, i)
    ensures SplitFrom(s, i, []) == gs <==> Ascii(gs[0]) && Safe(gs[1..])
    decreases |gs|, 1
  {
    hide At, Ascii, ContainsSpecialChars, SplitFrom, Opens, Safe, EncodeAll;
    var g := gs[0];
    assert g != [];
    var x := EncodeAll(g);
    EncodeLength(g);
    PlainToken(s, i, gs);
    AfterGroup(s, i, gs);
    Continue(s, i, gs, x);
    var rest := if |gs| == 1 then [] else SplitFrom(s, i + |g| + 1, []);
    ConsEqual(x, rest, gs);
    RestOfGroups(s, i, gs);
  }

  lemma {:induction false} TakenForQuoted(s: Text, i: nat, gs: seq<Text>)
    requires i < |s| && Opens(s, i) && gs != [] && gs[0] != [] && gs[0][0] == QUOTE
    ensures SplitFrom(s, i, []) != gs
  {
    var end := NextQuote(s, i + 1);
    ConsEqual(s[i + 1..end], SplitFrom(s, end + 1, []), gs);
    assert |s[i + 1..end]| > 0 ==> s[i + 1..end][0] != QUOTE;
  }

  lemma {:induction false} PlainToken(s: Text, i: nat, gs: seq<Text>)
    requires At(s, i, gs) && gs != [] && gs[0] != [] && !ContainsSpecialChars(gs[0]) && i < |s| && !Opens(s, i)
    ensures i + |gs[0]| <= |s| && SplitFrom(s, i, []) == SplitFrom(s, i + |gs[0]|, EncodeAll(gs[0]))
  {
    hide At, SplitFrom, ContainsSpecialChars;
    var g := gs[0];
    PlainBytes(s, i, gs, |g| - 1);
    forall k | i <= k < i + |g| ensures s[k] == g[k - i] && !IsSeparator(s[k]) && !Opens(s, k) {
      PlainBytes(s, i, gs, k - i);
    }
    Collect(s, i, |g|);
    assert s[i..i + |g|] == g;
  }

  lemma {:induction false} NonEmptyRoundTrip(gs: seq<Text>)
    requires NonEmpty(gs)
    ensures SplitFrom(Join(gs), 0, []) == gs <==> Safe(gs)
  {
    assert Join(gs)[0..] == Join(gs);
    RoundTripFrom(Join(gs), 0, gs);
  }

  // ---------------------------------------------------------------- an empty group never survives

  function Quotes(t: Text): nat {
    if t == [] then 0 else Quotes(t[..|t| - 1]) + if t[|t| - 1] == QUOTE then 1 else 0
  }

  function AllQuotes(gs: seq<Text>): nat {
    if gs == [] then 0 else Quotes(gs[0]) + AllQuotes(gs[1..])
  }

  /** The groups that can only come out of a quoted section: empty, or holding a separator. */
  function Sectioned(gs: seq<Text>): nat {
    if gs == [] then 0 else (if gs[0] == [] || ContainsSpecialChars(gs[0]) then 1 else 0) + Sectioned(gs[1..])
  }

  /** The groups that are printed in quotes. */
  function Special(gs: seq<Text>): nat {
    if gs == [] then 0 else (if ContainsSpecialChars(gs[0]) then 1 else 0) + Special(gs[1..])
  }

  /** The quoted sections the scan still meets. */
  function Sections(s: Text, i: nat): nat
    requires i <= |s|
    decreases |s| - i
  {
    if i == |s| then 0
    else if Opens(s, i) then 1 + Sections(s, NextQuote(s, i + 1) + 1)
    else Sections(s, i + 1)
  }

  lemma {:induction false} QuotesAppend(a: Text, b: Text)
    ensures Quotes(a + b) == Quotes(a) + Quotes(b)
    decreases |b|
  {
    if b == [] {
      assert a + b == a;
    } else {
      assert (a + b)[..|a + b| - 1] == a + b[..|b| - 1];
      QuotesAppend(a, b[..|b| - 1]);
    }
  }

  lemma {:induction false} OneByte(b: Byte)
    ensures Quotes([b]) == (if b == QUOTE then 1 else 0) && Quotes(Encode(b)) == Quotes([b])
    ensures !IsSeparator(b) ==> !ContainsSpecialChars(Encode(b))
  {
    assert Quotes([]) == 0;
    assert [b][..0] == [];
    if b >= 128 {
      var e := Encode(b);
      assert e[..1] == [e[0]] && [e[0]][..0] == [];
    }
  }

  lemma {:induction false} QuotesAhead(s: Text, i: nat)
    requires i < |s|
    ensures Quotes(s[i..]) == (if s[i] == QUOTE then 1 else 0) + Quotes(s[i + 1..])
  {
    assert s[i..] == [s[i]] + s[i + 1..];
    QuotesAppend([s[i]], s[i + 1..]);
    OneByte(s[i]);
  }

  lemma {:induction false} NoQuotes(t: Text)
    requires forall k :: 0 <= k < |t| ==> t[k] != QUOTE
    ensures Quotes(t) == 0
  {
    if t != [] {
      NoQuotes(t[..|t| - 1]);
    }
  }

  /** A quoted section takes its two quotes out of the text. */
  lemma {:induction false} SectionQuotes(s: Text, i: nat)
    requires i < |s| && Opens(s, i)
    ensures var end := NextQuote(s, i + 1);
            Quotes(s[i + 1..end]) == 0 && Quotes(s[i..]) == 2 + Quotes(s[end + 1..])
  {
    var end := NextQuote(s, i + 1);
    NoQuotes(s[i + 1..end]);
    QuotesAhead(s, i);
    assert s[i + 1..] == s[i + 1..end] + s[end..];
    QuotesAppend(s[i + 1..end], s[end..]);
    QuotesAhead(s, end);
  }

  lemma {:induction false} FlushCounts(current: Text, rest: seq<Text>)
    requires !ContainsSpecialChars(current)
    ensures AllQuotes(Flush(current) + rest) == Quotes(current) + AllQuotes(rest)
    ensures Sectioned(Flush(current) + rest) == Sectioned(rest)
  {
    if current == [] {
      assert Flush(current) + rest == rest;
    } else {
      assert (Flush(current) + rest)[1..] == rest;
    }
  }

  lemma {:induction false} ConsCounts(g: Text, rest: seq<Text>)
    ensures AllQuotes([g] + rest) == Quotes(g) + AllQuotes(rest)
    ensures Sectioned([g] + rest) <= 1 + Sectioned(rest)
  {
    assert ([g] + rest)[1..] == rest;
  }

  lemma {:induction false} SpecialParts(a: Text, b: Text)
    requires !ContainsSpecialChars(a) && !ContainsSpecialChars(b)
    ensures !ContainsSpecialChars(a + b)
  {
  }

  /** Along the scan no quote is lost but two for each quoted section, and only quoted sections give
      empty tokens or tokens with a separator. */
  lemma {:induction false} SplitCounts(s: Text, i: nat, current: Text)
    requires i <= |s| && !ContainsSpecialChars(current)
    ensures AllQuotes(SplitFrom(s, i, current)) + 2 * Sections(s, i) == Quotes(s[i..]) + Quotes(current)
    ensures Sectioned(SplitFrom(s, i, current)) <= Sections(s, i)
    decreases |s| - i
  {
    hide ContainsSpecialChars, Quotes, AllQuotes, Sectioned, NextQuote, Encode, Flush, IsSeparator;
    assert Quotes([]) == 0 && AllQuotes([]) == 0 && Sectioned([]) == 0 && !ContainsSpecialChars([]) by { NothingCounts(); }
    if i == |s| {
      FlushCounts(current, []);
      assert Flush(current) + [] == Flush(current) && s[i..] == [];
    } else if Opens(s, i) {
      var end := NextQuote(s, i + 1);
      SectionQuotes(s, i);
      SplitCounts(s, end + 1, current);
      ConsCounts(s[i + 1..end], SplitFrom(s, end + 1, current));
    } else if IsSeparator(s[i]) {
      QuotesAhead(s, i);
      SeparatorIsNoQuote(s[i]);
      SplitCounts(s, i + 1, []);
      FlushCounts(current, SplitFrom(s, i + 1, []));
    } else {
      QuotesAhead(s, i);
      OneByte(s[i]);
      SpecialParts(current, Encode(s[i]));
      QuotesAppend(current, Encode(s[i]));
      SplitCounts(s, i + 1, current + Encode(s[i]));
    }
  }

  lemma {:induction false} NothingCounts()
    ensures Quotes([]) == 0 && AllQuotes([]) == 0 && Sectioned([]) == 0 && !ContainsSpecialChars([])
  {
  }

  lemma {:induction false} SeparatorIsNoQuote(b: Byte)
    requires IsSeparator(b)
    ensures b != QUOTE
  {
  }

  lemma {:induction false} PrintedQuotes(g: Text)
    ensures Quotes(Printed(g)) == Quotes(g) + if ContainsSpecialChars(g) then 2 else 0
  {
    hide Quotes, ContainsSpecialChars;
    OneByte(QUOTE);
    QuotesAppend([QUOTE] + g, [QUOTE]);
    QuotesAppend([QUOTE], g);
  }

  /** Printing adds two quotes for each group with a separator. */
  lemma {:induction false} JoinQuotes(gs: seq<Text>)
    ensures Quotes(Join(gs)) == AllQuotes(gs) + 2 * Special(gs)
  {
    hide Quotes, ContainsSpecialChars, Printed;
    NothingCounts();
    if gs != [] {
      PrintedQuotes(gs[0]);
      if |gs| == 1 {
        assert gs[1..] == [];
      } else {
        JoinQuotes(gs[1..]);
        OneByte(COMMA);
        QuotesAppend(Printed(gs[0]), [COMMA]);
        QuotesAppend(Printed(gs[0]) + [COMMA], Join(gs[1..]));
      }
    }
  }

  lemma {:induction false} EmptiesCounted(gs: seq<Text>)
    ensures Sectioned(gs) >= Special(gs)
    ensures Sectioned(gs) == Special(gs) ==> NonEmpty(gs)
  {
    hide ContainsSpecialChars;
    NothingCounts();
    if gs != [] {
      EmptiesCounted(gs[1..]);
      assert NonEmpty(gs[1..]) && gs[0] != [] ==> NonEmpty(gs) by {
        assert forall i :: 0 < i < |gs| ==> gs[i] == gs[1..][i - 1];
      }
    }
  }

  /** A list that comes back has no empty group: it would need a quoted section that printing did not
      make, and the quotes do not add up. */
  lemma {:induction false} EmptyGroupsAreLost(gs: seq<Text>)
    requires SplitFrom(Join(gs), 0, []) == gs
    ensures NonEmpty(gs)
  {
    hide SplitFrom, Join, Quotes, AllQuotes, Sections, Sectioned, Special, NonEmpty, ContainsSpecialChars;
    var s := Join(gs);
    NothingCounts();
    assert s[0..] == s;
    SplitCounts(s, 0, []);
    JoinQuotes(gs);
    EmptiesCounted(gs);
  }

  /** Splitting a joined list gives the list back exactly when no group is empty and the list is safe. */
  lemma {:induction false} RoundTripIff(gs: seq<Text>)
    ensures SplitFrom(Join(gs), 0, []) == gs <==> NonEmpty(gs) && Safe(gs)
  {
    hide SplitFrom, Join, NonEmpty, Safe;
    if NonEmpty(gs) {
      NonEmptyRoundTrip(gs);
    } else if SplitFrom(Join(gs), 0, []) == gs {
      EmptyGroupsAreLost(gs);
    }
  }

  lemma {:induction false} QuoteFreeIsSafe(gs: seq<Text>)
    requires forall i :: 0 <= i < |gs| ==> Ascii(gs[i]) && !HasQuote(gs[i])
    ensures Safe(gs)
  {
    if gs != [] {
      QuoteFreeIsSafe(gs[1..]);
      assert gs[0] != [] && gs[0][0] == QUOTE ==> HasQuote(gs[0]);
    }
  }

  /** The promise: ASCII groups without quotes survive, commas and spaces inside them included. */
  lemma {:induction false} RoundTrip(gs: seq<Text>)
    requires NonEmpty(gs) && forall i :: 0 <= i < |gs| ==> Ascii(gs[i]) && !HasQuote(gs[i])
    ensures SplitFrom(Join(gs), 0, []) == gs
  {
    hide SplitFrom, Safe, Join;
    QuoteFreeIsSafe(gs);
    RoundTripIff(gs);
  }
}

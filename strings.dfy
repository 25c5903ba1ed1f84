/**
 * The JavaScript string primitives the application relies on, stated over
 * `seq<char>`: `trim`, `split` and `join`, `indexOf`, `replace` with a string
 * pattern, the `/\s+/g` collapse, ASCII `toLowerCase`, the `\b` word test of
 * regular expressions and the decimal rendering of a number in a template.
 */
module Strings {

  import opened Wrappers

  /** JavaScript's WhiteSpace and LineTerminator characters: what `\s` matches and `trim` removes. */
  predicate IsSpace(c: char) {
    c == ' ' || c == '\t' || c == '\n' || c == '\r' || c == '\U{000B}' || c == '\U{000C}'
    || c == '\U{00A0}' || c == '\U{1680}' || ('\U{2000}' <= c <= '\U{200A}')
    || c == '\U{2028}' || c == '\U{2029}' || c == '\U{202F}' || c == '\U{205F}'
    || c == '\U{3000}' || c == '\U{FEFF}'
  }

  /** The characters `\w` matches, which decide where `\b` holds. */
  predicate IsWordChar(c: char) {
    ('a' <= c <= 'z') || ('A' <= c <= 'Z') || ('0' <= c <= '9') || c == '_'
  }

  predicate IsDigit(c: char) {
    '0' <= c <= '9'
  }

  /** A string that `s.trim() === ""` accepts. */
  predicate IsBlank(s: string) {
    forall i :: 0 <= i < |s| ==> IsSpace(s[i])
  }

  /** The first index at or after `i` that does not hold a space. */
  function SkipSpaces(s: string, i: nat): (k: nat)
    requires i <= |s|
    ensures i <= k <= |s|
    ensures forall j :: i <= j < k ==> IsSpace(s[j])
    ensures k == |s| || !IsSpace(s[k])
    decreases |s| - i
  {
    if i < |s| && IsSpace(s[i]) then SkipSpaces(s, i + 1) else i
  }

  /** The first index at or after `i` that does not hold a decimal digit. */
  function SkipDigits(s: string, i: nat): (k: nat)
    requires i <= |s|
    ensures i <= k <= |s|
    ensures forall j :: i <= j < k ==> IsDigit(s[j])
    ensures k == |s| || !IsDigit(s[k])
    decreases |s| - i
  {
    if i < |s| && IsDigit(s[i]) then SkipDigits(s, i + 1) else i
  }

  /** A run of spaces from `i` that ends where the spaces stop is the one `SkipSpaces` finds. */
  lemma {:induction false} SkipSpacesAt(s: string, i: nat, k: nat)
    requires i <= k <= |s|
    requires forall j :: i <= j < k ==> IsSpace(s[j])
    requires k == |s| || !IsSpace(s[k])
    ensures SkipSpaces(s, i) == k
    decreases k - i
  {
    if i < k {
      SkipSpacesAt(s, i + 1, k);
    }
  }

  /** A run of digits from `i` that ends where the digits stop is the one `SkipDigits` finds. */
  lemma {:induction false} SkipDigitsAt(s: string, i: nat, k: nat)
    requires i <= k <= |s|
    requires forall j :: i <= j < k ==> IsDigit(s[j])
    requires k == |s| || !IsDigit(s[k])
    ensures SkipDigits(s, i) == k
    decreases k - i
  {
    if i < k {
      SkipDigitsAt(s, i + 1, k);
    }
  }

  /** The start of the run of spaces that ends just before index `j`. */
  function SkipSpacesBack(s: string, j: nat): (k: nat)
    requires j <= |s|
    ensures k <= j
    ensures forall i :: k <= i < j ==> IsSpace(s[i])
    ensures k == 0 || !IsSpace(s[k - 1])
    decreases j
  {
    if j > 0 && IsSpace(s[j - 1]) then SkipSpacesBack(s, j - 1) else j
  }

  /** `trimStart`: the suffix that is left once every leading space is dropped. */
  function TrimStart(s: string): (r: string)
    ensures |r| <= |s| && r == s[|s| - |r|..]
    ensures r == [] || !IsSpace(r[0])
    ensures forall i :: 0 <= i < |s| - |r| ==> IsSpace(s[i])
    ensures |s| > 0 && IsSpace(s[0]) ==> |r| < |s|
  {
    s[SkipSpaces(s, 0)..]
  }

  /** `trimEnd`: the prefix that is left once every trailing space is dropped. */
  function TrimEnd(s: string): (r: string)
    ensures |r| <= |s| && r == s[..|r|]
    ensures r == [] || !IsSpace(r[|r| - 1])
    ensures forall i :: |r| <= i < |s| ==> IsSpace(s[i])
  {
    s[..SkipSpacesBack(s, |s|)]
  }

  /** `trim`: the longest infix that neither starts nor ends with a space. */
  function Trim(s: string): string {
    TrimEnd(TrimStart(s))
  }

  /**
   * What `trim` keeps is the infix of its input that starts after the
   * leading spaces; what it drops on either side is all space.
   */
  lemma TrimIsInfix(s: string)
    ensures var a := |s| - |TrimStart(s)|; var b := a + |Trim(s)|;
      0 <= a <= b <= |s| && Trim(s) == s[a..b] && IsBlank(s[..a]) && IsBlank(s[b..])
  {
    TrimKeepsInfix(s);
    TrimStartDrops(s);
    TrimDropsSuffix(s);
  }

  lemma TrimKeepsInfix(s: string)
    ensures var a := |s| - |TrimStart(s)|; var b := a + |Trim(s)|;
      0 <= a <= b <= |s| && Trim(s) == s[a..b]
  {
    var t := TrimStart(s);
    InfixOfSuffix(s, |s| - |t|, t, TrimEnd(t));
  }

  /** A prefix of a suffix is an infix. */
  lemma InfixOfSuffix(s: string, a: nat, t: string, r: string)
    requires a <= |s| && t == s[a..] && |r| <= |t| && r == t[..|r|]
    ensures a + |r| <= |s| && r == s[a..a + |r|]
  {
  }

  lemma TrimDropsSuffix(s: string)
    ensures var b := |s| - |TrimStart(s)| + |Trim(s)|; b <= |s| && IsBlank(s[b..])
  {
    var t := TrimStart(s);
    var a := |s| - |t|;
    TrimEndDrops(t);
    SliceOfSuffix(s, a, a + |TrimEnd(t)|);
  }

  lemma SliceOfSuffix(s: string, a: nat, b: nat)
    requires a <= b <= |s|
    ensures s[a..][..b - a] == s[a..b] && s[a..][b - a..] == s[b..]
  {
  }

  /** `trimStart` drops a blank prefix. */
  lemma TrimStartDrops(s: string)
    ensures IsBlank(s[..|s| - |TrimStart(s)|]) && TrimStart(s) == s[|s| - |TrimStart(s)|..]
  {
    var a := |s| - |TrimStart(s)|;
    forall i | 0 <= i < a
      ensures IsSpace(s[..a][i])
    {
    }
  }

  /** `trimEnd` drops a blank suffix. */
  lemma TrimEndDrops(t: string)
    ensures IsBlank(t[|TrimEnd(t)|..]) && TrimEnd(t) == t[..|TrimEnd(t)|]
  {
    var b := |TrimEnd(t)|;
    forall i | 0 <= i < |t| - b
      ensures IsSpace(t[b..][i])
    {
    }
  }

  /** The trimmed string neither starts nor ends with a space. */
  lemma TrimEnds(s: string)
    ensures Trim(s) == [] || (!IsSpace(Trim(s)[0]) && !IsSpace(Trim(s)[|Trim(s)| - 1]))
  {
    var t := TrimStart(s);
    assert TrimEnd(t) == t[..|TrimEnd(t)|];
  }

  /** A string trims to the empty string exactly when it is blank. */
  lemma TrimEmptyIffBlank(s: string)
    ensures Trim(s) == [] <==> IsBlank(s)
  {
    var t := TrimStart(s);
    var a := |s| - |t|;
    if Trim(s) == [] {
      TrimStartDrops(s);
      TrimEndDrops(t);
      assert t[0..] == t;
      BlankPrefixAndSuffix(s, a, t);
    }
    if IsBlank(s) {
      BlankTrimStart(s);
    }
  }

  /** A blank string loses everything to `trimStart`. */
  lemma {:induction false} BlankTrimStart(s: string)
    requires IsBlank(s)
    ensures TrimStart(s) == []
    decreases |s|
  {
    if s != [] {
      assert IsSpace(s[0]);
      BlankTrimStart(s[1..]);
    }
  }

  lemma BlankPrefixAndSuffix(s: string, a: nat, t: string)
    requires a <= |s| && IsBlank(s[..a]) && t == s[a..] && IsBlank(t)
    ensures IsBlank(s)
  {
    forall i | 0 <= i < |s|
      ensures IsSpace(s[i])
    {
      if i < a {
        assert s[..a][i] == s[i];
      } else {
        assert t[i - a] == s[i];
      }
    }
  }

  /** Trimming a trimmed string changes nothing. */
  lemma TrimIdempotent(s: string)
    ensures Trim(Trim(s)) == Trim(s)
  {
    var t := Trim(s);
    TrimEnds(s);
    assert TrimStart(t) == t;
    assert TrimEnd(t) == t;
  }

  /** `p` occurs in `s` starting at index `j`. */
  predicate OccursAt(s: string, p: string, j: int) {
    0 <= j && j + |p| <= |s| && s[j..j + |p|] == p
  }

  /** `s.indexOf(p, from)`: the first occurrence at or after `from`, `None` for -1. */
  function IndexOfFrom(s: string, p: string, from: nat): (r: Option<nat>)
    requires from <= |s|
    ensures r.Some? ==> from <= r.value && OccursAt(s, p, r.value)
    ensures forall j :: from <= j && (r.None? || j < r.value) ==> !OccursAt(s, p, j)
    decreases |s| - from
  {
    if from + |p| > |s| then None
    else if s[from..from + |p|] == p then Some(from)
    else IndexOfFrom(s, p, from + 1)
  }

  /** `s.indexOf(p)`. */
  function IndexOf(s: string, p: string): Option<nat> {
    IndexOfFrom(s, p, 0)
  }

  /** `s.includes(p)`. */
  predicate Contains(s: string, p: string) {
    IndexOf(s, p).Some?
  }

  lemma ContainsIff(s: string, p: string)
    ensures Contains(s, p) <==> exists j :: OccursAt(s, p, j)
  {
  }

  /** A string containing `p` contains every infix of `p` too. */
  lemma {:induction false} ContainsInfix(s: string, p: string, a: nat, b: nat)
    requires a <= b <= |p| && Contains(s, p)
    ensures Contains(s, p[a..b])
  {
    var j := IndexOf(s, p).value;
    assert s[j..j + |p|][a..b] == s[j + a..j + b];
    assert OccursAt(s, p[a..b], j + a);
    ContainsIff(s, p[a..b]);
  }

  /** `s.replace(p, "")` with a string pattern: the first occurrence of `p` is cut out. */
  function RemoveFirst(s: string, p: string): (r: string)
    ensures IndexOf(s, p).None? ==> r == s
    ensures IndexOf(s, p).Some? ==>
              (|r| == |s| - |p| && r[..IndexOf(s, p).value] + p + r[IndexOf(s, p).value..] == s)
  {
    match IndexOf(s, p)
    case None => s
    case Some(i) =>
      var r := s[..i] + s[i + |p|..];
      assert r[..i] + p + r[i..] == s by {
        assert r[..i] == s[..i] && r[i..] == s[i + |p|..];
      }
      r
  }

  /** `s.split(sep)` for a non-empty separator, scanning left to right. */
  function Split(s: string, sep: string): (r: seq<string>)
    requires sep != []
    ensures |r| >= 1
    decreases |s|
  {
    match IndexOf(s, sep)
    case None => [s]
    case Some(i) => [s[..i]] + Split(s[i + |sep|..], sep)
  }

  /** `xs.join(sep)`. */
  function Join(xs: seq<string>, sep: string): string
    decreases |xs|
  {
    if |xs| == 0 then ""
    else if |xs| == 1 then xs[0]
    else xs[0] + sep + Join(xs[1..], sep)
  }

  /** Joining the pieces of a split with the same separator gives back the string. */
  lemma {:induction false} JoinSplit(s: string, sep: string)
    requires sep != []
    ensures Join(Split(s, sep), sep) == s
    decreases |s|
  {
    match IndexOf(s, sep)
    case None =>
    case Some(i) =>
      var rest := s[i + |sep|..];
      JoinSplit(rest, sep);
      JoinCons(s[..i], Split(rest, sep), sep);
      SplitAround(s, sep, i);
  }

  /** A join ends with its last piece, after one separator: there is no trailing separator. */
  lemma {:induction false} JoinSnoc(xs: seq<string>, sep: string)
    requires |xs| >= 2
    ensures Join(xs, sep) == Join(xs[..|xs| - 1], sep) + sep + xs[|xs| - 1]
    decreases |xs|
  {
    var init, last := xs[..|xs| - 1], xs[|xs| - 1];
    if |xs| > 2 {
      var tail := xs[1..];
      JoinSnoc(tail, sep);
      assert tail[..|tail| - 1] == init[1..] && tail[|tail| - 1] == last;
      assert init[0] == xs[0];
      var a, b := xs[0] + sep, Join(init[1..], sep);
      assert Join(xs, sep) == a + (b + sep + last);
      assert Join(init, sep) == a + b;
      assert a + (b + sep + last) == a + b + sep + last;
    } else {
      assert init == [xs[0]];
    }
  }

  lemma JoinCons(a: string, pieces: seq<string>, sep: string)
    requires |pieces| >= 1
    ensures Join([a] + pieces, sep) == a + sep + Join(pieces, sep)
  {
    assert ([a] + pieces)[1..] == pieces;
  }

  lemma SplitAround(s: string, sep: string, i: nat)
    requires OccursAt(s, sep, i)
    ensures s == s[..i] + sep + s[i + |sep|..]
  {
    assert s == s[..i] + s[i..i + |sep|] + s[i + |sep|..];
  }

  /** No piece of a split contains the separator. */
  lemma {:induction false} SplitPiecesFree(s: string, sep: string)
    requires sep != []
    ensures forall k :: 0 <= k < |Split(s, sep)| ==> !Contains(Split(s, sep)[k], sep)
    decreases |s|
  {
    match IndexOf(s, sep)
    case None =>
    case Some(i) =>
      SplitPiecesFree(s[i + |sep|..], sep);
      var piece := s[..i];
      if Contains(piece, sep) {
        var j := IndexOf(piece, sep).value;
        assert s[j..j + |sep|] == piece[j..j + |sep|];
        assert OccursAt(s, sep, j);
      }
  }

  lemma {:induction false} IndexOfAfterFree(a: string, c: char, b: string)
    requires c !in a
    ensures IndexOf(a + [c] + b, [c]) == Some(|a|)
  {
    var s := a + [c] + b;
    assert OccursAt(s, [c], |a|);
    forall j | 0 <= j < |a|
      ensures !OccursAt(s, [c], j)
    {
      assert s[j] == a[j];
    }
  }

  /** Splitting on a one-character separator undoes joining with it, when no piece holds that character. */
  lemma {:induction false} SplitJoin(xs: seq<string>, c: char)
    requires |xs| >= 1
    requires forall k :: 0 <= k < |xs| ==> c !in xs[k]
    ensures Split(Join(xs, [c]), [c]) == xs
    decreases |xs|
  {
    if |xs| == 1 {
      forall j | 0 <= j < |xs[0]|
        ensures !OccursAt(xs[0], [c], j)
      {
        assert xs[0][j..j + 1] == [xs[0][j]];
      }
    } else {
      var rest := Join(xs[1..], [c]);
      IndexOfAfterFree(xs[0], c, rest);
      var s := xs[0] + [c] + rest;
      assert s[|xs[0]| + 1..] == rest;
      assert s[..|xs[0]|] == xs[0];
      SplitJoin(xs[1..], c);
    }
  }

  /** The number of times `c` appears in `s`. */
  function Count(s: string, c: char): nat {
    if s == [] then 0 else (if s[0] == c then 1 else 0) + Count(s[1..], c)
  }

  lemma {:induction false} CountConcat(a: string, b: string, c: char)
    ensures Count(a + b, c) == Count(a, c) + Count(b, c)
    decreases |a|
  {
    if a == [] {
      assert a + b == b;
    } else {
      assert (a + b)[1..] == a[1..] + b;
      CountConcat(a[1..], b, c);
    }
  }

  lemma {:induction false} CountAbsent(s: string, c: char)
    requires c !in s
    ensures Count(s, c) == 0
    decreases |s|
  {
    if s != [] { CountAbsent(s[1..], c); }
  }

  /** Joining n pieces that do not hold `c` with `c` puts exactly n - 1 copies of `c` in the result. */
  lemma {:induction false} JoinCount(xs: seq<string>, c: char)
    requires |xs| >= 1
    requires forall k :: 0 <= k < |xs| ==> c !in xs[k]
    ensures Count(Join(xs, [c]), c) == |xs| - 1
    decreases |xs|
  {
    CountAbsent(xs[0], c);
    if |xs| > 1 {
      JoinCount(xs[1..], c);
      CountConcat(xs[0] + [c], Join(xs[1..], [c]), c);
      CountConcat(xs[0], [c], c);
    }
  }

  /** The characters of `s` that are not spaces, in order. */
  function NonSpace(s: string): string {
    if s == [] then [] else (if IsSpace(s[0]) then [] else [s[0]]) + NonSpace(s[1..])
  }

  lemma {:induction false} NonSpaceTrimStart(s: string)
    ensures NonSpace(TrimStart(s)) == NonSpace(s)
    decreases |s|
  {
    if |s| > 0 && IsSpace(s[0]) { NonSpaceTrimStart(s[1..]); }
  }

  /** `s.replace(/\s+/g, " ")`: every maximal run of spaces becomes one ' '. */
  function CollapseSpaces(s: string): (r: string)
    decreases |s|
  {
    if s == [] then []
    else if IsSpace(s[0]) then [' '] + CollapseSpaces(TrimStart(s))
    else [s[0]] + CollapseSpaces(s[1..])
  }

  /** No two spaces are adjacent in `s`, and the only space it holds is ' '. */
  predicate SingleSpaced(s: string) {
    (forall i :: 0 <= i < |s| && IsSpace(s[i]) ==> s[i] == ' ')
    && (forall i :: 0 <= i < |s| - 1 && IsSpace(s[i]) ==> !IsSpace(s[i + 1]))
  }

  /** Collapsing starts with a space exactly when the input does. */
  lemma CollapseSpacesHead(s: string)
    ensures CollapseSpaces(s) != [] ==> (IsSpace(CollapseSpaces(s)[0]) <==> IsSpace(s[0]))
  {
  }

  /** Collapsing keeps every non-space character, in order. */
  lemma {:induction false} CollapseSpacesKeepsText(s: string)
    ensures NonSpace(CollapseSpaces(s)) == NonSpace(s)
    decreases |s|
  {
    if s == [] {
    } else if IsSpace(s[0]) {
      var t := TrimStart(s);
      CollapseSpacesKeepsText(t);
      NonSpaceTrimStart(s);
      var r := CollapseSpaces(s);
      assert r[1..] == CollapseSpaces(t);
    } else {
      CollapseSpacesKeepsText(s[1..]);
      var r := CollapseSpaces(s);
      assert r[1..] == CollapseSpaces(s[1..]);
    }
  }

  /** Collapsing leaves no two adjacent spaces and no space other than ' '. */
  lemma {:induction false} CollapseSpacesSingle(s: string)
    ensures SingleSpaced(CollapseSpaces(s))
    decreases |s|
  {
    if s == [] {
    } else if IsSpace(s[0]) {
      var t := TrimStart(s);
      CollapseSpacesSingle(t);
      CollapseSpacesHead(t);
      var r := CollapseSpaces(s);
      assert r[1..] == CollapseSpaces(t);
      assert forall i :: 1 <= i < |r| ==> r[i] == r[1..][i - 1];
    } else {
      CollapseSpacesSingle(s[1..]);
      var r := CollapseSpaces(s);
      assert r[1..] == CollapseSpaces(s[1..]);
      assert forall i :: 1 <= i < |r| ==> r[i] == r[1..][i - 1];
    }
  }

  /** A string that is already single-spaced is left as it is: collapsing is idempotent. */
  lemma {:induction false} CollapseSpacesFixed(s: string)
    requires SingleSpaced(s)
    ensures CollapseSpaces(s) == s
    decreases |s|
  {
    if s != [] {
      SingleSpacedInfix(s, 1, |s|);
      CollapseSpacesFixed(s[1..]);
      if IsSpace(s[0]) {
        assert |s| > 1 ==> !IsSpace(s[1]);
        assert TrimStart(s) == s[1..];
      }
    }
  }

  /** Collapsing twice is collapsing once. */
  lemma CollapseSpacesIdempotent(s: string)
    ensures CollapseSpaces(CollapseSpaces(s)) == CollapseSpaces(s)
  {
    CollapseSpacesSingle(s);
    CollapseSpacesFixed(CollapseSpaces(s));
  }

  /** Trimming a string that neither starts nor ends with a space changes nothing. */
  lemma TrimUnchanged(s: string)
    requires s == [] || (!IsSpace(s[0]) && !IsSpace(s[|s| - 1]))
    ensures Trim(s) == s
  {
  }

  /** An infix of a single-spaced string is single-spaced. */
  lemma SingleSpacedInfix(s: string, a: nat, b: nat)
    requires a <= b <= |s| && SingleSpaced(s)
    ensures SingleSpaced(s[a..b])
  {
    var t := s[a..b];
    assert forall i :: 0 <= i < |t| ==> t[i] == s[a + i];
  }

  /** ASCII `toLowerCase`. */
  function ToLowerChar(c: char): char {
    if 'A' <= c <= 'Z' then (c as int + 32) as char else c
  }

  function ToLower(s: string): (r: string)
    ensures |r| == |s|
    ensures forall i :: 0 <= i < |s| ==> r[i] == ToLowerChar(s[i])
  {
    seq(|s|, i requires 0 <= i < |s| => ToLowerChar(s[i]))
  }

  /** The decimal digits of `n`, as a template literal renders a non-negative integer. */
  function NatToString(n: nat): (r: string)
    ensures r != []
    ensures forall i :: 0 <= i < |r| ==> IsDigit(r[i])
    ensures |r| > 1 ==> r[0] != '0'
    decreases n
  {
    if n < 10 then [('0' as int + n) as char]
    else NatToString(n / 10) + [('0' as int + n % 10) as char]
  }

  /** The value of a string of decimal digits. */
  function DecimalValue(s: string): nat
    requires forall i :: 0 <= i < |s| ==> IsDigit(s[i])
    decreases |s|
  {
    if s == [] then 0
    else
      var d := s[|s| - 1];
      assert IsDigit(d);
      DecimalValue(s[..|s| - 1]) * 10 + (d as int - '0' as int)
  }

  /** Reading the rendered digits back gives the number. */
  lemma {:induction false} NatToStringRoundTrip(n: nat)
    ensures DecimalValue(NatToString(n)) == n
    decreases n
  {
    if n >= 10 {
      NatToStringRoundTrip(n / 10);
      var r := NatToString(n);
      assert r[..|r| - 1] == NatToString(n / 10);
    }
  }

  /** Distinct numbers render differently. */
  lemma NatToStringInjective(m: nat, n: nat)
    requires NatToString(m) == NatToString(n)
    ensures m == n
  {
    NatToStringRoundTrip(m);
    NatToStringRoundTrip(n);
  }
}

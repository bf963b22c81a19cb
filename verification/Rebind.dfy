/** `rebind`, which turns `?` placeholders into `$1`, `$2`, ... for PostgreSQL, and exactly
    when the rewritten query means the same as the original. */
module Rebind {

  // ---- Decimal numerals (`%d`) -----------------------------------------------------

  predicate IsDigit(c: char) { '0' <= c <= '9' }

  function DigitChar(d: nat): (c: char)
    requires d < 10
    ensures IsDigit(c) && DigitValue(c) == d
  {
    ['0', '1', '2', '3', '4', '5', '6', '7', '8', '9'][d]
  }

  function DigitValue(c: char): nat
    requires IsDigit(c)
  {
    (c as int) - ('0' as int)
  }

  ghost predicate AllDigits(s: string) { forall i :: 0 <= i < |s| ==> IsDigit(s[i]) }

  function Decimal(n: nat): (s: string)
    ensures |s| > 0 && AllDigits(s)
  {
    if n < 10 then [DigitChar(n)] else Decimal(n / 10) + [DigitChar(n % 10)]
  }

  ghost function Value(s: string): nat
    requires AllDigits(s)
  {
    if s == [] then 0 else 10 * Value(s[..|s| - 1]) + DigitValue(s[|s| - 1])
  }

  lemma {:induction false} ValueOfDecimal(n: nat)
    ensures Value(Decimal(n)) == n
  {
    if n >= 10 {
      ValueOfDecimal(n / 10);
      var s := Decimal(n);
      assert s[..|s| - 1] == Decimal(n / 10);
    }
  }

  lemma {:induction false} ValueGrows(s: string, t: string)
    requires AllDigits(s + t) && t != []
    ensures AllDigits(s) && Value(s + t) >= 10 * Value(s)
    decreases |t|
  {
    var u := s + t;
    assert forall i :: 0 <= i < |s| ==> s[i] == u[i];
    assert u[..|u| - 1] == s + t[..|t| - 1];
    if |t| == 1 {
      assert u[..|u| - 1] == s;
    } else {
      ValueGrows(s, t[..|t| - 1]);
    }
  }

  // ---- The rewriting ------------------------------------------------------------------

  /** Whether `c` leaves us inside a string literal. */
  predicate Quoted(c: char, inStr: bool) { if c == '\'' then !inStr else inStr }

  predicate Placeholder(c: char, inStr: bool) { c == '?' && !Quoted(c, inStr) }

  ghost function Rebound(q: string, n: nat, inStr: bool): string {
    if q == [] then ""
    else if Placeholder(q[0], inStr) then "$" + Decimal(n + 1) + Rebound(q[1..], n + 1, inStr)
    else [q[0]] + Rebound(q[1..], n, Quoted(q[0], inStr))
  }

  lemma Regroup(a: string, b: string, c: string)
    ensures (a + b) + c == a + (b + c)
  {
  }

  method Rebind(isPG: bool, q: string) returns (r: string)
    ensures r == if isPG then Rebound(q, 0, false) else q
  {
    if !isPG {
      return q;
    }
    var n, inStr := 0, false;
    r := "";
    for i := 0 to |q|
      invariant r + Rebound(q[i..], n, inStr) == Rebound(q, 0, false)
    {
      var c := q[i];
      ghost var n0, inStr0 := n, inStr;
      assert q[i..][1..] == q[i + 1..];
      if c == '\'' {
        inStr := !inStr;
      }
      if c == '?' && !inStr {
        n := n + 1;
        Regroup(r, "$" + Decimal(n), Rebound(q[i + 1..], n, inStr));
        r := r + ("$" + Decimal(n));
      } else {
        Regroup(r, [c], Rebound(q[i + 1..], n, inStr));
        r := r + [c];
      }
    }
  }

  // ---- What a query means -----------------------------------------------------------------

  /** A query as the database sees it: text, and references to the k-th argument. */
  datatype Token = Text(c: char) | Arg(k: nat)

  /** Reading `?` placeholders by position, the first one being argument `n + 1`. */
  ghost function ByPosition(q: string, n: nat, inStr: bool): seq<Token> {
    if q == [] then []
    else if Placeholder(q[0], inStr) then [Arg(n + 1)] + ByPosition(q[1..], n + 1, inStr)
    else [Text(q[0])] + ByPosition(q[1..], n, Quoted(q[0], inStr))
  }

  /** The length of the longest run of digits at the start. */
  ghost function DigitRun(s: string): (m: nat)
    ensures m <= |s| && AllDigits(s[..m]) && (m < |s| ==> !IsDigit(s[m]))
  {
    if s == [] || !IsDigit(s[0]) then 0 else 1 + DigitRun(s[1..])
  }

  ghost predicate Numbered(q: string, inStr: bool)
    requires q != []
  {
    q[0] == '$' && !inStr && |q| > 1 && IsDigit(q[1])
  }

  /** Reading `$k` placeholders by number. */
  ghost function ByNumber(q: string, inStr: bool): seq<Token>
    decreases |q|
  {
    if q == [] then []
    else if Numbered(q, inStr) then
      var m := DigitRun(q[1..]);
      [Arg(Value(q[1..][..m]))] + ByNumber(q[1 + m..], inStr)
    else [Text(q[0])] + ByNumber(q[1..], Quoted(q[0], inStr))
  }

  // ---- When both readings agree ---------------------------------------------------------------

  /** An unquoted `$` or `?` with a digit right after it. */
  ghost predicate Clash(q: string, inStr: bool)
    requires q != []
  {
    (q[0] == '$' || q[0] == '?') && !inStr && |q| > 1 && IsDigit(q[1])
  }

  ghost predicate Clean(q: string, inStr: bool) {
    q == [] || (!Clash(q, inStr) && Clean(q[1..], Quoted(q[0], inStr)))
  }

  lemma FirstChar(q: string, n: nat, inStr: bool)
    ensures (Rebound(q, n, inStr) == "") == (q == [])
    ensures q != [] ==> IsDigit(Rebound(q, n, inStr)[0]) == IsDigit(q[0])
  {
  }

  lemma {:induction false} RunStops(d: string, rest: string)
    requires AllDigits(d) && (rest == [] || !IsDigit(rest[0]))
    ensures DigitRun(d + rest) == |d|
  {
    if d == [] {
      assert d + rest == rest;
    } else {
      assert (d + rest)[1..] == d[1..] + rest;
      RunStops(d[1..], rest);
    }
  }

  /** Without a clash in front, one step of each reading yields the same token. */
  lemma HeadAgrees(q: string, n: nat, inStr: bool)
    requires q != [] && !Clash(q, inStr)
    ensures var n' := if Placeholder(q[0], inStr) then n + 1 else n;
            var f := Quoted(q[0], inStr);
            var t := if Placeholder(q[0], inStr) then Arg(n + 1) else Text(q[0]);
            && ByPosition(q, n, inStr) == [t] + ByPosition(q[1..], n', f)
            && ByNumber(Rebound(q, n, inStr), inStr) == [t] + ByNumber(Rebound(q[1..], n', f), f)
  {
    if Placeholder(q[0], inStr) {
      FirstChar(q[1..], n + 1, inStr);
      ReadsNumber(n + 1, Rebound(q[1..], n + 1, inStr));
    } else {
      FirstChar(q[1..], n, Quoted(q[0], inStr));
      ReadsText(q[0], Rebound(q[1..], n, Quoted(q[0], inStr)), inStr);
    }
  }

  /** A number that no digit follows is read as that number. */
  lemma {:induction false} ReadsNumber(n: nat, rest: string)
    requires rest == [] || !IsDigit(rest[0])
    ensures ByNumber("$" + Decimal(n) + rest, false) == [Arg(n)] + ByNumber(rest, false)
  {
    var d := Decimal(n);
    var out := "$" + d + rest;
    RunStops(d, rest);
    assert out[1..] == d + rest && out[1..][..|d|] == d && out[1 + |d|..] == rest;
    ValueOfDecimal(n);
  }

  lemma {:induction false} ReadsText(c: char, rest: string, inStr: bool)
    requires c == '$' && !inStr ==> rest == [] || !IsDigit(rest[0])
    ensures ByNumber([c] + rest, inStr) == [Text(c)] + ByNumber(rest, Quoted(c, inStr))
  {
    var out := [c] + rest;
    assert out[1..] == rest;
  }

  /** With a clash in front, the two readings differ in their first token. */
  lemma HeadDiffers(q: string, n: nat, inStr: bool)
    requires q != [] && Clash(q, inStr)
    ensures ByNumber(Rebound(q, n, inStr), inStr) != ByPosition(q, n, inStr)
  {
    var out := Rebound(q, n, inStr);
    if q[0] == '?' {
      var d, rest := Decimal(n + 1), Rebound(q[1..], n + 1, inStr);
      assert out == "$" + d + rest && out[1..] == d + rest;
      FirstChar(q[1..], n + 1, inStr);
      var m := DigitRun(out[1..]);
      LongerRun(d, rest);
      var run := out[1..][..m];
      assert run == d + run[|d|..];
      ValueOfDecimal(n + 1);
      ValueGrows(d, run[|d|..]);
      assert ByNumber(out, inStr)[0] == Arg(Value(run));
      assert ByPosition(q, n, inStr)[0] == Arg(n + 1);
    } else {
      FirstChar(q[1..], n, inStr);
      assert out[1..] == Rebound(q[1..], n, inStr);
      assert ByNumber(out, inStr)[0].Arg? && ByPosition(q, n, inStr)[0].Text?;
    }
  }

  lemma {:induction false} LongerRun(d: string, rest: string)
    requires AllDigits(d) && rest != [] && IsDigit(rest[0])
    ensures DigitRun(d + rest) > |d|
  {
    if d == [] {
      assert d + rest == rest;
    } else {
      assert (d + rest)[1..] == d[1..] + rest;
      LongerRun(d[1..], rest);
    }
  }

  /** Binding by number in the output equals binding by position in the input exactly for
      the clean queries. */
  lemma {:induction false} RebindMeaning(q: string, n: nat, inStr: bool)
    ensures ByNumber(Rebound(q, n, inStr), inStr) == ByPosition(q, n, inStr) <==> Clean(q, inStr)
    decreases |q|
  {
    if q != [] {
      if Clash(q, inStr) {
        HeadDiffers(q, n, inStr);
      } else {
        HeadAgrees(q, n, inStr);
        var n' := if Placeholder(q[0], inStr) then n + 1 else n;
        var f := Quoted(q[0], inStr);
        RebindMeaning(q[1..], n', f);
        var t := ByPosition(q, n, inStr)[0];
        assert ([t] + ByNumber(Rebound(q[1..], n', f), f))[1..] == ByNumber(Rebound(q[1..], n', f), f);
        assert ([t] + ByPosition(q[1..], n', f))[1..] == ByPosition(q[1..], n', f);
      }
    }
  }

  // ---- What never changes ---------------------------------------------------------------------

  /** The text inside quotes, with the quotes. */
  ghost function QuotedText(q: string, inStr: bool): string {
    if q == [] then ""
    else (if inStr || q[0] == '\'' then [q[0]] else "") + QuotedText(q[1..], Quoted(q[0], inStr))
  }

  ghost predicate Plain(s: string) { forall i :: 0 <= i < |s| ==> s[i] != '\'' && s[i] != '?' }

  lemma {:induction false} SkipPlain(s: string, rest: string, m: nat)
    requires Plain(s)
    ensures QuotedText(s + rest, false) == QuotedText(rest, false)
    ensures Rebound(s + rest, m, false) == s + Rebound(rest, m, false)
    decreases |s|
  {
    if s == [] {
      assert s + rest == rest;
    } else {
      var u := s + rest;
      assert u[1..] == s[1..] + rest;
      SkipPlain(s[1..], rest, m);
      assert s == [s[0]] + s[1..];
    }
  }

  /** Every query keeps its quoted text, and a second rebinding changes nothing. */
  lemma {:induction false} RebindStable(q: string, n: nat, m: nat, inStr: bool)
    ensures QuotedText(Rebound(q, n, inStr), inStr) == QuotedText(q, inStr)
    ensures Rebound(Rebound(q, n, inStr), m, inStr) == Rebound(q, n, inStr)
    decreases |q|
  {
    if q != [] {
      if Placeholder(q[0], inStr) {
        var d, rest := "$" + Decimal(n + 1), Rebound(q[1..], n + 1, inStr);
        RebindStable(q[1..], n + 1, m, inStr);
        SkipPlain(d, rest, m);
      } else {
        var f := Quoted(q[0], inStr);
        var rest := Rebound(q[1..], n, f);
        RebindStable(q[1..], n, m, f);
        var out := [q[0]] + rest;
        assert out[1..] == rest;
      }
    }
  }

  // ---- Inside or outside a literal ----------------------------------------------------------------

  function Quotes(s: string): nat { if s == [] then 0 else Quotes(s[..|s| - 1]) + if s[|s| - 1] == '\'' then 1 else 0 }

  /** An odd number of quotes comes before position `i`. */
  predicate Inside(q: string, i: nat)
    requires i <= |q|
  {
    Quotes(q[..i]) % 2 == 1
  }

  /** How many placeholders come before position `i`. */
  function Marks(q: string, i: nat): nat
    requires i <= |q|
  {
    if i == 0 then 0 else Marks(q, i - 1) + if q[i - 1] == '?' && !Inside(q, i - 1) then 1 else 0
  }

  lemma InsideNext(q: string, i: nat)
    requires i < |q|
    ensures Inside(q, i + 1) == Quoted(q[i], Inside(q, i))
  {
    assert q[..i + 1][..i] == q[..i];
  }

  lemma {:induction false} PositionsFrom(q: string, i: nat)
    requires i <= |q|
    ensures |ByPosition(q, 0, false)| == |ByPosition(q[i..], Marks(q, i), Inside(q, i))| + i
    ensures ByPosition(q, 0, false)[i..] == ByPosition(q[i..], Marks(q, i), Inside(q, i))
  {
    if i == 0 {
      assert q[0..] == q && q[..0] == [];
    } else {
      PositionsFrom(q, i - 1);
      InsideNext(q, i - 1);
      assert q[i - 1..][1..] == q[i..];
      var before := ByPosition(q[i - 1..], Marks(q, i - 1), Inside(q, i - 1));
      assert before[1..] == ByPosition(q[i..], Marks(q, i), Inside(q, i));
    }
  }

  lemma {:induction false} PositionLength(q: string, n: nat, inStr: bool)
    ensures |ByPosition(q, n, inStr)| == |q|
  {
    if q != [] {
      PositionLength(q[1..], if Placeholder(q[0], inStr) then n + 1 else n, Quoted(q[0], inStr));
    }
  }

  /** Read by position, a `?` with an even number of quotes before it stands for the next
      argument, and every other character for itself. */
  lemma PositionAt(q: string, i: nat)
    requires i < |q|
    ensures |ByPosition(q, 0, false)| == |q|
    ensures ByPosition(q, 0, false)[i] == if q[i] == '?' && !Inside(q, i) then Arg(Marks(q, i) + 1) else Text(q[i])
  {
    PositionLength(q, 0, false);
    PositionsFrom(q, i);
    assert ByPosition(q, 0, false)[i] == ByPosition(q, 0, false)[i..][0];
  }

  /** The quotes, and what has an odd number of them before it. */
  function Picked(q: string, i: nat): string
    requires i <= |q|
  {
    if i == 0 then "" else Picked(q, i - 1) + if q[i - 1] == '\'' || Inside(q, i - 1) then [q[i - 1]] else ""
  }

  lemma {:induction false} QuotedFrom(q: string, i: nat)
    requires i <= |q|
    ensures QuotedText(q, false) == Picked(q, i) + QuotedText(q[i..], Inside(q, i))
  {
    if i == 0 {
      assert q[0..] == q && q[..0] == [];
    } else {
      QuotedFrom(q, i - 1);
      InsideNext(q, i - 1);
      assert q[i - 1..][1..] == q[i..];
    }
  }

  lemma QuotedTextPicked(q: string)
    ensures QuotedText(q, false) == Picked(q, |q|)
  {
    QuotedFrom(q, |q|);
    assert q[|q|..] == [];
  }

  /** A clean query has no `$` or `?` outside its literals with a digit right after it. */
  ghost predicate NoClash(q: string, from: nat) {
    forall i :: from <= i < |q| - 1 && (q[i] == '$' || q[i] == '?') && !Inside(q, i) ==> !IsDigit(q[i + 1])
  }

  lemma {:induction false} CleanMeans(q: string, i: nat)
    requires i <= |q|
    ensures Clean(q[i..], Inside(q, i)) <==> NoClash(q, i)
    decreases |q| - i
  {
    if i < |q| {
      CleanMeans(q, i + 1);
      InsideNext(q, i);
      assert q[i..][1..] == q[i + 1..];
    }
  }

  /** The whole condition under which `rebind` keeps the meaning of a query. */
  lemma RebindExact(q: string)
    ensures ByNumber(Rebound(q, 0, false), false) == ByPosition(q, 0, false) <==> NoClash(q, 0)
  {
    RebindMeaning(q, 0, false);
    CleanMeans(q, 0);
    assert q[0..] == q && q[..0] == [];
  }
}

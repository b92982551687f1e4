/** String helpers shared by the model: Go's string order, strings.TrimSpace, the %d verb,
    and the ':'-joined keys of the cache client. */
module Text {

  // ----- order -----

  /** Go compares strings byte by byte; for UTF-8 this is the order of the code points. */
  predicate Less(a: string, b: string) {
    b != [] && (a == [] || a[0] < b[0] || (a[0] == b[0] && Less(a[1..], b[1..])))
  }

  lemma {:induction false} LessIsTotal(a: string, b: string)
    ensures a == b || Less(a, b) || Less(b, a)
  {
    if a != [] && b != [] && a[0] == b[0] {
      LessIsTotal(a[1..], b[1..]);
      if a[1..] == b[1..] {
        assert a == [a[0]] + a[1..] && b == [b[0]] + b[1..];
      }
    }
  }

  lemma {:induction false} LessIsAsymmetric(a: string, b: string)
    requires Less(a, b)
    ensures a != b && !Less(b, a)
  {
    if a != [] && a[0] == b[0] {
      LessIsAsymmetric(a[1..], b[1..]);
    }
  }

  lemma {:induction false} LessIsTransitive(a: string, b: string, c: string)
    requires Less(a, b) && Less(b, c)
    ensures Less(a, c)
  {
    if a != [] && a[0] == b[0] && b[0] == c[0] {
      LessIsTransitive(a[1..], b[1..], c[1..]);
    }
  }

  lemma SameFronts(a: string, b: string)
    ensures forall k | 0 < k <= |a| && k <= |b| && a[..k] == b[..k] :: a[0] == b[0]
  {
    forall k | 0 < k <= |a| && k <= |b| && a[..k] == b[..k] ensures a[0] == b[0] {
      assert a[..k][0] == b[..k][0];
    }
  }

  /** The texts first differ at k, and there a has the smaller character. */
  predicate SmallerAt(a: string, b: string, k: nat) {
    k < |a| && k < |b| && a[..k] == b[..k] && a[k] < b[k]
  }

  predicate ProperBeginning(a: string, b: string) {
    |a| < |b| && a == b[..|a|]
  }

  lemma TailDiffers(a: string, b: string)
    requires a != [] && b != [] && a[0] == b[0]
    ensures ProperBeginning(a, b) <==> ProperBeginning(a[1..], b[1..])
    ensures forall k: nat :: SmallerAt(a[1..], b[1..], k) ==> SmallerAt(a, b, k + 1)
    ensures forall k: nat :: SmallerAt(a, b, k) ==> k > 0 && SmallerAt(a[1..], b[1..], k - 1)
  {
    var s, t := a[1..], b[1..];
    assert a == [a[0]] + s && b == [b[0]] + t;
    assert |a| <= |b| ==> b[..|a|] == [b[0]] + t[..|s|];
    forall k: nat | SmallerAt(s, t, k) ensures SmallerAt(a, b, k + 1) {
      assert a[..k + 1] == [a[0]] + s[..k] && b[..k + 1] == [b[0]] + t[..k];
    }
    forall k: nat | SmallerAt(a, b, k) ensures k > 0 && SmallerAt(s, t, k - 1) {
      assert s[..k - 1] == a[..k][1..] && t[..k - 1] == b[..k][1..];
    }
  }

  /** One text comes before another if it is a proper beginning of it, or has the smaller character where they first
      differ. */
  lemma {:induction false} LessIsFirstDifference(a: string, b: string)
    ensures Less(a, b) <==> ProperBeginning(a, b) || exists k: nat :: SmallerAt(a, b, k)
  {
    SameFronts(a, b);
    if a == [] || b == [] {
    } else if a[0] == b[0] {
      TailDiffers(a, b);
      LessIsFirstDifference(a[1..], b[1..]);
      if k: nat :| SmallerAt(a[1..], b[1..], k) {
        assert SmallerAt(a, b, k + 1);
      }
    } else {
      assert a[..|a|] == a;
      assert SmallerAt(a, b, 0) <==> a[0] < b[0];
    }
  }

  // ----- strings.TrimSpace -----

  /** The characters of unicode.IsSpace. */
  predicate IsSpace(c: char) {
    var n := c as int;
    9 <= n <= 13 || n in {0x20, 0x85, 0xA0, 0x1680, 0x2028, 0x2029, 0x202F, 0x205F, 0x3000} || 0x2000 <= n <= 0x200A
  }

  /** Tab, line feed, vertical tab, form feed, carriage return and space; next line and no-break space; and the spaces
      and separators of Unicode. */
  lemma SpacesAre(c: char)
    ensures c < '\U{0080}' ==> (IsSpace(c) <==> c in "\t\n\U{000B}\U{000C}\r ")
    ensures '\U{0080}' <= c < '\U{0100}' ==> (IsSpace(c) <==> c in "\U{0085}\U{00A0}")
    ensures '\U{0100}' <= c ==>
              (IsSpace(c) <==> c in "\U{1680}\U{2028}\U{2029}\U{202F}\U{205F}\U{3000}" || '\U{2000}' <= c <= '\U{200A}')
  {
  }

  function TrimLeft(s: string): string {
    if s != [] && IsSpace(s[0]) then TrimLeft(s[1..]) else s
  }

  function TrimRight(s: string): string {
    if s != [] && IsSpace(s[|s| - 1]) then TrimRight(s[..|s| - 1]) else s
  }

  function TrimSpace(s: string): string {
    TrimRight(TrimLeft(s))
  }

  predicate AllSpace(s: string) {
    forall i | 0 <= i < |s| :: IsSpace(s[i])
  }

  lemma {:induction false} TrimLeftCuts(s: string)
    ensures var r := TrimLeft(s);
            && |r| <= |s| && s[|s| - |r|..] == r && AllSpace(s[..|s| - |r|])
            && (r != [] ==> !IsSpace(r[0]))
  {
    if s != [] && IsSpace(s[0]) {
      TrimLeftCuts(s[1..]);
      var k := |s| - |TrimLeft(s)|;
      assert s[k..] == s[1..][k - 1..] && s[..k] == [s[0]] + s[1..][..k - 1];
    }
  }

  lemma {:induction false} TrimRightCuts(s: string)
    ensures var r := TrimRight(s);
            && |r| <= |s| && s[..|r|] == r && AllSpace(s[|r|..])
            && (r != [] ==> !IsSpace(r[|r| - 1]))
  {
    if s != [] && IsSpace(s[|s| - 1]) {
      var init := s[..|s| - 1];
      TrimRightCuts(init);
      var k := |TrimRight(s)|;
      assert s[..k] == init[..k] && s[k..] == init[k..] + [s[|s| - 1]];
    }
  }

  /** Trimming cuts white space, and only that, from both ends. */
  lemma TrimSpaceTrims(s: string) returns (front: string, back: string)
    ensures var r := TrimSpace(s);
            && s == front + r + back && AllSpace(front) && AllSpace(back)
            && (r != [] ==> !IsSpace(r[0]) && !IsSpace(r[|r| - 1]))
  {
    var left := TrimLeft(s);
    TrimLeftCuts(s);
    TrimRightCuts(left);
    hide TrimLeft, TrimRight, AllSpace, IsSpace;
    var r := TrimRight(left);
    front, back := s[..|s| - |left|], left[|r|..];
    assert left == r + back && s == front + left;
    assert s == front + r + back;
  }

  // ----- %d -----

  function Decimal(n: nat): (d: string)
    ensures d != []
  {
    var digit := (n % 10) as char + '0';
    if n < 10 then [digit] else Decimal(n / 10) + [digit]
  }

  /** The number a text of digits stands for. */
  function ValueOf(d: string): int {
    if d == [] then 0 else ValueOf(d[..|d| - 1]) * 10 + (d[|d| - 1] as int - '0' as int)
  }

  /** The decimal text is digits, without a leading zero, and stands for the number. */
  lemma {:induction false} DecimalReadsBack(n: nat)
    ensures ValueOf(Decimal(n)) == n && (forall i | 0 <= i < |Decimal(n)| :: '0' <= Decimal(n)[i] <= '9')
    ensures n > 0 ==> Decimal(n)[0] != '0'
  {
    var d := Decimal(n);
    if n < 10 {
      assert d[..0] == [];
    } else {
      DecimalReadsBack(n / 10);
      assert d[..|d| - 1] == Decimal(n / 10);
    }
  }

  lemma {:induction false} DecimalIsInjective(m: nat, n: nat)
    requires Decimal(m) == Decimal(n)
    ensures m == n
  {
    var a, b := Decimal(m), Decimal(n);
    assert a[|a| - 1] == b[|b| - 1];
    if m >= 10 && n >= 10 {
      assert a[..|a| - 1] == Decimal(m / 10) && b[..|b| - 1] == Decimal(n / 10);
      DecimalIsInjective(m / 10, n / 10);
    }
  }

  predicate ColonFree(s: string) {
    ':' !in s
  }

  lemma {:induction false} DecimalIsColonFree(n: nat)
    ensures ColonFree(Decimal(n))
  {
    if n >= 10 {
      DecimalIsColonFree(n / 10);
    }
  }

  // ----- join -----

  function Joined(parts: seq<string>): string {
    if parts == [] then "" else if |parts| == 1 then parts[0] else parts[0] + ":" + Joined(parts[1..])
  }

  lemma {:induction false} JoinedSnoc(parts: seq<string>, last: string)
    requires parts != []
    ensures Joined(parts + [last]) == Joined(parts) + ":" + last
  {
    assert (parts + [last])[1..] == parts[1..] + [last];
    if |parts| > 1 {
      JoinedSnoc(parts[1..], last);
      assert parts[0] + ":" + (Joined(parts[1..]) + ":" + last) == parts[0] + ":" + Joined(parts[1..]) + ":" + last;
    }
  }

  /** Two texts cut at their first colon agree piece by piece. */
  lemma FirstColon(a: string, x: string, b: string, y: string)
    requires ColonFree(a) && ColonFree(b)
    requires a + ":" + x == b + ":" + y
    ensures a == b && x == y
  {
    var s := a + ":" + x;
    assert s[|a|] == ':' && (b + ":" + y)[|b|] == ':';
    assert forall i | 0 <= i < |a| :: s[i] == a[i] != ':';
    assert forall i | 0 <= i < |b| :: s[i] == b[i] != ':';
    assert a == s[..|a|] && b == s[..|b|];
    assert x == s[|a| + 1..] && y == s[|b| + 1..];
  }

  /** Colon-free leading parts can be read back from a joined key. */
  lemma {:induction false} LeadingParts(ps: seq<string>, qs: seq<string>, n: nat)
    requires n < |ps| && n < |qs|
    requires forall i | 0 <= i < n :: ColonFree(ps[i]) && ColonFree(qs[i])
    requires Joined(ps) == Joined(qs)
    ensures ps[..n] == qs[..n] && Joined(ps[n..]) == Joined(qs[n..])
  {
    if n == 0 {
    } else {
      FirstColon(ps[0], Joined(ps[1..]), qs[0], Joined(qs[1..]));
      LeadingParts(ps[1..], qs[1..], n - 1);
      assert ps[1..][n - 1..] == ps[n..] && qs[1..][n - 1..] == qs[n..];
      assert ps[..n] == [ps[0]] + ps[1..][..n - 1] && qs[..n] == [qs[0]] + qs[1..][..n - 1];
    }
  }
}

/** Strings as Python orders, trims and renders them. */
module Text {
  import opened Wrappers

  // ---- order ----

  /** Code-point lexicographic order, strictly before. */
  predicate Less(a: string, b: string) {
    b != [] && (a == [] || a[0] < b[0] || (a[0] == b[0] && Less(a[1..], b[1..])))
  }

  /** One text is before another iff it is a proper prefix of it, or has the smaller character where they first
      differ. */
  lemma {:induction false} LessIff(a: string, b: string)
    ensures Less(a, b) <==> a < b || exists i :: 0 <= i < |a| && i < |b| && a[..i] == b[..i] && a[i] < b[i]
  {
    if a != [] && b != [] && a[0] == b[0] {
      var a', b' := a[1..], b[1..];
      LessIff(a', b');
      assert a == [a[0]] + a' && b == [b[0]] + b';
      if i :| 0 <= i < |a'| && i < |b'| && a'[..i] == b'[..i] && a'[i] < b'[i] {
        assert a[..i + 1] == [a[0]] + a'[..i] && b[..i + 1] == [b[0]] + b'[..i];
        assert a[i + 1] < b[i + 1];
      }
      if i :| 0 <= i < |a| && i < |b| && a[..i] == b[..i] && a[i] < b[i] {
        assert a'[..i - 1] == a[..i][1..] && b'[..i - 1] == b[..i][1..];
        assert a'[i - 1] < b'[i - 1];
      }
    } else if a != [] && b != [] && a[0] < b[0] {
      assert a[..0] == b[..0];
    }
  }

  lemma {:induction false} LessTotal(a: string, b: string)
    ensures Less(a, b) || a == b || Less(b, a)
  {
    if a != [] && b != [] && a[0] == b[0] {
      LessTotal(a[1..], b[1..]);
      if a[1..] == b[1..] { assert a == [a[0]] + a[1..] && b == [b[0]] + b[1..]; }
    }
  }

  lemma {:induction false} LessAsymmetric(a: string, b: string)
    requires Less(a, b)
    ensures a != b && !Less(b, a)
  {
    if a != [] && a[0] == b[0] {
      LessAsymmetric(a[1..], b[1..]);
    }
  }

  lemma {:induction false} LessTransitive(a: string, b: string, c: string)
    requires Less(a, b) && Less(b, c)
    ensures Less(a, c)
  {
    if a != [] && a[0] == b[0] && b[0] == c[0] {
      LessTransitive(a[1..], b[1..], c[1..]);
    }
  }

  lemma {:induction false} LessCommonPrefix(p: string, a: string, b: string)
    ensures Less(p + a, p + b) <==> Less(a, b)
  {
    if p == [] {
      assert p + a == a && p + b == b;
    } else {
      LessCommonPrefix(p[1..], a, b);
      assert (p + a)[1..] == p[1..] + a && (p + b)[1..] == p[1..] + b;
    }
  }

  /** Strictly increasing, hence free of duplicates. */
  ghost predicate Increasing(ss: seq<string>) {
    forall i, j :: 0 <= i < j < |ss| ==> Less(ss[i], ss[j])
  }

  function Members(ss: seq<string>): set<string> { set s | s in ss }

  /** Sorted insertion of an element that is not there yet. */
  function Insert(s: string, ss: seq<string>): (r: seq<string>)
    requires Increasing(ss) && s !in ss
    ensures Increasing(r) && Members(r) == Members(ss) + {s}
  {
    if ss == [] then [s]
    else if Less(s, ss[0]) then
      assert forall j :: 0 <= j < |ss| ==> Less(s, ss[j]) by {
        forall j | 0 < j < |ss| ensures Less(s, ss[j]) { LessTransitive(s, ss[0], ss[j]); }
      }
      assert Members([s] + ss) == Members(ss) + {s};
      [s] + ss
    else
      var rest := Insert(s, ss[1..]);
      assert forall t :: t in rest ==> Less(ss[0], t) by {
        LessTotal(s, ss[0]);
        assert forall t :: t in rest ==> t in Members(ss[1..]) + {s};
      }
      assert Members([ss[0]] + rest) == Members(ss) + {s} by {
        assert ss == [ss[0]] + ss[1..];
      }
      [ss[0]] + rest
  }

  /** `sorted(s)` of a set. */
  method Sorted(s: set<string>) returns (r: seq<string>)
    ensures Increasing(r) && Members(r) == s
  {
    r := [];
    var left := s;
    while left != {}
      invariant Increasing(r) && Members(r) + left == s && Members(r) !! left
      decreases left
    {
      var x :| x in left;
      assert x !in Members(r);
      r := Insert(x, r);
      left := left - {x};
    }
  }

  // ---- decimal numbers ----

  predicate IsDigit(c: char) { '0' <= c <= '9' }

  function Digit(c: char): nat requires IsDigit(c) { c as int - '0' as int }

  function DigitChar(d: nat): (c: char)
    requires d < 10
    ensures IsDigit(c) && Digit(c) == d
  {
    ('0' as int + d) as char
  }

  predicate AllDigits(s: string) { forall i :: 0 <= i < |s| ==> IsDigit(s[i]) }

  function Value(s: string): nat
    requires AllDigits(s)
  {
    if s == [] then 0 else 10 * Value(s[..|s| - 1]) + Digit(s[|s| - 1])
  }

  /** `str(n)` */
  function Decimal(n: nat): (s: string)
    ensures s != [] && AllDigits(s) && Value(s) == n && (s[0] == '0' ==> s == "0")
  {
    if n < 10 then [DigitChar(n)]
    else
      var s := Decimal(n / 10) + [DigitChar(n % 10)];
      assert s[..|s| - 1] == Decimal(n / 10);
      s
  }

  /** `int(text)` on texts made of decimal digits; every other text is an error here. */
  function ParseInt(s: string): Option<nat> {
    if s != [] && AllDigits(s) then Some(Value(s)) else None
  }

  function Pow10(w: nat): nat { if w == 0 then 1 else 10 * Pow10(w - 1) }

  /** n as exactly w digits, zero-padded. */
  function Padded(n: nat, w: nat): (s: string)
    requires n < Pow10(w)
    ensures |s| == w && AllDigits(s)
    decreases w
  {
    if w == 0 then [] else Padded(n / 10, w - 1) + [DigitChar(n % 10)]
  }

  lemma {:induction false} PaddedValue(n: nat, w: nat)
    requires n < Pow10(w)
    ensures Value(Padded(n, w)) == n
    decreases w
  {
    if w > 0 {
      PaddedValue(n / 10, w - 1);
      var s := Padded(n, w);
      assert s[..|s| - 1] == Padded(n / 10, w - 1);
    }
  }

  lemma {:induction false} LessSnoc(a: string, b: string, x: char, y: char)
    requires |a| == |b|
    ensures Less(a + [x], b + [y]) <==> Less(a, b) || (a == b && x < y)
  {
    if a == [] {
      assert a + [x] == [x] && b + [y] == [y];
    } else {
      assert (a + [x])[1..] == a[1..] + [x] && (b + [y])[1..] == b[1..] + [y];
      LessSnoc(a[1..], b[1..], x, y);
      if a[0] == b[0] {
        assert a == b <==> a[1..] == b[1..] by {
          assert a == [a[0]] + a[1..] && b == [b[0]] + b[1..];
        }
      }
    }
  }

  lemma {:induction false} PaddedInjective(m: nat, n: nat, w: nat)
    requires m < Pow10(w) && n < Pow10(w) && Padded(m, w) == Padded(n, w)
    ensures m == n
    decreases w
  {
    if w > 0 {
      var a, b := Padded(m / 10, w - 1), Padded(n / 10, w - 1);
      assert Padded(m, w)[..w - 1] == a && Padded(n, w)[..w - 1] == b;
      assert Padded(m, w)[w - 1] == DigitChar(m % 10) && Padded(n, w)[w - 1] == DigitChar(n % 10);
      PaddedInjective(m / 10, n / 10, w - 1);
    }
  }

  /** Zero-padded numbers of one width sort as text exactly as they sort as numbers. */
  lemma {:induction false} PaddedOrder(m: nat, n: nat, w: nat)
    requires m < Pow10(w) && n < Pow10(w)
    ensures Less(Padded(m, w), Padded(n, w)) <==> m < n
    decreases w
  {
    if w > 0 {
      PaddedOrder(m / 10, n / 10, w - 1);
      var a, b := Padded(m / 10, w - 1), Padded(n / 10, w - 1);
      if a == b { PaddedInjective(m / 10, n / 10, w - 1); }
      LessSnoc(a, b, DigitChar(m % 10), DigitChar(n % 10));
    }
  }

  // ---- trimming and splitting ----

  /** The characters `str.strip()` removes. */
  predicate IsSpace(c: char) {
    || '\t' <= c <= '\r' || '\U{1c}' <= c <= ' ' || c == '\U{85}' || c == '\U{a0}' || c == '\U{1680}'
    || '\U{2000}' <= c <= '\U{200a}' || c == '\U{2028}' || c == '\U{2029}' || c == '\U{202f}'
    || c == '\U{205f}' || c == '\U{3000}'
  }

  /** The same characters one by one. */
  const WHITESPACE: set<char> := {
    '\t', '\n', '\U{b}', '\U{c}', '\r', '\U{1c}', '\U{1d}', '\U{1e}', '\U{1f}', ' ', '\U{85}', '\U{a0}', '\U{1680}',
    '\U{2000}', '\U{2001}', '\U{2002}', '\U{2003}', '\U{2004}', '\U{2005}', '\U{2006}', '\U{2007}', '\U{2008}',
    '\U{2009}', '\U{200a}', '\U{2028}', '\U{2029}', '\U{202f}', '\U{205f}', '\U{3000}'}

  lemma SpaceIff(c: char)
    ensures IsSpace(c) <==> c in WHITESPACE
  {
  }

  ghost predicate Blank(s: string) { forall c :: c in s ==> c in WHITESPACE }

  /** No white space at either end. */
  predicate Trimmed(s: string) { s == [] || (s[0] !in WHITESPACE && s[|s| - 1] !in WHITESPACE) }

  function LStrip(s: string): string {
    if s != [] && IsSpace(s[0]) then LStrip(s[1..]) else s
  }

  function RStrip(s: string): string {
    if s != [] && IsSpace(s[|s| - 1]) then RStrip(s[..|s| - 1]) else s
  }

  function Strip(s: string): string { RStrip(LStrip(s)) }

  lemma {:induction false} LStripPadded(pre: string, s: string)
    requires Blank(pre) && (s == [] || s[0] !in WHITESPACE)
    ensures LStrip(pre + s) == s
  {
    if pre == [] {
      assert pre + s == s;
      if s != [] { SpaceIff(s[0]); }
    } else {
      assert (pre + s)[1..] == pre[1..] + s;
      SpaceIff(pre[0]);
      LStripPadded(pre[1..], s);
    }
  }

  lemma {:induction false} RStripPadded(s: string, post: string)
    requires Blank(post) && (s == [] || s[|s| - 1] !in WHITESPACE)
    ensures RStrip(s + post) == s
  {
    if post == [] {
      assert s + post == s;
      if s != [] { SpaceIff(s[|s| - 1]); }
    } else {
      var n := |post| - 1;
      assert (s + post)[..|s| + n] == s + post[..n];
      SpaceIff(post[n]);
      RStripPadded(s, post[..n]);
    }
  }

  /** White space around a text is trimmed away, all of it and nothing else. */
  lemma {:induction false} StripPadded(pre: string, s: string, post: string)
    requires Blank(pre) && Blank(post) && Trimmed(s)
    ensures Strip(pre + s + post) == s
  {
    if s == [] {
      assert pre + s + post == (pre + post) + [];
      LStripPadded(pre + post, []);
    } else {
      assert pre + s + post == pre + (s + post);
      LStripPadded(pre, s + post);
    }
    RStripPadded(s, post);
  }

  /** `s.split(c, 1)` when c occurs in s. */
  function SplitOnce(s: string, c: char): (r: Option<(string, string)>)
    ensures r.Some? <==> c in s
    ensures r.Some? ==> s == r.value.0 + [c] + r.value.1 && c !in r.value.0
  {
    if s == [] then None
    else if s[0] == c then Some(([], s[1..]))
    else
      match SplitOnce(s[1..], c)
      case None => None
      case Some((l, r)) => Some(([s[0]] + l, r))
  }

  /** Splitting undoes joining whenever the left part is free of the separator. */
  lemma {:induction false} SplitJoined(l: string, c: char, r: string)
    requires c !in l
    ensures SplitOnce(l + [c] + r, c) == Some((l, r))
  {
    var s := l + [c] + r;
    if l == [] {
      assert s[0] == c && s[1..] == r;
    } else {
      assert s[0] == l[0] && s[1..] == l[1..] + [c] + r;
      SplitJoined(l[1..], c, r);
      assert [l[0]] + l[1..] == l;
    }
  }

  predicate StartsWith(s: string, p: string) { p <= s }

  predicate EndsWith(s: string, p: string) { |p| <= |s| && s[|s| - |p|..] == p }

  /** Starting and ending with a text is being that text with something after or before it. */
  lemma Affixes(s: string, p: string)
    ensures StartsWith(s, p) <==> exists q :: s == p + q
    ensures EndsWith(s, p) <==> exists q :: s == q + p
  {
    if StartsWith(s, p) {
      assert s == p + s[|p|..];
    }
    if EndsWith(s, p) {
      assert s == s[..|s| - |p|] + p;
    }
  }

  /** `s.lstrip("/")` */
  function LStripSlash(s: string): (r: string)
    ensures r == [] || r[0] != '/'
    ensures |r| <= |s|
    ensures |r| == |s| <==> (s == [] || s[0] != '/')
    ensures s == [] || s[0] != '/' ==> r == s
  {
    if s != [] && s[0] == '/' then LStripSlash(s[1..]) else s
  }

  /** The slashes in front go, and nothing else. */
  lemma {:induction false} SlashesGo(s: string)
    ensures exists n :: 0 <= n <= |s| && s[n..] == LStripSlash(s) && forall i :: 0 <= i < n ==> s[i] == '/'
  {
    if s != [] && s[0] == '/' {
      SlashesGo(s[1..]);
      var n :| 0 <= n <= |s[1..]| && s[1..][n..] == LStripSlash(s[1..]) && forall i :: 0 <= i < n ==> s[1..][i] == '/';
      assert s[n + 1..] == s[1..][n..];
      assert forall i :: 0 < i < n + 1 ==> s[i] == s[1..][i - 1];
    } else {
      assert s[0..] == s;
    }
  }

  /** ASCII upper case. */
  function UpperChar(c: char): char {
    if 'a' <= c <= 'z' then (c as int - 32) as char else c
  }

  function Upper(s: string): (r: string)
    ensures |r| == |s|
    ensures forall i :: 0 <= i < |s| ==> r[i] == UpperChar(s[i])
  {
    if s == [] then [] else [UpperChar(s[0])] + Upper(s[1..])
  }
}

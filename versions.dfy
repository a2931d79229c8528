/**
 * Version strings of a formatter engine: dot-separated non-negative decimal
 * numbers such as "4.7.2", compared componentwise and numerically, with the
 * shorter one padded by zeros ("1.0" equals "1.0.0", "1.0.0" is below "10.0.0").
 */
module Versions {

  predicate IsDigit(c: char) { '0' <= c <= '9' }

  /** The pieces of `s` between dots, in order; a string without dots is one piece. */
  function Fields(s: string): (r: seq<string>)
    ensures |r| > 0
    decreases |s|
  {
    if s == [] then [""]
    else
      var rest := Fields(s[1..]);
      if s[0] == '.' then [""] + rest
      else [[s[0]] + rest[0]] + rest[1..]
  }

  /** The pieces written back with a dot between each two: the inverse of Fields. */
  function JoinFields(fs: seq<string>): string
    requires |fs| > 0
  {
    if |fs| == 1 then fs[0] else fs[0] + "." + JoinFields(fs[1..])
  }

  /** Splitting at the dots loses nothing, and no piece holds a dot. */
  lemma {:induction false} FieldsRoundTrip(s: string)
    ensures JoinFields(Fields(s)) == s
    ensures forall i :: 0 <= i < |Fields(s)| ==> '.' !in Fields(s)[i]
  {
    if s != [] {
      FieldsRoundTrip(s[1..]);
      var rest := Fields(s[1..]);
      if s[0] == '.' {
        assert Fields(s)[1..] == rest;
      } else {
        var fs := Fields(s);
        assert fs[1..] == rest[1..];
        if |rest| == 1 {
          assert JoinFields(fs) == [s[0]] + rest[0];
        } else {
          assert JoinFields(rest) == rest[0] + "." + JoinFields(rest[1..]);
        }
        assert s == [s[0]] + s[1..];
      }
    }
  }

  /** The number a non-empty run of decimal digits denotes. */
  function DecimalValue(digits: string): nat
    requires forall i :: 0 <= i < |digits| ==> IsDigit(digits[i])
    decreases |digits|
  {
    if digits == [] then 0
    else
      var last := digits[|digits| - 1];
      assert IsDigit(last);
      10 * DecimalValue(digits[..|digits| - 1]) + (last as int - '0' as int)
  }

  /** A version string: one or more non-empty runs of digits separated by single dots. */
  predicate IsVersionString(s: string)
  {
    forall i :: 0 <= i < |Fields(s)| ==> IsNumber(Fields(s)[i])
  }

  predicate IsNumber(f: string)
  {
    f != [] && forall j :: 0 <= j < |f| ==> IsDigit(f[j])
  }

  /** The numeric components of a version string, one per dot-separated piece. */
  function Components(s: string): (r: seq<nat>)
    requires IsVersionString(s)
    ensures |r| == |Fields(s)| >= 1
    ensures forall i :: 0 <= i < |r| ==> r[i] == DecimalValue(Fields(s)[i])
  {
    var fs := Fields(s);
    seq(|fs|, i requires 0 <= i < |fs| => DecimalValue(fs[i]))
  }

  /** A piece without a dot, followed by a dot, splits off as the first field. */
  lemma {:induction false} FieldsOfJoin(s: string, t: string)
    requires '.' !in s
    ensures Fields(s + "." + t) == [s] + Fields(t)
    decreases |s|
  {
    var u := s + "." + t;
    if s == [] {
      assert u[1..] == t;
    } else {
      assert u[1..] == s[1..] + "." + t;
      FieldsOfJoin(s[1..], t);
      assert [s[0]] + s[1..] == s;
    }
  }

  /** A string without a dot is a single field. */
  lemma {:induction false} FieldsOfPiece(s: string)
    requires '.' !in s
    ensures Fields(s) == [s]
    decreases |s|
  {
    if s != [] {
      FieldsOfPiece(s[1..]);
      assert [s[0]] + s[1..] == s;
    }
  }

  /** A run of digits is a one-component version whose component is its decimal value. */
  lemma ComponentsOfNumber(d: string)
    requires IsNumber(d)
    ensures IsVersionString(d) && Components(d) == [DecimalValue(d)]
  {
    assert forall j :: 0 <= j < |d| ==> d[j] != '.';
    FieldsOfPiece(d);
  }

  /** A number, a dot and a version string form a version whose components are the number's value followed by the version's. */
  lemma {:induction false} ComponentsOfJoin(s: string, t: string)
    requires IsNumber(s) && IsVersionString(t)
    ensures IsVersionString(s + "." + t)
    ensures Components(s + "." + t) == [DecimalValue(s)] + Components(t)
  {
    var u := s + "." + t;
    assert forall j :: 0 <= j < |s| ==> s[j] != '.';
    FieldsOfJoin(s, t);
    var fs, ft := Fields(u), Fields(t);
    assert fs == [s] + ft;
    forall i | 0 <= i < |fs| ensures IsNumber(fs[i]) {
      if i > 0 { assert fs[i] == ft[i - 1]; }
    }
    assert IsVersionString(u);
    var cu, ct := Components(u), Components(t);
    assert |cu| == 1 + |ct|;
    forall i | 0 <= i < |cu| ensures cu[i] == ([DecimalValue(s)] + ct)[i] {
      if i > 0 { assert fs[i] == ft[i - 1]; }
    }
  }

  /** The decimal digit for a value below 10. */
  function Digit(n: nat): (c: char)
    requires n < 10
    ensures IsDigit(c) && c as int - '0' as int == n
  {
    ('0' as int + n) as char
  }

  /** The decimal numeral of `n`, without leading zeros. */
  function Numeral(n: nat): (r: string)
    ensures IsNumber(r)
    decreases n
  {
    if n < 10 then [Digit(n)] else Numeral(n / 10) + [Digit(n % 10)]
  }

  /** Reading a numeral back gives its number. */
  lemma {:induction false} NumeralRoundTrip(n: nat)
    ensures DecimalValue(Numeral(n)) == n
    decreases n
  {
    var r := Numeral(n);
    if n < 10 {
      assert r[..0] == [];
    } else {
      NumeralRoundTrip(n / 10);
      assert r[..|r| - 1] == Numeral(n / 10);
    }
  }

  /** A component sequence written as a version string, such as [4, 7, 2] as "4.7.2". */
  function Render(cs: seq<nat>): string
    requires |cs| > 0
  {
    if |cs| == 1 then Numeral(cs[0]) else Numeral(cs[0]) + "." + Render(cs[1..])
  }

  /** Parsing a rendered version gives back its components, so Components loses no information. */
  lemma {:induction false} RenderRoundTrip(cs: seq<nat>)
    requires |cs| > 0
    ensures IsVersionString(Render(cs)) && Components(Render(cs)) == cs
  {
    NumeralRoundTrip(cs[0]);
    if |cs| == 1 {
      ComponentsOfNumber(Numeral(cs[0]));
    } else {
      RenderRoundTrip(cs[1..]);
      ComponentsOfJoin(Numeral(cs[0]), Render(cs[1..]));
      assert [cs[0]] + cs[1..] == cs;
    }
  }

  /** Component `i` of a version, reading missing trailing components as 0. */
  function Padded(a: seq<nat>, i: nat): nat
  {
    if i < |a| then a[i] else 0
  }

  function Tail(a: seq<nat>): seq<nat>
  {
    if a == [] then [] else a[1..]
  }

  /**
   * Three-valued comparison of two component sequences: -1 when `a` is the
   * lower version, 1 when it is the higher, 0 when they agree once padded.
   */
  function CompareComponents(a: seq<nat>, b: seq<nat>): (r: int)
    ensures -1 <= r <= 1
    decreases |a| + |b|
  {
    if a == [] && b == [] then 0
    else
      var x, y := Padded(a, 0), Padded(b, 0);
      if x < y then -1
      else if x > y then 1
      else CompareComponents(Tail(a), Tail(b))
  }

  /** The two versions agree on their first `k` components. */
  ghost predicate AgreeBelow(a: seq<nat>, b: seq<nat>, k: nat)
  {
    forall i: nat :: i < k ==> Padded(a, i) == Padded(b, i)
  }

  /** `a` is below `b` because they first differ at component `k`, where `a` is smaller. */
  ghost predicate LowerAt(a: seq<nat>, b: seq<nat>, k: nat)
  {
    AgreeBelow(a, b, k) && Padded(a, k) < Padded(b, k)
  }

  lemma PaddedTail(a: seq<nat>, i: nat)
    ensures Padded(Tail(a), i) == Padded(a, i + 1)
  {
  }

  /**
   * CompareComponents is the lexicographic order on zero-padded component
   * sequences: 0 exactly when every padded component agrees, -1 exactly when
   * the first differing component of `a` is the smaller one.
   */
  lemma {:induction false} CompareIsLexicographic(a: seq<nat>, b: seq<nat>)
    ensures CompareComponents(a, b) == 0 <==> forall i: nat :: Padded(a, i) == Padded(b, i)
    ensures CompareComponents(a, b) == -1 <==> exists k: nat :: LowerAt(a, b, k)
    decreases |a| + |b|
  {
    if a == [] && b == [] {
      assert forall k: nat :: !LowerAt(a, b, k);
    } else {
      var x, y := Padded(a, 0), Padded(b, 0);
      if x < y {
        assert LowerAt(a, b, 0);
      } else if x > y {
        forall k: nat | k > 0 ensures !AgreeBelow(a, b, k) {
          assert Padded(a, 0) != Padded(b, 0);
        }
      } else {
        var ta, tb := Tail(a), Tail(b);
        CompareIsLexicographic(ta, tb);
        forall i: nat ensures Padded(ta, i) == Padded(a, i + 1) && Padded(tb, i) == Padded(b, i + 1) {
          PaddedTail(a, i);
          PaddedTail(b, i);
        }
        if forall i: nat :: Padded(ta, i) == Padded(tb, i) {
          forall i: nat ensures Padded(a, i) == Padded(b, i) {
            if i > 0 { assert Padded(ta, i - 1) == Padded(tb, i - 1); }
          }
        } else {
          var j: nat :| Padded(ta, j) != Padded(tb, j);
          assert Padded(a, j + 1) != Padded(b, j + 1);
        }
        if k: nat :| LowerAt(ta, tb, k) {
          assert LowerAt(a, b, k + 1) by {
            forall i: nat | i < k + 1 ensures Padded(a, i) == Padded(b, i) {
              if i > 0 { assert Padded(ta, i - 1) == Padded(tb, i - 1); }
            }
          }
        }
        if k: nat :| LowerAt(a, b, k) {
          assert k > 0;
          assert LowerAt(ta, tb, k - 1) by {
            forall i: nat | i < k - 1 ensures Padded(ta, i) == Padded(tb, i) {
              assert Padded(a, i + 1) == Padded(b, i + 1);
            }
          }
        }
      }
    }
  }

  /** Swapping the operands negates the comparison. */
  lemma {:induction false} CompareAntisymmetric(a: seq<nat>, b: seq<nat>)
    ensures CompareComponents(b, a) == -CompareComponents(a, b)
    decreases |a| + |b|
  {
    if a != [] || b != [] {
      if Padded(a, 0) == Padded(b, 0) {
        CompareAntisymmetric(Tail(a), Tail(b));
      }
    }
  }

  /** "Not higher than" is transitive. */
  lemma {:induction false} CompareTransitive(a: seq<nat>, b: seq<nat>, c: seq<nat>)
    requires CompareComponents(a, b) <= 0 && CompareComponents(b, c) <= 0
    ensures CompareComponents(a, c) <= 0
    decreases |a| + |b| + |c|
  {
    if a == [] && c == [] {
    } else if a == [] && b == [] {
    } else if b == [] && c == [] {
    } else if Padded(a, 0) == Padded(b, 0) == Padded(c, 0) {
      CompareTransitive(Tail(a), Tail(b), Tail(c));
    }
  }

  /** compareVersionTo on two version strings: -1, 0 or 1 by their numeric components. */
  function CompareVersions(s: string, t: string): (r: int)
    requires IsVersionString(s) && IsVersionString(t)
    ensures r == -1 || r == 0 || r == 1
  {
    CompareComponents(Components(s), Components(t))
  }

  /** `latest` is one of `versions`, and none of them is higher. */
  ghost predicate IsLatest(latest: string, versions: seq<string>)
    requires forall i :: 0 <= i < |versions| ==> IsVersionString(versions[i])
  {
    && latest in versions
    && forall i :: 0 <= i < |versions| ==> CompareVersions(versions[i], latest) <= 0
  }

  /**
   * The default version of a configuration: the highest of the supported
   * versions, whatever order they are listed in. The earliest listed of
   * equally high versions wins.
   */
  method LatestVersion(versions: seq<string>) returns (latest: string)
    requires |versions| > 0
    requires forall i :: 0 <= i < |versions| ==> IsVersionString(versions[i])
    ensures IsLatest(latest, versions)
  {
    latest := versions[0];
    ghost var best := 0;
    CompareAntisymmetric(Components(latest), Components(latest));
    var n := 1;
    while n < |versions|
      invariant 1 <= n <= |versions|
      invariant 0 <= best < n && latest == versions[best]
      invariant forall i :: 0 <= i < n ==> CompareVersions(versions[i], latest) <= 0
    {
      var candidate := versions[n];
      if CompareVersions(candidate, latest) > 0 {
        forall i | 0 <= i < n ensures CompareVersions(versions[i], candidate) <= 0 {
          CompareAntisymmetric(Components(candidate), Components(latest));
          CompareTransitive(Components(versions[i]), Components(latest), Components(candidate));
        }
        CompareAntisymmetric(Components(candidate), Components(candidate));
        latest, best := candidate, n;
      }
      n := n + 1;
    }
  }
}

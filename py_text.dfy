/**
 * The few pieces of Python's string behaviour the scripts rely on:
 * `pat in s` on strings, `s.endswith(suffix)`, the `.jpg` filter,
 * `os.path.join` and `os.path.basename` on POSIX paths, and `str(n)` for a
 * natural number.
 */
module PyText {

  /** `prefix` starts `s`. */
  predicate IsPrefix(prefix: string, s: string)
  {
    |prefix| <= |s| && s[..|prefix|] == prefix
  }

  /** Python's `pat in s` for two strings. */
  predicate IsSubstring(pat: string, s: string)
    decreases |s|
  {
    IsPrefix(pat, s) || (|s| > 0 && IsSubstring(pat, s[1..]))
  }

  /** Python's `s.endswith(suffix)`. */
  predicate EndsWith(s: string, suffix: string)
  {
    |suffix| <= |s| && s[|s| - |suffix|..] == suffix
  }

  /** No name occurs twice, as in a directory listing. */
  predicate NoDuplicates<T(==)>(s: seq<T>)
  {
    forall i, j :: 0 <= i < j < |s| ==> s[i] != s[j]
  }

  /** `[f for f in names if f.endswith(suffix)]`: order kept, nothing added. */
  function FilterSuffix(names: seq<string>, suffix: string): (r: seq<string>)
    ensures forall f :: f in r <==> f in names && EndsWith(f, suffix)
    ensures multiset(r) <= multiset(names)
    ensures NoDuplicates(names) ==> NoDuplicates(r)
  {
    if names == [] then []
    else
      var rest := FilterSuffix(names[1..], suffix);
      assert names == [names[0]] + names[1..];
      if EndsWith(names[0], suffix) then [names[0]] + rest else rest
  }

  /**
   * The filter keeps the listing's order: filtering a listing made of two
   * parts is filtering each part, one after the other.
   */
  lemma {:induction false} FilterSuffixAppend(a: seq<string>, b: seq<string>, suffix: string)
    ensures FilterSuffix(a + b, suffix) == FilterSuffix(a, suffix) + FilterSuffix(b, suffix)
    decreases |a|
  {
    if a != [] {
      assert (a + b)[1..] == a[1..] + b;
      FilterSuffixAppend(a[1..], b, suffix);
    } else {
      assert a + b == b;
    }
  }

  const JPG := ".jpg"

  /** The image names of a directory listing: those ending in `.jpg`. */
  function JpgFiles(names: seq<string>): seq<string>
  {
    FilterSuffix(names, JPG)
  }

  /** `os.path.join(dir, name)` for a relative `name` on a POSIX system. */
  function Join(dir: string, name: string): string
  {
    dir + "/" + name
  }

  /** One name joined under two directories gives the same path only if the directories are equal. */
  lemma JoinDirInjective(a: string, b: string, name: string)
    ensures Join(a, name) == Join(b, name) ==> a == b
  {
    if Join(a, name) == Join(b, name) {
      assert a == Join(a, name)[..|a|];
      assert b == Join(b, name)[..|b|];
    }
  }

  /**
   * `os.path.join(dir, name)` on a POSIX system for a `name` that may be
   * absolute: a leading '/' discards `dir`.
   */
  function PathJoin(dir: string, name: string): string
  {
    if |name| > 0 && name[0] == '/' then name else Join(dir, name)
  }

  /** Two names joined under the same directory give the same path only if they are equal. */
  lemma JoinInjective(dir: string, a: string, b: string)
    requires Join(dir, a) == Join(dir, b)
    ensures a == b
  {
    var n := |dir| + 1;
    assert a == Join(dir, a)[n..];
    assert b == Join(dir, b)[n..];
  }

  /** `os.path.basename(p)` on POSIX: everything after the last '/'. */
  function Basename(p: string): (r: string)
    ensures '/' !in r
    ensures EndsWith(p, r)
    ensures |r| < |p| ==> p[|p| - |r| - 1] == '/'
    decreases |p|
  {
    if p == [] then []
    else if p[|p| - 1] == '/' then []
    else Basename(p[..|p| - 1]) + [p[|p| - 1]]
  }

  /** A path without '/' is its own basename. */
  lemma {:induction false} BasenameOfPlainName(p: string)
    requires '/' !in p
    ensures Basename(p) == p
    decreases |p|
  {
    if p != [] {
      assert '/' !in p[..|p| - 1];
      BasenameOfPlainName(p[..|p| - 1]);
      assert p == p[..|p| - 1] + [p[|p| - 1]];
    }
  }

  /** Taking the basename twice changes nothing more. */
  lemma BasenameIdempotent(p: string)
    ensures Basename(Basename(p)) == Basename(p)
  {
    BasenameOfPlainName(Basename(p));
  }

  /** The character of a decimal digit. */
  function DigitChar(d: nat): (c: char)
    requires d < 10
    ensures '0' <= c <= '9'
  {
    (48 + d) as char
  }

  predicate IsDigits(s: string)
  {
    forall i :: 0 <= i < |s| ==> '0' <= s[i] <= '9'
  }

  /** Python's `str(n)` for a natural number: its decimal digits, no leading zero. */
  function Decimal(n: nat): (r: string)
    ensures |r| >= 1 && IsDigits(r)
    ensures r[0] == '0' <==> n == 0
    ensures |r| > 1 ==> r[0] != '0'
  {
    if n < 10 then [DigitChar(n)] else Decimal(n / 10) + [DigitChar(n % 10)]
  }

  /** The number a string of decimal digits denotes. */
  function ParseDecimal(s: string): nat
    requires |s| >= 1 && IsDigits(s)
  {
    var d := (s[|s| - 1] as int) - 48;
    if |s| == 1 then d else ParseDecimal(s[..|s| - 1]) * 10 + d
  }

  /** Reading back `str(n)` gives `n`. */
  lemma {:induction false} DecimalRoundTrip(n: nat)
    ensures ParseDecimal(Decimal(n)) == n
  {
    if n >= 10 {
      DecimalRoundTrip(n / 10);
      var s := Decimal(n);
      assert s[..|s| - 1] == Decimal(n / 10);
    }
  }

  /** Distinct numbers have distinct decimal renderings. */
  lemma DecimalInjective(a: nat, b: nat)
    requires Decimal(a) == Decimal(b)
    ensures a == b
  {
    DecimalRoundTrip(a);
    DecimalRoundTrip(b);
  }
}

/**
  The lexical tests of `src/services/ipService.js`: `isDomain`, which decides whether a
  query takes the DNS path, and `isValidIP`. Both are regular expressions in the source;
  here they are written out as predicates over the characters, next to reference
  descriptions of what they accept and the lemmas connecting the two.
 */
module QuerySyntax {

  predicate IsAsciiLetter(c: char) { ('a' <= c <= 'z') || ('A' <= c <= 'Z') }
  predicate IsDigit(c: char) { '0' <= c <= '9' }
  predicate IsHexDigit(c: char) { IsDigit(c) || ('a' <= c <= 'f') || ('A' <= c <= 'F') }
  predicate IsAlphaNum(c: char) { IsAsciiLetter(c) || IsDigit(c) }

  // ---------------------------------------------------------------------------
  // Splitting at a separator

  /** Position of the first `c` in `s`, or `|s|` when there is none. */
  function IndexOf(s: string, c: char): (k: nat)
    ensures k <= |s|
    ensures k < |s| ==> s[k] == c
    ensures forall i :: 0 <= i < k ==> s[i] != c
  {
    if s == [] then 0 else if s[0] == c then 0 else 1 + IndexOf(s[1..], c)
  }

  /** The fields of `s` between occurrences of `sep` (JavaScript's `s.split(sep)`). */
  function Split(s: string, sep: char): (fs: seq<string>)
    ensures |fs| >= 1
    ensures forall i :: 0 <= i < |fs| ==> sep !in fs[i]
    decreases |s|
  {
    var k := IndexOf(s, sep);
    if k == |s| then [s] else [s[..k]] + Split(s[k + 1..], sep)
  }

  /** The fields joined with `sep` between consecutive ones (`fs.join(sep)`). */
  function Join(fs: seq<string>, sep: char): string
    requires |fs| >= 1
  {
    if |fs| == 1 then fs[0] else fs[0] + [sep] + Join(fs[1..], sep)
  }

  /** Joining the fields of a split gives back the string. */
  lemma {:induction false} JoinSplit(s: string, sep: char)
    ensures Join(Split(s, sep), sep) == s
    decreases |s|
  {
    var k := IndexOf(s, sep);
    if k < |s| {
      JoinSplit(s[k + 1..], sep);
      assert s == s[..k] + [sep] + s[k + 1..];
    }
  }

  /** Splitting a join of separator-free fields gives back the fields. */
  lemma {:induction false} SplitJoin(fs: seq<string>, sep: char)
    requires |fs| >= 1
    requires forall i :: 0 <= i < |fs| ==> sep !in fs[i]
    ensures Split(Join(fs, sep), sep) == fs
  {
    if |fs| > 1 {
      var s := Join(fs, sep);
      assert s == fs[0] + ([sep] + Join(fs[1..], sep));
      IndexOfPrefix(fs[0], [sep] + Join(fs[1..], sep), sep);
      assert s[..|fs[0]|] == fs[0];
      assert s[|fs[0]| + 1..] == Join(fs[1..], sep);
      SplitJoin(fs[1..], sep);
    }
  }

  /** The first `c` of `a + b`, when `a` has none and `b` starts with one, ends `a`. */
  lemma IndexOfPrefix(a: string, b: string, c: char)
    requires c !in a && b != [] && b[0] == c
    ensures IndexOf(a + b, c) == |a|
  {
    assert (a + b)[|a|] == c;
    forall i | 0 <= i < |a| ensures (a + b)[i] != c {
      assert (a + b)[i] == a[i];
    }
  }

  /** A separator followed directly by another one leaves an empty field. */
  lemma {:induction false} DoubleSeparatorGivesEmptyField(s: string, sep: char, i: nat)
    requires i + 1 < |s| && s[i] == sep && s[i + 1] == sep
    ensures "" in Split(s, sep)
    decreases |s|
  {
    var k := IndexOf(s, sep);
    assert k <= i;
    var rest := s[k + 1..];
    if k == i {
      assert IndexOf(rest, sep) == 0;
      assert Split(s, sep)[1] == rest[..0];
    } else {
      DoubleSeparatorGivesEmptyField(rest, sep, i - k - 1);
      assert Split(s, sep) == [s[..k]] + Split(rest, sep);
    }
  }

  /** Every character of a join is the separator or a character of one of the fields. */
  lemma {:induction false} JoinChars(fs: seq<string>, sep: char, P: char -> bool)
    requires |fs| >= 1
    requires P(sep)
    requires forall i, j :: 0 <= i < |fs| && 0 <= j < |fs[i]| ==> P(fs[i][j])
    ensures forall j :: 0 <= j < |Join(fs, sep)| ==> P(Join(fs, sep)[j])
  {
    if |fs| > 1 {
      JoinChars(fs[1..], sep, P);
      assert forall i, j :: 0 <= i < |fs| - 1 && 0 <= j < |fs[1..][i]| ==> fs[1..][i][j] == fs[i + 1][j];
      var s := Join(fs, sep);
      forall j | 0 <= j < |s| ensures P(s[j]) {
        if j < |fs[0]| {
          assert s[j] == fs[0][j];
        } else if j == |fs[0]| {
          assert s[j] == sep;
        } else {
          assert s[j] == Join(fs[1..], sep)[j - |fs[0]| - 1];
        }
      }
    }
  }

  // ---------------------------------------------------------------------------
  // isDomain (ipService.js, lines 2-6)

  /**
    The first label of the domain pattern: an alphanumeric, then 1 to 61 alphanumerics
    or hyphens, then an alphanumeric. It has 3 to 63 characters and no `.`.
   */
  predicate IsLabel(l: string) {
    && 3 <= |l| <= 63
    && IsAlphaNum(l[0])
    && (forall i :: 1 <= i < |l| - 1 ==> IsAlphaNum(l[i]) || l[i] == '-')
    && IsAlphaNum(l[|l| - 1])
  }

  /** The last label of the domain pattern: two or more ASCII letters. */
  predicate IsTopLabel(t: string) {
    |t| >= 2 && forall i :: 0 <= i < |t| ==> IsAsciiLetter(t[i])
  }

  /**
    `isDomain(q)`: the whole of `q` is a label, one `.` and a top label. Only the first
    `.` can be the separator, because a label never contains one.
   */
  predicate IsDomain(q: string) {
    var k := IndexOf(q, '.');
    k < |q| && IsLabel(q[..k]) && IsTopLabel(q[k + 1..])
  }

  /** Reference reading of the pattern: SOME split of `q` at a `.` into a label and a top label. */
  ghost predicate DomainShape(q: string) {
    exists k :: 0 <= k < |q| && q[k] == '.' && IsLabel(q[..k]) && IsTopLabel(q[k + 1..])
  }

  /** `IsDomain` accepts exactly the strings of the domain pattern. */
  lemma DomainIffShape(q: string)
    ensures IsDomain(q) <==> DomainShape(q)
  {
    if DomainShape(q) {
      var k :| 0 <= k < |q| && q[k] == '.' && IsLabel(q[..k]) && IsTopLabel(q[k + 1..]);
      assert IndexOf(q, '.') == k;
    }
  }

  /** A domain has exactly one `.`, so names with more labels (`www.google.com`) take the IP path. */
  lemma DomainHasOneDot(q: string, i: nat, j: nat)
    requires IsDomain(q)
    requires i < |q| && j < |q| && q[i] == '.' && q[j] == '.'
    ensures i == j
  {
    var k := IndexOf(q, '.');
    forall m | k < m < |q| ensures q[m] != '.' {
      assert q[m] == q[k + 1..][m - k - 1];
    }
  }

  /** A first label of one or two characters is never a domain (`ab.com`). */
  lemma ShortLabelNotDomain(l: string, t: string)
    requires 1 <= |l| <= 2 && '.' !in l
    ensures !IsDomain(l + "." + t)
  {
    var q := l + "." + t;
    IndexOfPrefix(l, "." + t, '.');
    assert q == l + ("." + t);
    assert q[..|l|] == l;
  }

  /** A string of digits and dots only (every dotted quad among them) is never a domain. */
  lemma DigitsAndDotsNotDomain(q: string)
    requires forall i :: 0 <= i < |q| ==> IsDigit(q[i]) || q[i] == '.'
    ensures !IsDomain(q)
  {
    var k := IndexOf(q, '.');
    if k < |q| && |q[k + 1..]| >= 2 {
      assert q[k + 1..][0] == q[k + 1];
    }
  }

  /** A plain second-level name takes the DNS path. */
  lemma GoogleIsDomain()
    ensures IsDomain("google.com")
  {
    assert IndexOf("google.com", '.') == 6;
    assert "google.com"[..6] == "google";
    assert "google.com"[7..] == "com";
  }

  /** A name with a subdomain does not: it goes to the provider as it is. */
  lemma ThreeLabelsNotDomain()
    ensures !IsDomain("www.google.com")
  {
    if IsDomain("www.google.com") {
      DomainHasOneDot("www.google.com", 3, 10);
    }
  }

  // ---------------------------------------------------------------------------
  // isValidIP (ipService.js, lines 156-162)

  predicate AllDigits(f: string) { forall i :: 0 <= i < |f| ==> IsDigit(f[i]) }

  function DigitValue(c: char): nat requires IsDigit(c) { (c as int) - ('0' as int) }

  /** Decimal value of a digit string, most significant digit first. */
  function DecimalValue(f: string): nat
    requires AllDigits(f)
  {
    if f == [] then 0 else 10 * DecimalValue(f[..|f| - 1]) + DigitValue(f[|f| - 1])
  }

  /** A dotted-quad field: one to three decimal digits (leading zeros allowed) of value at most 255. */
  predicate IsOctet(f: string) {
    1 <= |f| <= 3 && AllDigits(f) && DecimalValue(f) <= 255
  }

  /** The source's field pattern, alternative by alternative: `25[0-5]|2[0-4][0-9]|[01]?[0-9][0-9]?`. */
  predicate OctetPattern(f: string) {
    || (|f| == 3 && f[0] == '2' && f[1] == '5' && '0' <= f[2] <= '5')
    || (|f| == 3 && f[0] == '2' && '0' <= f[1] <= '4' && IsDigit(f[2]))
    || (|f| == 1 && IsDigit(f[0]))
    || (|f| == 2 && IsDigit(f[0]) && IsDigit(f[1]))
    || (|f| == 2 && (f[0] == '0' || f[0] == '1') && IsDigit(f[1]))
    || (|f| == 3 && (f[0] == '0' || f[0] == '1') && IsDigit(f[1]) && IsDigit(f[2]))
  }

  /** The field pattern accepts exactly the digit strings of length 1-3 and value at most 255. */
  lemma OctetPatternIffOctet(f: string)
    ensures OctetPattern(f) <==> IsOctet(f)
  {
    if 1 <= |f| <= 3 && AllDigits(f) {
      assert f[..1][..0] == [];
      assert DecimalValue(f[..1]) == DigitValue(f[0]);
      if |f| >= 2 {
        assert f[..2][..1] == f[..1];
        assert DecimalValue(f[..2]) == 10 * DigitValue(f[0]) + DigitValue(f[1]);
      }
      if |f| == 3 {
        assert f[..2] == f[..|f| - 1];
        assert DecimalValue(f) == 100 * DigitValue(f[0]) + 10 * DigitValue(f[1]) + DigitValue(f[2]);
      } else if |f| == 2 {
        assert f[..2] == f;
      } else {
        assert f[..1] == f;
      }
    }
  }

  /** `ipv4Regex.test(s)`: four `.`-separated fields, each an octet. */
  predicate IsValidIPv4(s: string) {
    var fs := Split(s, '.');
    |fs| == 4 && forall i :: 0 <= i < 4 ==> IsOctet(fs[i])
  }

  /** A group of the uncompressed IPv6 form: one to four hexadecimal digits. */
  predicate IsHexGroup(g: string) {
    1 <= |g| <= 4 && forall i :: 0 <= i < |g| ==> IsHexDigit(g[i])
  }

  /** `ipv6Regex.test(s)`: eight `:`-separated groups of hex digits; `::` compression is not accepted. */
  predicate IsValidIPv6(s: string) {
    var gs := Split(s, ':');
    |gs| == 8 && forall i :: 0 <= i < 8 ==> IsHexGroup(gs[i])
  }

  /** `isValidIP(s)`. */
  predicate IsValidIP(s: string) {
    IsValidIPv4(s) || IsValidIPv6(s)
  }

  /** Reference reading of the IPv4 pattern: `(field\.){3}field` with the source's field pattern. */
  ghost predicate IPv4Shape(s: string) {
    exists fs: seq<string> :: |fs| == 4 && (forall i :: 0 <= i < 4 ==> OctetPattern(fs[i])) && s == Join(fs, '.')
  }

  /** `IsValidIPv4` accepts exactly the strings of the source's IPv4 pattern. */
  lemma IPv4IffShape(s: string)
    ensures IsValidIPv4(s) <==> IPv4Shape(s)
  {
    if IsValidIPv4(s) {
      var fs := Split(s, '.');
      JoinSplit(s, '.');
      forall i | 0 <= i < 4 ensures OctetPattern(fs[i]) { OctetPatternIffOctet(fs[i]); }
    }
    if IPv4Shape(s) {
      var fs :| |fs| == 4 && (forall i :: 0 <= i < 4 ==> OctetPattern(fs[i])) && s == Join(fs, '.');
      forall i | 0 <= i < 4 ensures IsOctet(fs[i]) && '.' !in fs[i] {
        OctetPatternIffOctet(fs[i]);
      }
      SplitJoin(fs, '.');
    }
  }

  /** Reference reading of the IPv6 pattern: `(group:){7}group` with groups of one to four hex digits. */
  ghost predicate IPv6Shape(s: string) {
    exists gs: seq<string> :: |gs| == 8 && (forall i :: 0 <= i < 8 ==> IsHexGroup(gs[i])) && s == Join(gs, ':')
  }

  /** `IsValidIPv6` accepts exactly the strings of the source's IPv6 pattern. */
  lemma IPv6IffShape(s: string)
    ensures IsValidIPv6(s) <==> IPv6Shape(s)
  {
    if IsValidIPv6(s) {
      JoinSplit(s, ':');
    }
    if IPv6Shape(s) {
      var gs :| |gs| == 8 && (forall i :: 0 <= i < 8 ==> IsHexGroup(gs[i])) && s == Join(gs, ':');
      SplitJoin(gs, ':');
    }
  }

  /** A compressed IPv6 address (one containing `::`) is rejected. */
  lemma CompressedIPv6Rejected(s: string, i: nat)
    requires i + 1 < |s| && s[i] == ':' && s[i + 1] == ':'
    ensures !IsValidIPv6(s)
  {
    DoubleSeparatorGivesEmptyField(s, ':', i);
  }

  /** No valid IPv4 address is classified as a domain. */
  lemma IPv4NotDomain(s: string)
    requires IsValidIPv4(s)
    ensures !IsDomain(s)
  {
    var fs := Split(s, '.');
    JoinSplit(s, '.');
    JoinChars(fs, '.', c => IsDigit(c) || c == '.');
    DigitsAndDotsNotDomain(s);
  }
}

/** The pieces of java.lang.String and java.lang.Integer behaviour that the
    authentication gate and the request handlers rely on, written out so that
    their edge cases (regular-expression dots, trimming, UTF-16 lengths,
    integer parsing and splitting) are explicit. */
module JavaText {

  /** A Java reference that may be null. */
  datatype Option<+T> = None | Some(value: T)

  predicate StartsWith(s: string, prefix: string) {
    |prefix| <= |s| && s[..|prefix|] == prefix
  }

  predicate EndsWith(s: string, suffix: string) {
    |suffix| <= |s| && s[|s| - |suffix|..] == suffix
  }

  // ---------------------------------------------------------------------------
  // Regular expressions of the shape `prefix.*suffix`, as used with String.matches
  // ---------------------------------------------------------------------------

  /** The characters the regular-expression dot refuses without DOTALL. */
  predicate IsLineTerminator(c: char) {
    c == '\n' || c == '\r' || c == '\U{0085}' || c == '\U{2028}' || c == '\U{2029}'
  }

  predicate NoLineTerminator(s: string) {
    forall i :: 0 <= i < |s| ==> !IsLineTerminator(s[i])
  }

  /** `s.matches(prefix + ".*" + suffix)` for a prefix and suffix free of
      metacharacters: the whole string must be consumed, and the wildcard may
      be empty or contain '/'. */
  predicate MatchesWildcard(s: string, prefix: string, suffix: string) {
    |prefix| + |suffix| <= |s|
    && StartsWith(s, prefix)
    && EndsWith(s, suffix)
    && NoLineTerminator(s[|prefix|..|s| - |suffix|])
  }

  /** Reference reading of the same regular expression: some dot-matchable
      text sits between the literal prefix and suffix. */
  ghost predicate WildcardDecomposes(s: string, prefix: string, suffix: string) {
    exists mid :: NoLineTerminator(mid) && s == prefix + mid + suffix
  }

  lemma WildcardMatchesIffDecomposes(s: string, prefix: string, suffix: string)
    ensures MatchesWildcard(s, prefix, suffix) <==> WildcardDecomposes(s, prefix, suffix)
  {
    if MatchesWildcard(s, prefix, suffix) {
      var mid := s[|prefix|..|s| - |suffix|];
      assert s == s[..|prefix|] + mid + s[|s| - |suffix|..];
      assert s == prefix + mid + suffix;
    }
    if WildcardDecomposes(s, prefix, suffix) {
      var mid :| NoLineTerminator(mid) && s == prefix + mid + suffix;
      assert s[..|prefix|] == prefix;
      assert s[|s| - |suffix|..] == suffix;
      assert s[|prefix|..|s| - |suffix|] == mid;
    }
  }

  // ---------------------------------------------------------------------------
  // String.trim() and blank checks
  // ---------------------------------------------------------------------------

  /** String.trim() removes every leading and trailing character up to U+0020. */
  predicate IsTrimmable(c: char) {
    c <= ' '
  }

  predicate IsBlank(s: string) {
    forall i :: 0 <= i < |s| ==> IsTrimmable(s[i])
  }

  function TrimStart(s: string): (r: string)
    ensures |r| <= |s| && r == s[|s| - |r|..]
    ensures IsBlank(s[..|s| - |r|])
    ensures r == [] <==> IsBlank(s)
    ensures r != [] ==> !IsTrimmable(r[0])
  {
    if |s| > 0 && IsTrimmable(s[0]) then TrimStart(s[1..]) else s
  }

  function TrimEnd(s: string): (r: string)
    ensures |r| <= |s| && r == s[..|r|]
    ensures IsBlank(s[|r|..])
    ensures r == [] <==> IsBlank(s)
    ensures |s| > 0 && !IsTrimmable(s[0]) ==> r != []
    ensures r != [] ==> !IsTrimmable(r[|r| - 1])
  {
    if |s| > 0 && IsTrimmable(s[|s| - 1]) then TrimEnd(s[..|s| - 1]) else s
  }

  function Trim(s: string): string {
    TrimEnd(TrimStart(s))
  }

  /** `s.trim().isEmpty()` holds exactly of the blank strings. */
  lemma TrimEmptyIffBlank(s: string)
    ensures Trim(s) == [] <==> IsBlank(s)
  {
  }

  /** `x == null || x.trim().isEmpty()`, the handlers' "missing" test. */
  predicate NullOrBlank(x: Option<string>) {
    x.None? || Trim(x.value) == []
  }

  // ---------------------------------------------------------------------------
  // String.length() counts UTF-16 code units
  // ---------------------------------------------------------------------------

  /** A character outside the Basic Multilingual Plane, which UTF-16 stores
      as a surrogate pair. */
  predicate IsSupplementary(c: char) {
    c as int >= 0x1_0000
  }

  /** The positions of the supplementary characters of `s`. */
  ghost function SupplementaryAt(s: string): set<int> {
    set i | 0 <= i < |s| && IsSupplementary(s[i])
  }

  /** One code unit per character, plus one more for each supplementary
      character. */
  function Utf16Length(s: string): (n: nat)
    ensures n == |s| + |SupplementaryAt(s)|
    ensures |s| <= n <= 2 * |s|
    ensures n == |s| <==> forall i :: 0 <= i < |s| ==> !IsSupplementary(s[i])
  {
    if s == [] then 0
    else
      var init := s[..|s| - 1];
      SupplementaryOfInit(s);
      Utf16Length(init) + (if IsSupplementary(s[|s| - 1]) then 2 else 1)
  }

  lemma SupplementaryOfInit(s: string)
    requires s != []
    ensures SupplementaryAt(s)
         == SupplementaryAt(s[..|s| - 1]) + (if IsSupplementary(s[|s| - 1]) then {|s| - 1} else {})
  {
  }

  // ---------------------------------------------------------------------------
  // Integer.parseInt and Integer.toString
  // ---------------------------------------------------------------------------

  const IntMin: int := -0x8000_0000
  const IntMax: int := 0x7fff_ffff

  predicate IsDigit(c: char) {
    '0' <= c <= '9'
  }

  predicate AllDigits(s: string) {
    forall i :: 0 <= i < |s| ==> IsDigit(s[i])
  }

  /** The value of a decimal numeral, most significant digit first. */
  function DigitsValue(ds: string): nat
    requires AllDigits(ds)
  {
    if ds == [] then 0
    else DigitsValue(ds[..|ds| - 1]) * 10 + (ds[|ds| - 1] as int - '0' as int)
  }

  /** Integer.parseInt: an optional sign, at least one digit, and a value in
      the 32-bit range; anything else is a NumberFormatException (None). */
  function ParseInt(s: string): (r: Option<int>)
    ensures r.Some? ==> IntMin <= r.value <= IntMax
    ensures r.Some? ==> |s| > 0 && (IsDigit(s[0]) || s[0] == '-' || s[0] == '+')
  {
    if s == [] then None
    else
      var signed := s[0] == '-' || s[0] == '+';
      var digits := if signed then s[1..] else s;
      if digits == [] || !AllDigits(digits) then None
      else
        var magnitude: int := DigitsValue(digits);
        var v := if s[0] == '-' then -magnitude else magnitude;
        if IntMin <= v <= IntMax then Some(v) else None
  }

  function DigitChar(d: nat): (c: char)
    requires d < 10
    ensures IsDigit(c) && c as int - '0' as int == d
  {
    ('0' as int + d) as char
  }

  function NatToString(n: nat): (s: string)
    ensures s != [] && AllDigits(s)
  {
    if n < 10 then [DigitChar(n)] else NatToString(n / 10) + [DigitChar(n % 10)]
  }

  /** Integer.toString, the encoding the token issuer uses for a subject id. */
  function IntToString(n: int): string {
    if n < 0 then "-" + NatToString(-n) else NatToString(n)
  }

  lemma {:induction false} NatToStringValue(n: nat)
    ensures DigitsValue(NatToString(n)) == n
  {
    if n >= 10 {
      var s := NatToString(n);
      var t := NatToString(n / 10);
      assert s == t + [DigitChar(n % 10)];
      assert s[..|s| - 1] == t;
      NatToStringValue(n / 10);
    }
  }

  /** Integer.parseInt inverts Integer.toString on every 32-bit value. */
  lemma ParseIntOfIntToString(n: int)
    requires IntMin <= n <= IntMax
    ensures ParseInt(IntToString(n)) == Some(n)
  {
    var s := IntToString(n);
    if n < 0 {
      var ds := NatToString(-n);
      assert s == "-" + ds && s[0] == '-' && s[1..] == ds;
      NatToStringValue(-n);
      assert DigitsValue(ds) == -n;
    } else {
      NatToStringValue(n);
      assert s[0] != '-' && s[0] != '+';
    }
  }

  // ---------------------------------------------------------------------------
  // String.split with a one-character separator
  // ---------------------------------------------------------------------------

  /** Index of the first `c` in `s`, or |s| when there is none. */
  function IndexOf(s: string, c: char): (i: nat)
    ensures i <= |s|
    ensures i < |s| ==> s[i] == c
    ensures forall j :: 0 <= j < i ==> s[j] != c
  {
    if s == [] then 0
    else if s[0] == c then 0
    else 1 + IndexOf(s[1..], c)
  }

  predicate Lacks(s: string, c: char) {
    forall j :: 0 <= j < |s| ==> s[j] != c
  }

  lemma IndexOfLacking(s: string, c: char)
    requires Lacks(s, c)
    ensures IndexOf(s, c) == |s|
  {
  }

  /** The fields joined back together with the separator between them. */
  function Join(parts: seq<string>, sep: char): string
    requires parts != []
  {
    if |parts| == 1 then parts[0] else parts[0] + [sep] + Join(parts[1..], sep)
  }

  /** Every field between separators, empty ones included: none of them
      contains the separator, and joining them gives the text back. */
  function Fields(s: string, sep: char): (r: seq<string>)
    ensures |r| >= 1
    ensures forall k :: 0 <= k < |r| ==> sep !in r[k]
    ensures Join(r, sep) == s
    decreases |s|
  {
    var i := IndexOf(s, sep);
    if i == |s| then [s]
    else
      var rest := Fields(s[i + 1..], sep);
      assert ([s[..i]] + rest)[1..] == rest;
      assert s == s[..i] + [sep] + s[i + 1..];
      [s[..i]] + rest
  }

  /** Splitting the join of separator-free fields gives the fields back. */
  lemma {:induction false} FieldsOfJoin(parts: seq<string>, sep: char)
    requires parts != []
    requires forall k :: 0 <= k < |parts| ==> Lacks(parts[k], sep)
    ensures Fields(Join(parts, sep), sep) == parts
  {
    if |parts| == 1 {
      IndexOfLacking(parts[0], sep);
    } else {
      FieldsOfJoin(parts[1..], sep);
      FieldsAfterPrefix(Join(parts, sep), sep, parts[0], Join(parts[1..], sep));
      assert parts == [parts[0]] + parts[1..];
    }
  }

  /** Exactly the trailing empty fields are removed: the result is empty or
      ends in a non-empty field, and every field dropped is empty. */
  function DropTrailingEmpty(parts: seq<string>): (r: seq<string>)
    ensures |r| <= |parts| && r == parts[..|r|]
    ensures r == [] || r[|r| - 1] != ""
    ensures forall k :: |r| <= k < |parts| ==> parts[k] == ""
  {
    if parts != [] && parts[|parts| - 1] == "" then DropTrailingEmpty(parts[..|parts| - 1]) else parts
  }

  /** `s.split(sep)`: the whole string when the separator does not occur,
      otherwise the fields with trailing empty strings removed. */
  function Split(s: string, sep: char): seq<string> {
    if IndexOf(s, sep) == |s| then [s] else DropTrailingEmpty(Fields(s, sep))
  }

  /** The text before the first separator. */
  function FirstField(s: string, sep: char): string {
    s[..IndexOf(s, sep)]
  }

  lemma FirstFieldAt(s: string, sep: char, k: nat)
    requires k < |s| && s[k] == sep && Lacks(s[..k], sep)
    ensures FirstField(s, sep) == s[..k]
  {
    assert forall j :: 0 <= j < k ==> s[j] == s[..k][j];
  }

  lemma {:induction false} FieldsLast(s: string, sep: char, a: string, t: string)
    requires Lacks(t, sep)
    requires s == a + [sep] + t
    ensures Fields(s, sep)[|Fields(s, sep)| - 1] == t
    decreases |s|
  {
    var i := IndexOf(s, sep);
    assert s[|a|] == sep;
    if i == |a| {
      assert s[i + 1..] == t;
      IndexOfLacking(t, sep);
    } else {
      assert s[i + 1..] == a[i + 1..] + [sep] + t;
      FieldsLast(s[i + 1..], sep, a[i + 1..], t);
    }
  }

  lemma FieldsAfterPrefix(s: string, sep: char, a: string, rest: string)
    requires Lacks(a, sep)
    requires s == a + [sep] + rest
    ensures Fields(s, sep) == [a] + Fields(rest, sep)
  {
    assert IndexOf(s, sep) == |a| by {
      assert s[|a|] == sep;
      assert forall j :: 0 <= j < |a| ==> s[j] == a[j];
    }
    assert s[..|a|] == a;
    assert s[|a| + 1..] == rest;
  }

  lemma DropTrailingEmptyKeeps(parts: seq<string>)
    requires parts != [] && parts[|parts| - 1] != ""
    ensures DropTrailingEmpty(parts) == parts
  {
  }
}

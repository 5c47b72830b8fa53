/** The diagnostic sanitizer: escapes what could forge log lines and bounds the UTF-8 length. */
module Sanitizer {
  import opened Basics

  const TRUNCATION_SUFFIX := " ... [truncated]"
  const SUFFIX_BYTES: nat := 16

  /** What must never reach a log as it is: control characters and line separators. */
  predicate IsUnsafe(c: char) {
    IsControl(c) || c as int == 0x2028 || c as int == 0x2029
  }

  predicate IsClean(s: string) {
    forall i :: 0 <= i < |s| ==> !IsUnsafe(s[i])
  }

  function HexDigit(d: nat): (c: char)
    requires d < 16
    ensures !IsUnsafe(c) && Utf8Width(c) == 1
  {
    if d < 10 then '0' + d as char else 'a' + (d - 10) as char
  }

  function UnicodeEscape(c: char): string
    requires c as int < 0x1_0000
  {
    var n := c as int;
    "\\u{" + [HexDigit(n / 0x1000), HexDigit(n / 0x100 % 16), HexDigit(n / 16 % 16), HexDigit(n % 16)] + "}"
  }

  /** The text that stands for one character. */
  function Chunk(c: char): string {
    var n := c as int;
    if n == 0 then "\\0"
    else if n == 8 then "\\b"
    else if n == 9 then "\\t"
    else if n == 10 then "\\n"
    else if n == 12 then "\\f"
    else if n == 13 then "\\r"
    else if IsUnsafe(c) then UnicodeEscape(c)
    else [c]
  }

  /** How many bytes the text for one character takes. */
  function ChunkBytes(c: char): nat {
    var n := c as int;
    if n == 0 || 8 <= n <= 10 || n == 12 || n == 13 then 2
    else if IsUnsafe(c) then 8
    else Utf8Width(c)
  }

  /** The first `n` characters of the value, escaped. */
  function Escaped(value: string, n: nat): string
    requires n <= |value|
  {
    if n == 0 then "" else Escaped(value, n - 1) + Chunk(value[n - 1])
  }

  /** How many bytes that takes. */
  function EscapedBytes(value: string, n: nat): nat
    requires n <= |value|
  {
    if n == 0 then 0 else EscapedBytes(value, n - 1) + ChunkBytes(value[n - 1])
  }

  /** How many characters of `value` fit when escaped, from `k` on. */
  function Fitting(value: string, limit: nat, k: nat): (n: nat)
    requires k <= |value|
    ensures k <= n <= |value|
    decreases |value| - k
  {
    if k < |value| && EscapedBytes(value, k + 1) <= limit then Fitting(value, limit, k + 1) else k
  }

  function Sanitized(value: string, maxBytes: nat): string {
    if maxBytes == 0 then ""
    else if EscapedBytes(value, |value|) <= maxBytes then Escaped(value, |value|)
    else Truncated(value, maxBytes)
  }

  function Truncated(value: string, maxBytes: nat): string {
    if maxBytes <= SUFFIX_BYTES then TRUNCATION_SUFFIX[..maxBytes]
    else Escaped(value, Fitting(value, maxBytes - SUFFIX_BYTES, 0)) + TRUNCATION_SUFFIX
  }

  // ---------- lengths ----------

  lemma ChunkLength(c: char)
    ensures Utf8Length(Chunk(c)) == ChunkBytes(c)
  {
    var chunk := Chunk(c);
    if IsUnsafe(c) {
      if ChunkBytes(c) == 2 {
        assert |chunk| == 2 && chunk[0] == '\\' && Utf8Width(chunk[1]) == 1;
      } else {
        var n := c as int;
        assert chunk == ['\\', 'u', '{', HexDigit(n / 0x1000), HexDigit(n / 0x100 % 16), HexDigit(n / 16 % 16), HexDigit(n % 16), '}'];
      }
      AsciiLength(chunk);
    } else {
      assert chunk[..0] == "";
    }
  }

  /** The byte count is the UTF-8 length of the escaped characters. */
  lemma {:induction false} EscapedLength(value: string, n: nat)
    requires n <= |value|
    ensures Utf8Length(Escaped(value, n)) == EscapedBytes(value, n)
  {
    if n > 0 {
      var front, last := Escaped(value, n - 1), Chunk(value[n - 1]);
      EscapedLength(value, n - 1);
      ChunkLength(value[n - 1]);
      Utf8LengthOfConcat(front, last);
    }
  }

  /** The value of a hexadecimal digit. */
  function DigitValue(c: char): Option<nat> {
    if '0' <= c <= '9' then Some(c as int - '0' as int)
    else if 'a' <= c <= 'f' then Some(c as int - 'a' as int + 10)
    else None
  }

  /** The reader of one escaped character: the character and how much of the text it took. */
  function Unescape(s: string): Option<(int, nat)> {
    if s == "" then None
    else if s[0] != '\\' || |s| == 1 then Some((s[0] as int, 1))
    else if s[1] == '0' then Some((0, 2))
    else if s[1] == 'b' then Some((8, 2))
    else if s[1] == 't' then Some((9, 2))
    else if s[1] == 'n' then Some((10, 2))
    else if s[1] == 'f' then Some((12, 2))
    else if s[1] == 'r' then Some((13, 2))
    else if |s| >= 8 && s[1] == 'u' && s[2] == '{' && s[7] == '}' then
      match (DigitValue(s[3]), DigitValue(s[4]), DigitValue(s[5]), DigitValue(s[6]))
      case (Some(a), Some(b), Some(c), Some(d)) => Some((a * 0x1000 + b * 0x100 + c * 16 + d, 8))
      case _ => None
    else None
  }

  lemma DigitIsRead(d: nat)
    requires d < 16
    ensures DigitValue(HexDigit(d)) == Some(d)
  {
  }

  lemma EscapeIsRead(a: nat, b: nat, c: nat, d: nat, rest: string)
    requires a < 16 && b < 16 && c < 16 && d < 16
    ensures Unescape("\\u{" + [HexDigit(a), HexDigit(b), HexDigit(c), HexDigit(d)] + "}" + rest)
         == Some((a * 0x1000 + b * 0x100 + c * 16 + d, 8))
  {
    DigitIsRead(a);
    DigitIsRead(b);
    DigitIsRead(c);
    DigitIsRead(d);
  }

  lemma HexDigits(n: nat)
    requires n < 0x1_0000
    ensures n / 0x1000 < 16
    ensures n == (n / 0x1000) * 0x1000 + (n / 0x100 % 16) * 0x100 + (n / 16 % 16) * 16 + n % 16
  {
  }

  /** The text that stands for an unsafe character names that character, whatever follows it. */
  lemma UnsafeIsNamed(c: char, rest: string)
    requires IsUnsafe(c)
    ensures Unescape(Chunk(c) + rest) == Some((c as int, |Chunk(c)|))
  {
    var n := c as int;
    if ChunkBytes(c) == 2 {
      assert (Chunk(c) + rest)[..2] == Chunk(c);
    } else {
      HexDigits(n);
      EscapeIsRead(n / 0x1000, n / 0x100 % 16, n / 16 % 16, n % 16, rest);
    }
  }

  /** Different characters are escaped differently. */
  lemma ChunkIsInjective(c: char, d: char)
    requires Chunk(c) == Chunk(d)
    ensures c == d
  {
    if IsUnsafe(c) && IsUnsafe(d) {
      UnsafeIsNamed(c, "");
      UnsafeIsNamed(d, "");
      assert Chunk(c) + "" == Chunk(d) + "";
    }
  }

  lemma ChunkIsClean(c: char)
    ensures IsClean(Chunk(c)) && Chunk(c) != ""
  {
  }

  lemma {:induction false} EscapedIsClean(value: string, n: nat)
    requires n <= |value|
    ensures IsClean(Escaped(value, n))
  {
    if n > 0 {
      EscapedIsClean(value, n - 1);
      ChunkIsClean(value[n - 1]);
    }
  }

  /** Clean text is not changed by escaping. */
  lemma {:induction false} CleanIsUnchanged(value: string, n: nat)
    requires IsClean(value) && n <= |value|
    ensures Escaped(value, n) == value[..n]
  {
    if n > 0 {
      CleanIsUnchanged(value, n - 1);
      CleanChunk(value[n - 1]);
      assert value[..n - 1] + [value[n - 1]] == value[..n];
    }
  }

  lemma CleanChunk(c: char)
    requires !IsUnsafe(c)
    ensures Chunk(c) == [c]
  {
  }

  lemma {:induction false} LongerIsLonger(value: string, n: nat, m: nat)
    requires n <= m <= |value|
    ensures EscapedBytes(value, n) <= EscapedBytes(value, m)
    decreases m - n
  {
    if n < m {
      LongerIsLonger(value, n + 1, m);
    }
  }

  /** The first `n` characters fit when escaped, and no more do. */
  predicate LongestFit(value: string, limit: nat, n: nat) {
    && n <= |value| && EscapedBytes(value, n) <= limit
    && forall m :: n < m <= |value| ==> EscapedBytes(value, m) > limit
  }

  lemma {:induction false} FittingIsLongest(value: string, limit: nat, k: nat)
    requires k <= |value| && EscapedBytes(value, k) <= limit
    ensures LongestFit(value, limit, Fitting(value, limit, k))
    decreases |value| - k
  {
    if k < |value| && EscapedBytes(value, k + 1) <= limit {
      FittingIsLongest(value, limit, k + 1);
    } else {
      forall m | k < m <= |value|
        ensures EscapedBytes(value, m) > limit
      {
        LongerIsLonger(value, k + 1, m);
      }
    }
  }

  lemma {:induction false} AsciiLength(s: string)
    requires forall i :: 0 <= i < |s| ==> Utf8Width(s[i]) == 1
    ensures Utf8Length(s) == |s|
  {
    if s != "" {
      AsciiLength(s[..|s| - 1]);
    }
  }

  lemma SuffixFacts(n: nat)
    requires n <= SUFFIX_BYTES
    ensures |TRUNCATION_SUFFIX| == SUFFIX_BYTES && Utf8Length(TRUNCATION_SUFFIX[..n]) == n
    ensures Utf8Length(TRUNCATION_SUFFIX) == SUFFIX_BYTES && IsClean(TRUNCATION_SUFFIX)
  {
    AsciiLength(TRUNCATION_SUFFIX);
    AsciiLength(TRUNCATION_SUFFIX[..n]);
  }

  // ---------- what the result guarantees ----------

  lemma TruncatedFits(value: string, maxBytes: nat)
    ensures Utf8Length(Truncated(value, maxBytes)) <= maxBytes && IsClean(Truncated(value, maxBytes))
  {
    SuffixFacts(Min(maxBytes, SUFFIX_BYTES));
    if maxBytes > SUFFIX_BYTES {
      FittingIsLongest(value, maxBytes - SUFFIX_BYTES, 0);
      var n := Fitting(value, maxBytes - SUFFIX_BYTES, 0);
      EscapedIsClean(value, n);
      EscapedLength(value, n);
      Utf8LengthOfConcat(Escaped(value, n), TRUNCATION_SUFFIX);
    }
  }

  /** The result is bounded and holds no control character and no line separator. */
  lemma SanitizedIsBoundedAndClean(value: string, maxBytes: nat)
    ensures Utf8Length(Sanitized(value, maxBytes)) <= maxBytes && IsClean(Sanitized(value, maxBytes))
  {
    EscapedIsClean(value, |value|);
    EscapedLength(value, |value|);
    TruncatedFits(value, maxBytes);
  }

  /** A value that is cut keeps the longest prefix of whole escaped characters that leaves room for
      the suffix. */
  lemma CutIsLongest(value: string, maxBytes: nat)
    requires maxBytes > SUFFIX_BYTES
    ensures LongestFit(value, maxBytes - SUFFIX_BYTES, Fitting(value, maxBytes - SUFFIX_BYTES, 0))
    ensures Utf8Length(Escaped(value, |value|)) > maxBytes ==>
              Sanitized(value, maxBytes) == Escaped(value, Fitting(value, maxBytes - SUFFIX_BYTES, 0)) + " ... [truncated]"
  {
    EscapedLength(value, |value|);
    FittingIsLongest(value, maxBytes - SUFFIX_BYTES, 0);
  }

  lemma FittingIsWhole(value: string, maxBytes: nat)
    requires EscapedBytes(value, |value|) <= maxBytes
    ensures Sanitized(value, maxBytes) == Escaped(value, |value|)
  {
    if maxBytes == 0 {
      NothingIsEmpty(value);
    }
  }

  /** Clean text that fits is left alone, and any other text that fits when escaped is not cut. */
  lemma FittingIsKept(value: string, maxBytes: nat)
    requires Utf8Length(Escaped(value, |value|)) <= maxBytes
    ensures Sanitized(value, maxBytes) == Escaped(value, |value|)
    ensures IsClean(value) ==> Sanitized(value, maxBytes) == value
  {
    EscapedLength(value, |value|);
    FittingIsWhole(value, maxBytes);
    if IsClean(value) {
      CleanIsUnchanged(value, |value|);
      assert value[..|value|] == value;
    }
  }

  lemma NothingIsEmpty(value: string)
    requires EscapedBytes(value, |value|) == 0
    ensures value == ""
  {
  }

  /** Sanitizing again with the same limit changes nothing. */
  lemma SanitizedIsStable(value: string, maxBytes: nat)
    ensures Sanitized(Sanitized(value, maxBytes), maxBytes) == Sanitized(value, maxBytes)
  {
    var once := Sanitized(value, maxBytes);
    SanitizedIsBoundedAndClean(value, maxBytes);
    CleanIsUnchanged(once, |once|);
    EscapedLength(once, |once|);
    assert once[..|once|] == once;
  }

  // ---------- the loops ----------

  method SanitizeDiagnostic(value: string, maxBytes: nat) returns (escaped: string)
    ensures escaped == Sanitized(value, maxBytes)
  {
    if maxBytes == 0 {
      return "";
    }
    escaped := "";
    for i := 0 to |value|
      invariant escaped == Escaped(value, i) && EscapedBytes(value, i) <= maxBytes
    {
      escaped := escaped + Chunk(value[i]);
      EscapedLength(value, i + 1);
      if Utf8Length(escaped) > maxBytes {
        LongerIsLonger(value, i + 1, |value|);
        escaped := TruncatedDiagnostic(value, maxBytes);
        return;
      }
    }
  }

  method TruncatedDiagnostic(value: string, maxBytes: nat) returns (truncated: string)
    ensures truncated == Truncated(value, maxBytes)
  {
    SuffixFacts(Min(maxBytes, SUFFIX_BYTES));
    if maxBytes <= SUFFIX_BYTES {
      return TRUNCATION_SUFFIX[..maxBytes];
    }
    var limit := maxBytes - SUFFIX_BYTES;
    truncated := "";
    var i := 0;
    while i < |value|
      invariant 0 <= i <= |value| && truncated == Escaped(value, i)
      invariant Fitting(value, limit, 0) == Fitting(value, limit, i)
    {
      var longer := truncated + Chunk(value[i]);
      EscapedLength(value, i + 1);
      if Utf8Length(longer) > limit {
        break;
      }
      truncated := longer;
      i := i + 1;
    }
    truncated := truncated + TRUNCATION_SUFFIX;
  }
}

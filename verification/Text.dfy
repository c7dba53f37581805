/** The string operations of the Rust standard library that the components use, on sequences of characters. */
module Text {
  /** `char::is_whitespace`: the Unicode White_Space property. */
  predicate IsWhitespace(c: char) {
    var n := c as int;
    || 0x09 <= n <= 0x0D || n == 0x20 || n == 0x85 || n == 0xA0 || n == 0x1680
    || 0x2000 <= n <= 0x200A || n == 0x2028 || n == 0x2029 || n == 0x202F || n == 0x205F || n == 0x3000
  }

  /** The number of leading whitespace characters. */
  function LeadingBlank(s: string): (k: nat)
    ensures k <= |s| && (k < |s| ==> !IsWhitespace(s[k]))
    ensures forall i :: 0 <= i < k ==> IsWhitespace(s[i])
  {
    if s != [] && IsWhitespace(s[0]) then 1 + LeadingBlank(s[1..]) else 0
  }

  /** The length left after dropping trailing whitespace. */
  function KeptLength(s: string): (k: nat)
    ensures k <= |s| && (k > 0 ==> !IsWhitespace(s[k - 1]))
    ensures forall i :: k <= i < |s| ==> IsWhitespace(s[i])
  {
    if s != [] && IsWhitespace(s[|s| - 1]) then KeptLength(s[..|s| - 1]) else |s|
  }

  function TrimStart(s: string): string {
    s[LeadingBlank(s)..]
  }

  function TrimEnd(s: string): string {
    s[..KeptLength(s)]
  }

  function Trim(s: string): string {
    TrimEnd(TrimStart(s))
  }

  /** No whitespace at either end. */
  predicate Trimmed(s: string) {
    s != [] ==> !IsWhitespace(s[0]) && !IsWhitespace(s[|s| - 1])
  }

  /** `trim_end_matches(c)`: drops every trailing copy of one character. */
  function TrimEndChar(s: string, c: char): string {
    if s != [] && s[|s| - 1] == c then TrimEndChar(s[..|s| - 1], c) else s
  }

  /** The position of the first `c`, or the length when there is none. */
  function Find(s: string, c: char): (i: nat)
    ensures i <= |s|
    ensures i < |s| ==> s[i] == c
    ensures forall k :: 0 <= k < i ==> s[k] != c
  {
    if s == [] || s[0] == c then 0 else 1 + Find(s[1..], c)
  }

  lemma FindUnique(s: string, c: char, i: nat)
    requires i <= |s| && (i < |s| ==> s[i] == c)
    requires forall k :: 0 <= k < i ==> s[k] != c
    ensures Find(s, c) == i
  {
  }

  function Digit(d: nat): char
    requires d < 10
  {
    ('0' as int + d) as char
  }

  /** Decimal rendering, as `format!("{}", n)`. */
  function Decimal(n: nat): (s: string)
    ensures |s| >= 1
    ensures forall i :: 0 <= i < |s| ==> '0' <= s[i] <= '9'
  {
    if n < 10 then [Digit(n)] else Decimal(n / 10) + [Digit(n % 10)]
  }

  /** The number a text of digits stands for. */
  function NumberRead(s: string): int {
    if s == [] then 0 else 10 * NumberRead(s[..|s| - 1]) + (s[|s| - 1] as int - '0' as int)
  }

  /** A number is written without leading zeros, and reads back as itself. */
  lemma {:induction false} DecimalReadsBack(n: nat)
    ensures NumberRead(Decimal(n)) == n && (n > 0 ==> Decimal(n)[0] != '0')
  {
    if n >= 10 {
      DecimalReadsBack(n / 10);
    }
  }

  lemma LeadingBlankUnique(s: string, k: nat)
    requires k <= |s| && (k < |s| ==> !IsWhitespace(s[k]))
    requires forall i :: 0 <= i < k ==> IsWhitespace(s[i])
    ensures LeadingBlank(s) == k
  {
  }

  lemma KeptLengthUnique(s: string, k: nat)
    requires k <= |s| && (k > 0 ==> !IsWhitespace(s[k - 1]))
    requires forall i :: k <= i < |s| ==> IsWhitespace(s[i])
    ensures KeptLength(s) == k
  {
  }

  lemma TrimIsTrimmed(s: string)
    ensures Trimmed(Trim(s))
    ensures forall c :: c in Trim(s) ==> c in s
  {
    var t := TrimStart(s);
    assert TrimEnd(t) != [] ==> TrimEnd(t)[0] == t[0];
  }

  lemma TrimOfTrimmed(s: string)
    requires Trimmed(s)
    ensures TrimStart(s) == s && TrimEnd(s) == s && Trim(s) == s
  {
    LeadingBlankUnique(s, 0);
    KeptLengthUnique(s, |s|);
  }

  predicate Blank(s: string) {
    forall i :: 0 <= i < |s| ==> IsWhitespace(s[i])
  }

  lemma TrimmedAway(s: string)
    ensures Trim(s) == "" <==> Blank(s)
  {
    var t := TrimStart(s);
    if Blank(s) {
      LeadingBlankUnique(s, |s|);
    } else {
      var i :| 0 <= i < |s| && !IsWhitespace(s[i]);
      var k := LeadingBlank(s);
      assert k <= i && t[i - k] == s[i];
      assert KeptLength(t) > i - k;
    }
  }

  lemma TrimStartPadding(left: string, s: string)
    requires Blank(left)
    ensures TrimStart(left + s) == TrimStart(s)
  {
    var whole := left + s;
    var k := |left| + LeadingBlank(s);
    forall i | 0 <= i < k ensures IsWhitespace(whole[i]) {
      if i >= |left| {
        assert whole[i] == s[i - |left|];
      }
    }
    LeadingBlankUnique(whole, k);
    assert whole[k..] == s[k - |left|..];
  }

  lemma TrimEndPadding(s: string, right: string)
    requires Blank(right)
    ensures TrimEnd(s + right) == TrimEnd(s)
  {
    var whole := s + right;
    var k := KeptLength(s);
    forall i | k <= i < |whole| ensures IsWhitespace(whole[i]) {
      if i >= |s| {
        assert whole[i] == right[i - |s|];
      }
    }
    KeptLengthUnique(whole, k);
    assert whole[..k] == s[..k];
  }

  lemma TrimStartAppend(s: string, right: string)
    requires !Blank(s)
    ensures TrimStart(s + right) == TrimStart(s) + right
  {
    var whole := s + right;
    var k := LeadingBlank(s);
    forall i | 0 <= i < k ensures IsWhitespace(whole[i]) {
      assert whole[i] == s[i];
    }
    LeadingBlankUnique(whole, k);
    assert whole[k..] == s[k..] + right;
  }

  /** Surrounding whitespace never changes what `trim` leaves. */
  lemma TrimPadding(left: string, s: string, right: string)
    requires Blank(left) && Blank(right)
    ensures Trim(left + s + right) == Trim(s)
  {
    TrimStartPadding(left, s + right);
    assert left + s + right == left + (s + right);
    if Blank(s) {
      assert Blank(s + right);
      LeadingBlankUnique(s, |s|);
      LeadingBlankUnique(s + right, |s + right|);
    } else {
      TrimStartAppend(s, right);
      TrimEndPadding(TrimStart(s), right);
    }
  }

  lemma TrimRightPadding(s: string, right: string)
    requires Blank(right)
    ensures Trim(s + right) == Trim(s)
  {
    TrimPadding("", s, right);
    assert "" + s == s;
  }

  lemma SplitAt(s: string, i: nat, c: char)
    requires i < |s| && s[i] == c
    ensures s == s[..i] + [c] + s[i + 1..]
  {
  }

  /** A text with no blank in front is what `trim` leaves and the blanks behind it. */
  lemma UnpaddedSplit(s: string) returns (end: string)
    requires s != "" && !IsWhitespace(s[0])
    ensures s == Trim(s) + end && Blank(end) && Trim(s) != ""
  {
    LeadingBlankUnique(s, 0);
    assert TrimStart(s) == s;
    end := s[KeptLength(s)..];
  }
}

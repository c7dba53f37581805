/**
 * The length-prefixed session key: its parser (src/dashboard.rs, lines 1171-1219) and its encoder
 * (src/models/session.rs, lines 52-71), on the bytes of UTF-8 strings.
 */
module SessionKeys {
  import opened Prelude

  type Byte = b: int | 0 <= b < 256

  type Bytes = seq<Byte>

  const ZERO: Byte := 48
  const COLON: Byte := 58
  const BAR: Byte := 124
  const DASH: Byte := 45

  const USIZE_LIMIT: nat := 0x1_0000_0000_0000_0000

  /** No Rust string is longer. */
  const MAX_LENGTH: nat := 0x7FFF_FFFF_FFFF_FFFF

  datatype SessionKey = SessionKey(
    platform: Bytes, guild: Option<Bytes>, channel: Bytes, thread: Option<Bytes>, user: Bytes, bot: Option<Bytes>)

  predicate IsDigit(b: Byte) {
    ZERO <= b < ZERO + 10
  }

  // --- Encoding ---

  function Numeral(n: nat): (d: Bytes)
    ensures |d| > 0 && forall i :: 0 <= i < |d| ==> IsDigit(d[i])
  {
    if n < 10 then [ZERO + n] else Numeral(n / 10) + [ZERO + n % 10]
  }

  function Component(v: Option<Bytes>): Bytes {
    match v
    case Some(value) => Numeral(|value|) + [COLON] + value
    case None => [DASH]
  }

  /** The components of a key, first to last. */
  datatype Parts = End | Part(value: Option<Bytes>, rest: Parts)

  function Joined(parts: Parts): Bytes {
    match parts
    case End => []
    case Part(v, End) => Component(v)
    case Part(v, rest) => Component(v) + [BAR] + Joined(rest)
  }

  /** `values` in front of `parts`. */
  function Onto(values: seq<Option<Bytes>>, parts: Parts): Parts
    decreases |values|
  {
    if values == [] then parts else Onto(values[..|values| - 1], Part(values[|values| - 1], parts))
  }

  function Fields(k: SessionKey): seq<Option<Bytes>> {
    [Some(k.platform), k.guild, Some(k.channel), k.thread, Some(k.user)] + if k.bot.Some? then [k.bot] else []
  }

  function StorageKey(k: SessionKey): Bytes {
    Joined(Onto(Fields(k), End))
  }

  // --- Parsing ---

  /** `str::get` succeeds only at the boundaries of characters. */
  predicate IsBoundary(s: Bytes, i: nat) {
    i == 0 || i == |s| || (i < |s| && !(0x80 <= s[i] < 0xC0))
  }

  function DigitsEnd(s: Bytes, i: nat): (j: nat)
    requires i <= |s|
    ensures i <= j <= |s| && (j < |s| ==> !IsDigit(s[j]))
    ensures forall k :: i <= k < j ==> IsDigit(s[k])
    decreases |s| - i
  {
    if i < |s| && IsDigit(s[i]) then DigitsEnd(s, i + 1) else i
  }

  function NumberOf(digits: Bytes): nat
    requires forall i :: 0 <= i < |digits| ==> IsDigit(digits[i])
  {
    if digits == [] then 0
    else assert IsDigit(digits[|digits| - 1]); 10 * NumberOf(digits[..|digits| - 1]) + (digits[|digits| - 1] - ZERO)
  }

  datatype Piece = Piece(value: Option<Bytes>, end: nat)

  function ReadComponent(s: Bytes, i: nat): (r: Option<Piece>)
    requires i <= |s|
    ensures r.Some? ==> i < r.value.end <= |s|
  {
    if i == |s| then None
    else if s[i] == DASH then Some(Piece(None, i + 1))
    else
      var j := DigitsEnd(s, i);
      if j == i || j == |s| || s[j] != COLON then None
      else
        var length := NumberOf(s[i..j]);
        var end := j + 1 + length;
        if length >= USIZE_LIMIT || end >= USIZE_LIMIT || end > |s| || !IsBoundary(s, j + 1)
          || !IsBoundary(s, end) then None
        else Some(Piece(Some(s[j + 1..end]), end))
  }

  function ReadAll(s: Bytes, i: nat): Option<Parts>
    requires i <= |s|
    decreases |s| - i
  {
    if i == |s| then Some(End)
    else match ReadComponent(s, i)
      case None => None
      case Some(piece) =>
        if piece.end == |s| then Some(Part(piece.value, End))
        else if s[piece.end] != BAR then None
        else match ReadAll(s, piece.end + 1)
          case None => None
          case Some(rest) => Some(Part(piece.value, rest))
  }

  function Listed(parts: Parts): seq<Option<Bytes>> {
    match parts
    case End => []
    case Part(v, rest) => [v] + Listed(rest)
  }

  function KeyOf(values: seq<Option<Bytes>>): Option<SessionKey> {
    if |values| != 5 && |values| != 6 then None
    else if values[0].None? || values[2].None? || values[4].None? then None
    else Some(SessionKey(values[0].value, values[1], values[2].value, values[3], values[4].value,
                         if |values| == 6 then values[5] else None))
  }

  function Parsed(s: Bytes): Option<SessionKey> {
    match ReadAll(s, 0)
    case None => None
    case Some(parts) => KeyOf(Listed(parts))
  }

  lemma {:induction false} ListedOnto(values: seq<Option<Bytes>>, parts: Parts)
    ensures Listed(Onto(values, parts)) == values + Listed(parts)
    decreases |values|
  {
    if values == [] {
      assert values + Listed(parts) == Listed(parts);
    } else {
      var init, last := values[..|values| - 1], values[|values| - 1];
      ListedOnto(init, Part(last, parts));
      InitAndLast(values);
      Regroup(init, [last], Listed(parts));
    }
  }

  lemma {:induction false} OntoListed(parts: Parts)
    ensures Onto(Listed(parts), End) == parts
  {
    if parts.Part? {
      OntoListed(parts.rest);
      OntoCons(parts.value, Listed(parts.rest), End);
    }
  }

  lemma {:induction false} OntoCons(v: Option<Bytes>, values: seq<Option<Bytes>>, parts: Parts)
    ensures Onto([v] + values, parts) == Part(v, Onto(values, parts))
    decreases |values|
  {
    if values == [] {
      assert [v] + values == [v] && [v][..0] == [];
    } else {
      var init, last := values[..|values| - 1], values[|values| - 1];
      OntoCons(v, init, Part(last, parts));
      assert ([v] + values)[..|values|] == [v] + init;
    }
  }

  method ReadComponentAt(s: Bytes, index: nat) returns (r: Option<Option<Bytes>>, next: nat)
    requires index <= |s|
    ensures match ReadComponent(s, index)
      case None => r == None
      case Some(piece) => r == Some(piece.value) && next == piece.end
  {
    next := index;
    if next >= |s| {
      return None, next;
    }
    if s[next] == DASH {
      return Some(None), next + 1;
    }
    var start := next;
    while next < |s| && IsDigit(s[next])
      invariant start <= next <= |s| && DigitsEnd(s, start) == DigitsEnd(s, next)
      invariant forall k :: start <= k < next ==> IsDigit(s[k])
    {
      next := next + 1;
    }
    if next == start || next == |s| || s[next] != COLON {
      return None, next;
    }
    var length := NumberOf(s[start..next]);
    if length >= USIZE_LIMIT {
      return None, next;
    }
    next := next + 1;
    var end := next + length;
    if end >= USIZE_LIMIT || end > |s| || !IsBoundary(s, next) || !IsBoundary(s, end) {
      return None, next;
    }
    r := Some(Some(s[next..end]));
    next := end;
  }

  /** The components before `i` are `values`, and the rest of the text is still to be read. */
  ghost predicate Resumes(s: Bytes, i: nat, values: seq<Option<Bytes>>) {
    i <= |s| && ReadAll(s, 0) == match ReadAll(s, i) case None => None case Some(rest) => Some(Onto(values, rest))
  }

  lemma OntoSnoc(values: seq<Option<Bytes>>, v: Option<Bytes>, rest: Parts)
    ensures Onto(values + [v], rest) == Onto(values, Part(v, rest))
  {
    assert (values + [v])[..|values|] == values;
  }

  lemma ReadAllFirst(s: Bytes, i: nat, piece: Piece)
    requires i < |s| && ReadComponent(s, i) == Some(piece)
    ensures piece.end == |s| ==> ReadAll(s, i) == Some(Part(piece.value, End))
    ensures piece.end < |s| && s[piece.end] != BAR ==> ReadAll(s, i) == None
    ensures piece.end < |s| && s[piece.end] == BAR ==>
      ReadAll(s, i)
        == match ReadAll(s, piece.end + 1) case None => None case Some(rest) => Some(Part(piece.value, rest))
  {
  }

  lemma ResumesAfter(s: Bytes, i: nat, values: seq<Option<Bytes>>, piece: Piece)
    requires i < |s| && Resumes(s, i, values) && ReadComponent(s, i) == Some(piece)
    ensures piece.end == |s| ==> Resumes(s, |s|, values + [piece.value])
    ensures piece.end < |s| && s[piece.end] == BAR ==> Resumes(s, piece.end + 1, values + [piece.value])
    ensures piece.end < |s| && s[piece.end] != BAR ==> ReadAll(s, 0) == None
  {
    ReadAllFirst(s, i, piece);
    forall rest ensures Onto(values + [piece.value], rest) == Onto(values, Part(piece.value, rest)) {
      OntoSnoc(values, piece.value, rest);
    }
  }

  method ParseStorageKey(s: Bytes) returns (r: Option<SessionKey>)
    ensures r == Parsed(s)
  {
    var index: nat := 0;
    var values: seq<Option<Bytes>> := [];
    while index < |s|
      invariant index <= |s|
      invariant Resumes(s, index, values)
      decreases |s| - index
    {
      var value, next := ReadComponentAt(s, index);
      if value.None? {
        return None;
      }
      ResumesAfter(s, index, values, Piece(value.value, next));
      values := values + [value.value];
      if next == |s| {
        index := next;
        break;
      }
      if s[next] != BAR {
        return None;
      }
      index := next + 1;
    }
    ListedOnto(values, End);
    assert values + [] == values;
    r := KeyOf(values);
  }

  // --- Reading a component back ---

  lemma DigitsEndAt(s: Bytes, i: nat, j: nat)
    requires i <= j <= |s| && (j < |s| ==> !IsDigit(s[j])) && forall k :: i <= k < j ==> IsDigit(s[k])
    ensures DigitsEnd(s, i) == j
    decreases j - i
  {
    if i < j {
      DigitsEndAt(s, i + 1, j);
    }
  }

  lemma {:induction false} NumberOfNumeral(n: nat)
    ensures NumberOf(Numeral(n)) == n
  {
    if n < 10 {
      assert [ZERO + n][..0] == [];
    } else {
      var head := Numeral(n / 10);
      NumberOfNumeral(n / 10);
      assert (head + [ZERO + n % 10])[..|head|] == head;
    }
  }

  /** A text never begins in the middle of a character. */
  predicate WellStarted(v: Option<Bytes>) {
    v.Some? && v.value != [] ==> !(0x80 <= v.value[0] < 0xC0)
  }

  /** `c` stands at `i` in `s`, and a separator or the end follows. */
  ghost predicate StandsAt(s: Bytes, i: nat, end: nat, c: Bytes) {
    i <= end <= |s| <= MAX_LENGTH && s[i..end] == c && (end < |s| ==> s[end] == BAR)
  }

  lemma ValueStandsAfter(s: Bytes, i: nat, j: nat, end: nat, value: Bytes)
    requires i <= end <= |s| && s[i..end] == Component(Some(value)) && j == i + |Numeral(|value|)|
    ensures j < end && s[i..j] == Numeral(|value|) && s[j] == COLON && s[j + 1..end] == value && end == j + 1 + |value|
  {
    SliceParts(s, i, j, end, Numeral(|value|), COLON, value);
    assert |s[i..end]| == end - i;
  }

  lemma ComponentIsReadBack(s: Bytes, i: nat, end: nat, v: Option<Bytes>)
    requires StandsAt(s, i, end, Component(v)) && WellStarted(v)
    ensures ReadComponent(s, i) == Some(Piece(v, end))
  {
    if v.None? {
      assert s[i..end][0] == s[i] == DASH;
      assert |s[i..end]| == end - i;
    } else {
      var value := v.value;
      var j := i + |Numeral(|value|)|;
      ValueStandsAfter(s, i, j, end, value);
      forall k | i <= k < j ensures IsDigit(s[k]) {
        assert s[k] == s[i..j][k - i];
      }
      DigitsEndAt(s, i, j);
      NumberOfNumeral(|value|);
      if value != [] {
        assert s[j + 1] == s[j + 1..end][0];
      }
      assert s[i] == s[i..j][0];
    }
  }

  predicate AllTexts(parts: Parts) {
    parts.End? || (WellStarted(parts.value) && AllTexts(parts.rest))
  }

  /** From `i` on, `s` is `t`. */
  ghost predicate EndsIn(s: Bytes, i: nat, t: Bytes) {
    i + |t| == |s| && forall k :: 0 <= k < |t| ==> t[k] == s[i + k]
  }

  lemma WholeEndsIn(s: Bytes, t: Bytes)
    ensures EndsIn(s, 0, t) <==> s == t
  {
  }

  lemma EndsInOne(s: Bytes, i: nat, t: Bytes)
    requires EndsIn(s, i, t)
    ensures s[i..|s|] == t
  {
  }

  lemma OneEndsIn(s: Bytes, i: nat, t: Bytes)
    requires i <= |s| && s[i..|s|] == t
    ensures EndsIn(s, i, t)
  {
    assert |s[i..|s|]| == |s| - i;
  }

  lemma EndsInParts(s: Bytes, i: nat, end: nat, c: Bytes, rest: Bytes)
    requires EndsIn(s, i, c + [BAR] + rest) && end == i + |c|
    ensures end < |s| && s[end] == BAR && s[i..end] == c && EndsIn(s, end + 1, rest)
  {
    var whole := c + [BAR] + rest;
    assert whole[|c|] == BAR;
    forall k | 0 <= k < |c| ensures s[i + k] == c[k] {
      assert whole[k] == c[k];
    }
    forall k | 0 <= k < |rest| ensures rest[k] == s[end + 1 + k] {
      assert whole[|c| + 1 + k] == rest[k];
    }
  }

  lemma PartsEndIn(s: Bytes, i: nat, end: nat, c: Bytes, rest: Bytes)
    requires i <= end < |s| && s[i..end] == c && s[end] == BAR && EndsIn(s, end + 1, rest)
    ensures EndsIn(s, i, c + [BAR] + rest)
  {
    var whole := c + [BAR] + rest;
    assert |c| == |s[i..end]| == end - i;
    forall k | 0 <= k < |whole| ensures whole[k] == s[i + k] {
      if k < |c| {
        assert c[k] == s[i..end][k];
      } else if k > |c| {
        assert rest[k - |c| - 1] == s[end + 1 + (k - |c| - 1)];
      }
    }
  }

  /** A text no longer than what it is compared with, part by part, equals it when each part does. */
  lemma FirstPartDecides(s: Bytes, i: nat, end: nat, c: Bytes, rest: Bytes)
    requires i <= end < |s| && s[end] == BAR && |c| <= end - i && |rest| <= |s| - end - 1
    ensures EndsIn(s, i, c + [BAR] + rest) <==> s[i..end] == c && EndsIn(s, end + 1, rest)
  {
    if EndsIn(s, i, c + [BAR] + rest) {
      EndsInParts(s, i, end, c, rest);
    }
    if s[i..end] == c && EndsIn(s, end + 1, rest) {
      PartsEndIn(s, i, end, c, rest);
    }
  }

  lemma FirstIsReadBack(s: Bytes, i: nat, end: nat, v: Option<Bytes>, rest: Bytes)
    requires |s| <= MAX_LENGTH && EndsIn(s, i, Component(v) + [BAR] + rest) && end == i + |Component(v)|
    requires WellStarted(v)
    ensures i < end < |s| && s[end] == BAR && ReadComponent(s, i) == Some(Piece(v, end)) && EndsIn(s, end + 1, rest)
  {
    EndsInParts(s, i, end, Component(v), rest);
    ComponentIsReadBack(s, i, end, v);
  }

  lemma LastIsReadBack(s: Bytes, i: nat, v: Option<Bytes>)
    requires |s| <= MAX_LENGTH && EndsIn(s, i, Component(v)) && WellStarted(v)
    ensures i < |s| && ReadAll(s, i) == Some(Part(v, End))
  {
    EndsInOne(s, i, Component(v));
    ComponentIsReadBack(s, i, |s|, v);
  }

  lemma ReadAllStep(s: Bytes, i: nat, end: nat, next: nat, parts: Parts)
    requires parts.Part? && i < end < |s| && next == end + 1 && s[end] == BAR
    requires ReadComponent(s, i) == Some(Piece(parts.value, end)) && ReadAll(s, next) == Some(parts.rest)
    ensures ReadAll(s, i) == Some(parts)
  {
    ReadAllFirst(s, i, Piece(parts.value, end));
  }

  /** Component by component, what was joined is read back. */
  lemma {:induction false} AllAreReadBack(s: Bytes, i: nat, parts: Parts)
    requires |s| <= MAX_LENGTH && EndsIn(s, i, Joined(parts)) && parts.Part? && AllTexts(parts)
    ensures ReadAll(s, i) == Some(parts)
    decreases parts
  {
    if parts.rest.End? {
      LastIsReadBack(s, i, parts.value);
    } else {
      var end := i + |Component(parts.value)|;
      var next := end + 1;
      FirstIsReadBack(s, i, end, parts.value, Joined(parts.rest));
      AllAreReadBack(s, next, parts.rest);
      ReadAllStep(s, i, end, next, parts);
    }
  }

  /** The fields of a key are texts, and the key fits in memory. */
  ghost predicate IsText(k: SessionKey) {
    && WellStarted(Some(k.platform)) && WellStarted(k.guild) && WellStarted(Some(k.channel)) && WellStarted(k.thread)
    && WellStarted(Some(k.user)) && WellStarted(k.bot) && |StorageKey(k)| <= MAX_LENGTH
  }

  lemma {:induction false} TextsOnto(values: seq<Option<Bytes>>, parts: Parts)
    requires AllTexts(parts) && forall i :: 0 <= i < |values| ==> WellStarted(values[i])
    ensures AllTexts(Onto(values, parts))
    decreases |values|
  {
    if values != [] {
      TextsOnto(values[..|values| - 1], Part(values[|values| - 1], parts));
    }
  }

  lemma ParseInvertsStorageKey(k: SessionKey)
    requires IsText(k)
    ensures Parsed(StorageKey(k)) == Some(k)
  {
    var s, parts := StorageKey(k), Onto(Fields(k), End);
    WholeEndsIn(s, s);
    TextsOnto(Fields(k), End);
    ListedOnto(Fields(k), End);
    assert Fields(k) + [] == Fields(k);
    AllAreReadBack(s, 0, parts);
  }

  /** Distinct keys never share an encoding, whatever separators and digits their fields hold. */
  lemma StorageKeysAreDistinct(k: SessionKey, q: SessionKey)
    requires IsText(k) && IsText(q) && StorageKey(k) == StorageKey(q)
    ensures k == q
  {
    ParseInvertsStorageKey(k);
    ParseInvertsStorageKey(q);
  }

  // --- What else the parser accepts ---

  function Zeros(n: nat): Bytes {
    seq(n, _ => ZERO)
  }

  /** A length is its numeral behind any number of zeros. */
  ghost predicate PaddedNumeral(d: Bytes, n: nat) {
    && |Numeral(n)| <= |d| && d == Zeros(|d| - |Numeral(n)|) + Numeral(n)
    && (Numeral(n) == d <==> |d| == 1 || d[0] != ZERO)
  }

  lemma OneMoreDigit(d: Bytes, m: nat, x: Byte)
    requires |d| > 0 && PaddedNumeral(d, m) && m > 0 && IsDigit(x)
    ensures PaddedNumeral(d + [x], 10 * m + (x - ZERO))
  {
    var n := 10 * m + (x - ZERO);
    assert n / 10 == m && n % 10 == x - ZERO;
    assert Numeral(n) == Numeral(m) + [x];
    Regroup(Zeros(|d| - |Numeral(m)|), Numeral(m), [x]);
    if Numeral(m) == d {
      LeadingDigit(m);
    } else {
      assert Zeros(0) + Numeral(m) == Numeral(m);
      assert |Numeral(m)| < |d|;
      assert (d + [x])[0] == d[0];
    }
  }

  lemma {:induction false} LeadingDigit(n: nat)
    requires n > 0
    ensures Numeral(n)[0] != ZERO
  {
    if n >= 10 {
      LeadingDigit(n / 10);
    }
  }

  lemma DigitAfterZeros(d: Bytes, x: Byte)
    requires |d| > 0 && d == Zeros(|d|) && IsDigit(x)
    ensures PaddedNumeral(d + [x], x - ZERO)
  {
    assert Numeral(x - ZERO) == [x];
    assert (d + [x])[0] == ZERO;
  }

  /** A length is its numeral behind any number of zeros. */
  lemma {:induction false} DigitsArePaddedNumeral(d: Bytes)
    requires |d| > 0 && forall i :: 0 <= i < |d| ==> IsDigit(d[i])
    ensures PaddedNumeral(d, NumberOf(d))
  {
    var n := |d| - 1;
    var head := d[..n];
    InitAndLast(d);
    if n == 0 {
      assert Zeros(0) + d == d && NumberOf(head) == 0;
    } else {
      DigitsArePaddedNumeral(head);
      if NumberOf(head) == 0 {
        NumeralOfZero(head);
        DigitAfterZeros(head, d[n]);
      } else {
        OneMoreDigit(head, NumberOf(head), d[n]);
      }
    }
  }

  lemma {:induction false} NumeralOfZero(d: Bytes)
    requires |d| > 0 && (forall i :: 0 <= i < |d| ==> IsDigit(d[i])) && NumberOf(d) == 0
    ensures d == Zeros(|d|)
  {
    var n := |d| - 1;
    assert d == d[..n] + [d[n]];
    if n > 0 {
      NumeralOfZero(d[..n]);
    } else {
      assert d[..0] == [];
    }
  }

  predicate Unpadded(s: Bytes, i: nat) {
    i + 1 < |s| ==> s[i] != ZERO || s[i + 1] == COLON
  }

  lemma LengthText(s: Bytes, i: nat, j: nat) returns (length: nat)
    requires i < j < |s| && s[j] == COLON && forall k :: i <= k < j ==> IsDigit(s[k])
    ensures forall k :: 0 <= k < |s[i..j]| ==> IsDigit(s[i..j][k])
    ensures length == NumberOf(s[i..j]) && |Numeral(length)| <= j - i
    ensures Numeral(length) == s[i..j] <==> Unpadded(s, i)
    ensures Numeral(length) != s[i..j] ==> |Numeral(length)| < j - i
  {
    var d := s[i..j];
    forall k | 0 <= k < |d| ensures IsDigit(d[k]) {
      assert d[k] == s[i + k];
    }
    length := NumberOf(d);
    DigitsArePaddedNumeral(d);
    assert d[0] == s[i];
    if |Numeral(length)| == |d| {
      assert Zeros(0) + Numeral(length) == Numeral(length);
    }
  }

  lemma ValueText(s: Bytes, i: nat, j: nat, end: nat, m: Bytes)
    requires i < j < end <= |s| && s[j] == COLON && |m| <= j - i && (m != s[i..j] ==> |m| < j - i)
    ensures s[i..end] == m + [COLON] + s[j + 1..end] <==> m == s[i..j]
  {
    assert s[i..end] == s[i..j] + [s[j]] + s[j + 1..end];
    assert |s[i..end]| == end - i;
  }

  lemma PieceText(s: Bytes, i: nat, piece: Piece)
    requires i < |s| && ReadComponent(s, i) == Some(piece)
    ensures |Component(piece.value)| <= piece.end - i && WellStarted(piece.value)
    ensures s[i..piece.end] == Component(piece.value) <==> Unpadded(s, i)
  {
    if s[i] == DASH {
      assert s[i..i + 1] == [DASH];
    } else {
      var j := DigitsEnd(s, i);
      var length := LengthText(s, i, j);
      ValueText(s, i, j, piece.end, Numeral(length));
    }
  }

  /** No length is padded with zeros and no separator ends the text. */
  predicate Plain(s: Bytes, i: nat)
    requires i <= |s|
    decreases |s| - i
  {
    match ReadComponent(s, i)
    case None => false
    case Some(piece) =>
      && Unpadded(s, i)
      && (piece.end == |s| || (s[piece.end] == BAR && piece.end + 1 < |s| && Plain(s, piece.end + 1)))
  }

  /** The values read from `i` on are texts, join to no more than was there, and join to it exactly when it is plain. */
  ghost predicate JoinBackWhenPlain(s: Bytes, i: nat, parts: Parts) {
    i <= |s| && |Joined(parts)| <= |s| - i && AllTexts(parts) && (EndsIn(s, i, Joined(parts)) <==> Plain(s, i))
  }

  lemma LastJoinsBack(s: Bytes, i: nat, piece: Piece)
    requires i < |s| && ReadComponent(s, i) == Some(piece) && piece.end + 1 >= |s|
    requires piece.end < |s| ==> s[piece.end] == BAR
    ensures JoinBackWhenPlain(s, i, Part(piece.value, End))
  {
    PieceText(s, i, piece);
    var c := Component(piece.value);
    if EndsIn(s, i, c) {
      EndsInOne(s, i, c);
    }
    if piece.end == |s| && s[i..|s|] == c {
      OneEndsIn(s, i, c);
    }
  }

  lemma FirstJoinsBack(s: Bytes, i: nat, piece: Piece, rest: Parts)
    requires i < |s| && ReadComponent(s, i) == Some(piece) && piece.end + 1 < |s| && s[piece.end] == BAR
    requires rest.Part? && JoinBackWhenPlain(s, piece.end + 1, rest)
    ensures JoinBackWhenPlain(s, i, Part(piece.value, rest))
  {
    PieceText(s, i, piece);
    FirstPartDecides(s, i, piece.end, Component(piece.value), Joined(rest));
  }

  lemma {:induction false} RebuiltExactlyWhenPlain(s: Bytes, i: nat, parts: Parts)
    requires i < |s| && ReadAll(s, i) == Some(parts)
    ensures parts.Part? && JoinBackWhenPlain(s, i, parts)
    decreases |s| - i
  {
    var piece := ReadComponent(s, i).value;
    if piece.end + 1 >= |s| {
      LastJoinsBack(s, i, piece);
    } else {
      RebuiltExactlyWhenPlain(s, piece.end + 1, parts.rest);
      FirstJoinsBack(s, i, piece, parts.rest);
    }
  }

  /** What stands in front adds the same length whatever follows it. */
  lemma {:induction false} FrontHasItsOwnLength(values: seq<Option<Bytes>>, p: Parts, q: Parts)
    requires p.Part? && q.Part?
    ensures |Joined(Onto(values, p))| - |Joined(p)| == |Joined(Onto(values, q))| - |Joined(q)|
    decreases |values|
  {
    if values != [] {
      var v := values[|values| - 1];
      FrontHasItsOwnLength(values[..|values| - 1], Part(v, p), Part(v, q));
    }
  }

  lemma JoinedSnoc(values: seq<Option<Bytes>>, v: Option<Bytes>)
    requires values != []
    ensures |Joined(Onto(values + [v], End))| == |Joined(Onto(values, End))| + 1 + |Component(v)|
  {
    var init, last := values[..|values| - 1], values[|values| - 1];
    OntoSnoc(values, v, End);
    FrontHasItsOwnLength(init, Part(last, Part(v, End)), Part(last, End));
    LengthOfTwo(last, v);
  }

  lemma LengthOfTwo(v: Option<Bytes>, u: Option<Bytes>)
    ensures |Joined(Part(v, Part(u, End)))| == |Joined(Part(v, End))| + 1 + |Component(u)|
  {
    assert Joined(Part(u, End)) == Component(u);
  }

  /** The sixth component is there, and says that there is no bot. */
  predicate NamesNoBot(s: Bytes) {
    ReadAll(s, 0).Some? &&
    var values := Listed(ReadAll(s, 0).value);
    |values| == 6 && values[5].None?
  }

  lemma FieldsOfKey(values: seq<Option<Bytes>>, k: SessionKey)
    requires KeyOf(values) == Some(k)
    ensures var named := |values| == 6 && values[5].None?;
      values == (if named then Fields(k) + [None] else Fields(k))
      && |StorageKey(k)| + (if named then 2 else 0) == |Joined(Onto(values, End))|
  {
    if |values| == 6 && values[5].None? {
      assert values == Fields(k) + [None];
      JoinedSnoc(Fields(k), None);
    } else {
      assert values == Fields(k);
    }
  }

  lemma {:induction false} ListedAreTexts(parts: Parts, i: nat)
    requires AllTexts(parts) && i < |Listed(parts)|
    ensures WellStarted(Listed(parts)[i])
  {
    if i > 0 {
      ListedAreTexts(parts.rest, i - 1);
    }
  }

  lemma FieldsAreTexts(parts: Parts, k: SessionKey)
    requires KeyOf(Listed(parts)) == Some(k) && AllTexts(parts) && |StorageKey(k)| <= MAX_LENGTH
    ensures IsText(k)
  {
    var values := Listed(parts);
    forall i | 0 <= i < |values| ensures WellStarted(values[i]) {
      ListedAreTexts(parts, i);
    }
    assert WellStarted(values[0]) && WellStarted(values[1]) && WellStarted(values[2]) && WellStarted(values[3])
      && WellStarted(values[4]);
    assert |values| == 6 ==> WellStarted(values[5]);
  }

  /** Whatever is accepted normalises to a key that encodes no longer and parses to itself. */
  lemma AcceptedTextNormalises(s: Bytes, k: SessionKey)
    requires |s| <= MAX_LENGTH && Parsed(s) == Some(k)
    ensures |StorageKey(k)| <= |s| && Parsed(StorageKey(k)) == Some(k)
    ensures StorageKey(k) == s <==> Plain(s, 0) && !NamesNoBot(s)
  {
    var parts := ReadAll(s, 0).value;
    RebuiltExactlyWhenPlain(s, 0, parts);
    FieldsOfKey(Listed(parts), k);
    OntoListed(parts);
    WholeEndsIn(s, Joined(parts));
    FieldsAreTexts(parts, k);
    ParseInvertsStorageKey(k);
  }
}

/**
 Page cursors: an offset in decimal, in unpadded base64url (section 5 of RFC 4648), and the pager that
 hands them out. Decoding is as lenient as the library's: characters outside the alphabet are skipped.
 */
module Cursor {
  import opened Common

  const MAX_CURSOR_OFFSET: nat := 1_000_000

  /** The longest digit string that the integer parser accepts. */
  const MAX_DIGITS: nat := 4300

  type Byte = b: int | 0 <= b < 256 witness 0
  type Sextet = s: int | 0 <= s < 64 witness 0

  // ----------------------------------------------------------------------- alphabet

  function CharOf(s: Sextet): char {
    if s < 26 then ('A' as int + s) as char
    else if s < 52 then ('a' as int + (s - 26)) as char
    else if s < 62 then ('0' as int + (s - 52)) as char
    else if s == 62 then '-'
    else '_'
  }

  /** The url-safe characters and the classic ones they are translated to. */
  function SextetOf(c: char): Option<Sextet> {
    if 'A' <= c <= 'Z' then Some(c as int - 'A' as int)
    else if 'a' <= c <= 'z' then Some(c as int - 'a' as int + 26)
    else if '0' <= c <= '9' then Some(c as int - '0' as int + 52)
    else if c == '-' || c == '+' then Some(62)
    else if c == '_' || c == '/' then Some(63)
    else None
  }

  lemma AlphabetRoundTrip(s: Sextet)
    ensures SextetOf(CharOf(s)) == Some(s) && CharOf(s) != '=' && CharOf(s) as int < 128
  {
  }

  // ------------------------------------------------------------------------ encoding

  /** Base64 with the trailing padding stripped. */
  function EncodeBytes(bytes: seq<Byte>): string {
    if |bytes| == 0 then ""
    else if |bytes| == 1 then
      [CharOf(bytes[0] / 4), CharOf(bytes[0] % 4 * 16)]
    else if |bytes| == 2 then
      [CharOf(bytes[0] / 4), CharOf(bytes[0] % 4 * 16 + bytes[1] / 16), CharOf(bytes[1] % 16 * 4)]
    else
      Quad(bytes[0], bytes[1], bytes[2]) + EncodeBytes(bytes[3..])
  }

  function Quad(a: Byte, b: Byte, c: Byte): string {
    [CharOf(a / 4), CharOf(a % 4 * 16 + b / 16), CharOf(b % 16 * 4 + c / 64), CharOf(c % 64)]
  }

  function Digits(n: nat): (s: string)
    ensures s != ""
  {
    var last := [('0' as int + n % 10) as char];
    if n < 10 then last else Digits(n / 10) + last
  }

  function Signed(magnitude: nat, negative: bool): string {
    if negative then "-" + Digits(magnitude) else Digits(magnitude)
  }

  function Decimal(n: int): string {
    Signed(if n < 0 then -n else n, n < 0)
  }

  function BytesOf(s: string): (bytes: seq<Byte>)
    requires forall i :: 0 <= i < |s| ==> s[i] as int < 128
    ensures |bytes| == |s| && forall i :: 0 <= i < |s| ==> bytes[i] == s[i] as int
  {
    if s == "" then [] else BytesOf(s[..|s| - 1]) + [s[|s| - 1] as int]
  }

  function EncodeCursor(offset: int): string {
    DecimalIsAscii(offset);
    EncodeBytes(BytesOf(Decimal(offset)))
  }

  // ------------------------------------------------------------------------ decoding

  /** The decoder between two characters: how far into a quad, the bits left over, pads seen, bytes out. */
  datatype Decoder = Decoder(quad: nat, left: nat, pads: nat, out: seq<Byte>)

  predicate ValidDecoder(d: Decoder) {
    && d.quad < 4
    && (d.quad == 0 ==> d.left == 0)
    && (d.quad == 1 ==> d.left < 64)
    && (d.quad == 2 ==> d.left < 16)
    && (d.quad == 3 ==> d.left < 4)
  }

  function Feed(d: Decoder, s: Sextet): (r: Decoder)
    requires ValidDecoder(d)
    ensures ValidDecoder(r)
  {
    match d.quad
    case 0 => Decoder(1, s, 0, d.out)
    case 1 => Decoder(2, s % 16, 0, d.out + [d.left * 4 + s / 16])
    case 2 => Decoder(3, s % 4, 0, d.out + [d.left * 16 + s / 4])
    case _ => Decoder(0, 0, 0, d.out + [d.left * 64 + s])
  }

  /** Enough padding ends the input; a quad left open without it is an error. */
  function Run(d: Decoder, s: string): Option<seq<Byte>>
    requires ValidDecoder(d)
    decreases |s|
  {
    if s == "" then (if d.quad == 0 then Some(d.out) else None)
    else if s[0] == '=' then
      if d.quad >= 2 && d.quad + d.pads + 1 >= 4 then Some(d.out)
      else Run(if d.quad >= 2 then d.(pads := d.pads + 1) else d, s[1..])
    else
      var sextet := SextetOf(s[0]);
      if sextet.None? then Run(d, s[1..]) else Run(Feed(d, sextet.value), s[1..])
  }

  function Padding(length: nat): string {
    match length % 4
    case 0 => ""
    case 1 => "==="
    case 2 => "=="
    case _ => "="
  }

  function DecodeBytes(cursor: string): Option<seq<Byte>> {
    if exists i :: 0 <= i < |cursor| && cursor[i] as int >= 128 then None
    else Run(Decoder(0, 0, 0, []), cursor + Padding(|cursor|))
  }

  predicate IsSpaceByte(b: Byte) {
    b == 32 || 9 <= b <= 13 || 28 <= b <= 31
  }

  function TrimLeft(s: seq<Byte>): seq<Byte> {
    if s != [] && IsSpaceByte(s[0]) then TrimLeft(s[1..]) else s
  }

  function TrimRight(s: seq<Byte>): seq<Byte> {
    if s != [] && IsSpaceByte(s[|s| - 1]) then TrimRight(s[..|s| - 1]) else s
  }

  predicate IsDigitByte(b: Byte) {
    48 <= b <= 57
  }

  /** Digits with single underscores between them: their value and their number. */
  function ParseDigits(s: seq<Byte>): Option<(nat, nat)> {
    if s == [] || !IsDigitByte(s[|s| - 1]) then None
    else
      var digit := s[|s| - 1] - 48;
      if |s| == 1 then Some((digit, 1))
      else
        var rest := if s[|s| - 2] == 95 then s[..|s| - 2] else s[..|s| - 1];
        var front := ParseDigits(rest);
        if front.None? then None else Some((front.value.0 * 10 + digit, front.value.1 + 1))
  }

  /** The integer parser: surrounding space, one sign, digits. Bytes outside ASCII are refused. */
  function ParseInt(bytes: seq<Byte>): Option<int> {
    var s := TrimRight(TrimLeft(bytes));
    var negative := s != [] && s[0] == 45;
    var body := if s != [] && (s[0] == 45 || s[0] == 43) then s[1..] else s;
    var parsed := ParseDigits(body);
    if parsed.None? || parsed.value.1 > MAX_DIGITS then None
    else
      var n: int := parsed.value.0;
      Some(if negative then -n else n)
  }

  /** No cursor is the first page; everything that is not an offset in range is refused. */
  function DecodeCursor(cursor: string): Option<nat> {
    if cursor == "" then Some(0)
    else
      var bytes := DecodeBytes(cursor);
      if bytes.None? then None
      else
        var value := ParseInt(bytes.value);
        if value.None? || value.value < 0 || value.value > MAX_CURSOR_OFFSET then None else Some(value.value)
  }

  // ----------------------------------------------------------------- the round trips

  lemma {:induction false} EncodedIsAscii(bytes: seq<Byte>)
    ensures forall i :: 0 <= i < |EncodeBytes(bytes)| ==> EncodeBytes(bytes)[i] as int < 128 && EncodeBytes(bytes)[i] != '='
  {
    if |bytes| >= 3 {
      EncodedIsAscii(bytes[3..]);
    }
  }

  lemma FeedOne(d: Decoder, s: Sextet, text: string)
    requires ValidDecoder(d) && text != "" && text[0] == CharOf(s)
    ensures Run(d, text) == Run(Feed(d, s), text[1..])
  {
    AlphabetRoundTrip(s);
  }

  lemma FeedTwo(d: Decoder, s: Sextet, s': Sextet, text: string)
    requires ValidDecoder(d) && |text| >= 2 && text[0] == CharOf(s) && text[1] == CharOf(s')
    ensures Run(d, text) == Run(Feed(Feed(d, s), s'), text[2..])
  {
    FeedOne(d, s, text);
    FeedOne(Feed(d, s), s', text[1..]);
    assert text[1..][1..] == text[2..];
  }

  lemma FeedQuad(out: seq<Byte>, a: Byte, b: Byte, c: Byte)
    ensures var d := Feed(Feed(Decoder(0, 0, 0, out), a / 4), a % 4 * 16 + b / 16);
            && d == Decoder(2, b / 16, 0, out + [a])
            && Feed(Feed(d, b % 16 * 4 + c / 64), c % 64) == Decoder(0, 0, 0, out + [a, b, c])
  {
    assert out + [a] + [b] + [c] == out + [a, b, c];
  }

  /** One full quad gives its three bytes back. */
  lemma QuadRoundTrip(out: seq<Byte>, a: Byte, b: Byte, c: Byte, text: string)
    requires |text| >= 4 && text[..4] == Quad(a, b, c)
    ensures Run(Decoder(0, 0, 0, out), text) == Run(Decoder(0, 0, 0, out + [a, b, c]), text[4..])
  {
    assert forall i :: 0 <= i < 4 ==> text[i] == text[..4][i];
    var d := Decoder(0, 0, 0, out);
    FeedTwo(d, a / 4, a % 4 * 16 + b / 16, text);
    FeedTwo(Feed(Feed(d, a / 4), a % 4 * 16 + b / 16), b % 16 * 4 + c / 64, c % 64, text[2..]);
    assert text[2..][2..] == text[4..];
    FeedQuad(out, a, b, c);
  }

  lemma PaddedQuads(n: nat)
    ensures Padding(n + 4) == Padding(n)
  {
  }

  /** The padding closes a quad that holds two or three characters. */
  lemma PaddingCloses(d: Decoder)
    requires ValidDecoder(d) && d.pads == 0
    ensures d.quad == 2 ==> Run(d, "==") == Some(d.out)
    ensures d.quad == 3 ==> Run(d, "=") == Some(d.out)
  {
    if d.quad == 2 {
      assert "=="[1..] == "=";
      assert Run(d.(pads := 1), "=") == Some(d.out);
    }
  }

  /** Whatever the bytes, decoding what was encoded gives them back, padding or not. */
  lemma {:induction false} BytesRoundTrip(out: seq<Byte>, bytes: seq<Byte>)
    ensures Run(Decoder(0, 0, 0, out), EncodeBytes(bytes) + Padding(|EncodeBytes(bytes)|)) == Some(out + bytes)
    decreases |bytes|
  {
    if |bytes| >= 3 {
      var rest := EncodeBytes(bytes[3..]);
      var text := EncodeBytes(bytes) + Padding(|EncodeBytes(bytes)|);
      PaddedQuads(|rest|);
      assert text == Quad(bytes[0], bytes[1], bytes[2]) + rest + Padding(|rest|);
      assert text[4..] == rest + Padding(|rest|);
      QuadRoundTrip(out, bytes[0], bytes[1], bytes[2], text);
      BytesRoundTrip(out + [bytes[0], bytes[1], bytes[2]], bytes[3..]);
      assert out + [bytes[0], bytes[1], bytes[2]] + bytes[3..] == out + bytes;
    } else if |bytes| == 0 {
      assert out + bytes == out;
    } else if |bytes| == 1 {
      OneByte(out, bytes[0], EncodeBytes(bytes) + Padding(2));
      assert out + bytes == out + [bytes[0]];
    } else {
      TwoBytes(out, bytes[0], bytes[1], EncodeBytes(bytes) + Padding(3));
      assert out + bytes == out + [bytes[0], bytes[1]];
    }
  }

  lemma OneByte(out: seq<Byte>, a: Byte, text: string)
    requires text == [CharOf(a / 4), CharOf(a % 4 * 16)] + "=="
    ensures Run(Decoder(0, 0, 0, out), text) == Some(out + [a])
  {
    FeedTwo(Decoder(0, 0, 0, out), a / 4, a % 4 * 16, text);
    assert text[2..] == "==";
    PaddingCloses(Feed(Feed(Decoder(0, 0, 0, out), a / 4), a % 4 * 16));
  }

  lemma FeedPair(out: seq<Byte>, a: Byte, b: Byte)
    ensures var d := Feed(Feed(Decoder(0, 0, 0, out), a / 4), a % 4 * 16 + b / 16);
            && d == Decoder(2, b / 16, 0, out + [a])
            && Feed(d, b % 16 * 4) == Decoder(3, 0, 0, out + [a, b])
  {
    assert out + [a] + [b] == out + [a, b];
  }

  lemma TwoBytes(out: seq<Byte>, a: Byte, b: Byte, text: string)
    requires text == [CharOf(a / 4), CharOf(a % 4 * 16 + b / 16), CharOf(b % 16 * 4)] + "="
    ensures Run(Decoder(0, 0, 0, out), text) == Some(out + [a, b])
  {
    FeedPair(out, a, b);
    FeedTwo(Decoder(0, 0, 0, out), a / 4, a % 4 * 16 + b / 16, text);
    FeedOne(Decoder(2, b / 16, 0, out + [a]), b % 16 * 4, text[2..]);
    assert text[2..][1..] == "=";
    PaddingCloses(Decoder(3, 0, 0, out + [a, b]));
  }

  lemma {:induction false} DigitsAreDigits(n: nat)
    ensures forall i :: 0 <= i < |Digits(n)| ==> '0' <= Digits(n)[i] <= '9'
  {
    if n >= 10 {
      DigitsAreDigits(n / 10);
    }
  }

  lemma DecimalIsAscii(n: int)
    ensures forall i :: 0 <= i < |Decimal(n)| ==> Decimal(n)[i] as int < 128
  {
    SignedIsAscii(if n < 0 then -n else n, n < 0);
  }

  lemma {:induction false} DigitsRoundTrip(n: nat)
    requires forall i :: 0 <= i < |Digits(n)| ==> Digits(n)[i] as int < 128
    ensures ParseDigits(BytesOf(Digits(n))) == Some((n, |Digits(n)|))
  {
    var s := Digits(n);
    var bytes := BytesOf(s);
    DigitsAreDigits(n);
    if n >= 10 {
      DigitsAreDigits(n / 10);
      DigitsRoundTrip(n / 10);
      assert s[..|s| - 1] == Digits(n / 10);
      assert bytes[..|bytes| - 1] == BytesOf(Digits(n / 10));
    }
  }

  /** How many digits a number has matters only beyond the range of cursors. */
  lemma {:induction false} FewDigits(n: nat, k: nat)
    requires n < Power10(k) && k >= 1
    ensures |Digits(n)| <= k
  {
    if n >= 10 {
      FewDigits(n / 10, k - 1);
    }
  }

  function Power10(k: nat): nat {
    if k == 0 then 1 else 10 * Power10(k - 1)
  }

  lemma SmallNumbersParse(n: nat)
    requires n <= MAX_CURSOR_OFFSET
    ensures |Digits(n)| <= 7
  {
    assert Power10(7) == 10_000_000 by {
      assert Power10(3) == 1000;
      assert Power10(5) == 100 * Power10(3);
      assert Power10(7) == 100 * Power10(5);
    }
    FewDigits(n, 7);
  }

  lemma {:induction false} NothingToTrim(s: seq<Byte>)
    requires s != [] ==> !IsSpaceByte(s[0]) && !IsSpaceByte(s[|s| - 1])
    ensures TrimRight(TrimLeft(s)) == s
  {
  }

  lemma DigitBytes(m: nat)
    requires forall i :: 0 <= i < |Digits(m)| ==> Digits(m)[i] as int < 128
    ensures var bytes := BytesOf(Digits(m));
            bytes != [] && forall i :: 0 <= i < |bytes| ==> IsDigitByte(bytes[i])
  {
    DigitsAreDigits(m);
  }

  lemma MinusBytes(s: string)
    requires forall i :: 0 <= i < |s| ==> s[i] as int < 128
    ensures forall i :: 0 <= i < |"-" + s| ==> ("-" + s)[i] as int < 128
    ensures BytesOf("-" + s) == [45] + BytesOf(s)
  {
    assert forall i :: 0 <= i < |s| ==> ("-" + s)[i + 1] == s[i];
  }

  lemma SignedIsAscii(m: nat, negative: bool)
    ensures forall i :: 0 <= i < |Signed(m, negative)| ==> Signed(m, negative)[i] as int < 128
  {
    DigitsAreDigits(m);
  }

  /** Parsing the decimal text of a number gives the number, unless it has too many digits. */
  lemma DecimalRoundTrip(m: nat, negative: bool)
    requires forall i :: 0 <= i < |Signed(m, negative)| ==> Signed(m, negative)[i] as int < 128
    ensures ParseInt(BytesOf(Signed(m, negative))) ==
              if |Digits(m)| > MAX_DIGITS then None else Some(if negative then 0 - m else m)
  {
    DigitsAreDigits(m);
    DigitBytes(m);
    DigitsRoundTrip(m);
    MinusBytes(Digits(m));
    SignedParse(BytesOf(Digits(m)), m, |Digits(m)|, negative, BytesOf(Signed(m, negative)));
  }

  lemma {:induction false} SignedParse(digits: seq<Byte>, m: nat, count: nat, negative: bool, bytes: seq<Byte>)
    requires digits != [] && forall i :: 0 <= i < |digits| ==> IsDigitByte(digits[i])
    requires ParseDigits(digits) == Some((m, count))
    requires bytes == if negative then [45] + digits else digits
    ensures ParseInt(bytes) == if count > MAX_DIGITS then None else Some(if negative then 0 - m else m)
  {
    assert IsDigitByte(digits[0]) && IsDigitByte(digits[|digits| - 1]);
    assert bytes[|bytes| - 1] == digits[|digits| - 1];
    NothingToTrim(bytes);
    if negative { assert bytes[1..] == digits; }
  }

  lemma EncodedDecodes(bytes: seq<Byte>)
    ensures DecodeBytes(EncodeBytes(bytes)) == Some(bytes)
  {
    EncodedIsAscii(bytes);
    BytesRoundTrip([], bytes);
    assert [] + bytes == bytes;
  }

  lemma DecodedValue(cursor: string, bytes: seq<Byte>)
    requires cursor != "" && DecodeBytes(cursor) == Some(bytes)
    ensures DecodeCursor(cursor) ==
              var value := ParseInt(bytes);
              if value.Some? && 0 <= value.value <= MAX_CURSOR_OFFSET then Some(value.value) else None
  {
  }

  /** A cursor survives the round trip exactly when its offset is in range; every other integer is refused. */
  lemma CursorRoundTrip(n: int)
    ensures DecodeCursor(EncodeCursor(n)) == if 0 <= n <= MAX_CURSOR_OFFSET then Some(n) else None
  {
    DecimalIsAscii(n);
    var bytes := BytesOf(Decimal(n));
    EncodedDecodes(bytes);
    EncodedIsNotEmpty(bytes);
    DecodedValue(EncodeBytes(bytes), bytes);
    DecimalRoundTrip(if n < 0 then -n else n, n < 0);
    if 0 <= n <= MAX_CURSOR_OFFSET { SmallNumbersParse(n); }
  }

  lemma EncodedIsNotEmpty(bytes: seq<Byte>)
    requires bytes != []
    ensures EncodeBytes(bytes) != ""
  {
  }

  // ------------------------------------------------------------------------- the pager

  datatype Page<T> = Page(items: seq<T>, nextCursor: Option<string>, hasMore: bool, total: nat)

  /** One page of the sorted matches; None stands for a refused cursor. */
  function PageOf<T>(matches: seq<T>, cursor: string, limit: nat): Option<Page<T>> {
    var decoded := DecodeCursor(cursor);
    if decoded.None? then None
    else
      var offset := Min(decoded.value, |matches|);
      var items := matches[offset..Min(offset + limit, |matches|)];
      var nextOffset := decoded.value + |items|;
      var hasMore := nextOffset < |matches|;
      if items == [] then Some(Page([], None, false, |matches|))
      else Some(Page(items, if hasMore then Some(EncodeCursor(nextOffset)) else None, hasMore, |matches|))
  }

  /** What a client collects by following the cursors, and whether it got to the end or was refused. */
  datatype Walk<T> = Complete(items: seq<T>) | Refused(items: seq<T>)

  function Position<T>(matches: seq<T>, cursor: string): int {
    var decoded := DecodeCursor(cursor);
    if decoded.None? || decoded.value > |matches| then 0 else |matches| - decoded.value + 1
  }

  lemma PageAt<T>(matches: seq<T>, cursor: string, limit: nat)
    requires DecodeCursor(cursor).Some? && DecodeCursor(cursor).value <= |matches|
    ensures var offset := DecodeCursor(cursor).value;
            var end := Min(offset + limit, |matches|);
            PageOf(matches, cursor, limit) ==
              Some(Page(matches[offset..end], if offset < end < |matches| then Some(EncodeCursor(end)) else None, offset < end < |matches|, |matches|))
  {
  }

  lemma EncodedIsFurther<T>(matches: seq<T>, cursor: string, offset: nat, end: nat)
    requires DecodeCursor(cursor) == Some(offset) && offset < end < |matches|
    ensures Position(matches, EncodeCursor(end)) < Position(matches, cursor)
  {
    CursorRoundTrip(end);
  }

  lemma NoPagePastEnd<T>(matches: seq<T>, cursor: string, limit: nat)
    requires DecodeCursor(cursor).Some? && DecodeCursor(cursor).value > |matches|
    ensures PageOf(matches, cursor, limit) == Some(Page([], None, false, |matches|))
  {
  }

  lemma NextIsFurther<T>(matches: seq<T>, cursor: string, limit: nat)
    requires PageOf(matches, cursor, limit).Some? && PageOf(matches, cursor, limit).value.nextCursor.Some?
    ensures Position(matches, PageOf(matches, cursor, limit).value.nextCursor.value) < Position(matches, cursor)
  {
    var offset := DecodeCursor(cursor).value;
    if offset > |matches| {
      NoPagePastEnd(matches, cursor, limit);
    } else {
      PageAt(matches, cursor, limit);
      EncodedIsFurther(matches, cursor, offset, Min(offset + limit, |matches|));
    }
  }

  function Follow<T>(matches: seq<T>, cursor: string, limit: nat): Walk<T>
    decreases Position(matches, cursor)
  {
    var page := PageOf(matches, cursor, limit);
    if page.None? then Refused([])
    else if page.value.nextCursor.None? then Complete(page.value.items)
    else
      NextIsFurther(matches, cursor, limit);
      var rest := Follow(matches, page.value.nextCursor.value, limit);
      rest.(items := page.value.items + rest.items)
  }

  /** How many matches can be paged through: offsets beyond the limit are refused. */
  function Reach(limit: nat): nat
    requires limit >= 1
  {
    (MAX_CURSOR_OFFSET / limit + 1) * limit
  }

  lemma MulOrder(a: nat, b: nat, k: nat)
    requires a <= b
    ensures a * k <= b * k
  {
  }

  /** The q-th page starts in range exactly when q is at most the quotient of the largest offset. */
  lemma InRange(q: nat, limit: nat)
    requires limit >= 1
    ensures q * limit <= MAX_CURSOR_OFFSET <==> q <= MAX_CURSOR_OFFSET / limit
  {
    var p := MAX_CURSOR_OFFSET / limit;
    assert p * limit <= MAX_CURSOR_OFFSET < (p + 1) * limit;
    if q <= p { MulOrder(q, p, limit); } else { MulOrder(p + 1, q, limit); }
  }

  lemma FollowUnfolds<T>(matches: seq<T>, cursor: string, limit: nat, page: Page<T>)
    requires PageOf(matches, cursor, limit) == Some(page)
    ensures page.nextCursor.None? ==> Follow(matches, cursor, limit) == Complete(page.items)
    ensures page.nextCursor.Some? ==>
      var rest := Follow(matches, page.nextCursor.value, limit);
      Follow(matches, cursor, limit) == rest.(items := page.items + rest.items)
  {
  }

  lemma FollowLast<T>(matches: seq<T>, cursor: string, limit: nat, offset: nat)
    requires limit >= 1 && DecodeCursor(cursor) == Some(offset) && offset <= |matches| <= offset + limit
    ensures Follow(matches, cursor, limit) == Complete(matches[offset..])
  {
    PageAt(matches, cursor, limit);
    FollowUnfolds(matches, cursor, limit, Page(matches[offset..|matches|], None, false, |matches|));
    assert matches[offset..|matches|] == matches[offset..];
  }

  lemma FollowNext<T>(matches: seq<T>, cursor: string, limit: nat, offset: nat, next: string)
    requires limit >= 1 && DecodeCursor(cursor) == Some(offset) && offset + limit < |matches|
    requires next == EncodeCursor(offset + limit)
    ensures var rest := Follow(matches, next, limit);
            Follow(matches, cursor, limit) == rest.(items := matches[offset..offset + limit] + rest.items)
  {
    PageAt(matches, cursor, limit);
    FollowUnfolds(matches, cursor, limit, Page(matches[offset..offset + limit], Some(next), true, |matches|));
  }

  lemma FollowRefused<T>(matches: seq<T>, cursor: string, limit: nat)
    requires DecodeCursor(cursor).None?
    ensures Follow(matches, cursor, limit) == Refused([])
  {
  }

  /** The page starts at a multiple of the limit; the last page, the next multiple and the reach are where arithmetic says. */
  lemma PageArithmetic(q: nat, limit: nat)
    requires limit >= 1 && q * limit <= MAX_CURSOR_OFFSET
    ensures q * limit + limit == (q + 1) * limit <= Reach(limit)
    ensures q * limit + limit > MAX_CURSOR_OFFSET ==> q * limit + limit == Reach(limit)
    ensures q * limit + limit <= MAX_CURSOR_OFFSET ==> q * limit + 2 * limit <= Reach(limit)
  {
    InRange(q, limit);
    InRange(q + 1, limit);
    MulOrder(q + 1, MAX_CURSOR_OFFSET / limit + 1, limit);
    if q + 1 <= MAX_CURSOR_OFFSET / limit { MulOrder(q + 2, MAX_CURSOR_OFFSET / limit + 1, limit); }
  }

  /** What remains to be delivered from an offset on. */
  function Delivered<T>(matches: seq<T>, offset: nat, reach: nat): Walk<T>
    requires offset <= |matches| && offset <= reach
  {
    if |matches| <= reach then Complete(matches[offset..]) else Refused(matches[offset..reach])
  }

  lemma DeliveredBefore<T>(matches: seq<T>, offset: nat, end: nat, reach: nat)
    requires offset <= end <= |matches| && end <= reach
    ensures Delivered(matches, offset, reach) ==
              Delivered(matches, end, reach).(items := matches[offset..end] + Delivered(matches, end, reach).items)
    ensures end == reach < |matches| ==> Delivered(matches, offset, reach) == Refused(matches[offset..end] + [])
  {
    var c := if |matches| <= reach then |matches| else reach;
    assert matches[offset..end] + matches[end..c] == matches[offset..c];
    assert c == |matches| ==> matches[end..c] == matches[end..] && matches[offset..c] == matches[offset..];
    assert matches[offset..end] + [] == matches[offset..end];
  }

  lemma {:induction false} FollowFrom<T>(matches: seq<T>, cursor: string, q: nat, limit: nat, offset: nat, reach: nat)
    requires limit >= 1 && offset == q * limit && DecodeCursor(cursor) == Some(offset)
    requires offset <= |matches| && offset <= MAX_CURSOR_OFFSET && reach == Reach(limit)
    ensures offset <= reach && Follow(matches, cursor, limit) == Delivered(matches, offset, reach)
    decreases |matches| - offset, 1
  {
    PageArithmetic(q, limit);
    if offset + limit < |matches| {
      FollowMore(matches, cursor, q, limit, offset, reach, EncodeCursor(offset + limit));
    } else {
      FollowLast(matches, cursor, limit, offset);
    }
  }

  lemma {:induction false} FollowMore<T>(matches: seq<T>, cursor: string, q: nat, limit: nat, offset: nat, reach: nat, next: string)
    requires limit >= 1 && offset == q * limit && DecodeCursor(cursor) == Some(offset)
    requires offset + limit < |matches| && offset <= MAX_CURSOR_OFFSET && reach == Reach(limit)
    requires next == EncodeCursor(offset + limit)
    ensures offset <= reach && Follow(matches, cursor, limit) == Delivered(matches, offset, reach)
    decreases |matches| - offset, 0
  {
    var end := offset + limit;
    PageArithmetic(q, limit);
    CursorRoundTrip(end);
    FollowNext(matches, cursor, limit, offset, next);
    DeliveredBefore(matches, offset, end, reach);
    if end <= MAX_CURSOR_OFFSET {
      FollowFrom(matches, next, q + 1, limit, end, reach);
    } else {
      FollowRefused(matches, next, limit);
    }
  }

  lemma NoCursor()
    ensures DecodeCursor("") == Some(0)
  {
  }

  /**
   Following the cursors over a fixed list ends, and delivers exactly the list, in order, without gap or repeat,
   if and only if the list is no longer than the offsets reach; otherwise it is refused after exactly that many.
   */
  lemma PagingDeliversTheList<T>(matches: seq<T>, limit: nat)
    requires limit >= 1
    ensures Follow(matches, "", limit) == if |matches| <= Reach(limit) then Complete(matches) else Refused(matches[..Reach(limit)])
    ensures Reach(limit) > MAX_CURSOR_OFFSET
  {
    NoCursor();
    FollowFrom(matches, "", 0, limit, 0, Reach(limit));
    assert matches[0..] == matches;
    ReachIsLong(limit);
  }

  lemma ReachIsLong(limit: nat)
    requires limit >= 1
    ensures Reach(limit) > MAX_CURSOR_OFFSET
  {
    var p := MAX_CURSOR_OFFSET / limit;
    assert MAX_CURSOR_OFFSET < (p + 1) * limit;
  }
}

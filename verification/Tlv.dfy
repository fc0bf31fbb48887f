/**
 Values of the projected property trees (strings as their UTF-8 code units) and TLV elements, the keys that name context tags, and what
 encoding and decoding mean.  (Appendix A of the Matter Core Specification defines TLV.)
 */
module Tlv {
  import opened Basics

  type i16 = n: int | -0x8000 <= n < 0x8000
  type i32 = n: int | -0x8000_0000 <= n < 0x8000_0000
  type i64 = n: int | -0x8000_0000_0000_0000 <= n < 0x8000_0000_0000_0000

  /** A boxed value; `Properties` lists its entries in iteration order. */
  datatype Value =
    | Null
    | Bool(b: bool)
    | Int16(i16: i16)
    | Int32(i32: i32)
    | Int64(i64: i64)
    | UInt8(u8: u8)
    | UInt16(u16: u16)
    | UInt32(u32: u32)
    | UInt64(u64: u64)
    | Single(real32: real)
    | Double(real64: real)
    | Text(text: string)
    | ByteVector(bytes: seq<u8>)
    | ByteArray(array: seq<u8>)
    | Items(items: seq<Value>)
    | Properties(entries: seq<Entry>)
    | Unsupported

  datatype Entry = Entry(key: string, value: Value)

  datatype Tag = Anonymous | Context(number: u8) | Profile(id: nat)

  datatype Scalar =
    | SNull
    | SBool(b: bool)
    | SSigned(n: i64)
    | SUnsigned(u: u64)
    | SFloat(r: real, wide: bool)
    | SUtf8(s: string)
    | SBytes(bytes: seq<u8>)
    | SOther                          // an element type the projection does not know

  datatype Kind = Structure | Array | List

  datatype Token = Leaf(tag: Tag, scalar: Scalar) | Open(tag: Tag, kind: Kind) | Close

  datatype Error = InvalidTag | WrongType | Truncated

  // ---------------------------------------------------------------------------------------------
  // Keys.
  // ---------------------------------------------------------------------------------------------

  predicate IsSpace(c: char) {
    c == ' ' || '\t' <= c <= '\r'
  }

  predicate IsDigit(c: char) {
    '0' <= c <= '9'
  }

  /** The key as a C string: up to the first NUL. */
  function CString(s: string): string {
    if s == [] || s[0] == '\0' then [] else [s[0]] + CString(s[1..])
  }

  function SkipSpaces(s: string): string {
    if s != [] && IsSpace(s[0]) then SkipSpaces(s[1..]) else s
  }

  function DigitValue(c: char): nat
    requires IsDigit(c)
  {
    c as int - '0' as int
  }

  function Number(digits: string): nat
    requires forall c <- digits :: IsDigit(c)
  {
    if digits == [] then 0
    else
      assert digits[|digits| - 1] in digits;
      10 * Number(digits[..|digits| - 1]) + DigitValue(digits[|digits| - 1])
  }

  /**
   The context tag a key stands for: the whole C string must read as a 32-bit strtoul number of base 10
   (leading spaces, a sign, leading zeros allowed; a minus sign negates modulo 2^32, overflow gives
   the maximum), and the number must fit eight bits.
   */
  function ParseTag(key: string): Option<u8> {
    TagOf(SkipSpaces(CString(key)))
  }

  /** Sign and digits. */
  function TagOf(s: string): Option<u8> {
    var negative := s != [] && s[0] == '-';
    var digits := if s != [] && (s[0] == '-' || s[0] == '+') then s[1..] else s;
    if digits == [] || !(forall c <- digits :: IsDigit(c)) then None else Narrowed(negative, Number(digits))
  }

  /** The number as strtoul gives it, if it fits eight bits. */
  function Narrowed(negative: bool, n: nat): Option<u8> {
    var number := if n > 0xFFFF_FFFF then 0xFFFF_FFFF else if negative && n > 0 then 0x1_0000_0000 - n else n;
    if number <= 0xFF then Some(number) else None
  }

  function Digit(n: nat): char
    requires n < 10
  {
    '0' + n as char
  }

  /** The key a decoded field is stored under. */
  function Decimal(n: u8): string {
    if n < 10 then [Digit(n)]
    else if n < 100 then [Digit(n / 10), Digit(n % 10)]
    else [Digit(n / 100), Digit(n / 10 % 10), Digit(n % 10)]
  }

  lemma {:induction false} NoNulIsWhole(s: string)
    requires forall c <- s :: c != '\0'
    ensures CString(s) == s
    decreases |s|
  {
    if s == [] {
    } else {
      assert s[0] in s && forall c <- s[1..] :: c in s;
      NoNulIsWhole(s[1..]);
    }
  }

  lemma {:induction false} NumberOfDecimal(n: u8)
    ensures (forall c <- Decimal(n) :: IsDigit(c)) && Number(Decimal(n)) == n
    decreases n
  {
    var s := Decimal(n);
    if n < 10 {
      assert s[..|s| - 1] == [];
    } else {
      NumberOfDecimal(n / 10);
      assert s[..|s| - 1] == Decimal(n / 10);
    }
  }

  /** Decoded keys name the tag they came from. */
  lemma ParseDecimal(n: u8)
    ensures ParseTag(Decimal(n)) == Some(n)
  {
    var s := Decimal(n);
    NumberOfDecimal(n);
    NoNulIsWhole(s);
    assert s[0] in s;
    assert SkipSpaces(s) == s;
  }

  predicate AllDigits(s: string) {
    forall c <- s :: IsDigit(c)
  }

  lemma {:induction false} SkipsSpaces(spaces: string, rest: string)
    requires (forall c <- spaces :: IsSpace(c)) && (rest == [] || !IsSpace(rest[0]))
    ensures SkipSpaces(spaces + rest) == rest
    decreases |spaces|
  {
    if spaces == [] {
      assert spaces + rest == rest;
    } else {
      SkipsSpaces(spaces[1..], rest);
      assert (spaces + rest)[1..] == spaces[1..] + rest;
      assert spaces[0] in spaces;
    }
  }

  /**
   A key of spaces, an optional plus sign and digits names the tag of that number, leading zeros included, and
   none when the number needs more than eight bits; with a minus sign only zero and the numbers that wrap round
   to eight bits name one.
   */
  lemma SpacedKeyNames(spaces: string, sign: string, digits: string)
    requires (forall c <- spaces :: IsSpace(c)) && sign in {"", "+", "-"} && digits != "" && AllDigits(digits)
    ensures var n := Number(digits);
            && (sign != "-" ==> ParseTag(spaces + sign + digits) == if n <= 255 then Some(n) else None)
            && (sign == "-" && n == 0 ==> ParseTag(spaces + sign + digits) == Some(0))
            && (sign == "-" && (1 <= n < 0xFFFF_FF01 || n > 0xFFFF_FFFF) ==> ParseTag(spaces + sign + digits) == None)
            && (sign == "-" && 0xFFFF_FF01 <= n <= 0xFFFF_FFFF ==>
                  ParseTag(spaces + sign + digits) == Some(0x1_0000_0000 - n))
  {
    KeyIsRead(spaces, sign, digits);
    SignedTag(sign, digits);
    NarrowedIs(sign == "-", Number(digits));
  }

  lemma KeyIsRead(spaces: string, sign: string, digits: string)
    requires (forall c <- spaces :: IsSpace(c)) && sign in {"", "+", "-"} && digits != "" && AllDigits(digits)
    ensures ParseTag(spaces + sign + digits) == TagOf(sign + digits)
  {
    var key := spaces + sign + digits;
    assert key == spaces + (sign + digits);
    assert digits[0] in digits;
    assert forall c <- key :: c in spaces || c in sign || c in digits;
    NoNulIsWhole(key);
    SkipsSpaces(spaces, sign + digits);
  }

  lemma NarrowedIs(negative: bool, n: nat)
    ensures !negative || n == 0 ==> Narrowed(negative, n) == if n <= 255 then Some(n) else None
    ensures negative && n > 0 ==> Narrowed(negative, n) == if 0xFFFF_FF01 <= n <= 0xFFFF_FFFF then Some(0x1_0000_0000 - n) else None
  {}

  lemma SignedTag(sign: string, digits: string)
    requires sign in {"", "+", "-"} && digits != "" && AllDigits(digits)
    ensures TagOf(sign + digits) == Narrowed(sign == "-", Number(digits))
  {
    var s := sign + digits;
    assert digits[0] in digits;
    assert sign == "" ==> s == digits;
    assert sign != "" ==> s[0] == sign[0] && s[1..] == digits;
  }

  /** And nothing else names a tag: up to its first NUL, the key must have that form. */
  lemma {:induction false} OnlySpacedKeysName(key: string)
    requires ParseTag(key).Some?
    ensures exists spaces, sign, digits ::
              && CString(key) == spaces + sign + digits && (forall c <- spaces :: IsSpace(c))
              && sign in {"", "+", "-"} && digits != "" && AllDigits(digits)
  {
    var whole, s := CString(key), SkipSpaces(CString(key));
    SkippedAreSpaces(whole);
    var spaces := whole[..|whole| - |s|];
    if s[0] == '-' || s[0] == '+' {
      assert whole == spaces + s[..1] + s[1..];
      assert s[..1] == [s[0]];
    } else {
      assert whole == spaces + "" + s;
    }
  }

  lemma {:induction false} CStringEnds(front: string, rest: string)
    ensures CString(front + ['\0'] + rest) == CString(front)
    decreases |front|
  {
    var whole := front + ['\0'] + rest;
    if front != [] {
      assert whole[0] == front[0] && whole[1..] == front[1..] + ['\0'] + rest;
      CStringEnds(front[1..], rest);
    }
  }

  /** What comes behind a NUL has no say in the tag of a key. */
  lemma NulEndsTheKey(front: string, rest: string)
    ensures ParseTag(front + ['\0'] + rest) == ParseTag(front)
  {
    CStringEnds(front, rest);
  }

  lemma {:induction false} SkippedAreSpaces(s: string)
    ensures |SkipSpaces(s)| <= |s| && s[|s| - |SkipSpaces(s)|..] == SkipSpaces(s)
    ensures forall c <- s[..|s| - |SkipSpaces(s)|] :: IsSpace(c)
    decreases |s|
  {
    if s != [] && IsSpace(s[0]) {
      SkippedAreSpaces(s[1..]);
      var n := |s| - |SkipSpaces(s)|;
      assert s[..n] == [s[0]] + s[1..][..n - 1];
    }
  }

  lemma DecimalInjective(m: u8, n: u8)
    requires Decimal(m) == Decimal(n)
    ensures m == n
  {
    ParseDecimal(m);
    ParseDecimal(n);
  }

  // ---------------------------------------------------------------------------------------------
  // Sorting by tag.
  // ---------------------------------------------------------------------------------------------

  datatype Tagged<T> = Tagged(number: u8, item: T)

  function Place<T>(x: Tagged<T>, sorted: seq<Tagged<T>>): seq<Tagged<T>> {
    if sorted == [] || x.number <= sorted[0].number then [x] + sorted
    else [sorted[0]] + Place(x, sorted[1..])
  }

  function Sort<T>(xs: seq<Tagged<T>>): seq<Tagged<T>> {
    if xs == [] then [] else Place(xs[0], Sort(xs[1..]))
  }

  ghost predicate Distinct<T>(xs: seq<Tagged<T>>) {
    forall i, j | 0 <= i < j < |xs| :: xs[i].number != xs[j].number
  }

  ghost predicate Increasing<T>(xs: seq<Tagged<T>>) {
    forall i, j | 0 <= i < j < |xs| :: xs[i].number < xs[j].number
  }

  lemma {:induction false} PlaceHas<T>(x: Tagged<T>, sorted: seq<Tagged<T>>, y: Tagged<T>)
    ensures y in Place(x, sorted) <==> y == x || y in sorted
    decreases |sorted|
  {
    if sorted == [] || x.number <= sorted[0].number {
    } else {
      PlaceHas(x, sorted[1..], y);
      assert sorted == [sorted[0]] + sorted[1..];
    }
  }

  lemma {:induction false} SortHas<T>(xs: seq<Tagged<T>>, y: Tagged<T>)
    ensures y in Sort(xs) <==> y in xs
    decreases |xs|
  {
    if xs == [] {
    } else {
      SortHas(xs[1..], y);
      PlaceHas(xs[0], Sort(xs[1..]), y);
      assert xs == [xs[0]] + xs[1..];
    }
  }

  lemma {:induction false} PlaceIncreases<T>(x: Tagged<T>, sorted: seq<Tagged<T>>)
    requires Increasing(sorted) && forall y <- sorted :: y.number != x.number
    ensures Increasing(Place(x, sorted))
    decreases |sorted|
  {
    if sorted == [] || x.number <= sorted[0].number {
    } else {
      PlaceIncreases(x, sorted[1..]);
      forall y <- Place(x, sorted[1..]) ensures sorted[0].number < y.number {
        PlaceHas(x, sorted[1..], y);
      }
    }
  }

  lemma {:induction false} SortIncreases<T>(xs: seq<Tagged<T>>)
    requires Distinct(xs)
    ensures Increasing(Sort(xs))
    decreases |xs|
  {
    if xs == [] {
    } else {
      SortIncreases(xs[1..]);
      forall y <- Sort(xs[1..]) ensures y.number != xs[0].number {
        SortHas(xs[1..], y);
      }
      PlaceIncreases(xs[0], Sort(xs[1..]));
    }
  }

  lemma {:induction false} SortKeepsIncreasing<T>(xs: seq<Tagged<T>>)
    requires Increasing(xs)
    ensures Sort(xs) == xs
    decreases |xs|
  {
    if xs == [] {
    } else {
      SortKeepsIncreasing(xs[1..]);
    }
  }

  lemma FirstOfIncreasing<T>(xs: seq<Tagged<T>>, y: Tagged<T>)
    requires Increasing(xs) && y in xs
    ensures xs[0].number <= y.number && (xs[0].number == y.number ==> xs[0] == y)
  {
    var j :| 0 <= j < |xs| && xs[j] == y;
  }

  lemma TailOfIncreasing<T>(xs: seq<Tagged<T>>)
    requires Increasing(xs) && xs != []
    ensures forall z :: z in xs[1..] <==> z in xs && z != xs[0]
  {
    assert xs == [xs[0]] + xs[1..];
    forall z | z in xs[1..] ensures z != xs[0] {
      var j :| 0 <= j < |xs[1..]| && xs[1..][j] == z;
      assert xs[0].number < xs[j + 1].number;
    }
  }

  /** Two increasing sequences with the same elements are the same. */
  lemma {:induction false} IncreasingUnique<T>(xs: seq<Tagged<T>>, ys: seq<Tagged<T>>)
    requires Increasing(xs) && Increasing(ys) && forall z :: z in xs <==> z in ys
    ensures xs == ys
    decreases |xs|
  {
    assert (xs != [] ==> xs[0] in ys) && (ys != [] ==> ys[0] in xs);
    if xs == [] {
    } else {
      FirstOfIncreasing(ys, xs[0]);
      FirstOfIncreasing(xs, ys[0]);
      TailOfIncreasing(xs);
      TailOfIncreasing(ys);
      IncreasingUnique(xs[1..], ys[1..]);
      assert xs == [xs[0]] + xs[1..] && ys == [ys[0]] + ys[1..];
    }
  }

  /** Position by position, the same tag and related items. */
  ghost predicate Paired<A, B>(xs: seq<Tagged<A>>, ys: seq<Tagged<B>>, related: (u8, A, B) -> bool) {
    && |xs| == |ys|
    && forall i | 0 <= i < |xs| :: xs[i].number == ys[i].number && related(xs[i].number, xs[i].item, ys[i].item)
  }

  lemma {:induction false} PlacePaired<A, B>(
    x: Tagged<A>, y: Tagged<B>, xs: seq<Tagged<A>>, ys: seq<Tagged<B>>, related: (u8, A, B) -> bool)
    requires x.number == y.number && related(x.number, x.item, y.item) && Paired(xs, ys, related)
    ensures Paired(Place(x, xs), Place(y, ys), related)
    decreases |xs|
  {
    if xs == [] || x.number <= xs[0].number {
    } else {
      PlacePaired(x, y, xs[1..], ys[1..], related);
    }
  }

  lemma {:induction false} SortPaired<A, B>(xs: seq<Tagged<A>>, ys: seq<Tagged<B>>, related: (u8, A, B) -> bool)
    requires Paired(xs, ys, related)
    ensures Paired(Sort(xs), Sort(ys), related)
    decreases |xs|
  {
    if xs == [] {
    } else {
      SortPaired(xs[1..], ys[1..], related);
      PlacePaired(xs[0], ys[0], Sort(xs[1..]), Sort(ys[1..]), related);
    }
  }

  // ---------------------------------------------------------------------------------------------
  // Encoding.
  // ---------------------------------------------------------------------------------------------

  function ScalarOf(v: Value): Option<Scalar> {
    match v
    case Null => Some(SNull)
    case Bool(b) => Some(SBool(b))
    case Int16(n) => Some(SSigned(n))
    case Int32(n) => Some(SSigned(n))
    case Int64(n) => Some(SSigned(n))
    case UInt8(n) => Some(SUnsigned(n))
    case UInt16(n) => Some(SUnsigned(n))
    case UInt32(n) => Some(SUnsigned(n))
    case UInt64(n) => Some(SUnsigned(n))
    case Single(r) => Some(SFloat(r, false))
    case Double(r) => Some(SFloat(r, true))
    case Text(s) => Some(SUtf8(s))
    case ByteVector(b) => Some(SBytes(b))
    case ByteArray(b) => Some(SBytes(b))
    case _ => None
  }

  /** The elements of a value under a tag; None where the source refuses the argument. */
  function Encode(tag: Tag, v: Value): Option<seq<Token>>
    decreases v
  {
    match v
    case Items(items) =>
      var body := EncodeItems(items);
      if body.None? then None else Some([Open(tag, Array)] + body.value + [Close])
    case Properties(entries) =>
      var fields := EncodeEntries(entries);
      if fields.None? then None else Some([Open(tag, Structure)] + Joined(Sort(fields.value)) + [Close])
    case _ =>
      var scalar := ScalarOf(v);
      if scalar.None? then None else Some([Leaf(tag, scalar.value)])
  }

  function EncodeItems(items: seq<Value>): Option<seq<Token>>
    decreases items
  {
    if items == [] then Some([]) else
    var first, others := Encode(Anonymous, items[0]), EncodeItems(items[1..]);
    if first.None? || others.None? then None else Some(first.value + others.value)
  }

  function EncodeEntries(entries: seq<Entry>): (fields: Option<seq<Tagged<seq<Token>>>>)
    ensures fields.Some? ==> |fields.value| == |entries|
    decreases entries
  {
    if entries == [] then Some([]) else
    var number := ParseTag(entries[0].key);
    if number.None? then None else
    var first, others := Encode(Context(number.value), entries[0].value), EncodeEntries(entries[1..]);
    if first.None? || others.None? then None else Some([Tagged(number.value, first.value)] + others.value)
  }

  function Joined(fields: seq<Tagged<seq<Token>>>): seq<Token> {
    if fields == [] then [] else fields[0].item + Joined(fields[1..])
  }

  // ---------------------------------------------------------------------------------------------
  // Decoding: the element that starts a token sequence, and what is left behind it.
  // ---------------------------------------------------------------------------------------------

  type Decoded = Result<(Value, seq<Token>), Error>

  function ValueOf(scalar: Scalar): Result<Value, Error> {
    match scalar
    case SNull => Ok(Null)
    case SBool(b) => Ok(Bool(b))
    case SSigned(n) => Ok(Int64(n))
    case SUnsigned(n) => Ok(UInt64(n))
    case SFloat(r, _) => Ok(Double(r))
    case SUtf8(s) => Ok(Text(s))
    case SBytes(b) => Ok(ByteVector(b))
    case SOther => Err(WrongType)
  }

  /** Store under a key, in place if the key is there already. */
  function Store(entries: seq<Entry>, key: string, v: Value): seq<Entry> {
    if entries == [] then [Entry(key, v)]
    else if entries[0].key == key then [Entry(key, v)] + entries[1..]
    else [entries[0]] + Store(entries[1..], key, v)
  }

  function Decode(ts: seq<Token>): (r: Decoded)
    requires ts != [] && !ts[0].Close?
    ensures r.Ok? ==> |r.value.1| < |ts|
    decreases |ts|, 0
  {
    match ts[0]
    case Leaf(_, scalar) =>
      (match ValueOf(scalar) case Ok(v) => Ok((v, ts[1..])) case Err(e) => Err(e))
    case Open(_, kind) =>
      if kind.Structure? then DecodeFields(ts[1..], []) else DecodeItems(ts[1..], [])
  }

  function DecodeFields(ts: seq<Token>, done: seq<Entry>): (r: Decoded)
    ensures r.Ok? ==> |r.value.1| < |ts|
    decreases |ts|, 1
  {
    if ts == [] then Err(Truncated)
    else if ts[0].Close? then Ok((Properties(done), ts[1..]))
    else if !ts[0].tag.Context? then Err(InvalidTag)
    else match Decode(ts)
      case Err(e) => Err(e)
      case Ok((v, left)) => DecodeFields(left, Store(done, Decimal(ts[0].tag.number), v))
  }

  function DecodeItems(ts: seq<Token>, done: seq<Value>): (r: Decoded)
    ensures r.Ok? ==> |r.value.1| < |ts|
    decreases |ts|, 1
  {
    if ts == [] then Err(Truncated)
    else if ts[0].Close? then Ok((Items(done), ts[1..]))
    else match Decode(ts)
      case Err(e) => Err(e)
      case Ok((v, left)) => DecodeItems(left, done + [v])
  }
}

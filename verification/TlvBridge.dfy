/** The bridge itself: recursive procedures over a bounded TLV writer and a cursor-style TLV reader. */
module TlvBridge {
  import opened Basics
  import opened Tlv
  import TlvLaws

  const BUFFER_SIZE: nat := 64 * 1024

  datatype WriteError = InvalidArgument | NoMemory

  // ---------------------------------------------------------------------------------------------
  // Encoded sizes, by the element format: control octet, tag octets, length octets, value octets.
  // ---------------------------------------------------------------------------------------------

  function TagSize(tag: Tag): nat {
    match tag case Anonymous => 0 case Context(_) => 1 case Profile(_) => 8
  }

  function UnsignedWidth(n: nat): nat {
    if n < 0x100 then 1 else if n < 0x1_0000 then 2 else if n < 0x1_0000_0000 then 4 else 8
  }

  function SignedWidth(n: int): nat {
    if -0x80 <= n < 0x80 then 1 else if -0x8000 <= n < 0x8000 then 2 else if -0x8000_0000 <= n < 0x8000_0000 then 4 else 8
  }

  function ScalarSize(scalar: Scalar): nat {
    match scalar
    case SSigned(n) => SignedWidth(n)
    case SUnsigned(n) => UnsignedWidth(n)
    case SFloat(_, wide) => if wide then 8 else 4
    case SUtf8(s) => UnsignedWidth(|s|) + |s|
    case SBytes(b) => UnsignedWidth(|b|) + |b|
    case _ => 0
  }

  function Size(t: Token): nat {
    match t
    case Leaf(tag, scalar) => 1 + TagSize(tag) + ScalarSize(scalar)
    case Open(tag, _) => 1 + TagSize(tag)
    case Close => 1
  }

  function Total(ts: seq<Token>): nat {
    if ts == [] then 0 else Size(ts[0]) + Total(ts[1..])
  }

  lemma {:induction false} TotalOfSum(a: seq<Token>, b: seq<Token>)
    ensures Total(a + b) == Total(a) + Total(b)
    decreases |a|
  {
    if a == [] {
      assert a + b == b;
    } else {
      TotalOfSum(a[1..], b);
      assert (a + b)[1..] == a[1..] + b;
    }
  }

  /** A number is written in the least of one, two, four and eight octets that holds it. */
  lemma WidthIsLeast(n: u64, m: int)
    requires -0x8000_0000_0000_0000 <= m < 0x8000_0000_0000_0000
    ensures UnsignedWidth(n) in {1, 2, 4, 8} && SignedWidth(m) in {1, 2, 4, 8}
    ensures UnsignedWidth(n) <= 1 <==> n <= 255
    ensures UnsignedWidth(n) <= 2 <==> n <= 65535
    ensures UnsignedWidth(n) <= 4 <==> n <= 4294967295
    ensures SignedWidth(m) <= 1 <==> -128 <= m <= 127
    ensures SignedWidth(m) <= 2 <==> -32768 <= m <= 32767
    ensures SignedWidth(m) <= 4 <==> -2147483648 <= m <= 2147483647
  {}

  /** Text and octets follow their length; a boolean and a null have no value octets; a tag takes one octet, or eight. */
  lemma LeafSizes(tag: Tag, s: Scalar)
    ensures Size(Leaf(tag, s)) ==
            1 + (match tag case Anonymous => 0 case Context(_) => 1 case Profile(_) => 8) +
            match s
            case SSigned(n) => SignedWidth(n)
            case SUnsigned(n) => UnsignedWidth(n)
            case SFloat(_, wide) => if wide then 8 else 4
            case SUtf8(text) => UnsignedWidth(|text|) + |text|
            case SBytes(octets) => UnsignedWidth(|octets|) + |octets|
            case _ => 0
  {}

  /** A single-precision number is written in four octets, a double in eight. */
  lemma FloatsKeepTheirWidth(tag: Tag, r: real)
    ensures Encode(tag, Single(r)).Some? && Total(Encode(tag, Single(r)).value) == 1 + TagSize(tag) + 4
    ensures Encode(tag, Double(r)).Some? && Total(Encode(tag, Double(r)).value) == 1 + TagSize(tag) + 8
  {
    var single, double := Encode(tag, Single(r)).value, Encode(tag, Double(r)).value;
    assert Total(single) == Size(single[0]) + Total(single[1..]);
    assert Total(double) == Size(double[0]) + Total(double[1..]);
  }

  /** The writer of the SDK, as far as the bridge relies on it: it appends, or runs out of buffer. */
  class TlvWriter {
    const capacity: nat
    var tokens: seq<Token>

    constructor (capacity: nat)
      ensures this.capacity == capacity && tokens == []
    {
      this.capacity := capacity;
      tokens := [];
    }

    method Put(t: Token) returns (ok: bool)
      modifies this
      ensures ok <==> Total(old(tokens)) + Size(t) <= capacity
      ensures tokens == if ok then old(tokens) + [t] else old(tokens)
      ensures Total(tokens) == Total(old(tokens)) + (if ok then Size(t) else 0)
    {
      TotalOfSum(tokens, [t]);
      ok := Total(tokens) + Size(t) <= capacity;
      if ok {
        tokens := tokens + [t];
      }
    }
  }

  /** A write of `ts` behind what was there fits. */
  ghost predicate Fits(capacity: nat, before: seq<Token>, ts: Option<seq<Token>>) {
    ts.Some? && Total(before) + Total(ts.value) <= capacity
  }

  /** The outcome of writing `ts`, which is None for a refused argument. */
  ghost predicate Wrote(capacity: nat, before: seq<Token>, ts: Option<seq<Token>>, after: seq<Token>, error: Option<WriteError>) {
    && (error.None? <==> Fits(capacity, before, ts))
    && (error.None? ==> after == before + ts.value)
    && (error == Some(InvalidArgument) ==> ts.None?)
  }

  /** Fields in the order given, without sorting. */
  function EncodeFields(fields: seq<Tagged<Value>>): Option<seq<Token>> {
    if fields == [] then Some([]) else
    var first, others := Encode(Context(fields[0].number), fields[0].item), EncodeFields(fields[1..]);
    if first.None? || others.None? then None else Some(first.value + others.value)
  }

  /** The parsed fields of a property set, in its own order. */
  function ParseFields(entries: seq<Entry>): (fields: Option<seq<Tagged<Value>>>)
    ensures fields.Some? ==> |fields.value| == |entries|
                             && forall i | 0 <= i < |entries| :: fields.value[i].item == entries[i].value
  {
    if entries == [] then Some([]) else
    var number, others := ParseTag(entries[0].key), ParseFields(entries[1..]);
    if number.None? || others.None? then None else Some([Tagged(number.value, entries[0].value)] + others.value)
  }

  ghost predicate EncodesTo(number: u8, v: Value, ts: seq<Token>) {
    Encode(Context(number), v) == Some(ts)
  }

  lemma {:induction false} ParsedFields(entries: seq<Entry>)
    requires EncodeEntries(entries).Some?
    ensures ParseFields(entries).Some? && Paired(ParseFields(entries).value, EncodeEntries(entries).value, EncodesTo)
    decreases |entries|
  {
    if entries == [] {
    } else {
      ParsedFields(entries[1..]);
    }
  }

  lemma {:induction false} SomeFieldRefuses(entries: seq<Entry>) returns (f: Tagged<Value>)
    requires ParseFields(entries).Some? && EncodeEntries(entries).None?
    ensures f in ParseFields(entries).value && Encode(Context(f.number), f.item).None?
    decreases |entries|
  {
    f := ParseFields(entries).value[0];
    if Encode(Context(f.number), f.item).Some? {
      f := SomeFieldRefuses(entries[1..]);
      assert ParseFields(entries).value[1..] == ParseFields(entries[1..]).value;
    }
  }

  lemma {:induction false} PairedEncode(fields: seq<Tagged<Value>>, tokens: seq<Tagged<seq<Token>>>)
    requires Paired(fields, tokens, EncodesTo)
    ensures EncodeFields(fields) == Some(Joined(tokens))
    decreases |fields|
  {
    if fields == [] {
    } else {
      PairedEncode(fields[1..], tokens[1..]);
    }
  }

  lemma {:induction false} OneRefusalRefusesAll(fields: seq<Tagged<Value>>, f: Tagged<Value>)
    requires f in fields && Encode(Context(f.number), f.item).None?
    ensures EncodeFields(fields).None?
    decreases |fields|
  {
    if fields[0] == f {
    } else {
      OneRefusalRefusesAll(fields[1..], f);
    }
  }

  /** Encoding the sorted fields one by one is encoding the property set. */
  lemma SortedFieldsEncode(tag: Tag, entries: seq<Entry>)
    ensures ParseFields(entries).None? ==> Encode(tag, Properties(entries)).None?
    ensures ParseFields(entries).Some? ==>
              Encode(tag, Properties(entries)) ==
              var body := EncodeFields(Sort(ParseFields(entries).value));
              if body.None? then None else Some([Open(tag, Structure)] + body.value + [Close])
  {
    if EncodeEntries(entries).Some? {
      ParsedFields(entries);
      SortPaired(ParseFields(entries).value, EncodeEntries(entries).value, EncodesTo);
      PairedEncode(Sort(ParseFields(entries).value), Sort(EncodeEntries(entries).value));
    } else if ParseFields(entries).Some? {
      var fields := ParseFields(entries).value;
      var f := SomeFieldRefuses(entries);
      SortHas(fields, f);
      OneRefusalRefusesAll(Sort(fields), f);
    }
  }

  /** While a container is half written, what it takes in all is what is written, what is left, and the end. */
  lemma Budget(before: seq<Token>, tag: Tag, kind: Kind, body: seq<Token>, written: seq<Token>, left: seq<Token>)
    requires written + left == before + [Open(tag, kind)] + body
    ensures Total(before) + Total([Open(tag, kind)] + body + [Close]) == Total(written) + Total(left) + 1
  {
    var open, close := [Open(tag, kind)], [Close];
    Sums(before, open, body, close, written, left);
    assert Total(close) == Size(Close) + Total(close[1..]);
  }

  lemma Sums(before: seq<Token>, open: seq<Token>, body: seq<Token>, close: seq<Token>, written: seq<Token>, left: seq<Token>)
    requires written + left == before + open + body
    ensures Total(before) + Total(open + body + close) == Total(written) + Total(left) + Total(close)
  {
    TotalOfSum(written, left);
    TotalOfSum(before + open, body);
    TotalOfSum(before, open);
    TotalOfSum(open, body);
    TotalOfSum(open + body, close);
  }

  /** Writes what the value means, or reports why it cannot. */
  method EncodeInspectable(writer: TlvWriter, tag: Tag, v: Value) returns (error: Option<WriteError>)
    requires Total(writer.tokens) <= writer.capacity
    modifies writer
    ensures Total(writer.tokens) <= writer.capacity
    ensures Wrote(writer.capacity, old(writer.tokens), Encode(tag, v), writer.tokens, error)
    decreases v, 1
  {
    if v.Properties? {
      error := EncodePropertySet(writer, tag, v);
      return;
    }
    if v.Items? {
      error := EncodeVector(writer, tag, v);
      return;
    }
    var scalar := ScalarOf(v);
    if scalar.None? {
      return Some(InvalidArgument);
    }
    assert Total([Leaf(tag, scalar.value)]) == Size(Leaf(tag, scalar.value)) + Total([]);
    var ok := writer.Put(Leaf(tag, scalar.value));
    return if ok then None else Some(NoMemory);
  }

  /** The body of a container, as far as it is settled before it is written, and what of it is left to write. */
  ghost predicate Progress(before: seq<Token>, tag: Tag, kind: Kind, body: Option<seq<Token>>,
                           written: seq<Token>, left: Option<seq<Token>>) {
    && (body.Some? <==> left.Some?)
    && (body.Some? ==> written + left.value == before + [Open(tag, kind)] + body.value)
  }

  ghost function Contained(tag: Tag, kind: Kind, body: Option<seq<Token>>): Option<seq<Token>> {
    if body.None? then None else Some([Open(tag, kind)] + body.value + [Close])
  }

  /** One more child written: `left` splits into the child and the children behind it. */
  lemma Advance(capacity: nat, before: seq<Token>, tag: Tag, kind: Kind, body: Option<seq<Token>>, written: seq<Token>,
                left: Option<seq<Token>>, child: Option<seq<Token>>, behind: Option<seq<Token>>,
                after: seq<Token>, error: Option<WriteError>)
    requires Progress(before, tag, kind, body, written, left)
    requires left == if child.None? || behind.None? then None else Some(child.value + behind.value)
    requires Wrote(capacity, written, child, after, error)
    ensures error.None? ==> Progress(before, tag, kind, body, after, behind)
    ensures error.Some? ==> Wrote(capacity, before, Contained(tag, kind, body), after, error)
  {
    if body.Some? {
      Budget(before, tag, kind, body.value, written, left.value);
      TotalOfSum(child.value, behind.value);
      assert written + left.value == written + child.value + behind.value;
    }
  }

  method EncodeVector(writer: TlvWriter, tag: Tag, v: Value) returns (error: Option<WriteError>)
    requires v.Items? && Total(writer.tokens) <= writer.capacity
    modifies writer
    ensures Total(writer.tokens) <= writer.capacity
    ensures Wrote(writer.capacity, old(writer.tokens), Encode(tag, v), writer.tokens, error)
    decreases v, 0
  {
    var items := v.items;
    ghost var before, body := writer.tokens, EncodeItems(items);
    assert Encode(tag, v) == Contained(tag, Array, body);
    error := StartContainer(writer, tag, Array, body);
    if error.Some? {
      return;
    }
    assert items[0..] == items;
    var i := 0;
    while i < |items|
      invariant 0 <= i <= |items|
      invariant Total(writer.tokens) <= writer.capacity
      invariant Progress(before, tag, Array, body, writer.tokens, EncodeItems(items[i..]))
    {
      ghost var written := writer.tokens;
      assert items[i..][0] == items[i] && items[i..][1..] == items[i + 1..];
      error := EncodeInspectable(writer, Anonymous, items[i]);
      Advance(writer.capacity, before, tag, Array, body, written, EncodeItems(items[i..]),
              Encode(Anonymous, items[i]), EncodeItems(items[i + 1..]), writer.tokens, error);
      if error.Some? {
        return;
      }
      i := i + 1;
    }
    error := EndContainer(writer, before, tag, Array, body);
  }

  method StartContainer(writer: TlvWriter, tag: Tag, kind: Kind, ghost body: Option<seq<Token>>) returns (error: Option<WriteError>)
    requires Total(writer.tokens) <= writer.capacity
    modifies writer
    ensures Total(writer.tokens) <= writer.capacity
    ensures error.None? ==> Progress(old(writer.tokens), tag, kind, body, writer.tokens, body)
    ensures error.Some? ==>
              Wrote(writer.capacity, old(writer.tokens), Contained(tag, kind, body), writer.tokens, error)
    ensures error != Some(InvalidArgument)
  {
    if body.Some? {
      Budget(writer.tokens, tag, kind, body.value, writer.tokens + [Open(tag, kind)], body.value);
      TotalOfSum(writer.tokens, [Open(tag, kind)]);
    }
    var ok := writer.Put(Open(tag, kind));
    return if ok then None else Some(NoMemory);
  }

  method EndContainer(writer: TlvWriter, ghost before: seq<Token>, tag: Tag, kind: Kind, ghost body: Option<seq<Token>>)
    returns (error: Option<WriteError>)
    requires Total(writer.tokens) <= writer.capacity && Progress(before, tag, kind, body, writer.tokens, Some([]))
    modifies writer
    ensures Total(writer.tokens) <= writer.capacity
    ensures Wrote(writer.capacity, before, Contained(tag, kind, body), writer.tokens, error)
  {
    Budget(before, tag, kind, body.value, writer.tokens, []);
    assert writer.tokens + [] == writer.tokens;
    assert writer.tokens + [Close] == before + ([Open(tag, kind)] + body.value + [Close]);
    var ok := writer.Put(Close);
    return if ok then None else Some(NoMemory);
  }

  /** Fields collected so far, in front of those still to be parsed. */
  function Ahead(fields: seq<Tagged<Value>>, parsed: Option<seq<Tagged<Value>>>): Option<seq<Tagged<Value>>> {
    if parsed.None? then None else Some(fields + parsed.value)
  }

  lemma ParseOneField(fields: seq<Tagged<Value>>, entries: seq<Entry>, k: nat)
    requires k < |entries|
    ensures var number := ParseTag(entries[k].key);
            Ahead(fields, ParseFields(entries[k..])) ==
            if number.None? then None
            else Ahead(fields + [Tagged(number.value, entries[k].value)], ParseFields(entries[k + 1..]))
  {
    assert entries[k..][0] == entries[k] && entries[k..][1..] == entries[k + 1..];
    var number, others := ParseTag(entries[k].key), ParseFields(entries[k + 1..]);
    if number.Some? && others.Some? {
      assert fields + ([Tagged(number.value, entries[k].value)] + others.value) ==
             fields + [Tagged(number.value, entries[k].value)] + others.value;
    }
  }

  /** The first loop of EncodePropertySet: parse every key before anything is written. */
  method CollectFields(entries: seq<Entry>) returns (collected: Option<seq<Tagged<Value>>>)
    ensures collected == ParseFields(entries)
  {
    var fields: seq<Tagged<Value>> := [];
    var k := 0;
    assert entries[0..] == entries;
    assert ParseFields(entries).Some? ==> [] + ParseFields(entries).value == ParseFields(entries).value;
    while k < |entries|
      invariant 0 <= k <= |entries|
      invariant ParseFields(entries) == Ahead(fields, ParseFields(entries[k..]))
    {
      ParseOneField(fields, entries, k);
      var number := ParseTag(entries[k].key);
      if number.None? {
        return None;
      }
      fields := fields + [Tagged(number.value, entries[k].value)];
      k := k + 1;
    }
    assert entries[k..] == [] && fields + [] == fields;
    return Some(fields);
  }

  method EncodePropertySet(writer: TlvWriter, tag: Tag, v: Value) returns (error: Option<WriteError>)
    requires v.Properties? && Total(writer.tokens) <= writer.capacity
    modifies writer
    ensures Total(writer.tokens) <= writer.capacity
    ensures Wrote(writer.capacity, old(writer.tokens), Encode(tag, v), writer.tokens, error)
    decreases v, 0, 1
  {
    var entries := v.entries;
    ghost var before := writer.tokens;
    ghost var parsed := ParseFields(entries);
    ghost var body := if parsed.None? then None else EncodeFields(Sort(parsed.value));
    SortedFieldsEncode(tag, entries);
    assert Encode(tag, v) == Contained(tag, Structure, body);
    error := StartContainer(writer, tag, Structure, body);
    if error.Some? {
      return;
    }
    var fields := CollectFields(entries);
    if fields.None? {
      return Some(InvalidArgument);
    }
    error := WriteFields(writer, before, tag, v, fields.value);
    if error.Some? {
      return;
    }
    error := EndContainer(writer, before, tag, Structure, body);
  }

  lemma EncodeOneField(sorted: seq<Tagged<Value>>, i: nat)
    requires i < |sorted|
    ensures var first, others := Encode(Context(sorted[i].number), sorted[i].item), EncodeFields(sorted[i + 1..]);
            EncodeFields(sorted[i..]) == if first.None? || others.None? then None else Some(first.value + others.value)
  {
    assert sorted[i..][0] == sorted[i] && sorted[i..][1..] == sorted[i + 1..];
  }

  /** Sorting only moves the fields: each holds the value of some entry. */
  lemma SortedItemIsEntry(entries: seq<Entry>, fields: seq<Tagged<Value>>, i: nat) returns (j: nat)
    requires ParseFields(entries) == Some(fields) && i < |Sort(fields)|
    ensures j < |entries| && Sort(fields)[i].item == entries[j].value
  {
    SortHas(fields, Sort(fields)[i]);
    j :| 0 <= j < |fields| && fields[j] == Sort(fields)[i];
  }

  /** The second loop of EncodePropertySet: write the fields in tag order. */
  method WriteFields(writer: TlvWriter, ghost before: seq<Token>, tag: Tag, ghost v: Value, fields: seq<Tagged<Value>>)
    returns (error: Option<WriteError>)
    requires v.Properties? && ParseFields(v.entries) == Some(fields)
    requires Total(writer.tokens) <= writer.capacity
    requires Progress(before, tag, Structure, EncodeFields(Sort(fields)), writer.tokens, EncodeFields(Sort(fields)))
    modifies writer
    ensures Total(writer.tokens) <= writer.capacity
    ensures error.None? ==> Progress(before, tag, Structure, EncodeFields(Sort(fields)), writer.tokens, Some([]))
    ensures error.Some? ==>
              Wrote(writer.capacity, before, Contained(tag, Structure, EncodeFields(Sort(fields))), writer.tokens, error)
    decreases v, 0, 0
  {
    var sorted := Sort(fields);
    ghost var body := EncodeFields(sorted);
    var i := 0;
    assert sorted[0..] == sorted;
    while i < |sorted|
      invariant 0 <= i <= |sorted|
      invariant Total(writer.tokens) <= writer.capacity
      invariant Progress(before, tag, Structure, body, writer.tokens, EncodeFields(sorted[i..]))
    {
      ghost var written := writer.tokens;
      EncodeOneField(sorted, i);
      ghost var j := SortedItemIsEntry(v.entries, fields, i);
      error := EncodeInspectable(writer, Context(sorted[i].number), sorted[i].item);
      Advance(writer.capacity, before, tag, Structure, body, written, EncodeFields(sorted[i..]),
              Encode(Context(sorted[i].number), sorted[i].item), EncodeFields(sorted[i + 1..]), writer.tokens, error);
      if error.Some? {
        return;
      }
      i := i + 1;
    }
    error := None;
  }

  // ---------------------------------------------------------------------------------------------
  // The reader.
  // ---------------------------------------------------------------------------------------------

  datatype NextResult = Element | EndOfTlv

  /**
   The cursor reader of the SDK.  After Next the cursor is on an element; entering or leaving a
   container takes it off, so that a tag can no longer be asked for.
   */
  class TlvReader {
    const tokens: seq<Token>
    var position: nat                 // of the first token behind the cursor's element
    var current: Option<Token>

    ghost predicate Valid()
      reads this
    {
      && position <= |tokens|
      && (current.Some? ==> 0 < position && tokens[position - 1] == current.value && !current.value.Close?)
    }

    /** What is left from the element under the cursor on. */
    ghost function Here(): seq<Token>
      requires Valid() && current.Some?
      reads this
    {
      tokens[position - 1..]
    }

    constructor (tokens: seq<Token>)
      ensures this.tokens == tokens && Valid() && position == 0 && current.None?
    {
      this.tokens, position, current := tokens, 0, None;
    }

    method Next() returns (r: NextResult)
      requires Valid() && (current.Some? ==> !current.value.Open?)
      modifies this
      ensures Valid()
      ensures r.Element? <==> old(position) < |tokens| && !tokens[old(position)].Close?
      ensures r.Element? ==> position == old(position) + 1 && current == Some(tokens[old(position)])
      ensures r.EndOfTlv? ==> position == old(position) && current.None?
    {
      if position < |tokens| && !tokens[position].Close? {
        current := Some(tokens[position]);
        position := position + 1;
        return Element;
      }
      current := None;
      return EndOfTlv;
    }

    method GetTag() returns (tag: Tag)
      requires Valid() && current.Some?
      ensures tag == current.value.tag
    {
      tag := current.value.tag;
    }

    method EnterContainer()
      requires Valid() && current.Some? && current.value.Open?
      modifies this
      ensures Valid() && current.None? && position == old(position)
    {
      current := None;
    }

    method ExitContainer() returns (ok: bool)
      requires Valid() && current.None? && (position < |tokens| ==> tokens[position].Close?)
      modifies this
      ensures Valid() && current.None?
      ensures ok <==> old(position) < |tokens|
      ensures position == if ok then old(position) + 1 else old(position)
    {
      ok := position < |tokens|;
      if ok {
        position := position + 1;
      }
    }
  }

  /** The reader has done what decoding `ts` means. */
  ghost predicate Stands(reader: TlvReader, ts: seq<Token>, meant: Decoded, r: Result<Value, Error>)
    reads reader
  {
    && reader.Valid()
    && match meant
       case Ok((v, left)) => r == Ok(v) && reader.tokens[reader.position..] == left && (reader.current.Some? ==> reader.current.value.Leaf?)
       case Err(e) => r == Err(e)
  }

  method DecodeTlvValue(reader: TlvReader) returns (r: Result<Value, Error>)
    requires reader.Valid() && reader.current.Some?
    modifies reader
    ensures Stands(reader, old(reader.Here()), Decode(old(reader.Here())), r)
    ensures reader.position >= old(reader.position)
    decreases |reader.tokens| - reader.position, 1
  {
    ghost var here := reader.Here();
    assert here[1..] == reader.tokens[reader.position..];
    if reader.current.value.Leaf? {
      return ValueOf(reader.current.value.scalar);
    }
    if reader.current.value.kind.Structure? {
      r := DecodeStructure(reader);
    } else {
      r := DecodeArray(reader);
    }
  }

  method DecodeStructure(reader: TlvReader) returns (r: Result<Value, Error>)
    requires reader.Valid() && reader.current.Some? && reader.current.value.Open?
    modifies reader
    ensures Stands(reader, old(reader.Here()), DecodeFields(old(reader.Here())[1..], []), r)
    ensures reader.position >= old(reader.position)
    decreases |reader.tokens| - reader.position, 0
  {
    ghost var body := reader.Here()[1..];
    ghost var start := reader.position;
    var properties: seq<Entry> := [];
    reader.EnterContainer();
    assert body == reader.tokens[reader.position..];
    var next := reader.Next();
    while next.Element?
      invariant reader.Valid() && reader.position >= start
      invariant next.Element? ==>
                  reader.current.Some? && reader.position > start
                  && DecodeFields(body, []) == DecodeFields(reader.Here(), properties)
      invariant next.EndOfTlv? ==>
                  reader.current.None? && (reader.position < |reader.tokens| ==> reader.tokens[reader.position].Close?)
                  && DecodeFields(body, []) == DecodeFields(reader.tokens[reader.position..], properties)
      decreases |reader.tokens| - reader.position + (if next.Element? then 1 else 0)
    {
      ghost var here := reader.Here();
      var fieldTag := reader.GetTag();
      if !fieldTag.Context? {
        return Err(InvalidTag);
      }
      var field := DecodeTlvValue(reader);
      if field.Err? {
        return field;
      }
      properties := Store(properties, Decimal(fieldTag.number), field.value);
      next := reader.Next();
    }
    var ok := reader.ExitContainer();
    return if ok then Ok(Properties(properties)) else Err(Truncated);
  }

  method DecodeArray(reader: TlvReader) returns (r: Result<Value, Error>)
    requires reader.Valid() && reader.current.Some? && reader.current.value.Open?
    modifies reader
    ensures Stands(reader, old(reader.Here()), DecodeItems(old(reader.Here())[1..], []), r)
    ensures reader.position >= old(reader.position)
    decreases |reader.tokens| - reader.position, 0
  {
    ghost var body := reader.Here()[1..];
    ghost var start := reader.position;
    var items: seq<Value> := [];
    reader.EnterContainer();
    assert body == reader.tokens[reader.position..];
    var next := reader.Next();
    while next.Element?
      invariant reader.Valid() && reader.position >= start
      invariant next.Element? ==>
                  reader.current.Some? && reader.position > start
                  && DecodeItems(body, []) == DecodeItems(reader.Here(), items)
      invariant next.EndOfTlv? ==>
                  reader.current.None? && (reader.position < |reader.tokens| ==> reader.tokens[reader.position].Close?)
                  && DecodeItems(body, []) == DecodeItems(reader.tokens[reader.position..], items)
      decreases |reader.tokens| - reader.position + (if next.Element? then 1 else 0)
    {
      var item := DecodeTlvValue(reader);
      if item.Err? {
        return item;
      }
      items := items + [item.value];
      next := reader.Next();
    }
    var ok := reader.ExitContainer();
    return if ok then Ok(Items(items)) else Err(Truncated);
  }

  // ---------------------------------------------------------------------------------------------
  // Roots.
  // ---------------------------------------------------------------------------------------------

  const VALUE_KEY := "value"

  predicate HasKey(entries: seq<Entry>, key: string) {
    exists i | 0 <= i < |entries| :: entries[i].key == key
  }

  /** A root with the key "value" stands for that value alone; any other root is a structure. */
  function EncodeRoot(entries: seq<Entry>): Option<seq<Token>> {
    if !HasKey(entries, VALUE_KEY) then Encode(Anonymous, Properties(entries))
    else if |entries| == 1 then Encode(Anonymous, entries[0].value)
    else None
  }

  method EncodePropertySetRoot(entries: seq<Entry>) returns (r: Result<seq<Token>, WriteError>)
    ensures r.Ok? <==> EncodeRoot(entries).Some? && Total(EncodeRoot(entries).value) <= 65536
    ensures r.Ok? ==> Some(r.value) == EncodeRoot(entries)
    ensures r == Err(InvalidArgument) ==> EncodeRoot(entries).None?
    ensures !HasKey(entries, "value") && r.Ok? ==> Encode(Anonymous, Properties(entries)) == Some(r.value)
    ensures HasKey(entries, "value") && |entries| != 1 ==> r == Err(InvalidArgument)
    ensures HasKey(entries, "value") && r.Ok? ==> Encode(Anonymous, entries[0].value) == Some(r.value)
  {
    var writer := new TlvWriter(BUFFER_SIZE);
    var error: Option<WriteError>;
    if HasKey(entries, VALUE_KEY) {
      if |entries| != 1 {
        return Err(InvalidArgument);
      }
      error := EncodeInspectable(writer, Anonymous, entries[0].value);
    } else {
      error := EncodePropertySet(writer, Anonymous, Properties(entries));
    }
    if error.Some? {
      return Err(error.value);
    }
    assert EncodeRoot(entries).Some? && [] + EncodeRoot(entries).value == EncodeRoot(entries).value;
    return Ok(writer.tokens);
  }

  function AsRoot(v: Value): seq<Entry> {
    if v.Properties? then v.entries else [Entry(VALUE_KEY, v)]
  }

  method DecodePropertySetRoot(reader: TlvReader) returns (r: Result<seq<Entry>, Error>)
    requires reader.Valid() && reader.current.Some?
    modifies reader
    ensures r == match Decode(old(reader.Here()))
                 case Ok((v, _)) => Ok(if v.Properties? then v.entries else [Entry("value", v)])
                 case Err(e) => Err(e)
    ensures r.Ok? ==> reader.Valid() && reader.tokens[reader.position..] == Decode(old(reader.Here())).value.1
  {
    var decoded := DecodeTlvValue(reader);
    match decoded
    case Err(e) => r := Err(e);
    case Ok(v) => r := Ok(AsRoot(v));
  }

  /** The property set that comes back for the one that was sent. */
  function NormalRoot(entries: seq<Entry>): seq<Entry> {
    AsRoot(if HasKey(entries, VALUE_KEY) && |entries| == 1 then TlvLaws.Normal(entries[0].value)
           else TlvLaws.Normal(Properties(entries)))
  }

  /**
   Round trip of whole roots: a root that encodes and whose fields have distinct tags at every depth
   comes back as its normal form, with nothing left over.  A root "value" holding a property set
   comes back as that property set.
   */
  lemma RootRoundTrip(entries: seq<Entry>)
    requires EncodeRoot(entries).Some?
    requires if HasKey(entries, VALUE_KEY) then TlvLaws.WellTagged(entries[0].value) else TlvLaws.WellTagged(Properties(entries))
    ensures var ts := EncodeRoot(entries).value;
            ts != [] && !ts[0].Close? && Decode(ts).Ok? && Decode(ts).value.1 == [] && AsRoot(Decode(ts).value.0) == NormalRoot(entries)
  {
    var ts := EncodeRoot(entries).value;
    TlvLaws.RoundTrip(Anonymous, if HasKey(entries, VALUE_KEY) then entries[0].value else Properties(entries), []);
    assert ts + [] == ts;
  }

  lemma {:induction false} FieldKeysAreDecimal(es: seq<TlvLaws.Element>, done: seq<Entry>)
    requires TlvLaws.MeaningOfFields(es, done).Ok? && !HasKey(done, VALUE_KEY)
    ensures TlvLaws.MeaningOfFields(es, done).value.Properties?
    ensures !HasKey(TlvLaws.MeaningOfFields(es, done).value.entries, VALUE_KEY)
    decreases es
  {
    if es != [] {
      var v := TlvLaws.Meaning(es[0]).value;
      StoredKeys(done, es[0].tag.number, v);
      FieldKeysAreDecimal(es[1..], Store(done, Decimal(es[0].tag.number), v));
    }
  }

  /** A decimal key is never "value". */
  lemma StoredKeys(done: seq<Entry>, number: u8, v: Value)
    requires !HasKey(done, VALUE_KEY)
    ensures !HasKey(Store(done, Decimal(number), v), VALUE_KEY)
  {
    NumberOfDecimal(number);
    var key := Decimal(number);
    assert IsDigit(key[0]) by { assert key[0] in key; }
    assert VALUE_KEY[0] == 'v';
    StoreKeys(done, key, v);
  }

  lemma {:induction false} StoreKeys(done: seq<Entry>, key: string, v: Value)
    requires key != VALUE_KEY && !HasKey(done, VALUE_KEY)
    ensures !HasKey(Store(done, key, v), VALUE_KEY)
  {
    if done != [] {
      forall i | 0 <= i < |done[1..]| ensures done[1..][i].key != VALUE_KEY {
        assert done[1..][i] == done[i + 1];
      }
      StoreKeys(done[1..], key, v);
      var stored := Store(done, key, v);
      forall i | 0 <= i < |stored| ensures stored[i].key != VALUE_KEY {
        if i > 0 {
          assert stored[i] == stored[1..][i - 1];
        }
      }
    }
  }

  lemma {:induction false} ItemsStayItems(es: seq<TlvLaws.Element>, done: seq<Value>)
    ensures var m := TlvLaws.MeaningOfItems(es, done); m.Ok? ==> m.value.Items?
    decreases es
  {
    if es != [] && TlvLaws.Meaning(es[0]).Ok? {
      ItemsStayItems(es[1..], done + [TlvLaws.Meaning(es[0]).value]);
    }
  }

  /** Only a structure means a property set, and its keys are decimal. */
  lemma MeaningKeys(e: TlvLaws.Element)
    ensures var m := TlvLaws.Meaning(e); m.Ok? && m.value.Properties? ==> !HasKey(m.value.entries, VALUE_KEY)
  {
    if e.Box? && e.kind.Structure? {
      if TlvLaws.MeaningOfFields(e.children, []).Ok? {
        FieldKeysAreDecimal(e.children, []);
      }
    } else if e.Box? {
      ItemsStayItems(e.children, []);
    }
  }

  lemma RootOfValue(v: Value)
    requires v.Properties? ==> !HasKey(v.entries, VALUE_KEY)
    ensures EncodeRoot(AsRoot(v)) == Encode(Anonymous, v)
  {
    if !v.Properties? {
      assert AsRoot(v)[0].key == VALUE_KEY;
    }
  }

  /**
   Round trip of whole roots the other way: what was decoded from a canonical anonymous element encodes to
   exactly its tokens again.
   */
  lemma RootReencodes(e: TlvLaws.Element)
    requires TlvLaws.Canonical(e) && e.tag == Anonymous
    ensures TlvLaws.Meaning(e).Ok? && EncodeRoot(AsRoot(TlvLaws.Meaning(e).value)) == Some(TlvLaws.Flat(e))
    ensures Decode(TlvLaws.Flat(e)) == Ok((TlvLaws.Meaning(e).value, []))
  {
    TlvLaws.Reencode(e);
    MeaningKeys(e);
    RootOfValue(TlvLaws.Meaning(e).value);
    TlvLaws.DecodeMeansElement(e, []);
    assert TlvLaws.Flat(e) + [] == TlvLaws.Flat(e);
  }
}

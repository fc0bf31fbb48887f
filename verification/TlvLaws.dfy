/** What encoding and decoding promise each other. */
module TlvLaws {
  import opened Basics
  import opened Tlv

  // ---------------------------------------------------------------------------------------------
  // Round trip from values: decoding an encoded value gives its normal form.
  // ---------------------------------------------------------------------------------------------

  /** Integers at 64 bits by sign, floats at double, bytes in a vector, fields in tag order under decimal keys. */
  function Normal(v: Value): Value
    decreases v
  {
    match v
    case Int16(n) => Int64(n)
    case Int32(n) => Int64(n)
    case UInt8(n) => UInt64(n)
    case UInt16(n) => UInt64(n)
    case UInt32(n) => UInt64(n)
    case Single(r) => Double(r)
    case ByteArray(bytes) => ByteVector(bytes)
    case Items(items) => Items(NormalItems(items))
    case Properties(entries) => Properties(Keyed(Sort(NormalFields(entries))))
    case _ => v
  }

  function NormalItems(items: seq<Value>): seq<Value>
    decreases items
  {
    if items == [] then [] else [Normal(items[0])] + NormalItems(items[1..])
  }

  function NormalFields(entries: seq<Entry>): seq<Tagged<Value>>
    decreases entries
  {
    if entries == [] then []
    else
      var number := ParseTag(entries[0].key);
      (if number.None? then [] else [Tagged(number.value, Normal(entries[0].value))]) + NormalFields(entries[1..])
  }

  function Keyed(fields: seq<Tagged<Value>>): seq<Entry> {
    if fields == [] then [] else [Entry(Decimal(fields[0].number), fields[0].item)] + Keyed(fields[1..])
  }

  ghost predicate DifferentTags(entries: seq<Entry>) {
    forall i, j | 0 <= i < j < |entries| :: ParseTag(entries[i].key) != ParseTag(entries[j].key)
  }

  /** At every depth, the keys of a property set name different tags. */
  ghost predicate WellTagged(v: Value)
    decreases v
  {
    match v
    case Items(items) => forall i | 0 <= i < |items| :: WellTagged(items[i])
    case Properties(entries) =>
      && DifferentTags(entries)
      && (forall i | 0 <= i < |entries| :: WellTagged(entries[i].value))
    case _ => true
  }

  /** `tokens` is one element under context tag `number` that reads as `v`, whatever follows. */
  ghost predicate Reads(number: u8, tokens: seq<Token>, v: Value) {
    && tokens != [] && !tokens[0].Close? && tokens[0].tag == Context(number)
    && forall left :: Decode(tokens + left) == Ok((v, left))
  }

  ghost predicate Matching(fields: seq<Tagged<seq<Token>>>, values: seq<Tagged<Value>>) {
    Paired(fields, values, Reads)
  }

  lemma {:induction false} StoreAppends(entries: seq<Entry>, key: string, v: Value)
    requires forall e <- entries :: e.key != key
    ensures Store(entries, key, v) == entries + [Entry(key, v)]
    decreases |entries|
  {
    if entries == [] {
    } else {
      assert entries[0] in entries;
      StoreAppends(entries[1..], key, v);
    }
  }

  /** No key on the left is the key of a field on the right. */
  ghost predicate Fresh(done: seq<Entry>, fields: seq<Tagged<seq<Token>>>) {
    forall e <- done, f <- fields :: e.key != Decimal(f.number)
  }

  lemma FreshStep(done: seq<Entry>, fields: seq<Tagged<seq<Token>>>, v: Value)
    requires Fresh(done, fields) && Increasing(fields) && fields != []
    ensures Store(done, Decimal(fields[0].number), v) == done + [Entry(Decimal(fields[0].number), v)]
    ensures Fresh(done + [Entry(Decimal(fields[0].number), v)], fields[1..])
  {
    var f := fields[0];
    var added := Entry(Decimal(f.number), v);
    assert f in fields;
    StoreAppends(done, Decimal(f.number), v);
    forall e <- done + [added], g <- fields[1..] ensures e.key != Decimal(g.number) {
      assert e in done || e == added;
      assert g in fields && f.number < g.number;
      if e == added && e.key == Decimal(g.number) {
        DecimalInjective(f.number, g.number);
      }
    }
  }

  lemma {:induction false} FieldsRoundTrip(fields: seq<Tagged<seq<Token>>>, values: seq<Tagged<Value>>, done: seq<Entry>, left: seq<Token>)
    requires Increasing(fields) && Matching(fields, values) && Fresh(done, fields)
    ensures DecodeFields(Joined(fields) + ([Close] + left), done) == Ok((Properties(done + Keyed(values)), left))
    decreases |fields|
  {
    if fields == [] {
      assert Joined(fields) + ([Close] + left) == [Close] + left;
      assert done + Keyed(values) == done;
    } else {
      var f, v := fields[0], values[0].item;
      var others := Joined(fields[1..]) + ([Close] + left);
      var done' := done + [Entry(Decimal(f.number), v)];
      FreshStep(done, fields, v);
      MatchingTail(fields, values);
      FieldsRoundTrip(fields[1..], values[1..], done', left);
      KeyedStep(done, values);
      FieldRead(f.number, f.item, v, others, done);
      Assoc(f.item, Joined(fields[1..]), [Close] + left);
    }
  }

  lemma MatchingTail(fields: seq<Tagged<seq<Token>>>, values: seq<Tagged<Value>>)
    requires Matching(fields, values) && fields != []
    ensures Matching(fields[1..], values[1..])
    ensures fields[0].number == values[0].number && Reads(fields[0].number, fields[0].item, values[0].item)
  {}

  lemma KeyedStep(done: seq<Entry>, values: seq<Tagged<Value>>)
    requires values != []
    ensures done + [Entry(Decimal(values[0].number), values[0].item)] + Keyed(values[1..]) == done + Keyed(values)
  {}

  lemma Assoc<T>(a: seq<T>, b: seq<T>, c: seq<T>)
    ensures (a + b) + c == a + (b + c)
  {}

  lemma FieldRead(number: u8, tokens: seq<Token>, v: Value, others: seq<Token>, done: seq<Entry>)
    requires Reads(number, tokens, v)
    ensures DecodeFields(tokens + others, done) == DecodeFields(others, Store(done, Decimal(number), v))
  {
    assert Decode(tokens + others) == Ok((v, others));
  }

  lemma {:induction false} ItemsRoundTrip(items: seq<Value>, done: seq<Value>, left: seq<Token>)
    requires EncodeItems(items).Some? && forall i | 0 <= i < |items| :: WellTagged(items[i])
    ensures DecodeItems(EncodeItems(items).value + ([Close] + left), done) == Ok((Items(done + NormalItems(items)), left))
    decreases items, 0
  {
    if items == [] {
      assert EncodeItems(items).value + ([Close] + left) == [Close] + left;
      assert done + NormalItems(items) == done;
    } else {
      var others := EncodeItems(items[1..]).value + ([Close] + left);
      assert EncodeItems(items).value + ([Close] + left) == Encode(Anonymous, items[0]).value + others;
      RoundTrip(Anonymous, items[0], others);
      ItemsRoundTrip(items[1..], done + [Normal(items[0])], left);
      assert done + [Normal(items[0])] + NormalItems(items[1..]) == done + NormalItems(items);
    }
  }

  lemma {:induction false} EntriesRead(entries: seq<Entry>)
    requires EncodeEntries(entries).Some? && forall i | 0 <= i < |entries| :: WellTagged(entries[i].value)
    ensures Matching(EncodeEntries(entries).value, NormalFields(entries))
    decreases entries, 0
  {
    if entries == [] {
    } else {
      EntryReads(entries[0]);
      EntriesRead(entries[1..]);
      MatchingCons(FieldOf(entries[0]).value, EncodeEntries(entries[1..]).value,
                   Tagged(ParseTag(entries[0].key).value, Normal(entries[0].value)), NormalFields(entries[1..]));
    }
  }

  lemma {:induction false} EntryReads(entry: Entry)
    requires FieldOf(entry).Some? && WellTagged(entry.value)
    ensures Reads(FieldOf(entry).value.number, FieldOf(entry).value.item, Normal(entry.value))
    decreases entry, 0
  {
    var f := FieldOf(entry).value;
    RoundTrip(Context(f.number), entry.value, []);
    forall left ensures Decode(f.item + left) == Ok((Normal(entry.value), left)) {
      RoundTrip(Context(f.number), entry.value, left);
    }
  }

  lemma MatchingCons(f: Tagged<seq<Token>>, fields: seq<Tagged<seq<Token>>>, v: Tagged<Value>, values: seq<Tagged<Value>>)
    requires f.number == v.number && Reads(f.number, f.item, v.item) && Matching(fields, values)
    ensures Matching([f] + fields, [v] + values)
  {}

  lemma SortedRoundTrip(fields: seq<Tagged<seq<Token>>>, values: seq<Tagged<Value>>, left: seq<Token>)
    requires Distinct(fields) && Matching(fields, values)
    ensures DecodeFields(Joined(Sort(fields)) + ([Close] + left), []) == Ok((Properties(Keyed(Sort(values))), left))
  {
    SortPaired(fields, values, Reads);
    SortIncreases(fields);
    FieldsRoundTrip(Sort(fields), Sort(values), [], left);
    assert [] + Keyed(Sort(values)) == Keyed(Sort(values));
  }

  lemma Unwrap(tag: Tag, kind: Kind, body: seq<Token>, left: seq<Token>)
    ensures var ts := [Open(tag, kind)] + body + [Close] + left;
            Decode(ts) == if kind.Structure? then DecodeFields(body + ([Close] + left), []) else DecodeItems(body + ([Close] + left), [])
  {
    assert ([Open(tag, kind)] + body + [Close] + left)[1..] == body + ([Close] + left);
  }

  /**
   Round trip: if a value with distinctly tagged fields encodes at all, then reading the encoding,
   whatever follows it, gives the value's normal form and leaves exactly what followed.
   */
  lemma {:induction false} RoundTrip(tag: Tag, v: Value, left: seq<Token>)
    requires Encode(tag, v).Some? && WellTagged(v)
    ensures var ts := Encode(tag, v).value;
            ts != [] && !ts[0].Close? && ts[0].tag == tag && Decode(ts + left) == Ok((Normal(v), left))
    decreases v, 1
  {
    var ts := Encode(tag, v).value;
    match v
    case Items(items) =>
      ItemsRoundTrip(items, [], left);
      assert [] + NormalItems(items) == NormalItems(items);
      Unwrap(tag, Array, EncodeItems(items).value, left);
    case Properties(entries) =>
      EntriesRead(entries);
      DistinctFields(entries);
      SortedRoundTrip(EncodeEntries(entries).value, NormalFields(entries), left);
      Unwrap(tag, Structure, Joined(Sort(EncodeEntries(entries).value)), left);
    case _ =>
      ScalarRoundTrip(tag, v, left);
  }

  lemma ScalarRoundTrip(tag: Tag, v: Value, left: seq<Token>)
    requires !v.Items? && !v.Properties? && ScalarOf(v).Some?
    ensures Decode([Leaf(tag, ScalarOf(v).value)] + left) == Ok((Normal(v), left))
  {
    assert ([Leaf(tag, ScalarOf(v).value)] + left)[1..] == left;
  }

  // ---------------------------------------------------------------------------------------------
  // Round trip from elements: what decoding means, independently of positions.
  // ---------------------------------------------------------------------------------------------

  datatype Element = Plain(tag: Tag, scalar: Scalar) | Box(tag: Tag, kind: Kind, children: seq<Element>)

  function Flat(e: Element): (ts: seq<Token>)
    ensures ts != [] && !ts[0].Close? && ts[0].tag == e.tag
    decreases e
  {
    match e
    case Plain(tag, scalar) => [Leaf(tag, scalar)]
    case Box(tag, kind, children) => [Open(tag, kind)] + FlatAll(children) + [Close]
  }

  function FlatAll(es: seq<Element>): seq<Token>
    decreases es
  {
    if es == [] then [] else Flat(es[0]) + FlatAll(es[1..])
  }

  /** The value of an element: every field of a structure goes under that field's own tag. */
  function Meaning(e: Element): Result<Value, Error>
    decreases e
  {
    match e
    case Plain(_, scalar) => ValueOf(scalar)
    case Box(_, kind, children) =>
      if kind.Structure? then MeaningOfFields(children, []) else MeaningOfItems(children, [])
  }

  function MeaningOfFields(es: seq<Element>, done: seq<Entry>): Result<Value, Error>
    decreases es
  {
    if es == [] then Ok(Properties(done))
    else if !es[0].tag.Context? then Err(InvalidTag)
    else match Meaning(es[0])
      case Err(x) => Err(x)
      case Ok(v) => MeaningOfFields(es[1..], Store(done, Decimal(es[0].tag.number), v))
  }

  function MeaningOfItems(es: seq<Element>, done: seq<Value>): Result<Value, Error>
    decreases es
  {
    if es == [] then Ok(Items(done))
    else match Meaning(es[0])
      case Err(x) => Err(x)
      case Ok(v) => MeaningOfItems(es[1..], done + [v])
  }

  function Leaving(m: Result<Value, Error>, left: seq<Token>): Decoded {
    match m case Ok(v) => Ok((v, left)) case Err(x) => Err(x)
  }

  /** Reading an element consumes exactly its tokens: siblings behind it are met at their own start, under their own tags. */
  lemma {:induction false} DecodeMeansElement(e: Element, left: seq<Token>)
    ensures Decode(Flat(e) + left) == Leaving(Meaning(e), left)
    decreases e, 1
  {
    match e
    case Plain(_, _) => assert (Flat(e) + left)[1..] == left;
    case Box(_, kind, children) =>
      Unwrap(e.tag, kind, FlatAll(children), left);
      if kind.Structure? {
        FieldsMeanElements(children, [], left);
      } else {
        ItemsMeanElements(children, [], left);
      }
  }

  lemma {:induction false} FieldsMeanElements(es: seq<Element>, done: seq<Entry>, left: seq<Token>)
    ensures DecodeFields(FlatAll(es) + ([Close] + left), done) == Leaving(MeaningOfFields(es, done), left)
    decreases es, 0
  {
    if es == [] {
      assert FlatAll(es) + ([Close] + left) == [Close] + left;
    } else {
      var others := FlatAll(es[1..]) + ([Close] + left);
      assert FlatAll(es) + ([Close] + left) == Flat(es[0]) + others;
      DecodeMeansElement(es[0], others);
      if es[0].tag.Context? && Meaning(es[0]).Ok? {
        FieldsMeanElements(es[1..], Store(done, Decimal(es[0].tag.number), Meaning(es[0]).value), left);
      }
    }
  }

  lemma {:induction false} ItemsMeanElements(es: seq<Element>, done: seq<Value>, left: seq<Token>)
    ensures DecodeItems(FlatAll(es) + ([Close] + left), done) == Leaving(MeaningOfItems(es, done), left)
    decreases es, 0
  {
    if es == [] {
      assert FlatAll(es) + ([Close] + left) == [Close] + left;
    } else {
      var others := FlatAll(es[1..]) + ([Close] + left);
      assert FlatAll(es) + ([Close] + left) == Flat(es[0]) + others;
      DecodeMeansElement(es[0], others);
      if Meaning(es[0]).Ok? {
        ItemsMeanElements(es[1..], done + [Meaning(es[0]).value], left);
      }
    }
  }

  /** Nothing else is ever accepted: what was consumed is one whole element, and the result is its value. */
  lemma {:induction false} DecodeConsumesOneElement(ts: seq<Token>) returns (e: Element)
    requires ts != [] && !ts[0].Close? && Decode(ts).Ok?
    ensures ts == Flat(e) + Decode(ts).value.1 && Meaning(e) == Ok(Decode(ts).value.0)
    decreases |ts|, 0
  {
    match ts[0]
    case Leaf(tag, scalar) =>
      e := Plain(tag, scalar);
    case Open(tag, kind) =>
      var es: seq<Element>;
      if kind.Structure? {
        es := FieldsConsumed(ts[1..], []);
      } else {
        es := ItemsConsumed(ts[1..], []);
      }
      e := Box(tag, kind, es);
      assert ts == [ts[0]] + ts[1..];
      BoxIsWhole(tag, kind, es, ts[1..], Decode(ts).value.1);
  }

  lemma BoxIsWhole(tag: Tag, kind: Kind, es: seq<Element>, ts: seq<Token>, left: seq<Token>)
    requires ts == FlatAll(es) + ([Close] + left)
    ensures [Open(tag, kind)] + ts == Flat(Box(tag, kind, es)) + left
  {
    assert [Open(tag, kind)] + (FlatAll(es) + ([Close] + left)) == ([Open(tag, kind)] + FlatAll(es) + [Close]) + left;
  }

  lemma {:induction false} FieldsConsumed(ts: seq<Token>, done: seq<Entry>) returns (es: seq<Element>)
    requires DecodeFields(ts, done).Ok?
    ensures ts == FlatAll(es) + ([Close] + DecodeFields(ts, done).value.1)
    ensures MeaningOfFields(es, done) == Ok(DecodeFields(ts, done).value.0)
    decreases |ts|, 1
  {
    if ts[0].Close? {
      es := [];
    } else {
      var e := DecodeConsumesOneElement(ts);
      var (v, left) := Decode(ts).value;
      var others := FieldsConsumed(left, Store(done, Decimal(ts[0].tag.number), v));
      es := [e] + others;
      assert ts[0] == Flat(e)[0];
      OneFieldMore(e, others, done, v);
    }
  }

  lemma OneFieldMore(e: Element, others: seq<Element>, done: seq<Entry>, v: Value)
    requires e.tag.Context? && Meaning(e) == Ok(v)
    ensures FlatAll([e] + others) == Flat(e) + FlatAll(others)
    ensures MeaningOfFields([e] + others, done) == MeaningOfFields(others, Store(done, Decimal(e.tag.number), v))
  {
    assert ([e] + others)[1..] == others;
  }

  lemma {:induction false} ItemsConsumed(ts: seq<Token>, done: seq<Value>) returns (es: seq<Element>)
    requires DecodeItems(ts, done).Ok?
    ensures ts == FlatAll(es) + ([Close] + DecodeItems(ts, done).value.1)
    ensures MeaningOfItems(es, done) == Ok(DecodeItems(ts, done).value.0)
    decreases |ts|, 1
  {
    if ts[0].Close? {
      es := [];
    } else {
      var e := DecodeConsumesOneElement(ts);
      var (v, left) := Decode(ts).value;
      var others := ItemsConsumed(left, done + [v]);
      es := [e] + others;
      assert es[1..] == others;
    }
  }

  // ---------------------------------------------------------------------------------------------
  // Re-encoding, and independence of iteration order.
  // ---------------------------------------------------------------------------------------------

  ghost predicate RisingTags(es: seq<Element>)
    requires forall e <- es :: e.tag.Context?
  {
    forall i, j | 0 <= i < j < |es| :: es[i].tag.number < es[j].tag.number
  }

  /** Structures with increasing context tags, arrays of anonymous elements, wide floats, known types. */
  ghost predicate Canonical(e: Element)
    decreases e
  {
    match e
    case Plain(_, scalar) => !scalar.SOther? && (scalar.SFloat? ==> scalar.wide)
    case Box(_, kind, children) =>
      && !kind.List?
      && (forall i | 0 <= i < |children| :: Canonical(children[i]))
      && (kind.Array? ==> forall i | 0 <= i < |children| :: children[i].tag == Anonymous)
      && (kind.Structure? ==> (forall e <- children :: e.tag.Context?) && RisingTags(children))
  }

  function FieldTokens(es: seq<Element>): seq<Tagged<seq<Token>>>
    requires forall e <- es :: e.tag.Context?
  {
    if es == [] then []
    else
      assert es[0] in es && forall e <- es[1..] :: e in es;
      [Tagged(es[0].tag.number, Flat(es[0]))] + FieldTokens(es[1..])
  }

  /** Re-encoding what was decoded from a canonical element reproduces its tokens. */
  lemma {:induction false} Reencode(e: Element)
    requires Canonical(e)
    ensures Meaning(e).Ok? && Encode(e.tag, Meaning(e).value) == Some(Flat(e))
    decreases e, 2
  {
    match e
    case Plain(_, _) =>
    case Box(_, kind, children) =>
      if kind.Structure? {
        ReencodeStructureBox(e);
      } else {
        ReencodeArrayBox(e);
      }
  }

  lemma {:induction false} ReencodeStructureBox(e: Element)
    requires Canonical(e) && e.Box? && e.kind.Structure?
    ensures Meaning(e).Ok? && Encode(e.tag, Meaning(e).value) == Some(Flat(e))
    decreases e, 1
  {
    var entries := ReencodeFields(e.children, []);
    assert [] + entries == entries;
    ReencodeStructure(e.children, entries);
  }

  lemma {:induction false} ReencodeArrayBox(e: Element)
    requires Canonical(e) && e.Box? && e.kind.Array?
    ensures Meaning(e).Ok? && Encode(e.tag, Meaning(e).value) == Some(Flat(e))
    decreases e, 1
  {
    var items := ReencodeItems(e.children, []);
    assert [] + items == items;
  }

  lemma ReencodeStructure(es: seq<Element>, entries: seq<Entry>)
    requires (forall e <- es :: e.tag.Context?) && RisingTags(es) && EncodeEntries(entries) == Some(FieldTokens(es))
    ensures Joined(Sort(EncodeEntries(entries).value)) == FlatAll(es)
  {
    FieldTokensIncrease(es);
    SortKeepsIncreasing(FieldTokens(es));
  }

  lemma {:induction false} FieldTokensIncrease(es: seq<Element>)
    requires (forall e <- es :: e.tag.Context?) && RisingTags(es)
    ensures |FieldTokens(es)| == |es| && forall i | 0 <= i < |es| :: FieldTokens(es)[i].number == es[i].tag.number
    ensures Increasing(FieldTokens(es)) && Joined(FieldTokens(es)) == FlatAll(es)
    decreases |es|
  {
    if es == [] {
    } else {
      FieldTokensIncrease(es[1..]);
    }
  }

  ghost predicate FreshFor(done: seq<Entry>, es: seq<Element>) {
    forall d <- done, i | 0 <= i < |es| && es[i].tag.Context? :: d.key != Decimal(es[i].tag.number)
  }

  lemma FreshForTail(done: seq<Entry>, es: seq<Element>, v: Value)
    requires es != [] && (forall e <- es :: e.tag.Context?) && RisingTags(es) && FreshFor(done, es)
    ensures var added := Entry(Decimal(es[0].tag.number), v);
            FreshFor(done + [added], es[1..]) && Store(done, added.key, v) == done + [added]
    ensures (forall e <- es[1..] :: e.tag.Context?) && RisingTags(es[1..])
  {
    var added := Entry(Decimal(es[0].tag.number), v);
    StoreAppends(done, added.key, v);
    forall d <- done + [added], i | 0 <= i < |es[1..]| ensures d.key != Decimal(es[1..][i].tag.number) {
      assert d in done || d == added;
      if d == added && d.key == Decimal(es[i + 1].tag.number) {
        DecimalInjective(es[0].tag.number, es[i + 1].tag.number);
      }
    }
  }

  lemma EncodeEntriesStep(number: u8, v: Value, others: seq<Entry>)
    requires Encode(Context(number), v).Some? && EncodeEntries(others).Some?
    ensures EncodeEntries([Entry(Decimal(number), v)] + others)
            == Some([Tagged(number, Encode(Context(number), v).value)] + EncodeEntries(others).value)
  {
    ParseDecimal(number);
    assert ([Entry(Decimal(number), v)] + others)[1..] == others;
  }

  lemma MeaningStep(es: seq<Element>, done: seq<Entry>, v: Value, done': seq<Entry>, others: seq<Entry>)
    requires es != [] && es[0].tag.Context? && Meaning(es[0]) == Ok(v)
    requires done' == Store(done, Decimal(es[0].tag.number), v) == done + [Entry(Decimal(es[0].tag.number), v)]
    requires MeaningOfFields(es[1..], done') == Ok(Properties(done' + others))
    ensures MeaningOfFields(es, done) == Ok(Properties(done + ([Entry(Decimal(es[0].tag.number), v)] + others)))
  {
    assert done' + others == done + ([Entry(Decimal(es[0].tag.number), v)] + others);
  }

  lemma {:induction false} ReencodeFields(es: seq<Element>, done: seq<Entry>) returns (entries: seq<Entry>)
    requires (forall e <- es :: e.tag.Context?) && RisingTags(es) && FreshFor(done, es)
    requires forall i | 0 <= i < |es| :: Canonical(es[i])
    ensures MeaningOfFields(es, done) == Ok(Properties(done + entries))
    ensures EncodeEntries(entries) == Some(FieldTokens(es))
    decreases es, 0
  {
    if es == [] {
      entries := [];
      assert done + entries == done;
    } else {
      assert es[0] in es;
      Reencode(es[0]);
      var number, v := es[0].tag.number, Meaning(es[0]).value;
      FreshForTail(done, es, v);
      var done' := done + [Entry(Decimal(number), v)];
      var others := ReencodeFields(es[1..], done');
      entries := [Entry(Decimal(number), v)] + others;
      EncodeEntriesStep(number, v, others);
      MeaningStep(es, done, v, done', others);
    }
  }

  lemma {:induction false} ReencodeItems(es: seq<Element>, done: seq<Value>) returns (items: seq<Value>)
    requires forall i | 0 <= i < |es| :: Canonical(es[i]) && es[i].tag == Anonymous
    ensures MeaningOfItems(es, done) == Ok(Items(done + items))
    ensures EncodeItems(items) == Some(FlatAll(es))
    decreases es, 0
  {
    if es == [] {
      items := [];
      assert done + items == done;
    } else {
      Reencode(es[0]);
      var v := Meaning(es[0]).value;
      var others := ReencodeItems(es[1..], done + [v]);
      items := [v] + others;
      assert items[1..] == others && done + [v] + others == done + items;
    }
  }

  /** The field an entry contributes on its own. */
  function FieldOf(entry: Entry): Option<Tagged<seq<Token>>> {
    var number := ParseTag(entry.key);
    if number.None? then None else
    var ts := Encode(Context(number.value), entry.value);
    if ts.None? then None else Some(Tagged(number.value, ts.value))
  }

  lemma {:induction false} EncodeEntriesPointwise(entries: seq<Entry>)
    ensures EncodeEntries(entries).Some? <==> forall x <- entries :: FieldOf(x).Some?
    ensures EncodeEntries(entries).Some? ==>
              forall i | 0 <= i < |entries| :: FieldOf(entries[i]) == Some(EncodeEntries(entries).value[i])
    decreases |entries|
  {
    if entries == [] {
    } else {
      EncodeEntriesPointwise(entries[1..]);
      assert entries[0] in entries && forall x <- entries[1..] :: x in entries;
      assert forall x <- entries :: x == entries[0] || x in entries[1..];
    }
  }

  lemma SameFields(entries: seq<Entry>, others: seq<Entry>, f: Tagged<seq<Token>>)
    requires (forall x :: x in entries ==> x in others)
    requires EncodeEntries(entries).Some? && EncodeEntries(others).Some? && f in EncodeEntries(entries).value
    ensures f in EncodeEntries(others).value
  {
    EncodeEntriesPointwise(entries);
    EncodeEntriesPointwise(others);
    var i :| 0 <= i < |entries| && EncodeEntries(entries).value[i] == f;
    assert FieldOf(entries[i]) == Some(f) && entries[i] in others;
    var j :| 0 <= j < |others| && others[j] == entries[i];
    assert FieldOf(others[j]) == Some(EncodeEntries(others).value[j]);
  }

  lemma DistinctFields(entries: seq<Entry>)
    requires DifferentTags(entries) && EncodeEntries(entries).Some?
    ensures Distinct(EncodeEntries(entries).value)
  {
    EncodeEntriesPointwise(entries);
    var fs := EncodeEntries(entries).value;
    forall i, j | 0 <= i < j < |fs| ensures fs[i].number != fs[j].number {
      assert FieldOf(entries[i]) == Some(fs[i]) && FieldOf(entries[j]) == Some(fs[j]);
    }
  }

  /** A property set encodes the same in whatever order its entries are enumerated, or fails in every order. */
  lemma OrderDoesNotMatter(tag: Tag, entries: seq<Entry>, others: seq<Entry>)
    requires forall x :: x in entries <==> x in others
    requires DifferentTags(entries) && DifferentTags(others)
    ensures Encode(tag, Properties(entries)) == Encode(tag, Properties(others))
  {
    EncodeEntriesPointwise(entries);
    EncodeEntriesPointwise(others);
    if EncodeEntries(entries).Some? {
      assert forall x <- others :: x in entries;
      var fs, gs := EncodeEntries(entries).value, EncodeEntries(others).value;
      DistinctFields(entries);
      DistinctFields(others);
      SortIncreases(fs);
      SortIncreases(gs);
      forall f ensures f in Sort(fs) <==> f in Sort(gs) {
        SortHas(fs, f);
        SortHas(gs, f);
        if f in fs { SameFields(entries, others, f); }
        if f in gs { SameFields(others, entries, f); }
      }
      IncreasingUnique(Sort(fs), Sort(gs));
    } else {
      assert forall x <- entries :: x in others;
    }
  }

  // ---------------------------------------------------------------------------------------------
  // What can be encoded, and what can be decoded.
  // ---------------------------------------------------------------------------------------------

  /** At every depth, no value of an unsupported type, and only keys that name a tag. */
  predicate Encodable(v: Value)
    decreases v
  {
    match v
    case Unsupported => false
    case Items(items) => forall i | 0 <= i < |items| :: Encodable(items[i])
    case Properties(entries) =>
      forall i | 0 <= i < |entries| :: ParseTag(entries[i].key).Some? && Encodable(entries[i].value)
    case _ => true
  }

  /** Encoding refuses exactly the values that hold an unsupported type or a key that names no tag. */
  lemma {:induction false} EncodesIff(tag: Tag, v: Value)
    ensures Encode(tag, v).Some? <==> Encodable(v)
    decreases v, 1
  {
    match v
    case Items(items) => ItemsEncodeIff(items);
    case Properties(entries) => EntriesEncodeIff(entries);
    case _ =>
  }

  lemma {:induction false} ItemsEncodeIff(items: seq<Value>)
    ensures EncodeItems(items).Some? <==> forall i | 0 <= i < |items| :: Encodable(items[i])
    decreases items, 0
  {
    if items != [] {
      EncodesIff(Anonymous, items[0]);
      ItemsEncodeIff(items[1..]);
      assert forall i | 0 < i < |items| :: items[i] == items[1..][i - 1];
    }
  }

  lemma {:induction false} EntriesEncodeIff(entries: seq<Entry>)
    ensures EncodeEntries(entries).Some? <==>
            forall i | 0 <= i < |entries| :: ParseTag(entries[i].key).Some? && Encodable(entries[i].value)
    decreases entries, 0
  {
    if entries != [] {
      var number := ParseTag(entries[0].key);
      if number.Some? {
        EncodesIff(Context(number.value), entries[0].value);
      }
      EntriesEncodeIff(entries[1..]);
      assert forall i | 0 < i < |entries| :: entries[i] == entries[1..][i - 1];
    }
  }

  /** At every depth, only known element types, and only context tags inside structures. */
  predicate Understood(e: Element)
    decreases e
  {
    match e
    case Plain(_, scalar) => !scalar.SOther?
    case Box(_, kind, children) =>
      forall i | 0 <= i < |children| :: Understood(children[i]) && (kind.Structure? ==> children[i].tag.Context?)
  }

  /** Decoding refuses exactly the elements that hold an unknown type or, in a structure, another tag. */
  lemma {:induction false} DecodesIff(e: Element)
    ensures Meaning(e).Ok? <==> Understood(e)
    decreases e, 1
  {
    match e
    case Plain(_, _) =>
    case Box(_, kind, children) =>
      if kind.Structure? {
        FieldsDecodeIff(children, []);
      } else {
        ItemsDecodeIff(children, []);
      }
  }

  lemma {:induction false} FieldsDecodeIff(es: seq<Element>, done: seq<Entry>)
    ensures MeaningOfFields(es, done).Ok? <==>
            forall i | 0 <= i < |es| :: Understood(es[i]) && es[i].tag.Context?
    decreases es, 0
  {
    if es != [] {
      DecodesIff(es[0]);
      if es[0].tag.Context? && Meaning(es[0]).Ok? {
        FieldsDecodeIff(es[1..], Store(done, Decimal(es[0].tag.number), Meaning(es[0]).value));
      }
      assert forall i | 0 < i < |es| :: es[i] == es[1..][i - 1];
    }
  }

  lemma {:induction false} ItemsDecodeIff(es: seq<Element>, done: seq<Value>)
    ensures MeaningOfItems(es, done).Ok? <==> forall i | 0 <= i < |es| :: Understood(es[i])
    decreases es, 0
  {
    if es != [] {
      DecodesIff(es[0]);
      if Meaning(es[0]).Ok? {
        ItemsDecodeIff(es[1..], done + [Meaning(es[0]).value]);
      }
      assert forall i | 0 < i < |es| :: es[i] == es[1..][i - 1];
    }
  }

  // ---------------------------------------------------------------------------------------------
  // Repeated tags: the last field wins.
  // ---------------------------------------------------------------------------------------------

  ghost predicate OneEach(entries: seq<Entry>) {
    forall i, j | 0 <= i < j < |entries| :: entries[i].key != entries[j].key
  }

  predicate IsUnder(e: Element, key: string) {
    e.tag.Context? && Decimal(e.tag.number) == key
  }

  predicate NoneUnder(es: seq<Element>, key: string) {
    forall i | 0 <= i < |es| :: !IsUnder(es[i], key)
  }

  /** The last of the fields under the entry's key means the entry's value. */
  ghost predicate LastIs(es: seq<Element>, x: Entry) {
    exists i | 0 <= i < |es| :: IsUnder(es[i], x.key) && Meaning(es[i]) == Ok(x.value) && NoneUnder(es[i + 1..], x.key)
  }

  lemma LastIsStep(es: seq<Element>, x: Entry)
    requires es != []
    ensures LastIs(es, x) <==>
            LastIs(es[1..], x) || (IsUnder(es[0], x.key) && Meaning(es[0]) == Ok(x.value) && NoneUnder(es[1..], x.key))
  {
    if i :| 0 <= i < |es| && IsUnder(es[i], x.key) && Meaning(es[i]) == Ok(x.value) && NoneUnder(es[i + 1..], x.key) {
      if i > 0 {
        assert es[1..][i - 1] == es[i] && es[1..][i - 1 + 1..] == es[i + 1..];
      }
    }
    if i :| 0 <= i < |es[1..]| && IsUnder(es[1..][i], x.key) && Meaning(es[1..][i]) == Ok(x.value) && NoneUnder(es[1..][i + 1..], x.key) {
      assert es[1..][i] == es[i + 1] && es[1..][i + 1..] == es[i + 1 + 1..];
    }
  }

  lemma OneEachRest(entries: seq<Entry>)
    requires OneEach(entries) && entries != []
    ensures OneEach(entries[1..]) && forall x <- entries[1..] :: x.key != entries[0].key
  {}

  lemma OneEachMore(first: Entry, rest: seq<Entry>)
    requires OneEach(rest) && forall x <- rest :: x.key != first.key
    ensures OneEach([first] + rest)
  {}

  lemma {:induction false} StoreHas(entries: seq<Entry>, key: string, v: Value, x: Entry)
    requires OneEach(entries)
    ensures x in Store(entries, key, v) <==> x == Entry(key, v) || (x in entries && x.key != key)
  {
    if entries != [] {
      OneEachRest(entries);
      assert entries == [entries[0]] + entries[1..];
      if entries[0].key != key {
        StoreHas(entries[1..], key, v, x);
      }
    }
  }

  /** Storing under a key puts it in the place of whatever was there, and touches nothing else. */
  lemma {:induction false} StoreReplaces(entries: seq<Entry>, key: string, v: Value)
    requires OneEach(entries)
    ensures OneEach(Store(entries, key, v))
    ensures forall x: Entry :: x in Store(entries, key, v) <==> x == Entry(key, v) || (x in entries && x.key != key)
  {
    forall x: Entry ensures x in Store(entries, key, v) <==> x == Entry(key, v) || (x in entries && x.key != key) {
      StoreHas(entries, key, v, x);
    }
    if entries != [] {
      OneEachRest(entries);
      if entries[0].key == key {
        OneEachMore(Entry(key, v), entries[1..]);
      } else {
        StoreReplaces(entries[1..], key, v);
        OneEachMore(entries[0], Store(entries[1..], key, v));
      }
    }
  }

  lemma {:induction false} FieldsAreStored(es: seq<Element>, done: seq<Entry>)
    requires OneEach(done) && MeaningOfFields(es, done).Ok?
    ensures var m := MeaningOfFields(es, done).value;
            && m.Properties? && OneEach(m.entries)
            && forall x: Entry :: x in m.entries <==> LastIs(es, x) || (x in done && NoneUnder(es, x.key))
    decreases |es|
  {
    if es != [] {
      var key, v := Decimal(es[0].tag.number), Meaning(es[0]).value;
      StoreReplaces(done, key, v);
      FieldsAreStored(es[1..], Store(done, key, v));
      forall x: Entry ensures LastIs(es, x) <==> LastIs(es[1..], x) || (x == Entry(key, v) && NoneUnder(es[1..], key)) {
        LastIsStep(es, x);
      }
      assert forall k: string :: NoneUnder(es, k) <==> k != key && NoneUnder(es[1..], k) by {
        assert es == [es[0]] + es[1..];
      }
    }
  }

  /**
   A structure decodes to one entry a tag, even where the tag is repeated: the last field under it wins, and
   nothing that is not such a field has an entry.
   */
  lemma LastFieldWins(tag: Tag, es: seq<Element>)
    requires Meaning(Box(tag, Structure, es)).Ok?
    ensures var m := Meaning(Box(tag, Structure, es)).value;
            m.Properties? && OneEach(m.entries) && forall x: Entry :: x in m.entries <==> LastIs(es, x)
  {
    FieldsAreStored(es, []);
  }
}

// Lazily decoded argument lists: MessagePackList (slices of one MessagePack
// array) and the List<JsonElement> helpers.
module ElementLists {
  import opened Wrappers
  import opened DokanTypes

  // ---- MessagePackList ----

  /**
   * The parts of the MessagePack library the list relies on, abstract: the
   * array header at the front of the data (element count and header size),
   * and the extent of the element that starts at a position (Skip).
   */
  datatype MessagePackReader = MessagePackReader(
    readArrayHeader: seq<byte> -> Option<(nat, nat)>,
    skip: (seq<byte>, nat) -> Option<nat>)

  /** A MessagePackElement: a slice of the list's data, kept with its offset. */
  datatype Element = Element(start: nat, bytes: seq<byte>)

  function End(e: Element): nat
  {
    e.start + |e.bytes|
  }

  const OutOfBounds := "MessagePackList - Out of bounds"
  const IndexOutOfRange := "ArgumentOutOfRangeException: index"
  const MalformedData := "MessagePackSerializationException"

  /** Element slices are back to back, the first at `pos`, each an exact slice of `data`. */
  predicate Contiguous(data: seq<byte>, pos: nat, items: seq<Element>)
  {
    (|items| > 0 ==> items[0].start == pos) &&
    (forall i :: 0 <= i < |items| - 1 ==> items[i + 1].start == End(items[i])) &&
    (forall i :: 0 <= i < |items| ==> End(items[i]) <= |data| && items[i].bytes == data[items[i].start..End(items[i])])
  }

  /** The slices of `n` consecutive elements starting at `pos`; None when a skip fails or runs past the data. */
  function SliceElements(skip: (seq<byte>, nat) -> Option<nat>, data: seq<byte>, pos: nat, n: nat): (r: Option<seq<Element>>)
    ensures r.Some? ==> |r.value| == n && Contiguous(data, pos, r.value)
    decreases n
  {
    if n == 0 then Some([])
    else
      match skip(data, pos)
      case None => None
      case Some(size) =>
        if pos + size > |data| then None
        else
          match SliceElements(skip, data, pos + size, n - 1)
          case None => None
          case Some(rest) => Some([Element(pos, data[pos..pos + size])] + rest)
  }

  /** The list the constructor builds: one slice per element the header announces. */
  function ElementsOf(reader: MessagePackReader, data: seq<byte>): Option<seq<Element>>
  {
    match reader.readArrayHeader(data)
    case None => None
    case Some((count, headerSize)) => SliceElements(reader.skip, data, headerSize, count)
  }

  function Prefixed(items: seq<Element>, o: Option<seq<Element>>): Option<seq<Element>>
  {
    match o case None => None case Some(rest) => Some(items + rest)
  }

  /** One element of SliceElements: it fails with the skip, or puts one slice in front of the rest. */
  lemma SliceStep(skip: (seq<byte>, nat) -> Option<nat>, data: seq<byte>, pos: nat, n: nat)
    requires n > 0
    ensures skip(data, pos).None? || pos + skip(data, pos).value > |data| ==> SliceElements(skip, data, pos, n) == None
    ensures skip(data, pos).Some? && pos + skip(data, pos).value <= |data| ==>
      var size := skip(data, pos).value;
      SliceElements(skip, data, pos, n) ==
        Prefixed([Element(pos, data[pos..pos + size])], SliceElements(skip, data, pos + size, n - 1))
  {
  }

  lemma PrefixedTwice(a: seq<Element>, b: seq<Element>, o: Option<seq<Element>>)
    ensures Prefixed(a, Prefixed(b, o)) == Prefixed(a + b, o)
  {
    if o.Some? {
      assert a + (b + o.value) == (a + b) + o.value;
    }
  }

  /**
   * The constructor's loop: read the header, then for each element record
   * where it starts and how far Skip takes the reader.
   */
  method ReadElements(reader: MessagePackReader, data: seq<byte>) returns (r: Result<seq<Element>, string>)
    ensures r.Ok? <==> ElementsOf(reader, data).Some?
    ensures r.Ok? ==> r.value == ElementsOf(reader, data).value
    ensures r.Ok? ==> |r.value| == reader.readArrayHeader(data).value.0
    ensures r.Ok? ==> Contiguous(data, reader.readArrayHeader(data).value.1, r.value)
  {
    var header := reader.readArrayHeader(data);
    if header.None? {
      return Err(MalformedData);
    }
    var (count, headerSize) := header.value;
    var items: seq<Element> := [];
    var pos: nat := headerSize;
    ghost var whole := SliceElements(reader.skip, data, headerSize, count);
    assert Prefixed([], whole) == whole by {
      if whole.Some? {
        assert [] + whole.value == whole.value;
      }
    }
    for i := 0 to count
      invariant |items| == i
      invariant whole == Prefixed(items, SliceElements(reader.skip, data, pos, count - i))
    {
      SliceStep(reader.skip, data, pos, count - i);
      var size := reader.skip(data, pos);
      if size.None? || pos + size.value > |data| {
        return Err(MalformedData);
      }
      var e := Element(pos, data[pos..pos + size.value]);
      PrefixedTwice(items, [e], SliceElements(reader.skip, data, pos + size.value, count - i - 1));
      items := items + [e];
      pos := pos + size.value;
    }
    assert items + [] == items;
    r := Ok(items);
  }

  class MessagePackList {
    var items: seq<Element>
    const data: seq<byte>

    constructor FromElements(data: seq<byte>, items: seq<Element>)
      ensures this.data == data && this.items == items
    {
      this.data := data;
      this.items := items;
    }

    /** The MessagePackList constructor: Count is the header's length and the slices are contiguous. */
    static method Create(reader: MessagePackReader, data: seq<byte>) returns (r: Result<MessagePackList, string>)
      ensures r.Ok? <==> ElementsOf(reader, data).Some?
      ensures r.Ok? ==> fresh(r.value) && r.value.data == data && r.value.items == ElementsOf(reader, data).value
    {
      var elements := ReadElements(reader, data);
      if elements.Err? {
        return Err(elements.error);
      }
      var list := new MessagePackList.FromElements(data, elements.value);
      r := Ok(list);
    }

    function Length(): nat
      reads this
    {
      |items|
    }

    function Count(): nat
      reads this
    {
      |items|
    }

    /** Length and Count are the same number. */
    lemma LengthIsCount()
      ensures Length() == Count() == |items|
    {
    }

    /** GetItem: the range check, then the element decoded (decoding failures throw). */
    function GetItem<T>(index: int, decode: seq<byte> -> Option<T>): (r: Result<T, string>)
      reads this
      ensures (index < 0 || index >= |items|) ==> r == Err(IndexOutOfRange)
      ensures 0 <= index < |items| ==> (r.Ok? <==> decode(items[index].bytes).Some?)
      ensures r.Ok? ==> 0 <= index < |items| && decode(items[index].bytes) == Some(r.value)
    {
      if index < 0 || index >= |items| then Err(IndexOutOfRange)
      else match decode(items[index].bytes)
        case None => Err(MalformedData)
        case Some(v) => Ok(v)
    }

    /** Shift: element 0 decoded and removed; on an empty list, or when decoding fails, the list is unchanged. */
    method Shift<T>(decode: seq<byte> -> Option<T>) returns (r: Result<T, string>)
      modifies this
      ensures old(items) == [] ==> r == Err(OutOfBounds) && items == old(items)
      ensures old(items) != [] && decode(old(items)[0].bytes).None? ==> r.Err? && items == old(items)
      ensures old(items) != [] && decode(old(items)[0].bytes).Some? ==>
        r == Ok(decode(old(items)[0].bytes).value) && items == old(items)[1..] && |items| == |old(items)| - 1
    {
      if Length() == 0 {
        return Err(OutOfBounds);
      }
      var ret := GetItem(0, decode);
      if ret.Err? {
        return ret;
      }
      items := items[1..];
      r := ret;
    }
  }

  // ---- List<JsonElement> helpers ----

  /** A JsonElement, kept as its raw text. */
  datatype JsonElement = JsonElement(raw: string)

  /** The JsonSerializerOptions setting that matters here. */
  datatype JsonOptions = JsonOptions(propertyNameCaseInsensitive: bool)

  const DefaultJsonOptions := JsonOptions(true)

  /** `options ?? DefaultJsonSerializerOptions` */
  function EffectiveOptions(options: Option<JsonOptions>): (o: JsonOptions)
    ensures options.None? ==> o == DefaultJsonOptions && o.propertyNameCaseInsensitive
    ensures options.Some? ==> o == options.value
  {
    if options.None? then DefaultJsonOptions else options.value
  }

  /** JsonElement.Deserialize, abstract; Err stands for a JsonException. */
  type Deserializer<T> = (JsonElement, JsonOptions) -> Result<T, string>

  class JsonElementList {
    var elements: seq<JsonElement>

    constructor (elements: seq<JsonElement>)
      ensures this.elements == elements
    {
      this.elements := elements;
    }

    /** Get / GetItem / Deserialize at an index: the element read with the effective options; an index outside the list throws. */
    function Get<T>(i: int, deserialize: Deserializer<T>, options: Option<JsonOptions>): (r: Result<T, string>)
      reads this
      ensures !(0 <= i < |elements|) ==> r == Err("ArgumentOutOfRangeException")
      ensures 0 <= i < |elements| ==> r == deserialize(elements[i], EffectiveOptions(options))
    {
      if 0 <= i < |elements| then deserialize(elements[i], EffectiveOptions(options)) else Err("ArgumentOutOfRangeException")
    }

    /**
     * Shift: element 0 deserialised, then removed. There is no guard: an
     * empty list throws on the index; a failed deserialisation throws before
     * the removal.
     */
    method Shift<T>(deserialize: Deserializer<T>, options: Option<JsonOptions>) returns (r: Result<T, string>)
      modifies this
      ensures old(elements) == [] ==> r.Err? && elements == old(elements)
      ensures old(elements) != [] ==> r == deserialize(old(elements)[0], EffectiveOptions(options))
      ensures old(elements) != [] && r.Ok? ==> elements == old(elements)[1..]
      ensures r.Err? ==> elements == old(elements)
    {
      r := Get(0, deserialize, options);
      if r.Ok? {
        elements := elements[1..];
      }
    }
  }
}

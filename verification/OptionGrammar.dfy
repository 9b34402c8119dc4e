/** The options of RFC 2132 section 2 as a grammar, and the parser on every input. */
module OptionGrammar {
  import opened Bytes
  import opened Seqs
  import opened Options

  /** A pad byte, or an option with its code, length and value. */
  datatype Item = Pad | Field(code: byte, value: seq<byte>) {
    predicate Valid() { Field? ==> code != 0 && code != 255 && |value| < 0x100 }

    function Bytes(): seq<byte>
      requires Valid()
    {
      match this
      case Pad => [0]
      case Field(code, value) => [code, |value|] + value
    }
  }

  ghost predicate AllValid(items: seq<Item>) { forall i :: 0 <= i < |items| ==> items[i].Valid() }

  function BytesOf(items: seq<Item>): seq<byte>
    requires AllValid(items)
  {
    if items == [] then [] else items[0].Bytes() + BytesOf(items[1..])
  }

  /** The options among the items. */
  function OptionsOf(items: seq<Item>): seq<Opt> {
    if items == [] then []
    else (if items[0].Field? then [Opt(items[0].code, items[0].value)] else []) + OptionsOf(items[1..])
  }

  /** The end of the data, or the end marker with anything behind it. */
  predicate Ends(tail: seq<byte>) { tail == [] || tail[0] == 255 }

  /** An option whose length or value is cut off. */
  predicate CutOff(tail: seq<byte>) {
    tail != [] && tail[0] != 0 && tail[0] != 255 && (|tail| == 1 || |tail| < 2 + tail[1] as int)
  }

  lemma ParseTail(tail: seq<byte>, options: OptionMap)
    requires Ends(tail) || CutOff(tail)
    ensures Parse(tail, options) == if Ends(tail) then Ok(options) else Error
  {
  }

  lemma ParseItem(item: Item, rest: seq<byte>, options: OptionMap)
    requires item.Valid()
    ensures
      Parse(item.Bytes() + rest, options)
      == Parse(rest, if item.Pad? then options else options[item.code := item.value])
  {
    var data := item.Bytes() + rest;
    if item.Pad? {
      assert data[0] == 0 && data[1..] == rest;
    } else {
      assert data[0] == item.code && data[1] == |item.value|;
      assert data[2..2 + |item.value|] == item.value && data[2 + |item.value|..] == rest;
    }
  }

  /** Items are read one behind the other, pads mean nothing, and what follows them decides between
      success and failure. */
  lemma {:induction false} ParseItems(items: seq<Item>, tail: seq<byte>, options: OptionMap)
    requires AllValid(items) && (Ends(tail) || CutOff(tail))
    ensures
      Parse(BytesOf(items) + tail, options)
      == if Ends(tail) then Ok(LastValues(options, OptionsOf(items))) else Error
    decreases |items|
  {
    hide Parse, Ends, CutOff;
    if items == [] {
      Empty(tail);
      ParseTail(tail, options);
    } else {
      var item, rest := items[0], items[1..];
      Assoc(item.Bytes(), BytesOf(rest), tail);
      ParseItem(item, BytesOf(rest) + tail, options);
      if item.Pad? {
        Empty(OptionsOf(rest));
        ParseItems(rest, tail, options);
      } else {
        ParseItems(rest, tail, options[item.code := item.value]);
        Tail([Opt(item.code, item.value)], OptionsOf(rest));
        Empty(OptionsOf(rest));
      }
    }
  }

  /** Every input is such a series of items with such a tail, so that this is all there is. */
  lemma {:induction false} Decompose(data: seq<byte>) returns (items: seq<Item>, tail: seq<byte>)
    ensures AllValid(items) && data == BytesOf(items) + tail && (Ends(tail) || CutOff(tail))
    decreases |data|
  {
    if Ends(data) || CutOff(data) {
      items, tail := [], data;
      Empty(data);
    } else {
      var n := if data[0] == 0 then 1 else 2 + data[1] as int;
      var item := if data[0] == 0 then Pad else Field(data[0], data[2..n]);
      items, tail := Decompose(data[n..]);
      ItemFront(data, item, n);
      hide Ends, CutOff;
      Assoc(item.Bytes(), BytesOf(items), tail);
      Tail([item], items);
      Empty(items);
      items := [item] + items;
    }
  }

  lemma ItemFront(data: seq<byte>, item: Item, n: nat)
    requires 0 < n <= |data| && item.Valid()
    requires if item.Pad? then n == 1 && data[0] == 0
             else n >= 2 && n == 2 + data[1] as int && item == Field(data[0], data[2..n])
    ensures data == item.Bytes() + data[n..]
  {
    assert item.Bytes() == data[..n];
  }
}

/** The tag-length-value parser of g3-codec, with one tag byte and two length bytes. */
module Tlv {
  import opened Basics

  datatype Item = Item(tag: Byte, value: seq<Byte>)

  /** How a parse ended: all consumed, cut short, or stopped by the visitor. */
  datatype Outcome<E> = Done | NoEnoughData | Refused(error: E)

  const HEADER: nat := 3

  predicate Fits(items: seq<Item>) {
    forall i :: i in items ==> |i.value| < 0x1_0000
  }

  function EncodeItem(i: Item): seq<Byte>
    requires |i.value| < 0x1_0000
  {
    [i.tag, |i.value| / 256, |i.value| % 256] + i.value
  }

  function Encode(items: seq<Item>): seq<Byte>
    requires Fits(items)
  {
    if items == [] then [] else EncodeItem(items[0]) + Encode(items[1..])
  }

  /** The big-endian 16-bit number of two bytes. */
  function Word(high: int, low: int): int {
    high * 256 + low
  }

  /** A complete item stands at the front of `v`. */
  predicate Starts(v: seq<Byte>) {
    HEADER <= |v| && HEADER + Word(v[1], v[2]) <= |v|
  }

  function First(v: seq<Byte>): Item
    requires Starts(v)
  {
    Item(v[0], v[HEADER..HEADER + Word(v[1], v[2])])
  }

  function Rest(v: seq<Byte>): seq<Byte>
    requires Starts(v)
  {
    v[HEADER + Word(v[1], v[2])..]
  }

  /** The items at the front of `v` and what is left behind them. */
  function Split(v: seq<Byte>): (seq<Item>, seq<Byte>)
    decreases |v|
  {
    if !Starts(v) then ([], v)
    else
      var (items, rest) := Split(Rest(v));
      ([First(v)] + items, rest)
  }

  lemma SplitStep(v: seq<Byte>)
    requires Starts(v)
    ensures Split(v) == ([First(v)] + Split(Rest(v)).0, Split(Rest(v)).1)
  {
  }

  lemma SplitStop(v: seq<Byte>)
    requires !Starts(v)
    ensures Split(v) == ([], v)
  {
  }

  lemma FirstIsEncoded(v: seq<Byte>)
    requires Starts(v)
    ensures |First(v).value| < 0x1_0000 && v == EncodeItem(First(v)) + Rest(v)
  {
  }

  lemma EncodedIsFirst(i: Item, rest: seq<Byte>)
    requires |i.value| < 0x1_0000
    ensures Starts(EncodeItem(i) + rest)
    ensures First(EncodeItem(i) + rest) == i && Rest(EncodeItem(i) + rest) == rest
  {
    var v := EncodeItem(i) + rest;
    assert Word(v[1], v[2]) == |i.value|;
    assert v[HEADER..HEADER + |i.value|] == i.value;
  }

  /** Whatever the bytes, they are the encoding of the items split off and a remainder
      that starts no item. */
  lemma {:induction false} SplitIsEncoding(v: seq<Byte>)
    ensures var (items, rest) := Split(v);
            Fits(items) && v == Encode(items) + rest && !Starts(rest)
    decreases |v|
  {
    if Starts(v) {
      FirstIsEncoded(v);
      SplitIsEncoding(Rest(v));
      var items := Split(Rest(v)).0;
      SplitStep(v);
      assert ([First(v)] + items)[1..] == items;
      assert Encode([First(v)] + items) == EncodeItem(First(v)) + Encode(items);
    }
  }

  lemma EncodeNone()
    ensures Encode([]) == []
  {
  }

  lemma EncodeStep(items: seq<Item>)
    requires items != [] && Fits(items)
    ensures Fits(items[1..]) && Encode(items) == EncodeItem(items[0]) + Encode(items[1..])
  {
  }

  /** Splitting an encoding gives the items back. */
  lemma {:induction false} SplitEncode(items: seq<Item>, rest: seq<Byte>)
    requires Fits(items) && !Starts(rest)
    ensures Split(Encode(items) + rest) == (items, rest)
  {
    hide Split, Encode, EncodeItem, First, Rest, Starts;
    if items == [] {
      EncodeNone();
      assert Encode(items) + rest == rest;
      SplitStop(rest);
    } else {
      EncodeStep(items);
      var tail := Encode(items[1..]) + rest;
      SplitEncode(items[1..], rest);
      EncodedIsFirst(items[0], tail);
      assert Encode(items) + rest == EncodeItem(items[0]) + tail;
      SplitStep(EncodeItem(items[0]) + tail);
      assert [items[0]] + items[1..] == items;
    }
  }

  predicate Complete(v: seq<Byte>) {
    Split(v).0 != [] && Split(v).1 == []
  }

  ghost predicate IsEncoding(v: seq<Byte>, items: seq<Item>) {
    items != [] && Fits(items) && Encode(items) == v
  }

  /** The buffers taken to the end are exactly the encodings of non-empty lists, and each
      is the encoding of one list only. */
  lemma CompleteIsEncoding(v: seq<Byte>)
    ensures Complete(v) <==> exists items :: IsEncoding(v, items)
    ensures forall items :: IsEncoding(v, items) ==> items == Split(v).0
  {
    SplitIsEncoding(v);
    if Complete(v) {
      assert v + [] == v;
      assert IsEncoding(v, Split(v).0);
    }
    forall items | IsEncoding(v, items)
      ensures Complete(v) && items == Split(v).0
    {
      SplitEncode(items, []);
      assert Encode(items) + [] == v;
    }
  }

  /** A visitor over `items` from state `s`, up to its first refusal. */
  function Visit<S, E>(visit: (S, Item) -> (S, Option<E>), s: S, items: seq<Item>): (S, Option<E>) {
    if items == [] then (s, None)
    else
      var (next, error) := visit(s, items[0]);
      if error.Some? then (next, error) else Visit(visit, next, items[1..])
  }

  lemma VisitNone<S, E>(visit: (S, Item) -> (S, Option<E>), s: S)
    ensures Visit(visit, s, []) == (s, None)
  {
  }

  lemma VisitStep<S, E>(visit: (S, Item) -> (S, Option<E>), s: S, i: Item, items: seq<Item>)
    ensures var (next, error) := visit(s, i);
            Visit(visit, s, [i] + items) ==
            if error.Some? then (next, error) else Visit(visit, next, items)
  {
    assert ([i] + items)[1..] == items;
  }

  /** The loop, with the value handed to any visitor. Its result is that of the visitor
      over the items in order. */
  method Parse<S, E>(v: seq<Byte>, start: S, visit: (S, Item) -> (S, Option<E>)) returns (s: S, r: Outcome<E>)
    ensures s == Visit(visit, start, Split(v).0).0
    ensures match Visit(visit, start, Split(v).0).1
            case Some(e) => r == Refused(e)
            case None => r == if Complete(v) then Done else NoEnoughData
  {
    hide Split, Visit, First, Rest;
    var offset := 0;
    s := start;
    assert v[0..] == v;
    while true
      invariant 0 <= offset <= |v|
      invariant Visit(visit, start, Split(v).0) == Visit(visit, s, Split(v[offset..]).0)
      invariant Split(v).1 == Split(v[offset..]).1
      invariant offset == 0 || (offset < |v| && Split(v).0 != [])
      decreases |v| - offset
    {
      var front := v[offset..];
      if offset + HEADER > |v| {
        SplitStop(front);
        VisitNone(visit, s);
        return s, NoEnoughData;
      }
      var tag, length := front[0], Word(front[1], front[2]);
      offset := offset + HEADER;
      if offset + length > |v| {
        SplitStop(front);
        VisitNone(visit, s);
        return s, NoEnoughData;
      }
      var item := Item(tag, v[offset..offset + length]);
      offset := offset + length;
      FrontItem(v, offset - length - HEADER, length);
      SplitStep(front);
      VisitStep(visit, s, item, Split(v[offset..]).0);
      var (next, error) := visit(s, item);
      s := next;
      if error.Some? {
        return s, Refused(error.value);
      }
      if offset == |v| {
        SplitStop(v[offset..]);
        VisitNone(visit, s);
        return s, Done;
      }
    }
  }

  lemma FrontItem(v: seq<Byte>, offset: nat, length: nat)
    requires offset + HEADER + length <= |v| && length == Word(v[offset + 1], v[offset + 2])
    ensures Starts(v[offset..])
    ensures First(v[offset..]) == Item(v[offset], v[offset + HEADER..offset + HEADER + length])
    ensures Rest(v[offset..]) == v[offset + HEADER + length..]
  {
  }
}

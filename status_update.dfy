/** `AiAgentStatusUpdate`: the ordered list of records of one agent run,
    flattened to `['items' => [record arrays…]]` and rebuilt from that
    form through the factory. */
module StatusUpdate {
  import opened PhpValues
  import UI = UpdateItems
  import opened ItemFactory

  /** One element of `items` handed to `createFromArray(array $data)`: an
      object is a string-keyed array; a list has no `type` key, so the
      factory sees NULL; anything else is not an array at all. */
  function DecodeItem(v: Value): (r: Result<UI.Record>)
    ensures v.Dict? ==> r == CreateFromArray(v.fields)
    ensures !v.Dict? ==> r.Failure?
  {
    match v
    case Dict(fields) => CreateFromArray(fields)
    case List(_) => Failure(UnknownType(Null))
    case _ => Failure(Malformed("items"))
  }

  /** One element of `items`: the record's own array. */
  function EncodeItem(r: UI.Record): Value {
    Dict(UI.ToArray(r))
  }

  /** The list a front-to-back traversal builds with `encode`, one element
      per record. */
  function EncodeAll(encode: UI.Record -> Value, items: seq<UI.Record>): (vs: seq<Value>)
    ensures |vs| == |items|
    decreases |items|
  {
    if items == [] then []
    else EncodeAll(encode, items[..|items| - 1]) + [encode(items[|items| - 1])]
  }

  /** The `items` list of `toArray()`, one record array per record. */
  function EncodeItems(items: seq<UI.Record>): seq<Value> {
    EncodeAll(EncodeItem, items)
  }

  /** Encoding one more record appends its element. */
  lemma EncodeStep(encode: UI.Record -> Value, items: seq<UI.Record>, i: nat)
    requires i < |items|
    ensures EncodeAll(encode, items[..i + 1]) == EncodeAll(encode, items[..i]) + [encode(items[i])]
  {
    assert items[..i + 1][..i] == items[..i];
  }

  /** The records a front-to-back traversal decodes with `decode`; the
      first element `decode` refuses aborts it with that element's error. */
  function DecodeAll(decode: Value -> Result<UI.Record>, vs: seq<Value>): (r: Result<seq<UI.Record>>)
    ensures r.Success? ==> |r.value| == |vs|
    decreases |vs|
  {
    if vs == [] then Success([])
    else
      var init :- DecodeAll(decode, vs[..|vs| - 1]);
      var last :- decode(vs[|vs| - 1]);
      Success(init + [last])
  }

  /** The records `fromArray()` appends, front to back. */
  function DecodeItems(vs: seq<Value>): Result<seq<UI.Record>> {
    DecodeAll(DecodeItem, vs)
  }

  /** `toArray()` of the aggregate. */
  function ItemsToWire(items: seq<UI.Record>): Wire {
    map["items" := List(EncodeItems(items))]
  }

  /** The values of a string-keyed array in iteration order, where that
      order is determined by the map alone: none, or the only one. A map
      keeps no insertion order, so two or more values have no order here. */
  ghost function OrderedValues(fields: map<string, Value>): (r: Option<seq<Value>>)
    ensures r.Some? <==> |fields| <= 1
    ensures r.Some? ==> |r.value| == |fields| && forall v :: v in r.value ==> v in fields.Values
  {
    if |fields| == 0 then Some([])
    else if |fields| == 1 then
      assert fields.Keys != {};
      var k :| k in fields;
      Some([fields[k]])
    else None
  }

  /** A one-key map has one key. */
  lemma OnlyKey(fields: map<string, Value>, a: string, b: string)
    requires |fields| == 1 && a in fields && b in fields
    ensures a == b
  {
    if a != b {
      assert {a} + {b} <= fields.Keys;
      assert |{a} + {b}| == 2;
      SubsetCard({a} + {b}, fields.Keys);
    }
  }

  lemma {:induction false} SubsetCard(a: set<string>, b: set<string>)
    requires a <= b
    ensures |a| <= |b|
    decreases |a|
  {
    if a != {} {
      var x :| x in a;
      SubsetCard(a - {x}, b - {x});
    }
  }

  /** `fromArray()` of the aggregate. A missing or scalar `items` entry is
      iterated as nothing, giving an empty aggregate; an array is walked
      value by value, a list in order and a string-keyed array only when
      its order is known (see `OrderedValues`). */
  ghost function WireToItems(data: Wire): Result<seq<UI.Record>> {
    if "items" !in data then Success([])
    else match data["items"]
      case List(vs) => DecodeItems(vs)
      case Dict(fields) =>
        (match OrderedValues(fields)
         case Some(vs) => DecodeItems(vs)
         case None => Failure(Malformed("items")))
      case _ => Success([])
  }

  /** A successful decode holds, at each position, what `decode` makes of
      that element; a failed one carries the error of some element
      `decode` refused. */
  lemma {:induction false} DecodeAllPointwise(decode: Value -> Result<UI.Record>, vs: seq<Value>)
    ensures DecodeAll(decode, vs).Success? ==>
              forall i :: 0 <= i < |vs| ==> decode(vs[i]) == Success(DecodeAll(decode, vs).value[i])
    ensures DecodeAll(decode, vs).Failure? ==>
              exists i :: 0 <= i < |vs| && decode(vs[i]) == Failure(DecodeAll(decode, vs).error)
    decreases |vs|
  {
    if vs != [] {
      var init := vs[..|vs| - 1];
      DecodeAllPointwise(decode, init);
      if DecodeAll(decode, init).Failure? {
        var i :| 0 <= i < |init| && decode(init[i]) == Failure(DecodeAll(decode, init).error);
        assert vs[i] == init[i];
      } else if decode(vs[|vs| - 1]).Failure? {
        assert DecodeAll(decode, vs).error == decode(vs[|vs| - 1]).error;
      } else {
        forall i | 0 <= i < |vs|
          ensures decode(vs[i]) == Success(DecodeAll(decode, vs).value[i])
        {
          if i < |vs| - 1 {
            assert vs[i] == init[i];
          }
        }
      }
    }
  }

  /** Once a prefix fails to decode, the whole list fails with the same
      error. */
  lemma {:induction false} DecodePrefixFailure(decode: Value -> Result<UI.Record>, vs: seq<Value>, n: nat)
    requires n <= |vs| && DecodeAll(decode, vs[..n]).Failure?
    ensures DecodeAll(decode, vs) == DecodeAll(decode, vs[..n])
    decreases |vs| - n
  {
    if n < |vs| {
      assert vs[..n + 1][..n] == vs[..n];
      DecodePrefixFailure(decode, vs, n + 1);
    } else {
      assert vs[..n] == vs;
    }
  }

  /** One step of a front-to-back decode over a successfully decoded
      prefix: the next element either extends it or ends the whole decode
      with its error. */
  lemma DecodeStep(decode: Value -> Result<UI.Record>, vs: seq<Value>, i: nat, prefix: seq<UI.Record>)
    requires i < |vs| && DecodeAll(decode, vs[..i]) == Success(prefix)
    ensures decode(vs[i]).Success? ==>
              DecodeAll(decode, vs[..i + 1]) == Success(prefix + [decode(vs[i]).value])
    ensures decode(vs[i]).Failure? ==> DecodeAll(decode, vs) == Failure(decode(vs[i]).error)
  {
    assert vs[..i + 1][..i] == vs[..i];
    if decode(vs[i]).Failure? {
      DecodePrefixFailure(decode, vs, i + 1);
    }
  }

  /** The factory rebuilds each encoded record. */
  lemma DecodeItemRoundTrip(r: UI.Record)
    ensures DecodeItem(EncodeItem(r)) == Success(r)
  {
    FactoryRoundTrip(r);
  }

  /** Decoding an encoded list, with a decoder that inverts the encoder,
      gives back the same records in the same order. */
  lemma {:induction false} DecodeEncodeAll(decode: Value -> Result<UI.Record>, encode: UI.Record -> Value,
                                           items: seq<UI.Record>)
    requires forall r :: decode(encode(r)) == Success(r)
    ensures DecodeAll(decode, EncodeAll(encode, items)) == Success(items)
    decreases |items|
  {
    if items != [] {
      var init := items[..|items| - 1];
      var last := items[|items| - 1];
      var es := EncodeAll(encode, items);
      DecodeEncodeAll(decode, encode, init);
      assert es[..|es| - 1] == EncodeAll(encode, init) && es[|es| - 1] == encode(last);
      assert init + [last] == items;
    }
  }

  /** The aggregate's `fromArray(toArray())` restores its item list. */
  lemma AggregateRoundTrip(items: seq<UI.Record>)
    ensures WireToItems(ItemsToWire(items)) == Success(items)
  {
    forall r: UI.Record
      ensures DecodeItem(EncodeItem(r)) == Success(r)
    {
      DecodeItemRoundTrip(r);
    }
    DecodeEncodeAll(DecodeItem, EncodeItem, items);
  }

  /** A one-element list decodes to what `decode` makes of its element. */
  lemma DecodeOne(decode: Value -> Result<UI.Record>, v: Value)
    ensures decode(v).Success? ==> DecodeAll(decode, [v]) == Success([decode(v).value])
    ensures decode(v).Failure? ==> DecodeAll(decode, [v]) == Failure(decode(v).error)
  {
    assert [v][..0] == [] && [v][0] == v;
    if decode(v).Success? {
      assert [] + [decode(v).value] == [decode(v).value];
    }
  }

  /** A string-keyed `items` array with one entry is walked as that entry. */
  lemma KeyedItemDecodes(k: string, v: Value)
    ensures WireToItems(map["items" := Dict(map[k := v])]) == DecodeItems([v])
  {
    assert map[k := v].Keys == {k};
  }

  /** An `items` array keyed by a string still hands its value to the
      factory: one record under any key decodes to that record, and an
      empty one to no records. */
  lemma KeyedItemsDecode(k: string, r: UI.Record)
    ensures WireToItems(map["items" := Dict(map[k := EncodeItem(r)])]) == Success([r])
    ensures WireToItems(map["items" := Dict(map[])]) == Success([])
  {
    KeyedItemDecodes(k, EncodeItem(r));
    DecodeItemRoundTrip(r);
    DecodeOne(DecodeItem, EncodeItem(r));
  }

  /** The aggregate object: its item list is replaced, appended to or
      cleared in place. */
  class AiAgentStatusUpdate {
    var items: seq<UI.Record>

    constructor ()
      ensures items == []
    {
      items := [];
    }

    method SetItems(newItems: seq<UI.Record>)
      modifies this
      ensures items == newItems
    {
      items := newItems;
    }

    method AddItem(item: UI.Record)
      modifies this
      ensures items == old(items) + [item]
    {
      items := items + [item];
    }

    method ClearItems()
      modifies this
      ensures items == []
    {
      items := [];
    }

    /** `toArray()`: one record array per item, in order. */
    method ToArray() returns (w: Wire)
      ensures w == ItemsToWire(items)
      ensures WireToItems(w) == Success(items)
    {
      var out: seq<Value> := [];
      var i := 0;
      while i < |items|
        invariant 0 <= i <= |items|
        invariant out == EncodeAll(EncodeItem, items[..i])
      {
        EncodeStep(EncodeItem, items, i);
        out := out + [EncodeItem(items[i])];
        i := i + 1;
      }
      assert items[..i] == items;
      w := map["items" := List(out)];
      AggregateRoundTrip(items);
    }

    /** `fromArray()`: a fresh aggregate to which every decoded record is
        added in turn; the first element the factory refuses ends it. */
    static method FromArray(data: Wire) returns (r: Result<AiAgentStatusUpdate>)
      ensures r.Success? ==> fresh(r.value) && WireToItems(data) == Success(r.value.items)
      ensures r.Failure? ==> WireToItems(data) == Failure(r.error)
    {
      var instance := new AiAgentStatusUpdate();
      if "items" !in data {
        return Success(instance);
      }
      var vs: seq<Value>;
      match data["items"] {
        case List(elems) => vs := elems;
        case Dict(fields) =>
          if |fields| == 0 {
            vs := [];
          } else if |fields| == 1 {
            var k :| k in fields;
            vs := [fields[k]];
            forall j | j in fields
              ensures j == k
            {
              OnlyKey(fields, j, k);
            }
          } else {
            return Failure(Malformed("items"));
          }
        case _ => return Success(instance);
      }
      assert WireToItems(data) == DecodeAll(DecodeItem, vs);
      var i := 0;
      while i < |vs|
        invariant 0 <= i <= |vs|
        invariant fresh(instance)
        invariant DecodeAll(DecodeItem, vs[..i]) == Success(instance.items)
      {
        var item := DecodeItem(vs[i]);
        DecodeStep(DecodeItem, vs, i, instance.items);
        if item.Failure? {
          return Failure(item.error);
        }
        instance.AddItem(item.value);
        i := i + 1;
      }
      assert vs[..i] == vs;
      return Success(instance);
    }
  }
}

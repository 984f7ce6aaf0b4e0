/** `InMemoryArtifactStorage`: tool outputs kept for the length of one agent
    run, under the key `"<tool id>:<index>"`.

    The PHP array is ordered; `order` lists its keys in insertion order and
    `artifacts` maps each key to its value. The ghost field `owners`
    records which tool id and index each key was built from. */
module ArtifactStorage {
  import opened PhpValues
  import opened Decimal

  /** `"$tool_id:$index"`. */
  function Key(toolId: string, index: int): string {
    toolId + ":" + IntToString(index)
  }

  /** `str_starts_with()`. */
  predicate StartsWith(s: string, prefix: string) {
    |prefix| <= |s| && s[..|prefix|] == prefix
  }

  /** A tool's own keys start with its prefix and end with the index. */
  lemma KeyShape(toolId: string, index: int)
    ensures StartsWith(Key(toolId, index), toolId + ":")
    ensures Key(toolId, index)[|toolId| + 1..] == IntToString(index)
  {
  }

  /** Behind a shorter tool's prefix, another tool's key still holds the
      ':' of its own separator. */
  lemma ColonAfterShortPrefix(toolId: string, t: string, j: int)
    requires StartsWith(Key(t, j), toolId + ":") && |toolId| < |t|
    ensures ':' in Key(t, j)[|toolId| + 1..]
  {
    var k := Key(t, j);
    assert k[|toolId| + 1..][|t| - |toolId| - 1] == k[|t|] == ':';
  }

  /** A prefix longer than the tool id of `t:d` ends inside `d`. */
  lemma ColonInsideIndex(toolId: string, t: string, d: string)
    requires StartsWith(t + ":" + d, toolId + ":") && |toolId| > |t|
    ensures ':' in d
  {
    var k := t + ":" + d;
    assert k[|toolId|] == (toolId + ":")[|toolId|] == ':';
    assert d[|toolId| - |t| - 1] == k[|toolId|];
  }

  /** Only a tool's own keys start with its prefix and end in a whole
      integer: an index never contains ':', so the prefix cannot reach into
      it, and a longer tool id leaves a ':' in what follows the prefix. */
  lemma KeyParts(toolId: string, t: string, j: int, i: int)
    requires StartsWith(Key(t, j), toolId + ":")
    requires ParseInt(Key(t, j)[|toolId| + 1..]) == Some(i)
    ensures t == toolId && j == i
  {
    var k := Key(t, j);
    var rest := k[|toolId| + 1..];
    if |toolId| < |t| {
      ColonAfterShortPrefix(toolId, t, j);
      assert false;
    } else if |toolId| > |t| {
      ColonInsideIndex(toolId, t, IntToString(j));
      assert false;
    } else {
      assert t == k[..|t|] == toolId;
      assert rest == IntToString(j);
      ParseIntRoundTrip(j);
    }
  }

  /** Distinct (tool id, index) pairs never share a key. */
  lemma KeyInjective(t1: string, i1: int, t2: string, i2: int)
    requires Key(t1, i1) == Key(t2, i2)
    ensures t1 == t2 && i1 == i2
  {
    KeyShape(t1, i1);
    ParseIntRoundTrip(i1);
    KeyParts(t1, t2, i2, i1);
  }

  /** `get()`: the stored value, or NULL for a key never stored. */
  function Lookup(artifacts: map<string, Value>, toolId: string, index: int): Value {
    var k := Key(toolId, index);
    if k in artifacts then artifacts[k] else Null
  }

  /** `has()`: `isset()` is false for a missing key and for a stored NULL. */
  predicate IsSet(artifacts: map<string, Value>, toolId: string, index: int) {
    var k := Key(toolId, index);
    k in artifacts && artifacts[k] != Null
  }

  /** A stored value is read back, and storing it leaves every other
      (tool id, index) pair as it was. */
  lemma LookupAfterStore(artifacts: map<string, Value>, toolId: string, index: int, value: Value,
                         t: string, i: int)
    ensures Lookup(artifacts[Key(toolId, index) := value], toolId, index) == value
    ensures (t, i) != (toolId, index) ==>
              Lookup(artifacts[Key(toolId, index) := value], t, i) == Lookup(artifacts, t, i)
    ensures IsSet(artifacts[Key(toolId, index) := value], toolId, index) <==> value != Null
  {
    if Key(t, i) == Key(toolId, index) {
      KeyInjective(t, i, toolId, index);
    }
  }

  /** The piece `[, $i] = explode(':', $key, 2)` binds, cast to `int`: the
      text after the first ':' read by `IntCast`, or NULL (cast to 0) when
      there is no ':'. `IntCast` follows PHP's cast on the index numerals
      `store()` writes, not on every text that may follow a colon. */
  function IndexPart(key: string): (i: int)
    ensures ':' !in key ==> i == 0
  {
    if ':' !in key then 0
    else
      var colon := FirstColon(key);
      IntCast(key[colon + 1..])
  }

  function FirstColon(s: string): (k: nat)
    requires ':' in s
    ensures k < |s| && s[k] == ':' && ':' !in s[..k]
  {
    if s[0] == ':' then 0
    else
      assert s == [s[0]] + s[1..];
      var k := 1 + FirstColon(s[1..]);
      assert s[..k] == [s[0]] + s[1..][..k - 1];
      k
  }

  /** One step of the intended scan: the running maximum only moves to an
      index of the tool's own key, and covers that key's index. */
  lemma ScanKey(toolId: string, key: string, t: string, j: int, max: int, newMax: int)
    requires key == Key(t, j)
    requires var prefix := toolId + ":";
             var parsed := if StartsWith(key, prefix) then ParseInt(key[|prefix|..]) else None;
             newMax == if parsed.Some? && parsed.value > max then parsed.value else max
    ensures newMax >= max
    ensures newMax == max || (t == toolId && j == newMax)
    ensures forall i :: Key(toolId, i) == key ==> i <= newMax
  {
    var prefix := toolId + ":";
    if StartsWith(key, prefix) && ParseInt(key[|prefix|..]).Some? {
      KeyParts(toolId, t, j, ParseInt(key[|prefix|..]).value);
    }
    forall i | Key(toolId, i) == key
      ensures i <= newMax
    {
      KeyShape(toolId, i);
      ParseIntRoundTrip(i);
    }
  }

  /** The running maximum of the intended scan over `keys`, in order. */
  function ScanMax(toolId: string, keys: seq<string>): int
    decreases |keys|
  {
    if keys == [] then 0
    else
      var max := ScanMax(toolId, keys[..|keys| - 1]);
      var key := keys[|keys| - 1];
      var prefix := toolId + ":";
      var parsed := if StartsWith(key, prefix) then ParseInt(key[|prefix|..]) else None;
      if parsed.Some? && parsed.value > max then parsed.value else max
  }

  /** Over keys that all come from `store()`, the scan ends at the highest
      index stored for the tool, or 0 when there is none. */
  lemma {:induction false} ScanMaxBounds(toolId: string, keys: seq<string>,
                                         owners: map<string, (string, int)>)
    requires forall k :: k in keys ==> k in owners && k == Key(owners[k].0, owners[k].1)
    ensures ScanMax(toolId, keys) >= 0
    ensures forall i :: Key(toolId, i) in keys ==> i <= ScanMax(toolId, keys)
    ensures ScanMax(toolId, keys) == 0 || Key(toolId, ScanMax(toolId, keys)) in keys
    decreases |keys|
  {
    if keys != [] {
      var init := keys[..|keys| - 1];
      var key := keys[|keys| - 1];
      assert keys == init + [key];
      ScanMaxBounds(toolId, init, owners);
      ScanKey(toolId, key, owners[key].0, owners[key].1, ScanMax(toolId, init), ScanMax(toolId, keys));
    }
  }

  /** `order` lists each stored key once, and every key was built by
      `store()` from the tool id and index `owners` records. */
  ghost predicate Indexed(artifacts: map<string, Value>, order: seq<string>,
                          owners: map<string, (string, int)>)
  {
    && (forall k :: k in artifacts <==> k in order)
    && Distinct(order)
    && owners.Keys == artifacts.Keys
    && (forall k :: k in owners ==> k == Key(owners[k].0, owners[k].1))
  }

  ghost predicate Distinct(order: seq<string>) {
    forall p, q :: 0 <= p < q < |order| ==> order[p] != order[q]
  }

  lemma DistinctAppend(order: seq<string>, key: string)
    requires Distinct(order) && key !in order
    ensures Distinct(order + [key])
  {
  }

  lemma IndexedAfterStore(artifacts: map<string, Value>, order: seq<string>,
                          owners: map<string, (string, int)>, toolId: string, index: int, value: Value)
    requires Indexed(artifacts, order, owners)
    ensures var key := Key(toolId, index);
            Indexed(artifacts[key := value],
                    if key in artifacts then order else order + [key],
                    owners[key := (toolId, index)])
  {
    var key := Key(toolId, index);
    if key !in artifacts {
      DistinctAppend(order, key);
    }
  }

  /** The scan over the key list, stated over the stored artifacts. */
  lemma NextIndexBounds(toolId: string, artifacts: map<string, Value>, order: seq<string>,
                        owners: map<string, (string, int)>)
    requires Indexed(artifacts, order, owners)
    ensures ScanMax(toolId, order) >= 0
    ensures forall i :: Key(toolId, i) in artifacts ==> i <= ScanMax(toolId, order)
    ensures ScanMax(toolId, order) == 0 || Key(toolId, ScanMax(toolId, order)) in artifacts
  {
    ScanMaxBounds(toolId, order, owners);
  }

  class InMemoryArtifactStorage {
    var artifacts: map<string, Value>
    var order: seq<string>
    ghost var owners: map<string, (string, int)>

    ghost predicate Valid()
      reads this
    {
      Indexed(artifacts, order, owners)
    }

    constructor ()
      ensures Valid() && artifacts == map[] && order == []
    {
      artifacts := map[];
      order := [];
      owners := map[];
    }

    /** `store()`: sets the value under the key; a new key goes last, an
        existing one keeps its place. */
    method Store(toolId: string, index: int, value: Value)
      requires Valid()
      modifies this
      ensures Valid()
      ensures artifacts == old(artifacts)[Key(toolId, index) := value]
      ensures order == if Key(toolId, index) in old(artifacts) then old(order)
                       else old(order) + [Key(toolId, index)]
    {
      var key := Key(toolId, index);
      IndexedAfterStore(artifacts, order, owners, toolId, index, value);
      if key !in artifacts {
        order := order + [key];
      }
      artifacts := artifacts[key := value];
      owners := owners[key := (toolId, index)];
    }

    method Get(toolId: string, index: int) returns (v: Value)
      ensures v == Lookup(artifacts, toolId, index)
    {
      var key := Key(toolId, index);
      v := if key in artifacts then artifacts[key] else Null;
    }

    method Has(toolId: string, index: int) returns (h: bool)
      ensures h == IsSet(artifacts, toolId, index)
    {
      var key := Key(toolId, index);
      h := key in artifacts && artifacts[key] != Null;
    }

    /** `all()`: every artifact, each under a `"tool_id:index"` key. */
    method All() returns (r: map<string, Value>)
      requires Valid()
      ensures r == artifacts
      ensures forall k :: k in r ==> exists t, i :: k == Key(t, i)
    {
      r := artifacts;
      forall k | k in r
        ensures exists t, i :: k == Key(t, i)
      {
        assert k == Key(owners[k].0, owners[k].1);
      }
    }

    /** `getNextIndex()` as written: the outer `array_keys()` turns the
        matching keys into their positions in the key list, a position has
        no ':', so every `$i` is NULL and the answer is always 1. */
    method GetNextIndex(toolId: string) returns (next: int)
      ensures next == 1
    {
      var toolPrefix := toolId + ":";
      var indexes: seq<int> := [];
      var p := 0;
      while p < |order|
        invariant 0 <= p <= |order|
        invariant forall j :: 0 <= j < |indexes| ==> 0 <= indexes[j] < p
      {
        if StartsWith(order[p], toolPrefix) {
          indexes := indexes + [p];
        }
        p := p + 1;
      }
      var max := 0;
      var j := 0;
      while j < |indexes|
        invariant 0 <= j <= |indexes|
        invariant max == 0
      {
        var i := IndexPart(IntToString(indexes[j]));
        max := if max >= i then max else i;
        j := j + 1;
      }
      next := max + 1;
    }

    /** `getNextIndex()` as its interface describes it: one past the
        highest index stored for the tool, and 1 when there is none. Each
        of the tool's keys is read for the index after its prefix. */
    method GetNextIndexIntended(toolId: string) returns (next: int)
      requires Valid()
      ensures next >= 1
      ensures forall i :: Key(toolId, i) in artifacts ==> i < next
      ensures next == 1 || Key(toolId, next - 1) in artifacts
      ensures next == ScanMax(toolId, order) + 1
    {
      var toolPrefix := toolId + ":";
      var max := 0;
      var p := 0;
      while p < |order|
        invariant 0 <= p <= |order|
        invariant max == ScanMax(toolId, order[..p])
      {
        var key := order[p];
        if StartsWith(key, toolPrefix) {
          var parsed := ParseInt(key[|toolPrefix|..]);
          if parsed.Some? && parsed.value > max {
            max := parsed.value;
          }
        }
        assert max == ScanMax(toolId, order[..p + 1]) by {
          assert order[..p + 1][..p] == order[..p];
          assert order[..p + 1][p] == key;
        }
        p := p + 1;
      }
      assert order[..p] == order;
      next := max + 1;
      NextIndexBounds(toolId, artifacts, order, owners);
    }
  }

  /** Storing artifacts for a tool does not move the as-written answer,
      while the intended one follows the highest index. */
  method NextIndexScenario(toolId: string) returns (asWritten: int, intended: int)
    ensures asWritten == 1 && intended == 4
  {
    var storage := new InMemoryArtifactStorage();
    storage.Store(toolId, 1, Str("first"));
    storage.Store(toolId, 3, Str("third"));
    asWritten := storage.GetNextIndex(toolId);
    intended := storage.GetNextIndexIntended(toolId);
    assert Key(toolId, 3) in storage.artifacts;
    if intended > 4 {
      KeyInjective(toolId, intended - 1, toolId, 1);
      KeyInjective(toolId, intended - 1, toolId, 3);
    }
  }
}

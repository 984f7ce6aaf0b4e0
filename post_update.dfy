/** `ai_agents_post_update_10001()`: cleans the allowed values of every
    agent's tool usage limits. A value ending in "\r" loses its trailing
    "\r" characters, an empty value is removed, and an agent is saved only
    when something changed.

    `tool_usage_limits` is a nested PHP array: tool id => property name =>
    settings, where the settings' `values` entry lists the allowed values.
    PHP arrays keep their entries in order, so an array is a sequence of
    key/value entries here. Loading and saving the agent entities is not
    part of this model: the update is given each agent's stored limits and
    answers, per agent, with the limits to save, if any. */
module PostUpdate {
  import opened PhpValues

  datatype Key = IntKey(i: int) | StrKey(s: string)

  /** A configuration value; floats behave like integers here and are not
      distinguished from them. */
  datatype Node =
    | NNull
    | NBool(b: bool)
    | NInt(i: int)
    | NStr(s: string)
    | NArr(entries: seq<Entry>)

  datatype Entry = Entry(key: Key, val: Node)

  /** `substr($value, -1) === "\r"`. */
  predicate EndsWithCR(s: string) {
    |s| > 0 && s[|s| - 1] == '\r'
  }

  /** `rtrim($value, "\r")`: the string without its trailing "\r" run. */
  function RTrimCR(s: string): (r: string)
    ensures |r| <= |s| && r == s[..|r|]
    ensures !EndsWithCR(r)
    ensures forall k :: |r| <= k < |s| ==> s[k] == '\r'
    decreases |s|
  {
    if EndsWithCR(s) then RTrimCR(s[..|s| - 1]) else s
  }

  // ---------------------------------------------------------------------
  // The innermost loop: one `values` list.

  /** The `values` list after the innermost loop, and whether it changed.
      An array among the values makes `substr()` throw. */
  function CleanValues(es: seq<Entry>): (r: Result<(seq<Entry>, bool)>)
    ensures r.Success? ==> |r.value.0| <= |es|
    decreases |es|
  {
    if es == [] then Success(([], false))
    else
      var prev :- CleanValues(es[..|es| - 1]);
      var e := es[|es| - 1];
      match e.val
      case NArr(_) => Failure(NotAString("substr"))
      case NStr(s) =>
        if EndsWithCR(s) then Success((prev.0 + [Entry(e.key, NStr(RTrimCR(s)))], true))
        else if s == "" then Success((prev.0, true))
        else Success((prev.0 + [e], prev.1))
      case _ => Success((prev.0 + [e], prev.1))
  }

  /** Reference definition, part one: the entries that are not "". */
  function Survivors(es: seq<Entry>): seq<Entry>
    decreases |es|
  {
    if es == [] then []
    else Survivors(es[..|es| - 1]) + (if es[|es| - 1].val == NStr("") then [] else [es[|es| - 1]])
  }

  /** Reference definition, part two: a value ending in "\r" trimmed. */
  function Trimmed(e: Entry): Entry {
    if e.val.NStr? && EndsWithCR(e.val.s) then Entry(e.key, NStr(RTrimCR(e.val.s))) else e
  }

  function TrimAll(es: seq<Entry>): (r: seq<Entry>)
    ensures |r| == |es| && forall i :: 0 <= i < |es| ==> r[i] == Trimmed(es[i])
  {
    seq(|es|, i requires 0 <= i < |es| => Trimmed(es[i]))
  }

  predicate HasArray(es: seq<Entry>) {
    exists i :: 0 <= i < |es| && es[i].val.NArr?
  }

  /** Some value would be trimmed or removed. */
  predicate NeedsCleaning(es: seq<Entry>) {
    exists i :: 0 <= i < |es| && es[i].val.NStr? && (EndsWithCR(es[i].val.s) || es[i].val.s == "")
  }

  /** The loop keeps the keys and order of the values it does not remove,
      trims the others, and reports a change exactly when a value needed
      cleaning; it fails exactly when some value is an array. */
  lemma {:induction false} CleanValuesReference(es: seq<Entry>)
    ensures CleanValues(es).Failure? <==> HasArray(es)
    ensures CleanValues(es).Success? ==>
              CleanValues(es).value == (TrimAll(Survivors(es)), NeedsCleaning(es))
    decreases |es|
  {
    if es != [] {
      var init := es[..|es| - 1];
      var e := es[|es| - 1];
      CleanValuesReference(init);
      assert es == init + [e];
      assert HasArray(es) <==> HasArray(init) || e.val.NArr? by {
        if HasArray(es) && !e.val.NArr? {
          var i :| 0 <= i < |es| && es[i].val.NArr?;
          assert init[i] == es[i];
        }
        if HasArray(init) {
          var i :| 0 <= i < |init| && init[i].val.NArr?;
          assert es[i] == init[i];
        }
      }
      assert NeedsCleaning(es) <==>
             NeedsCleaning(init) || (e.val.NStr? && (EndsWithCR(e.val.s) || e.val.s == "")) by {
        if NeedsCleaning(init) {
          var i :| 0 <= i < |init| && init[i].val.NStr? && (EndsWithCR(init[i].val.s) || init[i].val.s == "");
          assert es[i] == init[i];
        }
        if NeedsCleaning(es) {
          var i :| 0 <= i < |es| && es[i].val.NStr? && (EndsWithCR(es[i].val.s) || es[i].val.s == "");
          if i < |init| {
            assert init[i] == es[i];
          }
        }
      }
      if CleanValues(init).Success? && !e.val.NArr? {
        var s := Survivors(init);
        if e.val == NStr("") {
          assert Survivors(es) == s;
        } else {
          assert Survivors(es) == s + [e];
          assert TrimAll(s + [e]) == TrimAll(s) + [Trimmed(e)];
        }
      }
    }
  }

  /** Reporting a change and rewriting the list are the same thing. */
  lemma {:induction false} CleanValuesChanged(es: seq<Entry>)
    requires CleanValues(es).Success?
    ensures CleanValues(es).value.1 <==> CleanValues(es).value.0 != es
    decreases |es|
  {
    if es != [] {
      var init := es[..|es| - 1];
      var e := es[|es| - 1];
      CleanValuesChanged(init);
      var prev := CleanValues(init).value;
      var out := CleanValues(es).value.0;
      assert es == init + [e];
      if e.val.NStr? && EndsWithCR(e.val.s) {
        assert out[|out| - 1] != e || |out| != |es|;
      } else if e.val == NStr("") {
        assert |out| < |es|;
      } else {
        assert out == prev.0 + [e];
        assert out[..|out| - 1] == prev.0 && es[..|es| - 1] == init;
      }
    }
  }

  /** A value that only becomes "" once trimmed stays in the list. */
  lemma TrimmedToEmptyKept(k: Key)
    ensures CleanValues([Entry(k, NStr("\r\r"))]) == Success(([Entry(k, NStr(""))], true))
  {
    var es := [Entry(k, NStr("\r\r"))];
    assert es[..0] == [];
    assert EndsWithCR("\r\r") && "\r\r"[..1] == "\r" && "\r"[..0] == "";
    assert RTrimCR("\r\r") == "";
    assert CleanValues(es[..0]) == Success(([], false));
    assert [] + [Entry(k, NStr(""))] == [Entry(k, NStr(""))];
  }

  // ---------------------------------------------------------------------
  // One property: `$values['values']`.

  /** The value of the first entry under `k`. */
  function Lookup(es: seq<Entry>, k: Key): (r: Option<Node>)
    ensures r.Some? <==> exists i :: 0 <= i < |es| && es[i].key == k
    decreases |es|
  {
    if es == [] then None
    else if es[0].key == k then Some(es[0].val)
    else Lookup(es[1..], k)
  }

  /** The entries with the first one under `k` given the value `v`. */
  function Replace(es: seq<Entry>, k: Key, v: Node): (r: seq<Entry>)
    ensures |r| == |es| && forall i :: 0 <= i < |es| ==> r[i].key == es[i].key
    ensures Lookup(es, k) == Some(v) ==> r == es
    ensures Lookup(es, k).Some? && Lookup(es, k) != Some(v) ==> r != es
    decreases |es|
  {
    if es == [] then []
    else if es[0].key == k then [Entry(k, v)] + es[1..]
    else [es[0]] + Replace(es[1..], k, v)
  }

  /** `!empty($values['values']) && is_array($values['values'])`: the
      settings' non-empty `values` list, if there is one. */
  function ValueList(settings: Node): (r: Option<seq<Entry>>)
    ensures r.Some? ==> settings.NArr? && Lookup(settings.entries, StrKey("values")) == Some(NArr(r.value))
    ensures r.Some? ==> |r.value| > 0
  {
    if settings.NArr? then
      match Lookup(settings.entries, StrKey("values"))
      case Some(NArr(vs)) => if |vs| > 0 then Some(vs) else None
      case _ => None
    else None
  }

  /** One property's settings after the innermost loop. */
  function CleanProperty(settings: Node): (r: Result<(Node, bool)>)
    ensures ValueList(settings).None? ==> r == Success((settings, false))
  {
    match ValueList(settings)
    case None => Success((settings, false))
    case Some(vs) =>
      var cleaned :- CleanValues(vs);
      Success((NArr(Replace(settings.entries, StrKey("values"), NArr(cleaned.0))), cleaned.1))
  }

  lemma CleanPropertyChanged(settings: Node)
    requires CleanProperty(settings).Success?
    ensures CleanProperty(settings).value.1 <==> CleanProperty(settings).value.0 != settings
  {
    if ValueList(settings).Some? {
      CleanValuesChanged(ValueList(settings).value);
    }
  }

  // ---------------------------------------------------------------------
  // One tool, and all tools.

  /** The middle loop: every property of one tool. */
  function CleanProperties(ps: seq<Entry>): (r: Result<(seq<Entry>, bool)>)
    decreases |ps|
  {
    if ps == [] then Success(([], false))
    else
      var prev :- CleanProperties(ps[..|ps| - 1]);
      var e := ps[|ps| - 1];
      var cleaned :- CleanProperty(e.val);
      Success((prev.0 + [Entry(e.key, cleaned.0)], prev.1 || cleaned.1))
  }

  /** A tool whose properties are not a non-empty array is skipped. */
  function CleanTool(properties: Node): (r: Result<(Node, bool)>)
    ensures !(properties.NArr? && |properties.entries| > 0) ==> r == Success((properties, false))
  {
    if properties.NArr? && |properties.entries| > 0 then
      var cleaned :- CleanProperties(properties.entries);
      Success((NArr(cleaned.0), cleaned.1))
    else Success((properties, false))
  }

  /** The outer loop: every tool. */
  function CleanTools(ts: seq<Entry>): (r: Result<(seq<Entry>, bool)>)
    decreases |ts|
  {
    if ts == [] then Success(([], false))
    else
      var prev :- CleanTools(ts[..|ts| - 1]);
      var e := ts[|ts| - 1];
      var cleaned :- CleanTool(e.val);
      Success((prev.0 + [Entry(e.key, cleaned.0)], prev.1 || cleaned.1))
  }

  /** `$agent->get('tool_usage_limits') ?? []`. */
  function Normalized(stored: Node): Node {
    if stored.NNull? then NArr([]) else stored
  }

  /** One agent's limits after the loops; `foreach` over a value that is
      not an array runs no iteration. */
  function CleanLimits(stored: Node): Result<(Node, bool)> {
    var limits := Normalized(stored);
    if limits.NArr? then
      var cleaned :- CleanTools(limits.entries);
      Success((NArr(cleaned.0), cleaned.1))
    else Success((limits, false))
  }

  /** What is saved for one agent: the cleaned limits when they changed,
      nothing otherwise. */
  function AgentUpdate(stored: Node): Result<Option<Node>> {
    var cleaned :- CleanLimits(stored);
    if cleaned.1 then Success(Some(cleaned.0)) else Success(None)
  }

  /** Appending one entry to two lists of the same length changes their
      equality only through that entry. */
  lemma AppendDiffers(prev: seq<Entry>, init: seq<Entry>, x: Entry, e: Entry)
    requires |prev| == |init|
    ensures prev + [x] != init + [e] <==> prev != init || x != e
  {
    if prev + [x] == init + [e] {
      assert (prev + [x])[..|prev|] == prev && (init + [e])[..|init|] == init;
      assert (prev + [x])[|prev|] == x && (init + [e])[|init|] == e;
    }
  }

  lemma PropertiesStep(ps: seq<Entry>)
    requires ps != [] && CleanProperties(ps).Success?
    ensures var init := ps[..|ps| - 1];
            var e := ps[|ps| - 1];
            && CleanProperties(init).Success? && CleanProperty(e.val).Success?
            && CleanProperties(ps).value.0 == CleanProperties(init).value.0 + [Entry(e.key, CleanProperty(e.val).value.0)]
            && (CleanProperties(ps).value.1 <==> CleanProperties(init).value.1 || CleanProperty(e.val).value.1)
  {
  }

  lemma ToolsStep(ts: seq<Entry>)
    requires ts != [] && CleanTools(ts).Success?
    ensures var init := ts[..|ts| - 1];
            var e := ts[|ts| - 1];
            && CleanTools(init).Success? && CleanTool(e.val).Success?
            && CleanTools(ts).value.0 == CleanTools(init).value.0 + [Entry(e.key, CleanTool(e.val).value.0)]
            && (CleanTools(ts).value.1 <==> CleanTools(init).value.1 || CleanTool(e.val).value.1)
  {
  }

  /** Every property keeps its name and place; one without a non-empty
      `values` list is left as it is. */
  lemma {:induction false} CleanPropertiesShape(ps: seq<Entry>)
    requires CleanProperties(ps).Success?
    ensures var out := CleanProperties(ps).value.0;
            && |out| == |ps|
            && (forall i :: 0 <= i < |ps| ==> out[i].key == ps[i].key)
            && (forall i :: 0 <= i < |ps| && ValueList(ps[i].val).None? ==> out[i] == ps[i])
    decreases |ps|
  {
    if ps != [] {
      var init := ps[..|ps| - 1];
      PropertiesStep(ps);
      CleanPropertiesShape(init);
      var prev := CleanProperties(init).value.0;
      var out := CleanProperties(ps).value.0;
      forall i | 0 <= i < |ps|
        ensures out[i].key == ps[i].key
        ensures ValueList(ps[i].val).None? ==> out[i] == ps[i]
      {
        if i < |init| {
          assert out[i] == prev[i] && ps[i] == init[i];
        }
      }
    }
  }

  /** The middle loop reports a change exactly when it rewrote a property. */
  lemma {:induction false} CleanPropertiesChanged(ps: seq<Entry>)
    requires CleanProperties(ps).Success?
    ensures CleanProperties(ps).value.1 <==> CleanProperties(ps).value.0 != ps
    decreases |ps|
  {
    if ps != [] {
      var init := ps[..|ps| - 1];
      var e := ps[|ps| - 1];
      PropertiesStep(ps);
      CleanPropertiesChanged(init);
      CleanPropertiesShape(init);
      CleanPropertyChanged(e.val);
      assert ps == init + [e];
      AppendDiffers(CleanProperties(init).value.0, init, Entry(e.key, CleanProperty(e.val).value.0), e);
    }
  }

  /** Every tool keeps its id and place; one whose properties are not a
      non-empty array is left as it is. */
  lemma {:induction false} CleanToolsShape(ts: seq<Entry>)
    requires CleanTools(ts).Success?
    ensures var out := CleanTools(ts).value.0;
            && |out| == |ts|
            && (forall i :: 0 <= i < |ts| ==> out[i].key == ts[i].key)
            && (forall i :: 0 <= i < |ts| && !(ts[i].val.NArr? && |ts[i].val.entries| > 0) ==>
                  out[i] == ts[i])
    decreases |ts|
  {
    if ts != [] {
      var init := ts[..|ts| - 1];
      ToolsStep(ts);
      CleanToolsShape(init);
      var prev := CleanTools(init).value.0;
      var out := CleanTools(ts).value.0;
      forall i | 0 <= i < |ts|
        ensures out[i].key == ts[i].key
        ensures !(ts[i].val.NArr? && |ts[i].val.entries| > 0) ==> out[i] == ts[i]
      {
        if i < |init| {
          assert out[i] == prev[i] && ts[i] == init[i];
        }
      }
    }
  }

  /** One tool's properties are rewritten exactly when a change is reported. */
  lemma CleanToolChanged(properties: Node)
    requires CleanTool(properties).Success?
    ensures CleanTool(properties).value.1 <==> CleanTool(properties).value.0 != properties
  {
    if properties.NArr? && |properties.entries| > 0 {
      CleanPropertiesChanged(properties.entries);
    }
  }

  /** The outer loop reports a change exactly when it rewrote a tool. */
  lemma {:induction false} CleanToolsChanged(ts: seq<Entry>)
    requires CleanTools(ts).Success?
    ensures CleanTools(ts).value.1 <==> CleanTools(ts).value.0 != ts
    decreases |ts|
  {
    if ts != [] {
      var init := ts[..|ts| - 1];
      var e := ts[|ts| - 1];
      ToolsStep(ts);
      CleanToolsChanged(init);
      CleanToolsShape(init);
      CleanToolChanged(e.val);
      assert ts == init + [e];
      AppendDiffers(CleanTools(init).value.0, init, Entry(e.key, CleanTool(e.val).value.0), e);
    }
  }

  /** An agent is saved exactly when the cleanup rewrote its limits, and
      then with the rewritten limits. */
  lemma SavedIffRewritten(stored: Node)
    requires CleanLimits(stored).Success?
    ensures AgentUpdate(stored).Success?
    ensures AgentUpdate(stored).value.Some? <==> CleanLimits(stored).value.0 != Normalized(stored)
    ensures AgentUpdate(stored).value.Some? ==> AgentUpdate(stored).value.value == CleanLimits(stored).value.0
  {
    if Normalized(stored).NArr? {
      CleanToolsChanged(Normalized(stored).entries);
    }
  }

  // ---------------------------------------------------------------------
  // The loops.

  /** `foreach ($values['values'] as $key => $value)`. */
  method CleanValueList(vs: seq<Entry>) returns (r: Result<(seq<Entry>, bool)>)
    ensures r == CleanValues(vs)
  {
    var out: seq<Entry> := [];
    var changed := false;
    var i := 0;
    while i < |vs|
      invariant 0 <= i <= |vs|
      invariant CleanValues(vs[..i]) == Success((out, changed))
    {
      assert vs[..i + 1][..i] == vs[..i];
      var e := vs[i];
      match e.val {
        case NArr(_) =>
          FailureSticks(vs, i + 1);
          return Failure(NotAString("substr"));
        case NStr(s) =>
          if EndsWithCR(s) {
            out := out + [Entry(e.key, NStr(RTrimCR(s)))];
            changed := true;
          } else if s == "" {
            changed := true;
          } else {
            out := out + [e];
          }
        case _ =>
          out := out + [e];
      }
      i := i + 1;
    }
    assert vs[..i] == vs;
    r := Success((out, changed));
  }

  /** Once a prefix of the values fails, so does the whole list. */
  lemma {:induction false} FailureSticks(vs: seq<Entry>, n: nat)
    requires n <= |vs| && CleanValues(vs[..n]).Failure?
    ensures CleanValues(vs) == CleanValues(vs[..n])
    decreases |vs| - n
  {
    if n < |vs| {
      assert vs[..n + 1][..n] == vs[..n];
      FailureSticks(vs, n + 1);
    } else {
      assert vs[..n] == vs;
    }
  }

  /** `foreach ($properties as $property_name => $values)`. */
  method CleanPropertyList(ps: seq<Entry>) returns (r: Result<(seq<Entry>, bool)>)
    ensures r == CleanProperties(ps)
  {
    var out: seq<Entry> := [];
    var changed := false;
    var i := 0;
    while i < |ps|
      invariant 0 <= i <= |ps|
      invariant CleanProperties(ps[..i]) == Success((out, changed))
    {
      assert ps[..i + 1][..i] == ps[..i];
      var e := ps[i];
      var list := ValueList(e.val);
      if list.Some? {
        var cleaned := CleanValueList(list.value);
        if cleaned.Failure? {
          PropertyFailureSticks(ps, i + 1);
          return Failure(cleaned.error);
        }
        var settings := NArr(Replace(e.val.entries, StrKey("values"), NArr(cleaned.value.0)));
        out := out + [Entry(e.key, settings)];
        changed := changed || cleaned.value.1;
      } else {
        out := out + [e];
      }
      i := i + 1;
    }
    assert ps[..i] == ps;
    r := Success((out, changed));
  }

  lemma {:induction false} PropertyFailureSticks(ps: seq<Entry>, n: nat)
    requires n <= |ps| && CleanProperties(ps[..n]).Failure?
    ensures CleanProperties(ps) == CleanProperties(ps[..n])
    decreases |ps| - n
  {
    if n < |ps| {
      assert ps[..n + 1][..n] == ps[..n];
      PropertyFailureSticks(ps, n + 1);
    } else {
      assert ps[..n] == ps;
    }
  }

  /** `foreach ($tool_usage_limits as $tool_id => $properties)` for one
      agent, after `?? []`. */
  method CleanToolUsageLimits(stored: Node) returns (r: Result<(Node, bool)>)
    ensures r == CleanLimits(stored)
  {
    var limits := if stored.NNull? then NArr([]) else stored;
    if !limits.NArr? {
      return Success((limits, false));
    }
    var ts := limits.entries;
    var out: seq<Entry> := [];
    var changed := false;
    var i := 0;
    while i < |ts|
      invariant 0 <= i <= |ts|
      invariant CleanTools(ts[..i]) == Success((out, changed))
    {
      assert ts[..i + 1][..i] == ts[..i];
      var e := ts[i];
      var properties := e.val;
      if !properties.NArr? || |properties.entries| == 0 {
        out := out + [e];
      } else {
        var cleaned := CleanPropertyList(properties.entries);
        if cleaned.Failure? {
          ToolFailureSticks(ts, i + 1);
          return Failure(cleaned.error);
        }
        out := out + [Entry(e.key, NArr(cleaned.value.0))];
        changed := changed || cleaned.value.1;
      }
      i := i + 1;
    }
    assert ts[..i] == ts;
    r := Success((NArr(out), changed));
  }

  lemma {:induction false} ToolFailureSticks(ts: seq<Entry>, n: nat)
    requires n <= |ts| && CleanTools(ts[..n]).Failure?
    ensures CleanTools(ts) == CleanTools(ts[..n])
    decreases |ts| - n
  {
    if n < |ts| {
      assert ts[..n + 1][..n] == ts[..n];
      ToolFailureSticks(ts, n + 1);
    } else {
      assert ts[..n] == ts;
    }
  }

  /** The update over all agents, in load order: the limits saved for each
      agent (none when nothing changed). An array among the values aborts
      the update at that agent; the agents before it were already saved. */
  method PostUpdate10001(agents: seq<Node>) returns (saved: seq<Option<Node>>, o: Outcome)
    ensures |saved| <= |agents|
    ensures forall i :: 0 <= i < |saved| ==> AgentUpdate(agents[i]) == Success(saved[i])
    ensures o.Pass? ==> |saved| == |agents|
    ensures o.Fail? ==> |saved| < |agents| && AgentUpdate(agents[|saved|]) == Failure(o.error)
  {
    saved := [];
    var i := 0;
    while i < |agents|
      invariant 0 <= i <= |agents| && |saved| == i
      invariant forall j :: 0 <= j < i ==> AgentUpdate(agents[j]) == Success(saved[j])
    {
      var cleaned := CleanToolUsageLimits(agents[i]);
      match cleaned {
        case Failure(e) =>
          return saved, Fail(e);
        case Success(c) =>
          if c.1 {
            saved := saved + [Some(c.0)];
          } else {
            saved := saved + [None];
          }
      }
      i := i + 1;
    }
    o := Pass;
  }
}

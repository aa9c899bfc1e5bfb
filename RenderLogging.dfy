/** The render-logging wrapper: a sanitiser that turns a prop value into
    something safe to serialise, and the effect that counts renders and
    reports which props changed since the previous render.

    `SafeValue` is the reference definition of the sanitiser; the method
    `LogSafePropValue` computes it the way the source does (an array is
    mapped, an object is filled key by key). */
module RenderLogging {
  import opened Common
  import opened JsValues

  const ElementText := "[React Element]"
  const NodeText := "[DOM Node]"
  const Anonymous := "anonymous"

  /** Keys the sanitiser drops: React internals and the like. */
  predicate Private(key: string)
  {
    StartsWith(key, "_") || StartsWith(key, "$")
  }

  /** A key the sanitiser keeps. */
  predicate Public(key: string)
  {
    !Private(key)
  }

  /** `[Function: name]`, with `anonymous` for an empty name. */
  function FunctionText(name: string): string
  {
    "[Function: " + (if name == "" then Anonymous else name) + "]"
  }

  /** The sanitised value. The cases are checked in the order element,
      function, DOM node, array, object; everything else is returned as is. */
  function SafeValue(v: JsValue): (r: JsValue)
    decreases v, 1
  {
    match v
    case Element => Str(ElementText)
    case Func(name) => Str(FunctionText(name))
    case DomNode => Str(NodeText)
    case Arr(items) => Arr(seq(|items|, i requires 0 <= i < |items| => SafeValue(items[i])))
    case Obj(entries) => Obj(SafeEntries(v, entries))
    case _ => v
  }

  /** The kept entries of an object, each value sanitised, in enumeration
      order. `parent` is the object the entries come from. */
  function SafeEntries(ghost parent: JsValue, entries: seq<(string, JsValue)>): (r: seq<(string, JsValue)>)
    requires forall e :: e in entries ==> e.1 < parent
    decreases parent, 0, |entries|
  {
    if entries == [] then []
    else
      var rest := SafeEntries(parent, entries[1..]);
      if Private(entries[0].0) then rest
      else [(entries[0].0, SafeValue(entries[0].1))] + rest
  }

  function Keys(entries: seq<(string, JsValue)>): seq<string>
  {
    seq(|entries|, i requires 0 <= i < |entries| => entries[i].0)
  }

  /** The kept keys are the non-private ones, in their order. */
  lemma {:induction false} SafeEntriesKeys(parent: JsValue, entries: seq<(string, JsValue)>)
    requires forall e :: e in entries ==> e.1 < parent
    ensures Keys(SafeEntries(parent, entries)) == Filter(Keys(entries), Public)
    decreases |entries|
  {
    if entries != [] {
      var rest := SafeEntries(parent, entries[1..]);
      assert entries == [entries[0]] + entries[1..];
      KeysCons(entries[0], entries[1..]);
      var keys := Keys(entries);
      assert keys[1..] == Keys(entries[1..]);
      SafeEntriesKeys(parent, entries[1..]);
      if Public(entries[0].0) {
        KeysCons((entries[0].0, SafeValue(entries[0].1)), rest);
      }
    }
  }

  lemma KeysCons(entry: (string, JsValue), rest: seq<(string, JsValue)>)
    ensures Keys([entry] + rest) == [entry.0] + Keys(rest)
  {
  }

  lemma EntriesBelow(v: JsValue)
    requires v.Obj?
    ensures forall e :: e in v.entries ==> e.1 < v
  {
  }

  /** A sanitised value: no element, function or DOM node and no private key, at any depth. */
  predicate Plain(v: JsValue)
    decreases v
  {
    match v
    case Element => false
    case Func(_) => false
    case DomNode => false
    case Arr(items) => forall i :: 0 <= i < |items| ==> Plain(items[i])
    case Obj(entries) => forall i :: 0 <= i < |entries| ==> !Private(entries[i].0) && Plain(entries[i].1)
    case _ => true
  }

  /** An array keeps its length and each element is sanitised in place. */
  lemma ArrayKeepsShape(items: seq<JsValue>)
    ensures SafeValue(Arr(items)).Arr?
    ensures |SafeValue(Arr(items)).items| == |items|
    ensures forall i :: 0 <= i < |items| ==> SafeValue(Arr(items)).items[i] == SafeValue(items[i])
  {
  }

  /** An object keeps exactly its non-private keys, in their order; so the
      result's keys are a subset of the input's. */
  lemma ObjectKeepsPublicKeys(entries: seq<(string, JsValue)>)
    ensures SafeValue(Obj(entries)).Obj?
    ensures Keys(SafeValue(Obj(entries)).entries) == Filter(Keys(entries), Public)
    ensures forall k :: k in Keys(SafeValue(Obj(entries)).entries) <==> k in Keys(entries) && !Private(k)
  {
    EntriesBelow(Obj(entries));
    SafeEntriesKeys(Obj(entries), entries);
  }

  /** Primitives, `null` and `undefined` pass through unchanged. */
  lemma PrimitivesUnchanged(v: JsValue)
    requires v.Undefined? || v.Null? || v.Bool? || v.Num? || v.NaN? || v.Str?
    ensures SafeValue(v) == v
  {
  }

  lemma {:induction false} EntriesPlain(parent: JsValue, entries: seq<(string, JsValue)>)
    requires forall e :: e in entries ==> e.1 < parent
    ensures forall i :: 0 <= i < |SafeEntries(parent, entries)| ==>
      !Private(SafeEntries(parent, entries)[i].0) && Plain(SafeEntries(parent, entries)[i].1)
    decreases parent, 0, |entries|
  {
    if entries != [] {
      assert entries[0] in entries;
      SafeIsPlain(entries[0].1);
      EntriesPlain(parent, entries[1..]);
    }
  }

  /** Whatever goes in, nothing unsafe comes out. */
  lemma {:induction false} SafeIsPlain(v: JsValue)
    ensures Plain(SafeValue(v))
    decreases v, 1
  {
    match v
    case Arr(items) =>
      forall i | 0 <= i < |items|
        ensures Plain(SafeValue(v).items[i])
      {
        SafeIsPlain(items[i]);
      }
    case Obj(entries) =>
      EntriesBelow(v);
      EntriesPlain(v, entries);
    case _ =>
  }

  lemma {:induction false} PlainEntriesFixed(parent: JsValue, entries: seq<(string, JsValue)>)
    requires forall e :: e in entries ==> e.1 < parent
    requires forall i :: 0 <= i < |entries| ==> !Private(entries[i].0) && Plain(entries[i].1)
    ensures SafeEntries(parent, entries) == entries
    decreases parent, 0, |entries|
  {
    if entries != [] {
      assert entries[0] in entries;
      PlainFixed(entries[0].1);
      PlainEntriesFixed(parent, entries[1..]);
    }
  }

  /** A value that is already plain is left as it is. */
  lemma {:induction false} PlainFixed(v: JsValue)
    requires Plain(v)
    ensures SafeValue(v) == v
    decreases v, 1
  {
    match v
    case Arr(items) =>
      forall i | 0 <= i < |items|
        ensures SafeValue(items[i]) == items[i]
      {
        PlainFixed(items[i]);
      }
      assert SafeValue(v).items == items;
    case Obj(entries) =>
      EntriesBelow(v);
      PlainEntriesFixed(v, entries);
    case _ =>
  }

  /** Sanitising twice is sanitising once. */
  lemma SafeIdempotent(v: JsValue)
    ensures SafeValue(SafeValue(v)) == SafeValue(v)
  {
    SafeIsPlain(v);
    PlainFixed(SafeValue(v));
  }

  lemma SafeEntriesStep(parent: JsValue, entries: seq<(string, JsValue)>, i: nat)
    requires forall e :: e in entries ==> e.1 < parent
    requires i < |entries|
    ensures SafeEntries(parent, entries[i..])
      == (if Private(entries[i].0) then [] else [(entries[i].0, SafeValue(entries[i].1))]) + SafeEntries(parent, entries[i + 1..])
  {
    assert entries[i..][1..] == entries[i + 1..];
  }

  /** `getLogSafePropValue`, as the source computes it. */
  method LogSafePropValue(v: JsValue) returns (r: JsValue)
    ensures r == SafeValue(v)
    decreases v, 1
  {
    match v {
      case Element =>
        return Str(ElementText);
      case Func(name) =>
        return Str(FunctionText(name));
      case DomNode =>
        return Str(NodeText);
      case Arr(items) =>
        var mapped := MapItems(v, items);
        return Arr(mapped);
      case Obj(entries) =>
        EntriesBelow(v);
        var safeObj := FillSafeObject(v, entries);
        return Obj(safeObj);
      case _ =>
        return v;
    }
  }

  /** `value.map(getLogSafePropValue)`. */
  method MapItems(ghost parent: JsValue, items: seq<JsValue>) returns (mapped: seq<JsValue>)
    requires forall x :: x in items ==> x < parent
    ensures mapped == seq(|items|, i requires 0 <= i < |items| => SafeValue(items[i]))
    decreases parent, 0
  {
    mapped := [];
    var i := 0;
    while i < |items|
      invariant 0 <= i <= |items|
      invariant |mapped| == i
      invariant forall j :: 0 <= j < i ==> mapped[j] == SafeValue(items[j])
    {
      assert items[i] in items;
      var x := LogSafePropValue(items[i]);
      mapped := mapped + [x];
      i := i + 1;
    }
  }

  /** The `forEach` that fills `safeObj` with the non-private entries. */
  method FillSafeObject(ghost parent: JsValue, entries: seq<(string, JsValue)>) returns (safeObj: seq<(string, JsValue)>)
    requires forall e :: e in entries ==> e.1 < parent
    ensures safeObj == SafeEntries(parent, entries)
    decreases parent, 0
  {
    safeObj := [];
    var i := 0;
    while i < |entries|
      invariant 0 <= i <= |entries|
      invariant safeObj + SafeEntries(parent, entries[i..]) == SafeEntries(parent, entries)
    {
      var key := entries[i].0;
      SafeEntriesStep(parent, entries, i);
      ghost var rest := SafeEntries(parent, entries[i + 1..]);
      if !Private(key) {
        assert entries[i] in entries;
        var x := LogSafePropValue(entries[i].1);
        assert safeObj + [(key, x)] + rest == safeObj + ([(key, x)] + rest);
        safeObj := safeObj + [(key, x)];
      } else {
        assert [] + rest == rest;
      }
      i := i + 1;
    }
    assert entries[i..] == [];
  }

  /** The props as the effect sanitises them: every key kept, each value sanitised. */
  function SafeProps(props: seq<(string, JsValue)>): (r: seq<(string, JsValue)>)
  {
    seq(|props|, i requires 0 <= i < |props| => (props[i].0, SafeValue(props[i].1)))
  }

  /** Entry `i` is the first one with that key. */
  predicate FirstKeyAt(props: seq<(string, JsValue)>, key: string, i: int)
  {
    0 <= i < |props| && props[i].0 == key && forall j :: 0 <= j < i ==> props[j].0 != key
  }

  /** `previous[key]`: the value of the (first) entry with that key, and
      `undefined` when there is none. */
  function PropValue(props: seq<(string, JsValue)>, key: string): (r: JsValue)
    ensures r != Undefined ==> exists i :: 0 <= i < |props| && props[i] == (key, r)
    ensures (forall i :: 0 <= i < |props| ==> props[i].0 != key) ==> r == Undefined
    ensures forall i :: FirstKeyAt(props, key, i) ==> r == props[i].1
  {
    if props == [] then Undefined
    else if props[0].0 == key then props[0].1
    else
      assert forall i :: FirstKeyAt(props, key, i) ==> i > 0 && FirstKeyAt(props[1..], key, i - 1);
      PropValue(props[1..], key)
  }

  /** `a === b` between values produced by two runs of the sanitiser:
      arrays and objects are built afresh each time, so they are never
      identical; `NaN` is not equal to itself. */
  predicate StrictEquals(a: JsValue, b: JsValue)
  {
    match (a, b)
    case (Undefined, Undefined) => true
    case (Null, Null) => true
    case (Bool(x), Bool(y)) => x == y
    case (Num(x), Num(y)) => x == y
    case (Str(x), Str(y)) => x == y
    case _ => false
  }

  /** The values that are `===` to themselves. */
  predicate SelfEqual(v: JsValue)
  {
    v.Undefined? || v.Null? || v.Bool? || v.Num? || v.Str?
  }

  /** A changed prop: its key, previous value and current value. */
  datatype Change = Change(key: string, previous: JsValue, current: JsValue)

  /** The changed props, in the current props' order: none on the first
      render, otherwise those whose value is not `===` the previous one. */
  function Changes(previous: Option<seq<(string, JsValue)>>, current: seq<(string, JsValue)>): (r: seq<Change>)
    ensures previous.None? ==> r == []
    ensures forall c :: c in r ==>
      previous.Some? && (exists i :: 0 <= i < |current| && current[i] == (c.key, c.current))
      && c.previous == PropValue(previous.value, c.key) && !StrictEquals(c.previous, c.current)
    ensures previous.Some? ==> forall i :: 0 <= i < |current| && !StrictEquals(PropValue(previous.value, current[i].0), current[i].1) ==>
      Change(current[i].0, PropValue(previous.value, current[i].0), current[i].1) in r
  {
    if previous.None? || current == [] then []
    else
      var key := current[0].0;
      var before := PropValue(previous.value, key);
      var rest := Changes(previous, current[1..]);
      assert forall i :: 1 <= i < |current| ==> current[i] == current[1..][i - 1];
      if StrictEquals(before, current[0].1) then rest
      else [Change(key, before, current[0].1)] + rest
  }

  /** The first render reports no changed props. */
  lemma FirstRenderNoChanges(current: seq<(string, JsValue)>)
    ensures Changes(None, current) == []
  {
  }

  /** On every later render a prop holding an array or an object is reported
      as changed, even when it is the same value as before. */
  lemma ContainersAlwaysChange(previous: seq<(string, JsValue)>, props: seq<(string, JsValue)>, i: nat)
    requires i < |props| && (props[i].1.Arr? || props[i].1.Obj?)
    ensures exists c :: c in Changes(Some(previous), SafeProps(props)) && c.key == props[i].0
  {
    var current := SafeProps(props);
    assert current[i] == (props[i].0, SafeValue(props[i].1));
    assert !StrictEquals(PropValue(previous, current[i].0), current[i].1);
    assert Change(current[i].0, PropValue(previous, current[i].0), current[i].1) in Changes(Some(previous), current);
  }

  /** Rendering again with the same primitive props (no `NaN`) reports nothing. */
  lemma {:induction false} SamePrimitivesNoChanges(previous: seq<(string, JsValue)>, current: seq<(string, JsValue)>)
    requires forall i :: 0 <= i < |current| ==> PropValue(previous, current[i].0) == current[i].1
    requires forall i :: 0 <= i < |current| ==> SelfEqual(current[i].1)
    ensures Changes(Some(previous), current) == []
    decreases |current|
  {
    if current != [] {
      assert forall i :: 1 <= i < |current| ==> current[i] == current[1..][i - 1];
      SamePrimitivesNoChanges(previous, current[1..]);
    }
  }

  /** `${componentName} rendered (${renderCount})`. */
  function RenderMessage(componentName: string, renderCount: nat): string
  {
    componentName + " rendered (" + NatToString(renderCount) + ")"
  }

  /** The changed props as the data object shows them. */
  function ChangesObject(changes: seq<Change>): (r: seq<(string, JsValue)>)
    ensures |r| == |changes|
    ensures forall i :: 0 <= i < |changes| ==>
      r[i].0 == changes[i].key && r[i].1.Obj?
      && r[i].1.entries == [("previous", changes[i].previous), ("current", changes[i].current)]
  {
    seq(|changes|, i requires 0 <= i < |changes| =>
      (changes[i].key, Obj([("previous", changes[i].previous), ("current", changes[i].current)])))
  }

  /** The data logged with the render message: the count, the changed props
      (left `undefined` when none changed) and, in development builds only,
      the sanitised props. */
  function RenderData(renderCount: nat, changes: seq<Change>, current: seq<(string, JsValue)>, dev: bool): (r: JsValue)
    ensures r.Obj? && |r.entries| == 3
    ensures r.entries[0] == ("renderCount", Num(renderCount as real))
    ensures r.entries[1].0 == "changedProps" && r.entries[2].0 == "props"
    ensures r.entries[1].1 == Undefined <==> changes == []
    ensures changes != [] ==> r.entries[1].1 == Obj(ChangesObject(changes))
    ensures r.entries[2].1 == Undefined <==> !dev
    ensures dev ==> r.entries[2].1 == Obj(current)
  {
    Obj([("renderCount", Num(renderCount as real)),
         ("changedProps", if |changes| > 0 then Obj(ChangesObject(changes)) else Undefined),
         ("props", if dev then Obj(current) else Undefined)])
  }

  /** What one effect run hands to `logger.debug('render', ...)`. */
  datatype RenderLog = RenderLog(message: string, data: JsValue)

  /** The wrapper's two refs. */
  class RenderLogger {
    var renderCount: nat
    var prevProps: Option<seq<(string, JsValue)>>

    constructor ()
      ensures renderCount == 0 && prevProps == None
    {
      renderCount := 0;
      prevProps := None;
    }

    /** One run of the effect: count the render, sanitise the props, report
        the changes against the previous run, and remember this run's props. */
    method Effect(componentName: string, props: seq<(string, JsValue)>, dev: bool) returns (log: RenderLog)
      modifies this
      ensures renderCount == old(renderCount) + 1
      ensures prevProps == Some(SafeProps(props))
      ensures log == RenderLog(RenderMessage(componentName, renderCount),
                               RenderData(renderCount, Changes(old(prevProps), SafeProps(props)), SafeProps(props), dev))
    {
      renderCount := renderCount + 1;
      var current := SanitiseProps(props);
      var changed := ChangedProps(prevProps, current);
      log := RenderLog(RenderMessage(componentName, renderCount), RenderData(renderCount, changed, current, dev));
      prevProps := Some(current);
    }
  }

  /** The `reduce` that sanitises each prop value. */
  method SanitiseProps(props: seq<(string, JsValue)>) returns (current: seq<(string, JsValue)>)
    ensures current == SafeProps(props)
  {
    current := [];
    var i := 0;
    while i < |props|
      invariant 0 <= i <= |props|
      invariant current == SafeProps(props[..i])
    {
      var x := LogSafePropValue(props[i].1);
      assert props[..i + 1] == props[..i] + [props[i]];
      current := current + [(props[i].0, x)];
      i := i + 1;
    }
    assert props[..i] == props;
  }

  /** The `reduce` that collects the changed props. */
  method ChangedProps(previous: Option<seq<(string, JsValue)>>, current: seq<(string, JsValue)>) returns (changed: seq<Change>)
    ensures changed == Changes(previous, current)
  {
    changed := [];
    var i := 0;
    while i < |current|
      invariant 0 <= i <= |current|
      invariant changed + Changes(previous, current[i..]) == Changes(previous, current)
    {
      if previous.Some? {
        var before := PropValue(previous.value, current[i].0);
        if !StrictEquals(before, current[i].1) {
          changed := changed + [Change(current[i].0, before, current[i].1)];
        }
      }
      assert current[i..][1..] == current[i + 1..];
      i := i + 1;
    }
    assert current[i..] == [];
  }
}

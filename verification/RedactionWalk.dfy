/** The walk of redactExactValues over an object graph: objects and arrays may be shared or
    cyclic, an object already open on the current path prints as the placeholder, and every
    key and every string is scrubbed. */
module RedactionWalk {
  import opened Replacement
  import opened ExactValueRedaction

  datatype Value = Text(text: string) | Scalar(scalar: int) | Instant(instant: int) | Ref(id: nat)

  /** Own enumerable entries are listed in insertion order. */
  datatype Node = List(items: seq<Value>) | Record(entries: seq<(string, Value)>)

  type Graph = map<nat, Node>

  datatype Output =
    | OText(text: string)
    | OScalar(scalar: int)
    | OInstant(instant: int)
    | OList(items: seq<Output>)
    | ORecord(fields: map<string, Output>)

  predicate In(graph: Graph, value: Value) {
    value.Ref? ==> value.id in graph
  }

  predicate Closed(graph: Graph) {
    forall o :: o in graph ==>
      match graph[o]
      case List(items) => forall i :: 0 <= i < |items| ==> In(graph, items[i])
      case Record(entries) => forall i :: 0 <= i < |entries| ==> In(graph, entries[i].1)
  }

  function Walk(graph: Graph, value: Value, seen: set<nat>, list: seq<string>): Output
    requires Closed(graph) && In(graph, value) && "" !in list
    decreases |graph.Keys - seen|, 0
  {
    match value
    case Text(s) => OText(RedactString(s, list))
    case Scalar(n) => OScalar(n)
    case Instant(t) => OInstant(t)
    case Ref(o) =>
      if o in seen then OText(REDACTED)
      else
        Shrinks(graph.Keys, seen, o);
        match graph[o]
        case List(items) => OList(WalkItems(graph, items, seen + {o}, list))
        case Record(entries) => ORecord(WalkEntries(graph, entries, seen + {o}, list))
  }

  function WalkItems(graph: Graph, items: seq<Value>, seen: set<nat>, list: seq<string>): (r: seq<Output>)
    requires Closed(graph) && "" !in list && forall i :: 0 <= i < |items| ==> In(graph, items[i])
    ensures |r| == |items|
    decreases |graph.Keys - seen|, 1 + |items|
  {
    if items == [] then []
    else WalkItems(graph, items[..|items| - 1], seen, list)
         + [Walk(graph, items[|items| - 1], seen, list)]
  }

  function WalkEntries(graph: Graph, entries: seq<(string, Value)>, seen: set<nat>, list: seq<string>)
    : map<string, Output>
    requires Closed(graph) && "" !in list && forall i :: 0 <= i < |entries| ==> In(graph, entries[i].1)
    decreases |graph.Keys - seen|, 1 + |entries|
  {
    if entries == [] then map[]
    else
      var (key, nested) := entries[|entries| - 1];
      WalkEntries(graph, entries[..|entries| - 1], seen, list)
        [RedactString(key, list) := Walk(graph, nested, seen, list)]
  }

  lemma EntriesStep(graph: Graph, entries: seq<(string, Value)>, i: nat, seen: set<nat>, list: seq<string>)
    requires i < |entries|
    requires Closed(graph) && "" !in list && forall i :: 0 <= i < |entries| ==> In(graph, entries[i].1)
    ensures WalkEntries(graph, entries[..i + 1], seen, list)
         == WalkEntries(graph, entries[..i], seen, list)
              [RedactString(entries[i].0, list) := Walk(graph, entries[i].1, seen, list)]
  {
    assert entries[..i + 1][..i] == entries[..i] && entries[..i + 1][i] == entries[i];
  }

  lemma Shrinks(all: set<nat>, seen: set<nat>, o: nat)
    requires o in all && o !in seen
    ensures |all - (seen + {o})| < |all - seen|
  {
    assert all - seen == (all - (seen + {o})) + {o};
  }

  /** No key and no string, at any depth, contains `w`. */
  ghost predicate Clean(out: Output, w: string) {
    match out
    case OText(s) => !Contains(s, w)
    case OList(items) => forall i :: 0 <= i < |items| ==> Clean(items[i], w)
    case ORecord(fields) => forall k :: k in fields ==> !Contains(k, w) && Clean(fields[k], w)
    case _ => true
  }

  lemma PlaceholderClean(w: string)
    requires w != "" && !Overlaps(w, REDACTED)
    ensures !Contains(REDACTED, w)
  {
    assert "" + REDACTED + "" == REDACTED;
    if Contains(REDACTED, w) {
      OccurrenceAround("", REDACTED, "", w);
      assert false;
    }
  }

  lemma {:induction false} WalkClean(graph: Graph, value: Value, seen: set<nat>, list: seq<string>, w: string)
    requires Closed(graph) && In(graph, value) && "" !in list
    requires w in list && !Overlaps(w, REDACTED)
    ensures Clean(Walk(graph, value, seen, list), w)
    decreases |graph.Keys - seen|, 0
  {
    match value
    case Text(s) => AbsentStaysAbsent(s, list, w);
    case Scalar(_) =>
    case Instant(_) =>
    case Ref(o) =>
      if o in seen {
        PlaceholderClean(w);
      } else {
        Shrinks(graph.Keys, seen, o);
        match graph[o]
        case List(items) => ItemsClean(graph, items, seen + {o}, list, w);
        case Record(entries) => EntriesClean(graph, entries, seen + {o}, list, w);
      }
  }

  lemma {:induction false} ItemsClean(graph: Graph, items: seq<Value>, seen: set<nat>, list: seq<string>, w: string)
    requires Closed(graph) && "" !in list && forall i :: 0 <= i < |items| ==> In(graph, items[i])
    requires w in list && !Overlaps(w, REDACTED)
    ensures forall i :: 0 <= i < |items| ==> Clean(WalkItems(graph, items, seen, list)[i], w)
    decreases |graph.Keys - seen|, 1 + |items|
  {
    if items != [] {
      ItemsClean(graph, items[..|items| - 1], seen, list, w);
      WalkClean(graph, items[|items| - 1], seen, list, w);
    }
  }

  lemma {:induction false} EntriesClean(graph: Graph, entries: seq<(string, Value)>, seen: set<nat>,
                                        list: seq<string>, w: string)
    requires Closed(graph) && "" !in list && forall i :: 0 <= i < |entries| ==> In(graph, entries[i].1)
    requires w in list && !Overlaps(w, REDACTED)
    ensures forall k :: k in WalkEntries(graph, entries, seen, list) ==>
              !Contains(k, w) && Clean(WalkEntries(graph, entries, seen, list)[k], w)
    decreases |graph.Keys - seen|, 1 + |entries|
  {
    if entries != [] {
      var (key, nested) := entries[|entries| - 1];
      EntriesClean(graph, entries[..|entries| - 1], seen, list, w);
      WalkClean(graph, nested, seen, list, w);
      AbsentStaysAbsent(key, list, w);
    }
  }

  // ------------------------------------------- what else is kept

  datatype Found = Missing | Found(value: Value)

  /** The value that a record has under a scrubbed key: the last one, if keys become equal. */
  function Under(entries: seq<(string, Value)>, key: string, list: seq<string>): (r: Found)
    requires "" !in list
    ensures r.Found? ==> exists i :: 0 <= i < |entries| && entries[i].1 == r.value
  {
    if entries == [] then Missing
    else if RedactString(entries[|entries| - 1].0, list) == key then Found(entries[|entries| - 1].1)
    else Under(entries[..|entries| - 1], key, list)
  }

  /** What comes out for a value, from the input alone: every text and key scrubbed, every number,
      flag and instant as it is, lists with their length and order, records with their entries;
      and the placeholder where an object that is still open comes round again. */
  ghost predicate Shows(graph: Graph, value: Value, open: set<nat>, list: seq<string>, out: Output)
    requires Closed(graph) && In(graph, value) && "" !in list
    decreases |graph.Keys - open|
  {
    match value
    case Text(t) => out == OText(RedactString(t, list))
    case Scalar(n) => out == OScalar(n)
    case Instant(n) => out == OInstant(n)
    case Ref(o) =>
      if o in open then out == OText("[redacted]")
      else
        Shrinks(graph.Keys, open, o);
        match graph[o]
        case List(items) =>
          && out.OList? && |out.items| == |items|
          && forall i :: 0 <= i < |items| ==> Shows(graph, items[i], open + {o}, list, out.items[i])
        case Record(entries) =>
          && out.ORecord? && (forall key :: key in out.fields <==> Under(entries, key, list).Found?)
          && forall key :: key in out.fields ==> Shows(graph, Under(entries, key, list).value, open + {o}, list, out.fields[key])
  }

  ghost predicate ShowsEntries(graph: Graph, entries: seq<(string, Value)>, open: set<nat>, list: seq<string>,
                               fields: map<string, Output>)
    requires Closed(graph) && "" !in list && forall i :: 0 <= i < |entries| ==> In(graph, entries[i].1)
  {
    && (forall key :: key in fields <==> Under(entries, key, list).Found?)
    && forall key :: key in fields ==> Shows(graph, Under(entries, key, list).value, open, list, fields[key])
  }

  /** The walk keeps all of that. */
  lemma {:induction false} WalkShows(graph: Graph, value: Value, open: set<nat>, list: seq<string>)
    requires Closed(graph) && In(graph, value) && "" !in list
    ensures Shows(graph, value, open, list, Walk(graph, value, open, list))
    decreases |graph.Keys - open|, 0
  {
    hide RedactString, WalkItems, WalkEntries;
    if value.Ref? && value.id !in open {
      var o := value.id;
      Shrinks(graph.Keys, open, o);
      match graph[o]
      case List(items) => ItemsShow(graph, items, open + {o}, list);
      case Record(entries) => EntriesShow(graph, entries, open + {o}, list);
    }
  }

  lemma {:induction false} ItemsShow(graph: Graph, items: seq<Value>, open: set<nat>, list: seq<string>)
    requires Closed(graph) && "" !in list && forall i :: 0 <= i < |items| ==> In(graph, items[i])
    ensures var r := WalkItems(graph, items, open, list);
            forall i :: 0 <= i < |items| ==> Shows(graph, items[i], open, list, r[i])
    decreases |graph.Keys - open|, 1 + |items|
  {
    hide Shows;
    if items != [] {
      ItemsShow(graph, items[..|items| - 1], open, list);
      WalkShows(graph, items[|items| - 1], open, list);
    }
  }

  lemma {:induction false} EntriesShow(graph: Graph, entries: seq<(string, Value)>, open: set<nat>, list: seq<string>)
    requires Closed(graph) && "" !in list && forall i :: 0 <= i < |entries| ==> In(graph, entries[i].1)
    ensures ShowsEntries(graph, entries, open, list, WalkEntries(graph, entries, open, list))
    decreases |graph.Keys - open|, 1 + |entries|
  {
    hide RedactString, Shows;
    if entries != [] {
      var init, last := entries[..|entries| - 1], entries[|entries| - 1];
      EntriesShow(graph, init, open, list);
      WalkShows(graph, last.1, open, list);
      var before, shown := WalkEntries(graph, init, open, list), Walk(graph, last.1, open, list);
      assert WalkEntries(graph, entries, open, list) == before[RedactString(last.0, list) := shown];
      hide Walk, WalkEntries;
      OneMoreEntry(graph, entries, open, list, before, shown);
    }
  }

  lemma OneMoreEntry(graph: Graph, entries: seq<(string, Value)>, open: set<nat>, list: seq<string>,
                     before: map<string, Output>, shown: Output)
    requires Closed(graph) && "" !in list && entries != [] && forall i :: 0 <= i < |entries| ==> In(graph, entries[i].1)
    requires ShowsEntries(graph, entries[..|entries| - 1], open, list, before)
    requires Shows(graph, entries[|entries| - 1].1, open, list, shown)
    ensures ShowsEntries(graph, entries, open, list, before[RedactString(entries[|entries| - 1].0, list) := shown])
  {
    hide RedactString, Shows;
    var last := entries[|entries| - 1];
    var scrubbed := RedactString(last.0, list);
    forall key ensures Under(entries, key, list) == if key == scrubbed then Found(last.1) else Under(entries[..|entries| - 1], key, list) {}
    assert forall key :: key in before[scrubbed := shown] <==> key == scrubbed || key in before;
    hide Under;
  }

  /** The whole result: with nothing to scrub the input itself is handed back. */
  datatype Response = Same | Cloned(output: Output)

  function RedactExactValues(graph: Graph, value: Value, values: seq<string>): Response
    requires Closed(graph) && In(graph, value)
  {
    NormalizeMeaning(values);
    var list := Normalize(values);
    if list == [] then Same else Cloned(Walk(graph, value, {}, list))
  }

  /** A supplied value that overlaps the placeholder nowhere is gone from every key and
      string of the result, cycles and shared objects included. */
  lemma RedactionComplete(graph: Graph, value: Value, values: seq<string>, w: string)
    requires Closed(graph) && In(graph, value)
    requires w in values && w != "" && !Overlaps(w, REDACTED)
    ensures var r := RedactExactValues(graph, value, values);
            r.Cloned? && Clean(r.output, w)
  {
    NormalizeMeaning(values);
    assert w != REDACTED by {
      assert AgreesAt(REDACTED, REDACTED, 0);
    }
    WalkClean(graph, value, {}, Normalize(values), w);
  }

  /** The recursive closure with its mutable `seen` set. */
  class Redactor {
    const graph: Graph
    const list: seq<string>
    var seen: set<nat>

    constructor (graph: Graph, list: seq<string>)
      ensures this.graph == graph && this.list == list && seen == {}
    {
      this.graph, this.list, seen := graph, list, {};
    }

    /** Every object is closed again on the way out, so sharing is not taken for a cycle. */
    method Redact(entry: Value) returns (out: Output)
      requires Closed(graph) && In(graph, entry) && "" !in list
      modifies this
      ensures seen == old(seen)
      ensures out == Walk(graph, entry, seen, list)
      decreases |graph.Keys - seen|, 0
    {
      match entry
      case Text(s) => out := OText(RedactString(s, list));
      case Scalar(n) => out := OScalar(n);
      case Instant(t) => out := OInstant(t);
      case Ref(o) =>
        if o in seen {
          return OText(REDACTED);
        }
        Shrinks(graph.Keys, seen, o);
        seen := seen + {o};
        match graph[o]
        case List(items) =>
          out := RedactItems(items);
          seen := seen - {o};
        case Record(entries) =>
          out := RedactEntries(entries);
          seen := seen - {o};
    }

    method RedactItems(items: seq<Value>) returns (out: Output)
      requires Closed(graph) && "" !in list && forall i :: 0 <= i < |items| ==> In(graph, items[i])
      modifies this
      ensures seen == old(seen)
      ensures out == OList(WalkItems(graph, items, seen, list))
      decreases |graph.Keys - seen|, 1
    {
      var result := [];
      for i := 0 to |items|
        invariant seen == old(seen)
        invariant result == WalkItems(graph, items[..i], seen, list)
      {
        var item := Redact(items[i]);
        assert items[..i + 1][..i] == items[..i];
        result := result + [item];
      }
      assert items[..|items|] == items;
      out := OList(result);
    }

    method RedactEntries(entries: seq<(string, Value)>) returns (out: Output)
      requires Closed(graph) && "" !in list && forall i :: 0 <= i < |entries| ==> In(graph, entries[i].1)
      modifies this
      ensures seen == old(seen)
      ensures out == ORecord(WalkEntries(graph, entries, seen, list))
      decreases |graph.Keys - seen|, 1
    {
      var result := map[];
      for i := 0 to |entries|
        invariant seen == old(seen)
        invariant result == WalkEntries(graph, entries[..i], seen, list)
      {
        var nested := Redact(entries[i].1);
        EntriesStep(graph, entries, i, seen, list);
        result := result[RedactString(entries[i].0, list) := nested];
      }
      assert entries[..|entries|] == entries;
      out := ORecord(result);
    }
  }
}

/** Redaction of command responses: by key name, by text pattern, through shared and cyclic
    objects. The text patterns themselves are a parameter. */
module ResponseRedaction {
  import opened ExactValueRedaction
  import opened RedactionWalk

  const SENSITIVE_KEYS := {
    "apikey", "apitoken", "authorization", "authtoken", "clientsecret", "connectionstring", "connectionurl",
    "credentials", "credentialsencrypted", "databasepassword", "databaseurl", "dbpassword", "directurl",
    "password", "passphrase", "pgpassword", "privatekey", "refreshtoken", "secret", "secretkey",
    "signingsecret", "token", "webhooksecret"
  }

  predicate IsLower(c: char) { 'a' <= c <= 'z' || '0' <= c <= '9' }

  function Lower(c: char): char { if 'A' <= c <= 'Z' then c + ' ' else c }

  /** Only ASCII letters and digits, in lower case. */
  function NormalizedKey(key: string): string {
    if key == "" then ""
    else (if IsLower(Lower(key[0])) then [Lower(key[0])] else "") + NormalizedKey(key[1..])
  }

  predicate EndsWith(s: string, suffix: string) { |suffix| <= |s| && s[|s| - |suffix|..] == suffix }

  predicate Between(s: string, prefix: string, suffix: string) {
    |prefix| + |suffix| <= |s| && prefix <= s && EndsWith(s, suffix)
  }

  predicate IsSensitiveKey(key: string) {
    var n := NormalizedKey(key);
    || n in SENSITIVE_KEYS || EndsWith(n, "token") || EndsWith(n, "secret") || n == "secretaccesskey"
    || (exists p, s :: p in {"database", "db", "pg"} && s in {"url", "password"} && Between(n, p, s))
    || (exists p :: p in {"access", "refresh", "admin", "api", "auth"} && Between(n, p, "token"))
  }

  lemma {:induction false} NormalizedTwice(key: string)
    ensures NormalizedKey(NormalizedKey(key)) == NormalizedKey(key)
  {
    if key != "" {
      NormalizedTwice(key[1..]);
      var c, n := Lower(key[0]), NormalizedKey(key);
      if IsLower(c) {
        assert n[0] == c && n[1..] == NormalizedKey(key[1..]) && Lower(c) == c;
      } else {
        assert n == NormalizedKey(key[1..]);
      }
    }
  }

  /** Case and punctuation make no difference to what counts as sensitive. */
  lemma SpellingIrrelevant(a: string, b: string)
    requires NormalizedKey(a) == NormalizedKey(b)
    ensures IsSensitiveKey(a) <==> IsSensitiveKey(b)
    ensures IsSensitiveKey(a) <==> IsSensitiveKey(NormalizedKey(a))
  {
    NormalizedTwice(a);
  }

  // -------------------------------------------------------------- the walk

  predicate Stars(s: string) { s != "" && forall c :: c in s ==> c == '*' }

  function RespondText(s: string, sensitive: bool, patterns: string -> string): string {
    if sensitive then if s == REDACTED || Stars(s) then s else REDACTED else patterns(s)
  }

  predicate IsObject(v: Value) { v.Ref? || v.Instant? }

  function Respond(graph: Graph, value: Value, sensitive: bool, seen: set<nat>, patterns: string -> string): Output
    requires Closed(graph) && In(graph, value)
    decreases |graph.Keys - seen|, 0
  {
    match value
    case Text(s) => OText(RespondText(s, sensitive, patterns))
    case Scalar(n) => OScalar(n)
    case Instant(t) => OInstant(t)
    case Ref(o) =>
      if o in seen then OText(REDACTED)
      else
        Shrinks(graph.Keys, seen, o);
        match graph[o]
        case List(items) => OList(RespondItems(graph, items, sensitive, seen + {o}, patterns))
        case Record(entries) => ORecord(RespondEntries(graph, entries, seen + {o}, patterns))
  }

  function RespondItems(graph: Graph, items: seq<Value>, sensitive: bool, seen: set<nat>,
                        patterns: string -> string): (r: seq<Output>)
    requires Closed(graph) && forall i :: 0 <= i < |items| ==> In(graph, items[i])
    ensures |r| == |items|
    decreases |graph.Keys - seen|, 1 + |items|
  {
    if items == [] then []
    else RespondItems(graph, items[..|items| - 1], sensitive, seen, patterns)
         + [Respond(graph, items[|items| - 1], sensitive, seen, patterns)]
  }

  /** An object under a sensitive key is dropped whole. */
  function RespondEntries(graph: Graph, entries: seq<(string, Value)>, seen: set<nat>,
                          patterns: string -> string): map<string, Output>
    requires Closed(graph) && forall i :: 0 <= i < |entries| ==> In(graph, entries[i].1)
    decreases |graph.Keys - seen|, 1 + |entries|
  {
    if entries == [] then map[]
    else
      var (key, nested) := entries[|entries| - 1];
      RespondEntries(graph, entries[..|entries| - 1], seen, patterns)
        [key := if IsSensitiveKey(key) && IsObject(nested) then OText(REDACTED)
                else Respond(graph, nested, IsSensitiveKey(key), seen, patterns)]
  }

  lemma EntryStep(graph: Graph, entries: seq<(string, Value)>, i: nat, seen: set<nat>, patterns: string -> string)
    requires i < |entries| && Closed(graph) && forall i :: 0 <= i < |entries| ==> In(graph, entries[i].1)
    ensures RespondEntries(graph, entries[..i + 1], seen, patterns)
         == RespondEntries(graph, entries[..i], seen, patterns)
              [entries[i].0 := if IsSensitiveKey(entries[i].0) && IsObject(entries[i].1) then OText(REDACTED)
                               else Respond(graph, entries[i].1, IsSensitiveKey(entries[i].0), seen, patterns)]
  {
    hide IsSensitiveKey, Respond;
    assert entries[..i + 1][..i] == entries[..i] && entries[..i + 1][i] == entries[i];
  }

  // -------------------------------------------------- what comes out

  /** Under a sensitive key there is only the placeholder, stars, or a number or flag. */
  predicate Hidden(out: Output) {
    match out
    case OText(s) => s == REDACTED || Stars(s)
    case OScalar(_) => true
    case _ => false
  }

  /** At every depth, sensitive keys are hidden. */
  ghost predicate Guarded(out: Output) {
    match out
    case OList(items) => forall i :: 0 <= i < |items| ==> Guarded(items[i])
    case ORecord(fields) => forall k :: k in fields ==> Guarded(fields[k]) && (IsSensitiveKey(k) ==> Hidden(fields[k]))
    case _ => true
  }

  /** Every text has been through the patterns, unless it is the placeholder or stars. */
  ghost predicate Patterned(out: Output, patterns: string -> string) {
    match out
    case OText(s) => s == REDACTED || Stars(s) || exists t :: s == patterns(t)
    case OList(items) => forall i :: 0 <= i < |items| ==> Patterned(items[i], patterns)
    case ORecord(fields) => forall k :: k in fields ==> Patterned(fields[k], patterns)
    case _ => true
  }

  ghost predicate Safe(out: Output, patterns: string -> string) { Guarded(out) && Patterned(out, patterns) }

  lemma TextSafe(s: string, sensitive: bool, patterns: string -> string)
    ensures var out := OText(RespondText(s, sensitive, patterns)); Safe(out, patterns) && (sensitive ==> Hidden(out))
  {
    hide Stars;
  }

  lemma ListSafe(items: seq<Output>, patterns: string -> string)
    requires forall i :: 0 <= i < |items| ==> Safe(items[i], patterns)
    ensures Safe(OList(items), patterns)
  {
    forall i | 0 <= i < |items| ensures Guarded(items[i]) && Patterned(items[i], patterns) { assert Safe(items[i], patterns); }
  }

  lemma RecordSafe(fields: map<string, Output>, patterns: string -> string)
    requires forall k :: k in fields ==> Safe(fields[k], patterns) && (IsSensitiveKey(k) ==> Hidden(fields[k]))
    ensures Safe(ORecord(fields), patterns)
  {
    hide IsSensitiveKey, Hidden;
    forall k | k in fields ensures Guarded(fields[k]) && Patterned(fields[k], patterns) { assert Safe(fields[k], patterns); }
  }

  lemma {:induction false} RespondSafe(graph: Graph, value: Value, sensitive: bool, seen: set<nat>,
                                       patterns: string -> string)
    requires Closed(graph) && In(graph, value)
    ensures Safe(Respond(graph, value, sensitive, seen, patterns), patterns)
    ensures sensitive && !IsObject(value) ==> Hidden(Respond(graph, value, sensitive, seen, patterns))
    decreases |graph.Keys - seen|, 0
  {
    hide Safe, IsSensitiveKey, Hidden, RespondItems, RespondEntries;
    match value
    case Text(s) => TextSafe(s, sensitive, patterns);
    case Scalar(n) => PlainSafe(patterns);
    case Instant(t) => PlainSafe(patterns);
    case Ref(o) =>
      TextSafe(REDACTED, true, patterns);
      if o !in seen {
        Shrinks(graph.Keys, seen, o);
        match graph[o]
        case List(items) =>
          ItemsSafe(graph, items, sensitive, seen + {o}, patterns);
          ListSafe(RespondItems(graph, items, sensitive, seen + {o}, patterns), patterns);
        case Record(entries) =>
          EntriesSafe(graph, entries, seen + {o}, patterns);
          RecordSafe(RespondEntries(graph, entries, seen + {o}, patterns), patterns);
      }
  }

  lemma PlainSafe(patterns: string -> string)
    ensures forall n :: Safe(OScalar(n), patterns) && Hidden(OScalar(n))
    ensures forall t :: Safe(OInstant(t), patterns)
  {
  }

  lemma {:induction false} ItemsSafe(graph: Graph, items: seq<Value>, sensitive: bool, seen: set<nat>,
                                     patterns: string -> string)
    requires Closed(graph) && forall i :: 0 <= i < |items| ==> In(graph, items[i])
    ensures forall i :: 0 <= i < |items| ==> Safe(RespondItems(graph, items, sensitive, seen, patterns)[i], patterns)
    decreases |graph.Keys - seen|, 1 + |items|
  {
    hide Safe, IsSensitiveKey;
    if items != [] {
      ItemsSafe(graph, items[..|items| - 1], sensitive, seen, patterns);
      RespondSafe(graph, items[|items| - 1], sensitive, seen, patterns);
    }
  }

  lemma {:induction false} EntriesSafe(graph: Graph, entries: seq<(string, Value)>, seen: set<nat>,
                                       patterns: string -> string)
    requires Closed(graph) && forall i :: 0 <= i < |entries| ==> In(graph, entries[i].1)
    ensures var r := RespondEntries(graph, entries, seen, patterns);
            forall k :: k in r ==> Safe(r[k], patterns) && (IsSensitiveKey(k) ==> Hidden(r[k]))
    ensures RespondEntries(graph, entries, seen, patterns).Keys == set i | 0 <= i < |entries| :: entries[i].0
    decreases |graph.Keys - seen|, 1 + |entries|
  {
    hide IsSensitiveKey;
    if entries != [] {
      var init, last := entries[..|entries| - 1], entries[|entries| - 1];
      EntriesSafe(graph, init, seen, patterns);
      RespondSafe(graph, last.1, IsSensitiveKey(last.0), seen, patterns);
      assert (set i | 0 <= i < |entries| :: entries[i].0) == (set i | 0 <= i < |init| :: init[i].0) + {last.0} by {
        assert entries == init + [last];
      }
      hide Guarded, Patterned, Respond;
    }
  }

  /** A response never shows text or an object under a sensitive key, at any depth and
      through any sharing or cycle, and every other text went through the patterns. */
  lemma ResponseSafe(graph: Graph, value: Value, patterns: string -> string)
    requires Closed(graph) && In(graph, value)
    ensures var out := Respond(graph, value, false, {}, patterns); Guarded(out) && Patterned(out, patterns)
  {
    RespondSafe(graph, value, false, {}, patterns);
  }

  // ---------------------------------------- what a response shows of its input

  /** The value that a record has under a key: the last one, if it were listed more than once. */
  function Under(entries: seq<(string, Value)>, key: string): (r: Found)
    ensures r.Found? ==> exists i :: 0 <= i < |entries| && entries[i].1 == r.value
  {
    if entries == [] then Missing
    else if entries[|entries| - 1].0 == key then Found(entries[|entries| - 1].1)
    else Under(entries[..|entries| - 1], key)
  }

  /** What stands in place of a value under a sensitive key. */
  predicate Withheld(value: Value, out: Output) {
    match value
    case Text(s) => out == OText(if s == "[redacted]" || (s != "" && forall i :: 0 <= i < |s| ==> s[i] == '*') then s else "[redacted]")
    case Scalar(n) => out == OScalar(n)
    case _ => out == OText("[redacted]")
  }

  /** What comes out for a value, from the input alone: every text as the patterns leave it,
      every number, flag and instant as it is, lists with their length and order, records with
      their keys; withheld under a sensitive key; and the placeholder where an object that is
      still open comes round again. */
  ghost predicate Shows(graph: Graph, value: Value, open: set<nat>, patterns: string -> string, out: Output)
    requires Closed(graph) && In(graph, value)
    decreases |graph.Keys - open|
  {
    match value
    case Text(t) => out == OText(patterns(t))
    case Scalar(n) => out == OScalar(n)
    case Instant(n) => out == OInstant(n)
    case Ref(o) =>
      if o in open then out == OText("[redacted]")
      else
        Shrinks(graph.Keys, open, o);
        match graph[o]
        case List(items) =>
          && out.OList? && |out.items| == |items|
          && forall i :: 0 <= i < |items| ==> Shows(graph, items[i], open + {o}, patterns, out.items[i])
        case Record(entries) =>
          && out.ORecord? && (forall key :: key in out.fields <==> Under(entries, key).Found?)
          && forall key :: key in out.fields ==>
               var value := Under(entries, key).value;
               if IsSensitiveKey(key) then Withheld(value, out.fields[key])
               else Shows(graph, value, open + {o}, patterns, out.fields[key])
  }

  /** The entries of an open record, shown one by one. */
  ghost predicate ShowsEntries(graph: Graph, entries: seq<(string, Value)>, open: set<nat>, patterns: string -> string,
                               fields: map<string, Output>)
    requires Closed(graph) && forall i :: 0 <= i < |entries| ==> In(graph, entries[i].1)
  {
    && (forall key :: key in fields <==> Under(entries, key).Found?)
    && forall key :: key in fields ==>
         var value := Under(entries, key).value;
         if IsSensitiveKey(key) then Withheld(value, fields[key]) else Shows(graph, value, open, patterns, fields[key])
  }

  /** A response shows its input in exactly this way. */
  lemma {:induction false} RespondShows(graph: Graph, value: Value, open: set<nat>, patterns: string -> string)
    requires Closed(graph) && In(graph, value)
    ensures Shows(graph, value, open, patterns, Respond(graph, value, false, open, patterns))
    decreases |graph.Keys - open|, 0
  {
    hide IsSensitiveKey, RespondItems, RespondEntries;
    if value.Ref? && value.id !in open {
      var o := value.id;
      Shrinks(graph.Keys, open, o);
      match graph[o]
      case List(items) => ItemsShow(graph, items, open + {o}, patterns);
      case Record(entries) => EntriesShow(graph, entries, open + {o}, patterns);
    }
  }

  lemma {:induction false} ItemsShow(graph: Graph, items: seq<Value>, open: set<nat>, patterns: string -> string)
    requires Closed(graph) && forall i :: 0 <= i < |items| ==> In(graph, items[i])
    ensures var r := RespondItems(graph, items, false, open, patterns);
            forall i :: 0 <= i < |items| ==> Shows(graph, items[i], open, patterns, r[i])
    decreases |graph.Keys - open|, 1 + |items|
  {
    hide Shows;
    if items != [] {
      ItemsShow(graph, items[..|items| - 1], open, patterns);
      RespondShows(graph, items[|items| - 1], open, patterns);
    }
  }

  lemma {:induction false} EntriesShow(graph: Graph, entries: seq<(string, Value)>, open: set<nat>, patterns: string -> string)
    requires Closed(graph) && forall i :: 0 <= i < |entries| ==> In(graph, entries[i].1)
    ensures ShowsEntries(graph, entries, open, patterns, RespondEntries(graph, entries, open, patterns))
    decreases |graph.Keys - open|, 1 + |entries|
  {
    hide IsSensitiveKey, Shows;
    if entries != [] {
      var init, last := entries[..|entries| - 1], entries[|entries| - 1];
      EntriesShow(graph, init, open, patterns);
      RespondShows(graph, last.1, open, patterns);
      var before, shown := RespondEntries(graph, init, open, patterns), RespondEntries(graph, entries, open, patterns)[last.0];
      SensitiveWithheld(graph, last.1, open, patterns);
      hide Respond, Withheld, RespondEntries;
      OneMoreEntry(graph, entries, open, patterns, before, shown);
    }
  }

  lemma SensitiveWithheld(graph: Graph, value: Value, open: set<nat>, patterns: string -> string)
    requires Closed(graph) && In(graph, value)
    ensures Withheld(value, if IsObject(value) then OText(REDACTED) else Respond(graph, value, true, open, patterns))
  {
    if value.Text? {
      var s := value.text;
      assert forall i :: 0 <= i < |s| ==> s[i] in s;
      assert Stars(s) <==> s != "" && forall i :: 0 <= i < |s| ==> s[i] == '*';
    }
  }

  lemma OneMoreEntry(graph: Graph, entries: seq<(string, Value)>, open: set<nat>, patterns: string -> string,
                     before: map<string, Output>, shown: Output)
    requires Closed(graph) && entries != [] && forall i :: 0 <= i < |entries| ==> In(graph, entries[i].1)
    requires ShowsEntries(graph, entries[..|entries| - 1], open, patterns, before)
    requires var last := entries[|entries| - 1];
             if IsSensitiveKey(last.0) then Withheld(last.1, shown) else Shows(graph, last.1, open, patterns, shown)
    ensures ShowsEntries(graph, entries, open, patterns, before[entries[|entries| - 1].0 := shown])
  {
    hide Shows, Withheld, IsSensitiveKey;
    var last, after := entries[|entries| - 1], before[entries[|entries| - 1].0 := shown];
    forall key ensures Under(entries, key) == if key == last.0 then Found(last.1) else Under(entries[..|entries| - 1], key) {}
    assert forall key :: key in after <==> key == last.0 || key in before;
    hide Under;
  }

  lemma FirstCharacter(key: string)
    ensures NormalizedKey("") == ""
    ensures key != "" ==> NormalizedKey(key) == NormalizedKey([key[0]]) + NormalizedKey(key[1..])
  {
    if key != "" {
      var one := [key[0]];
      assert one[1..] == "" && one[0] == key[0];
      assert NormalizedKey(one[1..]) == "";
    }
    hide IsLower, Lower;
  }

  /** Spelled out: a key counts character by character, and of one only a letter, in lower case,
      or a digit. */
  lemma {:induction false} NormalizesEachCharacter(a: string, b: string)
    ensures NormalizedKey(a + b) == NormalizedKey(a) + NormalizedKey(b)
  {
    hide NormalizedKey;
    FirstCharacter(a);
    if a == "" {
      assert a + b == b;
    } else {
      FirstCharacter(a + b);
      assert (a + b)[1..] == a[1..] + b;
      NormalizesEachCharacter(a[1..], b);
      var head, tail, rest := NormalizedKey([a[0]]), NormalizedKey(a[1..]), NormalizedKey(b);
      assert head + (tail + rest) == (head + tail) + rest;
    }
  }

  lemma OneCharacter(c: char)
    ensures NormalizedKey([c]) == if 'a' <= c <= 'z' || '0' <= c <= '9' then [c]
                                  else if 'A' <= c <= 'Z' then [((c as int) + 32) as char] else ""
  {
    assert [c][1..] == "" && NormalizedKey("") == "";
    assert NormalizedKey([c]) == (if IsLower(Lower(c)) then [Lower(c)] else "") + NormalizedKey("");
    hide NormalizedKey;
  }

  /** Spelled out: the names that are sensitive, and the shapes. */
  lemma SensitiveNames(key: string)
    requires NormalizedKey(key) in {"password", "apikey", "authorization", "credentials", "privatekey", "passphrase", "connectionstring",
                                    "connectionurl", "directurl", "secretkey", "secretaccesskey"}
    ensures IsSensitiveKey(key)
  {
    hide NormalizedKey, EndsWith, Between;
  }

  lemma SensitiveShapes(key: string, prefix: string, middle: string, suffix: string)
    requires NormalizedKey(key) == prefix + middle + suffix
    requires suffix in {"token", "secret"} || (prefix in {"database", "db", "pg"} && suffix in {"url", "password"})
    ensures IsSensitiveKey(key)
  {
    hide NormalizedKey;
    var n := NormalizedKey(key);
    assert n == (prefix + middle) + suffix;
    assert EndsWith(n, suffix) && Between(n, prefix, suffix);
    hide EndsWith, Between;
  }

  /** Short names, such as `name` or `url`, are not. */
  lemma ShortNamesAreShown(key: string)
    requires |NormalizedKey(key)| < 5
    ensures !IsSensitiveKey(key)
  {
    hide NormalizedKey;
  }

  /** The recursion with its mutable `seen` set. */
  class Responder {
    const graph: Graph
    const patterns: string -> string
    var seen: set<nat>

    constructor (graph: Graph, patterns: string -> string)
      ensures this.graph == graph && this.patterns == patterns && seen == {}
    {
      this.graph, this.patterns, seen := graph, patterns, {};
    }

    method Redact(entry: Value, sensitive: bool) returns (out: Output)
      requires Closed(graph) && In(graph, entry)
      modifies this
      ensures seen == old(seen)
      ensures out == Respond(graph, entry, sensitive, seen, patterns)
      decreases |graph.Keys - seen|, 0
    {
      match entry
      case Text(s) => out := OText(RespondText(s, sensitive, patterns));
      case Scalar(n) => out := OScalar(n);
      case Instant(t) => out := OInstant(t);
      case Ref(o) =>
        if o in seen {
          return OText(REDACTED);
        }
        Shrinks(graph.Keys, seen, o);
        seen := seen + {o};
        match graph[o]
        case List(items) =>
          out := RedactItems(items, sensitive);
          seen := seen - {o};
        case Record(entries) =>
          out := RedactEntries(entries);
          seen := seen - {o};
    }

    method RedactItems(items: seq<Value>, sensitive: bool) returns (out: Output)
      requires Closed(graph) && forall i :: 0 <= i < |items| ==> In(graph, items[i])
      modifies this
      ensures seen == old(seen)
      ensures out == OList(RespondItems(graph, items, sensitive, seen, patterns))
      decreases |graph.Keys - seen|, 1
    {
      hide Respond;
      var result := [];
      for i := 0 to |items|
        invariant seen == old(seen)
        invariant result == RespondItems(graph, items[..i], sensitive, seen, patterns)
      {
        var item := Redact(items[i], sensitive);
        assert items[..i + 1][..i] == items[..i];
        result := result + [item];
      }
      assert items[..|items|] == items;
      out := OList(result);
    }

    method RedactEntries(entries: seq<(string, Value)>) returns (out: Output)
      requires Closed(graph) && forall i :: 0 <= i < |entries| ==> In(graph, entries[i].1)
      modifies this
      ensures seen == old(seen)
      ensures out == ORecord(RespondEntries(graph, entries, seen, patterns))
      decreases |graph.Keys - seen|, 1
    {
      hide IsSensitiveKey, Respond;
      var result := map[];
      for i := 0 to |entries|
        invariant seen == old(seen)
        invariant result == RespondEntries(graph, entries[..i], seen, patterns)
      {
        var (key, nested) := entries[i];
        var shown := OText(REDACTED);
        if !IsSensitiveKey(key) || !IsObject(nested) {
          shown := Redact(nested, IsSensitiveKey(key));
        }
        EntryStep(graph, entries, i, seen, patterns);
        result := result[key := shown];
      }
      assert entries[..|entries|] == entries;
      out := ORecord(result);
    }
  }
}

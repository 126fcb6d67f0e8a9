/** context.py: turning the live variables of a notebook session into text a
    language model can read. A runtime value is represented by what Python's
    introspection reports about it; the namespace by its entries in order. */
module Context {
  import opened Text
  import opened Seqs

  datatype Option<T> = None | Some(value: T)

  /** One DataFrame column: its label and the name of its dtype. */
  datatype Column = Column(name: string, dtype: string)

  /** What pandas reports about a DataFrame: its number of rows, the columns
      in order and the text of `head()`. */
  datatype Frame = Frame(rows: nat, columns: seq<Column>, head: string)

  /** What `inspect` reports about a plain function: `getdoc` ("" for None)
      and `getsource`. */
  datatype FunctionInfo = FunctionInfo(doc: string, source: string)

  /** A runtime value, seen through the probes get_variable_info makes.
      Each optional field is present exactly when its probe succeeds. */
  datatype Value = Value(
    typeName: string,                  // type(value).__name__
    frame: Option<Frame>,              // the type is pandas.core.frame.DataFrame
    func: Option<FunctionInfo>,        // inspect.isfunction(value)
    attributes: Option<seq<string>>,   // dir(value), when the value has __dict__
    length: Option<nat>,               // len(value), when the value has __len__
    text: Option<string>,              // str(value); None when it raises
    doc: string,                       // value.__doc__, "" for None
    isModule: bool,                    // isinstance(value, types.ModuleType)
    isCallable: bool)                  // callable(value)

  /** A namespace entry, and a namespace as the sequence of `dict.items()`. */
  type Entry = (string, Value)
  type Namespace = seq<Entry>

  /** A dictionary never holds a key twice. */
  predicate UniqueNames(ns: Namespace) {
    forall i, j :: 0 <= i < j < |ns| ==> ns[i].0 != ns[j].0
  }

  function Names(ns: Namespace): set<string> {
    set e | e in ns :: e.0
  }

  /** `name in d`, then `d[name]`: the value of the first entry with that name. */
  function Lookup(ns: Namespace, name: string): (r: Option<Value>)
    ensures r.Some? <==> name in Names(ns)
    ensures r.Some? ==> (name, r.value) in ns
  {
    if ns == [] then None
    else if ns[0].0 == name then Some(ns[0].1)
    else
      assert Names(ns) == {ns[0].0} + Names(ns[1..]);
      Lookup(ns[1..], name)
  }

  // ===========================================================================
  // filter_variables

  /** The test filter_variables applies to an entry: a public name, not a
      module, not IPython's `In` or `Out` history, and not callable. */
  predicate IsUserVariable(e: Entry) {
    && !StartsWith(e.0, "_")
    && !e.1.isModule
    && e.0 != "In" && e.0 != "Out"
    && !e.1.isCallable
  }

  /** The entries that pass the test, in the namespace's order. */
  function UserVariables(ns: Namespace): (kept: Namespace)
    ensures |kept| <= |ns|
    ensures forall i :: 0 <= i < |kept| ==> IsUserVariable(kept[i])
  {
    if ns == [] then []
    else
      var last := ns[|ns| - 1];
      UserVariables(ns[..|ns| - 1]) + (if IsUserVariable(last) then [last] else [])
  }

  /** An entry is kept if and only if it passes the test; values are kept as they are. */
  lemma {:induction false} UserVariablesMembers(ns: Namespace)
    ensures forall e :: e in UserVariables(ns) <==> e in ns && IsUserVariable(e)
    decreases |ns|
  {
    if ns != [] {
      var init := ns[..|ns| - 1];
      UserVariablesMembers(init);
      assert ns == init + [ns[|ns| - 1]];
    }
  }

  /** The kept entries appear in the namespace's own order. */
  lemma {:induction false} UserVariablesInOrder(ns: Namespace)
    ensures Subsequence(UserVariables(ns), ns)
    decreases |ns|
  {
    if ns != [] {
      var init := ns[..|ns| - 1];
      var last := ns[|ns| - 1];
      assert init + [last] == ns;
      UserVariablesInOrder(init);
      SubsequenceSnoc(UserVariables(init), init, last, IsUserVariable(last));
      if IsUserVariable(last) {
        assert UserVariables(ns) == UserVariables(init) + [last];
      } else {
        assert UserVariables(ns) == UserVariables(init);
      }
    }
  }

  /** The result is again a dictionary: no name twice. */
  lemma {:induction false} UserVariablesUnique(ns: Namespace)
    requires UniqueNames(ns)
    ensures UniqueNames(UserVariables(ns))
    decreases |ns|
  {
    if ns != [] {
      var init := ns[..|ns| - 1];
      var last := ns[|ns| - 1];
      UserVariablesUnique(init);
      UserVariablesMembers(init);
      var r := UserVariables(init);
      forall e | e in r ensures e.0 != last.0 {
        var j :| 0 <= j < |init| && init[j] == e;
        assert ns[j] == e;
      }
      if IsUserVariable(last) {
        forall i, j | 0 <= i < j < |r| + 1 ensures (r + [last])[i].0 != (r + [last])[j].0 {
          if j == |r| {
            assert r[i] in r;
          }
        }
      }
    }
  }

  /** filter_variables: the session's user-defined variables. */
  method FilterVariables(namespace: Namespace) returns (variables: Namespace)
    requires UniqueNames(namespace)
    ensures variables == UserVariables(namespace)
    ensures forall e :: e in variables <==> e in namespace && IsUserVariable(e)
    ensures Subsequence(variables, namespace)
    ensures UniqueNames(variables)
  {
    variables := [];
    for i := 0 to |namespace|
      invariant variables == UserVariables(namespace[..i])
    {
      var (name, value) := namespace[i];
      assert namespace[..i + 1][..i] == namespace[..i];
      if !StartsWith(name, "_") && !value.isModule {
        if name != "In" && name != "Out" {
          if !value.isCallable {
            variables := variables + [(name, value)];
          }
        }
      }
    }
    assert namespace[..|namespace|] == namespace;
    UserVariablesMembers(namespace);
    UserVariablesInOrder(namespace);
    UserVariablesUnique(namespace);
  }

  // ===========================================================================
  // extract_variables_from_query

  /** The identifier-shaped words of a query. */
  function QueryNames(query: string): set<string> {
    set w | w in Words(query) && IsIdentifier(w)
  }

  /** extract_variables_from_query: the whitespace-separated tokens of `line`
      that are identifiers, as a set. */
  method ExtractVariablesFromQuery(line: string) returns (variables: set<string>)
    ensures variables == QueryNames(line)
    ensures forall w :: w in variables <==> w in Words(line) && IsIdentifier(w)
    ensures forall w :: w in variables ==> w != "" && NoSpace(w)
    ensures AllSpace(line) ==> variables == {}
  {
    variables := {};
    var words := Words(line);
    for i := 0 to |words|
      invariant forall w :: w in variables <==> w in words[..i] && IsIdentifier(w)
    {
      assert words[..i + 1] == words[..i] + [words[i]];
      if IsIdentifier(words[i]) {
        variables := variables + {words[i]};
      }
    }
    assert words[..|words|] == words;
    WordsEmpty(line);
  }

  // ===========================================================================
  // get_variable_info

  /** Length of a sample of `str(value)` before it is cut. */
  const SampleCap: nat := 100

  /** Length of a documentation excerpt before it is cut. */
  const DocCap: nat := 500

  /** `s[:cap] + "..." if len(s) > cap else s`. */
  function Truncate(s: string, cap: nat): (r: string)
    ensures |r| <= cap + 3
    ensures |s| <= cap ==> r == s
    ensures |s| > cap ==> |r| == cap + 3 && r[..cap] == s[..cap] && r[cap..] == "..."
  {
    if |s| > cap then s[..cap] + "..." else s
  }

  /** `str(value.shape)`: the tuple of the row count and the column count. */
  function ShapeText(f: Frame): string {
    "(" + NatToString(f.rows) + ", " + NatToString(|f.columns|) + ")"
  }

  function ColumnLine(c: Column): string {
    "- " + c.name + " (" + c.dtype + ")"
  }

  function ColumnLines(columns: seq<Column>): seq<string> {
    seq(|columns|, i requires 0 <= i < |columns| => ColumnLine(columns[i]))
  }

  /** The names of `dir(value)` that do not start with `_`, in `dir`'s order. */
  function PublicNames(names: seq<string>): seq<string> {
    if names == [] then []
    else
      var last := names[|names| - 1];
      PublicNames(names[..|names| - 1]) + (if StartsWith(last, "_") then [] else [last])
  }

  lemma {:induction false} PublicNamesMembers(names: seq<string>)
    ensures forall a :: a in PublicNames(names) <==> a in names && !StartsWith(a, "_")
    decreases |names|
  {
    if names != [] {
      PublicNamesMembers(names[..|names| - 1]);
      assert names == names[..|names| - 1] + [names[|names| - 1]];
    }
  }

  lemma {:induction false} PublicNamesInOrder(names: seq<string>)
    ensures Subsequence(PublicNames(names), names)
    decreases |names|
  {
    if names != [] {
      var init := names[..|names| - 1];
      var last := names[|names| - 1];
      assert init + [last] == names;
      PublicNamesInOrder(init);
      SubsequenceSnoc(PublicNames(init), init, last, !StartsWith(last, "_"));
      if StartsWith(last, "_") {
        assert PublicNames(names) == PublicNames(init);
      } else {
        assert PublicNames(names) == PublicNames(init) + [last];
      }
    }
  }

  function AttributeLines(names: seq<string>): seq<string> {
    seq(|names|, i requires 0 <= i < |names| => "- " + names[i])
  }

  /** Python's `filter(None, parts)`: drops the empty strings. */
  function NonEmpty(parts: seq<string>): (kept: seq<string>)
    ensures |kept| <= |parts|
    ensures forall p :: p in kept <==> p in parts && p != ""
  {
    if parts == [] then []
    else (if parts[0] == "" then [] else [parts[0]]) + NonEmpty(parts[1..])
  }

  /** The lines of the function branch, which builds its own list and keeps
      only the documentation line when there is documentation. */
  function FunctionLines(name: string, fn: FunctionInfo): seq<string> {
    ["Variable: " + name, "Type: function"]
    + (if fn.doc != "" then ["Documentation: " + fn.doc] else [])
    + ["Source code:"]
    + (if fn.source != "" then [fn.source] else [])
  }

  /** The list the function branch builds, before `filter(None, ...)`: the
      documentation slot is None when there is no documentation. */
  function FunctionSlots(name: string, fn: FunctionInfo): seq<string> {
    [
      "Variable: " + name,
      "Type: function",
      if fn.doc != "" then "Documentation: " + fn.doc else "",
      "Source code:",
      fn.source
    ]
  }

  /** `filter(None, ...)` on a five-slot list whose first, second and fourth
      slots are never empty. */
  lemma NonEmptyFiveSlots(v: string, t: string, d: string, sc: string, e: string)
    requires v != "" && t != "" && sc != ""
    ensures NonEmpty([v, t, d, sc, e])
         == [v, t] + (if d != "" then [d] else []) + [sc] + (if e != "" then [e] else [])
  {
    NonEmptyCons(e, []);
    NonEmptyCons(sc, [e]);
    NonEmptyCons(d, [sc, e]);
    NonEmptyCons(t, [d, sc, e]);
    NonEmptyCons(v, [t, d, sc, e]);
  }

  /** `filter(None, ...)` looks at the head, then at the rest. */
  lemma NonEmptyCons(p: string, rest: seq<string>)
    ensures NonEmpty([p] + rest) == (if p == "" then [] else [p]) + NonEmpty(rest)
  {
    assert ([p] + rest)[1..] == rest;
  }

  /** `filter(None, ...)` over the function branch's list leaves FunctionLines. */
  lemma FilterFunctionSlots(name: string, fn: FunctionInfo)
    ensures NonEmpty(FunctionSlots(name, fn)) == FunctionLines(name, fn)
  {
    var d := if fn.doc != "" then "Documentation: " + fn.doc else "";
    assert d != "" <==> fn.doc != "";
    NonEmptyFiveSlots("Variable: " + name, "Type: function", d, "Source code:", fn.source);
  }

  /** The lines of the fallback branch, after the first type line. */
  function ScalarLines(v: Value): seq<string> {
    ["Type: " + v.typeName]
    + match v.text
      case None => []
      case Some(t) =>
        ["\nString representation: " + Truncate(t, SampleCap)]
        + (if v.doc != "" then ["Documentation:", Truncate(Strip(v.doc), DocCap)] else [])
  }

  /** The lines get_variable_info joins: the first branch whose probe succeeds,
      in the order DataFrame, function, `__dict__`, `__len__`, anything else. */
  function DescriptorLines(name: string, v: Value): (lines: seq<string>)
    ensures |lines| >= 3
    ensures lines[0] == "Variable: " + name
    ensures lines[1] == "Type: " + (if v.frame.None? && v.func.Some? then "function" else v.typeName)
  {
    var head := ["Variable: " + name, "Type: " + v.typeName];
    if v.frame.Some? then
      var f := v.frame.value;
      head + ["Shape: " + ShapeText(f), "Columns:"] + ColumnLines(f.columns)
      + ["\nSample (first 5 rows):", f.head]
    else if v.func.Some? then
      FunctionLines(name, v.func.value)
    else if v.attributes.Some? then
      head + ["Attributes:"] + AttributeLines(PublicNames(v.attributes.value))
    else if v.length.Some? then
      head + ["Length: " + NatToString(v.length.value)]
      + (if v.text.Some? then ["Sample: " + Truncate(v.text.value, SampleCap)] else [])
    else
      head + ScalarLines(v)
  }

  /** The text get_variable_info returns. */
  function Descriptor(name: string, v: Value): string {
    JoinLines(DescriptorLines(name, v))
  }

  /** The loop of the DataFrame branch: one line per column, in column order. */
  method AppendColumnLines(parts: seq<string>, columns: seq<Column>) returns (r: seq<string>)
    ensures r == parts + ColumnLines(columns)
    ensures |r| == |parts| + |columns|
    ensures forall i :: 0 <= i < |columns| ==> r[|parts| + i] == ColumnLine(columns[i])
  {
    r := parts;
    for i := 0 to |columns|
      invariant r == parts + ColumnLines(columns[..i])
    {
      assert ColumnLines(columns[..i + 1]) == ColumnLines(columns[..i]) + [ColumnLine(columns[i])];
      r := r + [ColumnLine(columns[i])];
    }
    assert columns[..|columns|] == columns;
  }

  /** The loop of the object branch: one line per public attribute name. */
  method AppendAttributeLines(parts: seq<string>, attrs: seq<string>) returns (r: seq<string>)
    ensures r == parts + AttributeLines(PublicNames(attrs))
  {
    r := parts;
    for i := 0 to |attrs|
      invariant r == parts + AttributeLines(PublicNames(attrs[..i]))
    {
      assert attrs[..i + 1][..i] == attrs[..i];
      if !StartsWith(attrs[i], "_") {
        assert AttributeLines(PublicNames(attrs[..i]) + [attrs[i]])
            == AttributeLines(PublicNames(attrs[..i])) + ["- " + attrs[i]];
        r := r + ["- " + attrs[i]];
      }
    }
    assert attrs[..|attrs|] == attrs;
  }

  /** get_variable_info: a line-oriented description of one variable. */
  method GetVariableInfo(name: string, value: Value) returns (info: string)
    ensures info == Descriptor(name, value)
  {
    var parts := ["Variable: " + name, "Type: " + value.typeName];
    if value.frame.Some? {
      var f := value.frame.value;
      parts := parts + ["Shape: " + ShapeText(f), "Columns:"];
      parts := AppendColumnLines(parts, f.columns);
      parts := parts + ["\nSample (first 5 rows):", f.head];
      assert parts == DescriptorLines(name, value);
    } else if value.func.Some? {
      info := JoinLines(NonEmpty(FunctionSlots(name, value.func.value)));
      FilterFunctionSlots(name, value.func.value);
      return;
    } else if value.attributes.Some? {
      var attrs := value.attributes.value;
      parts := parts + ["Attributes:"];
      parts := AppendAttributeLines(parts, attrs);
      assert parts == DescriptorLines(name, value);
    } else if value.length.Some? {
      parts := parts + ["Length: " + NatToString(value.length.value)];
      if value.text.Some? {
        parts := parts + ["Sample: " + Truncate(value.text.value, SampleCap)];
      }
      assert parts == DescriptorLines(name, value);
    } else {
      parts := parts + ["Type: " + value.typeName];
      if value.text.Some? {
        parts := parts + ["\nString representation: " + Truncate(value.text.value, SampleCap)];
        if value.doc != "" {
          var doc := Strip(value.doc);
          parts := parts + ["Documentation:", Truncate(doc, DocCap)];
        }
      }
      assert parts == DescriptorLines(name, value);
    }
    info := JoinLines(parts);
  }

  // ---------------------------------------------------------------------------
  // What a descriptor says

  /** Every descriptor opens with the line "Variable: <name>". */
  lemma DescriptorStartsWithName(name: string, v: Value)
    ensures StartsWith(Descriptor(name, v), "Variable: " + name + "\n")
  {
    JoinLinesHead(DescriptorLines(name, v));
  }

  /** A DataFrame: type, shape, the header "Columns:", one line per column in
      column order, then the head sample. Other capabilities do not matter. */
  lemma FrameDescriptor(name: string, v: Value)
    requires v.frame.Some?
    ensures var lines, f := DescriptorLines(name, v), v.frame.value;
      && |lines| == |f.columns| + 6
      && lines[1] == "Type: " + v.typeName
      && lines[2] == "Shape: " + ShapeText(f)
      && lines[3] == "Columns:"
      && (forall i :: 0 <= i < |f.columns| ==> lines[4 + i] == "- " + f.columns[i].name + " (" + f.columns[i].dtype + ")")
      && lines[|f.columns| + 4] == "\nSample (first 5 rows):"
      && lines[|f.columns| + 5] == f.head
  {
  }

  /** A function that is not a DataFrame: "Type: function", the documentation
      line only when there is documentation, then the source. */
  lemma FunctionDescriptor(name: string, v: Value)
    requires v.frame.None? && v.func.Some?
    ensures var lines, fn := DescriptorLines(name, v), v.func.value;
      && lines[1] == "Type: function"
      && |lines| == 3 + (if fn.doc != "" then 1 else 0) + (if fn.source != "" then 1 else 0)
      && (fn.doc == "" ==> lines[2] == "Source code:")
      && (fn.doc != "" ==> lines[2] == "Documentation: " + fn.doc && lines[3] == "Source code:")
      && (fn.source != "" ==> lines[|lines| - 1] == fn.source)
  {
  }

  /** An object with `__dict__`: exactly its public attribute names, in `dir`
      order, one per line after "Attributes:". */
  lemma ObjectDescriptor(name: string, v: Value)
    requires v.frame.None? && v.func.None? && v.attributes.Some?
    ensures var lines, pub := DescriptorLines(name, v), PublicNames(v.attributes.value);
      && |lines| == 3 + |pub|
      && lines[2] == "Attributes:"
      && (forall i :: 0 <= i < |pub| ==> lines[3 + i] == "- " + pub[i])
      && (forall a :: a in pub <==> a in v.attributes.value && !StartsWith(a, "_"))
      && Subsequence(pub, v.attributes.value)
  {
    PublicNamesMembers(v.attributes.value);
    PublicNamesInOrder(v.attributes.value);
  }

  /** A sized container: its length, then a sample of at most 103 characters
      unless `str` failed. */
  lemma ContainerDescriptor(name: string, v: Value)
    requires v.frame.None? && v.func.None? && v.attributes.None? && v.length.Some?
    ensures var lines := DescriptorLines(name, v);
      && lines[2] == "Length: " + NatToString(v.length.value)
      && |lines| == (if v.text.Some? then 4 else 3)
      && (v.text.Some? ==> lines[3] == "Sample: " + Truncate(v.text.value, SampleCap))
      && (v.text.Some? ==> |lines[3]| <= |"Sample: "| + SampleCap + 3)
  {
  }

  /** Anything else: the type line twice, then a bounded sample and a bounded
      documentation excerpt, each only when it could be computed. */
  lemma ScalarDescriptor(name: string, v: Value)
    requires v.frame.None? && v.func.None? && v.attributes.None? && v.length.None?
    ensures var lines := DescriptorLines(name, v);
      && lines[1] == lines[2] == "Type: " + v.typeName
      && |lines| == (if v.text.None? then 3 else if v.doc == "" then 4 else 6)
      && (v.text.Some? ==> lines[3] == "\nString representation: " + Truncate(v.text.value, SampleCap))
      && (v.text.Some? ==> |lines[3]| <= |"\nString representation: "| + SampleCap + 3)
      && (v.text.Some? && v.doc != "" ==> lines[4] == "Documentation:" && lines[5] == Truncate(Strip(v.doc), DocCap))
      && (v.text.Some? && v.doc != "" ==> |lines[5]| <= DocCap + 3)
  {
  }

  // ===========================================================================
  // get_context

  /** The comprehension at the start of get_context: only names that start
      with `_` are dropped; modules, callables, `In` and `Out` stay. */
  function PublicEntries(ns: Namespace): (kept: Namespace)
    ensures forall e :: e in kept <==> e in ns && !StartsWith(e.0, "_")
  {
    if ns == [] then []
    else (if StartsWith(ns[0].0, "_") then [] else [ns[0]]) + PublicEntries(ns[1..])
  }

  lemma {:induction false} LookupPublic(ns: Namespace, name: string)
    ensures Lookup(PublicEntries(ns), name) == if StartsWith(name, "_") then None else Lookup(ns, name)
    decreases |ns|
  {
    if ns != [] {
      var rest := PublicEntries(ns[1..]);
      LookupPublic(ns[1..], name);
      if StartsWith(ns[0].0, "_") {
        assert PublicEntries(ns) == rest;
      } else {
        assert PublicEntries(ns) == [ns[0]] + rest;
        assert ([ns[0]] + rest)[1..] == rest;
      }
    }
  }

  /** The names get_context describes: identifier tokens of the query that
      are keys of the namespace and do not start with `_`. */
  function Mentioned(ns: Namespace, query: string): set<string> {
    set w | w in QueryNames(query) && w in Names(ns) && !StartsWith(w, "_")
  }

  /** `order` lists every element of `s` exactly once. */
  predicate Enumerates(order: seq<string>, s: set<string>) {
    && (forall i, j :: 0 <= i < j < |order| ==> order[i] != order[j])
    && (forall w | w in order :: w in s)
    && (forall w | w in s :: w in order)
  }

  /** The descriptor of each name in `order`, in that order. */
  function DescriptorsOf(ns: Namespace, order: seq<string>): seq<string> {
    seq(|order|, i requires 0 <= i < |order| =>
      match Lookup(ns, order[i])
      case Some(v) => Descriptor(order[i], v)
      case None => "")
  }

  /** A result get_context may return: it visits the mentioned names in the
      iteration order of a Python set, which the code leaves unspecified. */
  ghost predicate IsContext(ns: Namespace, query: string, context: string) {
    exists order :: Enumerates(order, Mentioned(ns, query)) && context == JoinLines(DescriptorsOf(ns, order))
  }

  /** Describing one more name adds its descriptor at the end. */
  lemma DescriptorsOfSnoc(ns: Namespace, order: seq<string>, w: string, v: Value)
    requires Lookup(ns, w) == Some(v)
    ensures DescriptorsOf(ns, order + [w]) == DescriptorsOf(ns, order) + [Descriptor(w, v)]
  {
  }

  /** Joined descriptors of names that are all keys are empty only when no
      name is described. */
  lemma DescriptorsEmpty(ns: Namespace, order: seq<string>)
    requires forall w | w in order :: w in Names(ns)
    ensures JoinLines(DescriptorsOf(ns, order)) == "" <==> order == []
  {
    if order != [] {
      assert order[0] in Names(ns);
      var v := Lookup(ns, order[0]).value;
      DescriptorStartsWithName(order[0], v);
      JoinLinesHead(DescriptorsOf(ns, order));
    }
  }

  /** Distinct names that are exactly the mentioned ones enumerate them. */
  lemma MentionedEnumerated(ns: Namespace, query: string, order: seq<string>)
    requires forall i, j :: 0 <= i < j < |order| ==> order[i] != order[j]
    requires forall w :: w in order <==> w in QueryNames(query) && w in Names(ns) && !StartsWith(w, "_")
    ensures Enumerates(order, Mentioned(ns, query))
    ensures order == [] <==> Mentioned(ns, query) == {}
  {
    if order != [] {
      assert order[0] in Mentioned(ns, query);
    }
  }

  /** get_context: the descriptors of the variables the query names, one per
      name, joined by line breaks; "" when the query names none. */
  method GetContext(namespace: Namespace, query: string) returns (context: string)
    ensures IsContext(namespace, query, context)
    ensures context == "" <==> Mentioned(namespace, query) == {}
  {
    var filtered := PublicEntries(namespace);
    var mentioned := ExtractVariablesFromQuery(query);
    var parts: seq<string> := [];
    ghost var order: seq<string> := [];
    var remaining := mentioned;
    while remaining != {}
      invariant remaining <= mentioned
      invariant forall w :: w in order <==> w in mentioned && w !in remaining && w in Names(namespace) && !StartsWith(w, "_")
      invariant forall i, j :: 0 <= i < j < |order| ==> order[i] != order[j]
      invariant parts == DescriptorsOf(namespace, order)
      decreases remaining
    {
      var w :| w in remaining;
      remaining := remaining - {w};
      LookupPublic(namespace, w);
      match Lookup(filtered, w)
      case Some(v) =>
        var d := GetVariableInfo(w, v);
        DescriptorsOfSnoc(namespace, order, w, v);
        parts := parts + [d];
        order := order + [w];
      case None =>
    }
    context := JoinLines(parts);
    MentionedEnumerated(namespace, query, order);
    DescriptorsEmpty(namespace, order);
  }
}

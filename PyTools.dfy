/**
 * `generate_openai_tools`: builds the OpenAI function descriptors of the local tools from
 * the `TOOL_*` definition block each tool file carries.
 *
 * Reading a file, finding the delimited block with the regular expression and evaluating
 * its assignments are oracle inputs: each file arrives already classified as having no
 * block, failing to read or evaluate, or holding the (optional) values of the four
 * `TOOL_*` names. The mount mapping read from the configuration is an oracle too.
 */
module PyTools {
  import opened Wrappers
  import opened Json
  import ToolExecutor

  /** One `{name: description}` item of a parameter dict. */
  type Param = (string, string)

  /** The items of one dict of a function's parameter list, in dict order. */
  type ParamDict = seq<Param>

  /** The i-th entry of `TOOL_PARAMETERS` as the per-function loop meets it: a list of
      dicts, or a value whose iteration, or the `.items()` of one of its elements, raises
      (a value that is not iterable, or an element that is not a dict). */
  datatype ParamList = Dicts(dicts: seq<ParamDict>) | NotDicts

  /** The values found for the four `TOOL_*` names; None when the name is not assigned.
      `functions` is what enumerating `TOOL_FUNCTIONS` yields (one string per character
      when it is itself a string). */
  datatype Definition = Definition(
    name: Option<string>,
    description: Option<string>,
    functions: Option<seq<string>>,
    parameters: Option<seq<ParamList>>)

  datatype Block =
    | NoBlock                 // the exact start/end marker pair was not found
    | Unreadable              // reading, parsing or evaluating the block raised
    | Found(def: Definition)

  datatype SourceFile = SourceFile(filename: string, block: Block)

  const ShellToolName := "shell_for_ai"
  const MountInfoPrefix := "\n\nEnvironment Info: Host-Container Mount Mapping: "

  /** The four names are all assigned. */
  predicate Complete(d: Definition)
  {
    d.name.Some? && d.description.Some? && d.functions.Some? && d.parameters.Some?
  }

  /** The shared description, with the mount mapping appended for the shell tool only when
      a non-empty mapping was read. */
  function Description(name: string, description: string, mapping: Option<string>): (r: string)
    ensures description <= r
  {
    if name == ShellToolName && mapping.Some? && mapping.value != "" then
      description + MountInfoPrefix + mapping.value
    else description
  }

  // ---------------------------------------------------------------- parameter schema

  /** All items of all dicts, in order. */
  function Flatten(dicts: seq<ParamDict>): seq<Param>
  {
    if dicts == [] then []
    else
      var last := dicts[|dicts| - 1];
      Flatten(dicts[..|dicts| - 1]) + last
  }

  /** An item is visited exactly when it belongs to one of the dicts. */
  lemma {:induction false} FlattenMembers(dicts: seq<ParamDict>)
    ensures forall p :: p in Flatten(dicts) <==> exists d :: d in dicts && p in d
  {
    if dicts != [] {
      var init := dicts[..|dicts| - 1];
      FlattenMembers(init);
      assert forall d :: d in dicts <==> d in init || d == dicts[|dicts| - 1];
    }
  }

  function Names(ps: seq<Param>): (ns: seq<string>)
    ensures |ns| == |ps|
    ensures forall i :: 0 <= i < |ps| ==> ns[i] == ps[i].0
  {
    seq(|ps|, i requires 0 <= i < |ps| => ps[i].0)
  }

  function PropertySchema(description: string): Json
  {
    JObj([("type", JStr("string")), ("description", JStr(description))])
  }

  /** The `properties` dict after assigning every item in order: a later item with the same
      name overwrites the earlier one in place. */
  function Properties(ps: seq<Param>): seq<Field>
  {
    if ps == [] then []
    else
      var last := ps[|ps| - 1];
      Upsert(Properties(ps[..|ps| - 1]), last.0, PropertySchema(last.1))
  }

  lemma {:induction false} UpsertDistinct(fields: seq<Field>, k: string, v: Json)
    requires DistinctKeys(fields)
    ensures DistinctKeys(Upsert(fields, k, v))
  {
    UpsertKeys(fields, k, v);
    var r := Upsert(fields, k, v);
    var ks := Keys(fields);
    forall i, j | 0 <= i < j < |r| ensures r[i].0 != r[j].0 {
      assert Keys(r)[i] == r[i].0 && Keys(r)[j] == r[j].0;
      if k !in ks && j == |ks| {
        assert Keys(r)[i] == ks[i];
      } else {
        assert Keys(r)[i] == ks[i] && Keys(r)[j] == ks[j];
      }
    }
  }

  /** Every parameter becomes a property, each name once; nothing else does. */
  lemma {:induction false} PropertiesKeys(ps: seq<Param>)
    ensures DistinctKeys(Properties(ps))
    ensures forall k :: k in Keys(Properties(ps)) <==> k in Names(ps)
  {
    if ps != [] {
      var init := ps[..|ps| - 1];
      var last := ps[|ps| - 1];
      var before := Properties(init);
      PropertiesKeys(init);
      assert DistinctKeys(Properties(ps)) by {
        UpsertDistinct(before, last.0, PropertySchema(last.1));
      }
      assert Names(ps) == Names(init) + [last.0];
      forall k
        ensures k in Keys(Properties(ps)) <==> k in Names(ps)
      {
        UpsertKeys(before, last.0, PropertySchema(last.1));
        assert k in Names(init) + [last.0] <==> k in Names(init) || k == last.0;
        assert k in Keys(before) + [last.0] <==> k in Keys(before) || k == last.0;
      }
    }
  }

  /** A property holds the description of the last item with its name, typed as a string. */
  lemma {:induction false} PropertiesLastWins(ps: seq<Param>, i: nat)
    requires i < |ps|
    requires forall j :: i < j < |ps| ==> ps[j].0 != ps[i].0
    ensures Get(Properties(ps), ps[i].0) == Some(PropertySchema(ps[i].1))
  {
    var init := ps[..|ps| - 1];
    var last := ps[|ps| - 1];
    UpsertGet(Properties(init), last.0, PropertySchema(last.1), ps[i].0);
    if i < |ps| - 1 {
      PropertiesLastWins(init, i);
    }
  }

  /** Visiting one more item assigns its property and appends its name. */
  lemma ItemSnoc(ps: seq<Param>, p: Param)
    ensures Properties(ps + [p]) == Upsert(Properties(ps), p.0, PropertySchema(p.1))
    ensures Names(ps + [p]) == Names(ps) + [p.0]
  {
    assert (ps + [p])[..|ps|] == ps;
  }

  /** The `parameters` object of one function. */
  function ParametersSchema(properties: seq<Field>, required: seq<string>): Json
  {
    JObj([
      ("type", JStr("object")),
      ("properties", JObj(properties)),
      ("required", JArr(seq(|required|, i requires 0 <= i < |required| => JStr(required[i]))))])
  }

  function Descriptor(functionName: string, description: string, properties: seq<Field>, required: seq<string>): Json
  {
    JObj([
      ("type", JStr("function")),
      ("function", JObj([
        ("name", JStr(functionName)),
        ("description", JStr(description)),
        ("parameters", ParametersSchema(properties, required))]))])
  }

  /** The descriptor of one function, from its list of parameter dicts. */
  function FunctionTool(functionName: string, description: string, dicts: seq<ParamDict>): Json
  {
    var ps := Flatten(dicts);
    Descriptor(functionName, description, Properties(ps), Names(ps))
  }

  /** The `required` list of a generated descriptor names every parameter item of every dict,
      in order and with repeats, as the source appends one name per item. */
  lemma FunctionToolRequired(functionName: string, description: string, dicts: seq<ParamDict>)
    ensures var t := FunctionTool(functionName, description, dicts);
      && Lookup(t, "function").Some?
      && Lookup(Lookup(t, "function").value, "parameters").Some?
      && var r := Lookup(Lookup(Lookup(t, "function").value, "parameters").value, "required");
         && r.Some? && r.value.JArr?
         && |r.value.items| == |Flatten(dicts)|
         && forall i :: 0 <= i < |Flatten(dicts)| ==> r.value.items[i] == JStr(Flatten(dicts)[i].0)
  {
    var ps := Flatten(dicts);
    var required := Names(ps);
    var params := ParametersSchema(Properties(ps), required);
    var inner: seq<Field> := [("name", JStr(functionName)), ("description", JStr(description)), ("parameters", params)];
    var outer: seq<Field> := [("type", JStr("function")), ("function", JObj(inner))];
    assert outer[1..][0].0 == "function";
    assert Get(outer, "function") == Some(JObj(inner));
    assert inner[1..][1..][0].0 == "parameters";
    assert Get(inner[1..][1..], "parameters") == Some(params);
    assert Get(inner, "parameters") == Some(params);
    var pf := params.fields;
    assert pf[1..][1..][0].0 == "required";
    assert Get(pf[1..][1..], "required") == Some(pf[2].1);
    assert Get(pf, "required") == Some(pf[2].1);
  }

  /** A generated descriptor names the function, carries the description, and lists every
      parameter once as a string property (`FunctionToolRequired` states its `required` list). */
  lemma FunctionToolShape(functionName: string, description: string, dicts: seq<ParamDict>)
    ensures Lookup(FunctionTool(functionName, description, dicts), "type") == Some(JStr("function"))
    ensures Lookup(FunctionTool(functionName, description, dicts), "function").Some?
    ensures var f := Lookup(FunctionTool(functionName, description, dicts), "function").value;
      && Lookup(f, "name") == Some(JStr(functionName))
      && Lookup(f, "description") == Some(JStr(description))
      && Lookup(f, "parameters").Some?
      && var p := Lookup(f, "parameters").value;
         && Lookup(p, "type") == Some(JStr("object"))
         && Lookup(p, "properties").Some? && Lookup(p, "properties").value.JObj?
         && var props := Lookup(p, "properties").value.fields;
            && DistinctKeys(props)
            && (forall k :: k in Keys(props) <==> exists d :: d in dicts && k in Names(d))
            && forall q :: q in Flatten(dicts) ==> Get(props, q.0).Some?
  {
    var ps := Flatten(dicts);
    var props := Properties(ps);
    var required := Names(ps);
    var params := ParametersSchema(props, required);
    var inner: seq<Field> := [("name", JStr(functionName)), ("description", JStr(description)), ("parameters", params)];
    var outer: seq<Field> := [("type", JStr("function")), ("function", JObj(inner))];
    assert outer[1..][0].0 == "function";
    assert Get(outer, "function") == Some(JObj(inner));
    assert inner[1..][0].0 == "description" && inner[1..][1..][0].0 == "parameters";
    assert Get(inner[1..][1..], "parameters") == Some(params);
    assert Get(inner[1..], "parameters") == Some(params);
    assert Get(inner, "description") == Some(JStr(description));
    var pf := params.fields;
    assert pf[1..][0].0 == "properties";
    assert Get(pf, "properties") == Some(JObj(props));
    PropertiesKeys(ps);
    FlattenMembers(dicts);
    forall k | k in Keys(props)
      ensures exists d :: d in dicts && k in Names(d)
    {
      var i :| 0 <= i < |required| && required[i] == k;
      assert ps[i] in ps;
      var d :| d in dicts && ps[i] in d;
      var j :| 0 <= j < |d| && d[j] == ps[i];
      assert Names(d)[j] == k;
    }
    forall k, d | d in dicts && k in Names(d)
      ensures k in Keys(props)
    {
      var j :| 0 <= j < |Names(d)| && Names(d)[j] == k;
      assert d[j] in ps;
      var i :| 0 <= i < |ps| && ps[i] == d[j];
      assert required[i] == k;
    }
    forall q | q in ps
      ensures Get(props, q.0).Some?
    {
      var i :| 0 <= i < |ps| && ps[i] == q;
      assert required[i] == q.0;
    }
  }

  // ---------------------------------------------------------------- per file

  /** How many of the first `limit` functions get a descriptor: the loop stops at the first
      function whose parameter list is missing (an index error) or is not a list of dicts. */
  function Built(params: seq<ParamList>, limit: nat): (n: nat)
    ensures n <= limit && n <= |params|
    ensures forall i :: 0 <= i < n ==> params[i].Dicts?
    ensures n < limit ==> n == |params| || params[n].NotDicts?
  {
    if limit == 0 || params == [] || params[0].NotDicts? then 0
    else 1 + Built(params[1..], limit - 1)
  }

  /** The descriptors one file contributes. A function without a usable parameter list ends
      the file (the exception is caught per file), keeping the descriptors already made. */
  function FileTools(f: SourceFile, mapping: Option<string>): (ts: seq<Json>)
  {
    if !ToolExecutor.IsCandidate(f.filename) || !f.block.Found? || !Complete(f.block.def) then []
    else
      var d := f.block.def;
      var fns := d.functions.value;
      var params := d.parameters.value;
      var desc := Description(d.name.value, d.description.value, mapping);
      var n := Built(params, |fns|);
      seq(n, i requires 0 <= i < n => FunctionTool(fns[i], desc, params[i].dicts))
  }

  /** The results of `f` on each element, concatenated in order. */
  function ConcatMap<T, U>(f: T -> seq<U>, xs: seq<T>): seq<U>
  {
    if xs == [] then [] else ConcatMap(f, xs[..|xs| - 1]) + f(xs[|xs| - 1])
  }

  lemma {:induction false} ConcatMapAppend<T, U>(f: T -> seq<U>, a: seq<T>, b: seq<T>)
    ensures ConcatMap(f, a + b) == ConcatMap(f, a) + ConcatMap(f, b)
  {
    if b == [] {
      assert a + b == a;
    } else {
      var b' := b[..|b| - 1];
      assert (a + b)[..|a + b| - 1] == a + b';
      ConcatMapAppend(f, a, b');
    }
  }

  /** Everything the listed files contribute, in listing order. */
  function AllTools(files: seq<SourceFile>, mapping: Option<string>): seq<Json>
  {
    ConcatMap((f: SourceFile) => FileTools(f, mapping), files)
  }

  /** A file without the exact block, with an unreadable block or with a missing `TOOL_*`
      name contributes nothing; otherwise it contributes one descriptor per function, in
      order, each carrying the shared description, up to the first function whose parameter
      list is missing or malformed. */
  lemma FileToolsShape(f: SourceFile, mapping: Option<string>)
    ensures !ToolExecutor.IsCandidate(f.filename) || f.block.NoBlock? || f.block.Unreadable?
            ==> FileTools(f, mapping) == []
    ensures f.block.Found? && !Complete(f.block.def) ==> FileTools(f, mapping) == []
    ensures ToolExecutor.IsCandidate(f.filename) && f.block.Found? && Complete(f.block.def)
            ==> var d := f.block.def;
                var fns := d.functions.value;
                var params := d.parameters.value;
                var n := |FileTools(f, mapping)|;
                && n <= |fns| && n <= |params|
                && (n < |fns| ==> n == |params| || params[n].NotDicts?)
                && forall i :: 0 <= i < n ==>
                     params[i].Dicts?
                     && FileTools(f, mapping)[i]
                        == FunctionTool(fns[i], Description(d.name.value, d.description.value, mapping), params[i].dicts)
  {
  }

  /** The mount mapping is only ever added to the shell tool's description. */
  lemma DescriptionSuffix(name: string, description: string, mapping: Option<string>)
    ensures name != ShellToolName ==> Description(name, description, mapping) == description
    ensures mapping.None? || mapping == Some("") ==> Description(name, description, mapping) == description
    ensures name == ShellToolName && mapping.Some? && mapping.value != ""
            ==> Description(name, description, mapping) == description + MountInfoPrefix + mapping.value
  {
  }

  /** Files contribute independently and in listing order. */
  lemma AllToolsAppend(a: seq<SourceFile>, b: seq<SourceFile>, mapping: Option<string>)
    ensures AllTools(a + b, mapping) == AllTools(a, mapping) + AllTools(b, mapping)
  {
    ConcatMapAppend((f: SourceFile) => FileTools(f, mapping), a, b);
  }

  /** The files up to and including the k-th contribute the k-th file's descriptors last. */
  lemma AllToolsSnoc(files: seq<SourceFile>, k: nat, mapping: Option<string>)
    requires k < |files|
    ensures AllTools(files[..k + 1], mapping) == AllTools(files[..k], mapping) + FileTools(files[k], mapping)
  {
    assert files[..k + 1] == files[..k] + [files[k]];
    AllToolsAppend(files[..k], [files[k]], mapping);
    assert [files[k]][1..] == [];
  }

  // ---------------------------------------------------------------- the loops

  /** The outer loop over a function's parameter dicts. */
  method BuildParameters(dicts: seq<ParamDict>) returns (properties: seq<Field>, required: seq<string>)
    ensures properties == Properties(Flatten(dicts))
    ensures required == Names(Flatten(dicts))
  {
    properties, required := [], [];
    var d := 0;
    while d < |dicts|
      invariant 0 <= d <= |dicts|
      invariant properties == Properties(Flatten(dicts[..d]))
      invariant required == Names(Flatten(dicts[..d]))
    {
      assert dicts[..d + 1][..d] == dicts[..d];
      properties, required := AddItems(properties, required, Flatten(dicts[..d]), dicts[d]);
      d := d + 1;
    }
    assert dicts[..d] == dicts;
  }

  /** The inner loop: every item of one dict sets its property and is appended to
      `required`. */
  method AddItems(properties0: seq<Field>, required0: seq<string>, done: seq<Param>, items: ParamDict)
    returns (properties: seq<Field>, required: seq<string>)
    requires properties0 == Properties(done) && required0 == Names(done)
    ensures properties == Properties(done + items)
    ensures required == Names(done + items)
  {
    properties, required := properties0, required0;
    assert done + items[..0] == done;
    var j := 0;
    while j < |items|
      invariant 0 <= j <= |items|
      invariant properties == Properties(done + items[..j])
      invariant required == Names(done + items[..j])
    {
      var (name, desc) := items[j];
      assert done + items[..j + 1] == (done + items[..j]) + [items[j]];
      ItemSnoc(done + items[..j], items[j]);
      properties := Upsert(properties, name, PropertySchema(desc));
      required := required + [name];
      j := j + 1;
    }
    assert items[..j] == items;
  }

  /** The body of the per-file loop: the filter, the shared description, then the
      per-function loop. */
  method ToolsOfFile(f: SourceFile, mapping: Option<string>) returns (ts: seq<Json>)
    ensures ts == FileTools(f, mapping)
  {
    ts := [];
    if !ToolExecutor.IsCandidate(f.filename) || !f.block.Found? || !Complete(f.block.def) {
      return;
    }
    var def := f.block.def;
    var description := def.description.value;
    if def.name.value == ShellToolName && mapping.Some? && mapping.value != "" {
      description := description + MountInfoPrefix + mapping.value;
    }
    ts := DescriptorsOf(def.functions.value, description, def.parameters.value);
    assert ts == FileTools(f, mapping);
  }

  /** The per-function loop of one file: one descriptor per function until a parameter
      list is missing or malformed. */
  method DescriptorsOf(fns: seq<string>, description: string, params: seq<ParamList>) returns (ts: seq<Json>)
    ensures |ts| == Built(params, |fns|)
    ensures forall k :: 0 <= k < |ts| ==> params[k].Dicts? && ts[k] == FunctionTool(fns[k], description, params[k].dicts)
  {
    ts := [];
    var i := 0;
    while i < |fns|
      invariant 0 <= i <= |fns| && i <= |params|
      invariant forall k :: 0 <= k < i ==> params[k].Dicts?
      invariant |ts| == i
      invariant forall k :: 0 <= k < i ==> ts[k] == FunctionTool(fns[k], description, params[k].dicts)
    {
      if i >= |params| || params[i].NotDicts? {
        break;
      }
      var t := FunctionDescriptor(fns[i], description, params[i].dicts);
      ts := ts + [t];
      i := i + 1;
    }
    assert i == Built(params, |fns|);
  }

  /** The body of the per-function loop. */
  method FunctionDescriptor(functionName: string, description: string, dicts: seq<ParamDict>) returns (t: Json)
    ensures t == FunctionTool(functionName, description, dicts)
  {
    var properties, required := BuildParameters(dicts);
    t := Descriptor(functionName, description, properties, required);
  }

  /** `generate_openai_tools` over the listed files and the configured mount mapping; a file
      whose processing raises keeps what it already appended. */
  method GenerateOpenaiTools(files: seq<SourceFile>, mapping: Option<string>) returns (tools: seq<Json>)
    ensures tools == AllTools(files, mapping)
  {
    tools := [];
    var k := 0;
    while k < |files|
      invariant 0 <= k <= |files|
      invariant tools == AllTools(files[..k], mapping)
    {
      AllToolsSnoc(files, k, mapping);
      var ts := ToolsOfFile(files[k], mapping);
      tools := tools + ts;
      k := k + 1;
    }
    assert files[..k] == files;
  }
}

/** The conversion of a KDL configuration tree to JSON, and why the order of differently named siblings is free. */
module Kdl {
  import opened Wrappers

  /** A float that is not finite has no JSON number. */
  datatype Value = Str(s: string) | Int(i: int) | Float(f: Option<real>) | Bool(b: bool) | Null

  datatype Entry = Entry(name: Option<string>, value: Value)

  datatype Node = Node(name: string, entries: seq<Entry>, children: seq<Node>)

  datatype Json =
    | JNull | JBool(b: bool) | JInt(i: int) | JFloat(f: real) | JString(s: string)
    | JArray(items: seq<Json>) | JObject(fields: map<string, Json>)

  type Fields = map<string, Json>

  function ValueJson(value: Value): Json {
    match value
    case Str(s) => JString(s)
    case Int(i) => JInt(i)
    case Float(f) => if f.Some? then JFloat(f.value) else JNull
    case Bool(b) => JBool(b)
    case Null => JNull
  }

  function Args(entries: seq<Entry>): seq<Entry> {
    if entries == [] then []
    else Args(entries[..|entries| - 1]) + if entries[|entries| - 1].name.None? then [entries[|entries| - 1]] else []
  }

  function Props(entries: seq<Entry>): (r: seq<Entry>)
    ensures forall k | 0 <= k < |r| :: r[k].name.Some?
  {
    if entries == [] then []
    else Props(entries[..|entries| - 1]) + if entries[|entries| - 1].name.Some? then [entries[|entries| - 1]] else []
  }

  /** A key seen again turns its value into an array, or extends the array it already has. */
  function Again(existing: Json, value: Json): Json {
    if existing.JArray? then JArray(existing.items + [value]) else JArray([existing, value])
  }

  function Add(fields: Fields, key: string, value: Json): Fields {
    fields[key := if key in fields then Again(fields[key], value) else value]
  }

  function WithProps(fields: Fields, props: seq<Entry>): Fields
    requires forall k | 0 <= k < |props| :: props[k].name.Some?
  {
    if props == [] then fields
    else
      var last := props[|props| - 1];
      WithProps(fields, props[..|props| - 1])[last.name.value := ValueJson(last.value)]
  }

  function WithArgs(fields: Fields, args: seq<Entry>): Fields {
    if args == [] then fields
    else Add(WithArgs(fields, args[..|args| - 1]), "_", ValueJson(args[|args| - 1].value))
  }

  function ArgsJson(args: seq<Entry>): Json {
    JArray(seq(|args|, i requires 0 <= i < |args| => ValueJson(args[i].value)))
  }

  // ----- Size, by which the mutual recursion ends -----

  function NodeSize(node: Node): nat {
    1 + Size(node.children)
  }

  function Size(nodes: seq<Node>): (n: nat)
    ensures forall i | 0 <= i < |nodes| :: NodeSize(nodes[i]) <= n
  {
    if nodes == [] then 0 else Size(nodes[..|nodes| - 1]) + NodeSize(nodes[|nodes| - 1])
  }

  predicate AllDash(nodes: seq<Node>) {
    forall i | 0 <= i < |nodes| :: nodes[i].name == "-"
  }

  // ----- The conversion -----

  function NodesFields(nodes: seq<Node>): Fields
    decreases Size(nodes), 1
  {
    if nodes == [] then map[]
    else Add(NodesFields(nodes[..|nodes| - 1]), nodes[|nodes| - 1].name, NodeJson(nodes[|nodes| - 1]))
  }

  function NodeJson(node: Node): Json
    decreases NodeSize(node), 0
  {
    var args, props := Args(node.entries), Props(node.entries);
    if node.children != [] then
      if AllDash(node.children) then
        JArray(seq(|node.children|, i requires 0 <= i < |node.children| => DashJson(node.children[i])))
      else JObject(WithProps(NodesFields(node.children), props))
    else if props != [] then JObject(WithArgs(WithProps(map[], props), args))
    else if |args| == 1 then ValueJson(args[0].value)
    else if |args| > 1 then ArgsJson(args)
    else JNull
  }

  function DashJson(node: Node): Json
    decreases NodeSize(node), 0
  {
    var args, props := Args(node.entries), Props(node.entries);
    if node.children != [] then JObject(WithProps(NodesFields(node.children), props))
    else if props != [] then JObject(WithProps(map[], props))
    else if |args| == 1 then ValueJson(args[0].value)
    else if |args| > 1 then ArgsJson(args)
    else JNull
  }

  method NodesToJson(nodes: seq<Node>) returns (r: Json)
    ensures r == JObject(NodesFields(nodes))
    decreases Size(nodes), 1
  {
    var fields: Fields := map[];
    var i := 0;
    while i < |nodes|
      invariant 0 <= i <= |nodes|
      invariant fields == NodesFields(nodes[..i])
    {
      assert nodes[..i + 1][..i] == nodes[..i];
      var key := nodes[i].name;
      var value := NodeToJson(nodes[i]);
      fields := fields[key := if key in fields then Again(fields[key], value) else value];
      i := i + 1;
    }
    assert nodes[..i] == nodes;
    return JObject(fields);
  }

  /** Inline properties overwrite what is there. */
  method InsertProps(fields: Fields, props: seq<Entry>) returns (r: Fields)
    requires forall k | 0 <= k < |props| :: props[k].name.Some?
    ensures r == WithProps(fields, props)
  {
    r := fields;
    var i := 0;
    while i < |props|
      invariant 0 <= i <= |props|
      invariant r == WithProps(fields, props[..i])
    {
      assert props[..i + 1][..i] == props[..i];
      r := r[props[i].name.value := ValueJson(props[i].value)];
      i := i + 1;
    }
    assert props[..i] == props;
  }

  method InsertArgs(fields: Fields, args: seq<Entry>) returns (r: Fields)
    ensures r == WithArgs(fields, args)
  {
    r := fields;
    var i := 0;
    while i < |args|
      invariant 0 <= i <= |args|
      invariant r == WithArgs(fields, args[..i])
    {
      assert args[..i + 1][..i] == args[..i];
      var value := ValueJson(args[i].value);
      r := r["_" := if "_" in r then Again(r["_"], value) else value];
      i := i + 1;
    }
    assert args[..i] == args;
  }

  method NodeToJson(node: Node) returns (r: Json)
    ensures r == NodeJson(node)
    decreases NodeSize(node), 0
  {
    var args, props := Args(node.entries), Props(node.entries);
    var children := node.children;
    if children != [] {
      if AllDash(children) {
        var items: seq<Json> := [];
        var i := 0;
        while i < |children|
          invariant 0 <= i <= |children|
          invariant |items| == i && forall k | 0 <= k < i :: items[k] == DashJson(children[k])
        {
          var item := DashNodeToJson(children[i]);
          items := items + [item];
          i := i + 1;
        }
        return JArray(items);
      }
      var fromChildren := NodesToJson(children);
      var fields := InsertProps(fromChildren.fields, props);
      return JObject(fields);
    }
    if |args| == 1 && props == [] {
      return ValueJson(args[0].value);
    }
    if |args| > 1 && props == [] {
      return ArgsJson(args);
    }
    if props != [] {
      var fields := InsertProps(map[], props);
      fields := InsertArgs(fields, args);
      return JObject(fields);
    }
    return JNull;
  }

  method DashNodeToJson(node: Node) returns (r: Json)
    ensures r == DashJson(node)
    decreases NodeSize(node), 0
  {
    var args, props := Args(node.entries), Props(node.entries);
    if node.children != [] {
      var fromChildren := NodesToJson(node.children);
      var fields := InsertProps(fromChildren.fields, props);
      return JObject(fields);
    }
    if |args| == 1 && props == [] {
      return ValueJson(args[0].value);
    }
    if props != [] {
      var fields := InsertProps(map[], props);
      return JObject(fields);
    }
    return if |args| > 1 then ArgsJson(args) else JNull;
  }

  // ----- What a key holds -----

  /** The nodes of a name, in order. */
  function Named(nodes: seq<Node>, name: string): (r: seq<Node>)
    ensures forall i | 0 <= i < |r| :: r[i].name == name && NodeSize(r[i]) <= Size(nodes)
    ensures |r| <= |nodes|
  {
    if nodes == [] then []
    else Named(nodes[..|nodes| - 1], name) +
         if nodes[|nodes| - 1].name == name then [nodes[|nodes| - 1]] else []
  }

  function Values(nodes: seq<Node>): seq<Json> {
    seq(|nodes|, i requires 0 <= i < |nodes| => NodeJson(nodes[i]))
  }

  /** One value stands for itself. Several make an array; if the first is an array, the others are appended to it. */
  function Gathered(values: seq<Json>): Json
    requires values != []
  {
    if |values| == 1 then values[0]
    else if values[0].JArray? then JArray(values[0].items + values[1..])
    else JArray(values)
  }

  lemma GatheredAgain(values: seq<Json>, value: Json)
    requires values != []
    ensures Gathered(values + [value]) == Again(Gathered(values), value)
  {
    assert (values + [value])[1..] == values[1..] + [value];
    if |values| == 1 {
      assert values == [values[0]] && values[1..] == [];
    }
  }

  /** Each key holds exactly its own nodes' values, gathered in order; other nodes do not matter to it. */
  lemma {:induction false} KeyHoldsItsNodes(nodes: seq<Node>, key: string)
    ensures key in NodesFields(nodes) <==> Named(nodes, key) != []
    ensures Named(nodes, key) != [] ==> NodesFields(nodes)[key] == Gathered(Values(Named(nodes, key)))
    decreases |nodes|
  {
    hide NodeJson, Gathered, Again;
    if nodes != [] {
      var init, last := nodes[..|nodes| - 1], nodes[|nodes| - 1];
      KeyHoldsItsNodes(init, key);
      if last.name == key {
        assert Values(Named(nodes, key)) == Values(Named(init, key)) + [NodeJson(last)];
        if Named(init, key) != [] {
          GatheredAgain(Values(Named(init, key)), NodeJson(last));
        } else {
          OneGathered(NodeJson(last));
          assert Values(Named(nodes, key)) == [NodeJson(last)];
        }
      } else {
        assert Named(nodes, key) == Named(init, key);
      }
    }
  }

  lemma OneGathered(value: Json)
    ensures Gathered([value]) == value
  {
  }

  /** Repeated values come out as the array of these values iff the first of them is not itself an array. */
  lemma {:induction false} RepeatsAsArrayIff(values: seq<Json>)
    requires |values| > 1
    ensures Gathered(values) == JArray(values) <==> !values[0].JArray?
  {
    if values[0].JArray? && |values[0].items| == 1 {
      assert (values[0].items + values[1..])[0] == values[0].items[0];
      ItemIsSmaller(values[0], 0);
    }
  }

  /**
   * A repeated key holds the array of its nodes' values iff the first of these values is not an array: else it holds
   * one
   * longer array.
   */
  lemma RepeatedKeyIff(nodes: seq<Node>, key: string)
    requires |Named(nodes, key)| > 1
    ensures key in NodesFields(nodes)
    ensures NodesFields(nodes)[key] == JArray(Values(Named(nodes, key))) <==> !NodeJson(Named(nodes, key)[0]).JArray?
  {
    hide NodeJson, NodesFields, Gathered;
    KeyHoldsItsNodes(nodes, key);
    RepeatsAsArrayIff(Values(Named(nodes, key)));
  }

  /** A node of positional arguments only. */
  function Plain(name: string, values: seq<Value>): Node {
    Node(name, seq(|values|, i requires 0 <= i < |values| => Entry(None, values[i])), [])
  }

  lemma {:induction false} PlainEntries(entries: seq<Entry>)
    requires forall i | 0 <= i < |entries| :: entries[i].name.None?
    ensures Args(entries) == entries && Props(entries) == []
  {
    if entries != [] {
      var init, last := entries[..|entries| - 1], entries[|entries| - 1];
      PlainEntries(init);
      assert entries == init + [last];
    }
  }

  /**
   * What a node of several arguments and a further argument under its name give is what one node of all of them
   * gives.
   */
  lemma RepeatIsLonger(name: string, values: seq<Value>, value: Value)
    requires |values| > 1
    ensures NodesFields([Plain(name, values), Plain(name, [value])]) == NodesFields([Plain(name, values + [value])])
  {
    hide NodesFields;
    var first, second, longer := Plain(name, values), Plain(name, [value]), Plain(name, values + [value]);
    PlainEntries(first.entries);
    PlainEntries(second.entries);
    PlainEntries(longer.entries);
    assert NodeJson(longer) == ArgsJson(longer.entries) == Again(NodeJson(first), NodeJson(second));
    OneNode(first);
    OneNode(longer);
    assert [first, second][..1] == [first];
    TwoNodes(first, second);
  }

  lemma OneNode(node: Node)
    ensures NodesFields([node]) == map[node.name := NodeJson(node)]
  {
    assert [node][..0] == [];
  }

  lemma FieldsNext(nodes: seq<Node>, node: Node)
    ensures NodesFields(nodes + [node]) == Add(NodesFields(nodes), node.name, NodeJson(node))
  {
    hide NodeJson, Size, NodeSize, Add;
    assert (nodes + [node])[..|nodes|] == nodes;
  }

  lemma TwoNodes(a: Node, b: Node)
    requires a.name == b.name
    ensures NodesFields([a, b]) == map[a.name := Again(NodeJson(a), NodeJson(b))]
  {
    hide NodesFields, NodeJson, Size, NodeSize, Again;
    OneNode(a);
    FieldsNext([a], b);
    assert [a] + [b] == [a, b];
  }

  lemma ItemIsSmaller(json: Json, i: nat)
    requires json.JArray? && i < |json.items|
    ensures json.items[i] != json
  {
    assert json.items[i] < json;
  }

  // ----- Reordering -----

  /** Equal up to the order of differently named siblings, here and below. */
  ghost predicate SameForest(a: seq<Node>, b: seq<Node>)
    decreases Size(a), 1
  {
    forall name :: SameNamed(a, b, name)
  }

  ghost predicate SameNamed(a: seq<Node>, b: seq<Node>, name: string)
    decreases Size(a), 0, 1
  {
    && |Named(a, name)| == |Named(b, name)|
    && forall i | 0 <= i < |Named(a, name)| :: SameNode(Named(a, name)[i], Named(b, name)[i])
  }

  ghost predicate SameNode(a: Node, b: Node)
    decreases NodeSize(a), 0, 0
  {
    a.name == b.name && a.entries == b.entries && SameForest(a.children, b.children)
  }

  lemma {:induction false} NamedFound(nodes: seq<Node>, i: nat)
    requires i < |nodes|
    ensures nodes[i] in Named(nodes, nodes[i].name)
    decreases |nodes|
  {
    if i < |nodes| - 1 {
      NamedFound(nodes[..|nodes| - 1], i);
    }
  }

  lemma {:induction false} NamedAll(nodes: seq<Node>, name: string)
    requires forall i | 0 <= i < |nodes| :: nodes[i].name == name
    ensures Named(nodes, name) == nodes
    decreases |nodes|
  {
    if nodes != [] {
      NamedAll(nodes[..|nodes| - 1], name);
    }
  }

  lemma SameNames(a: seq<Node>, b: seq<Node>)
    requires forall name :: |Named(a, name)| == |Named(b, name)|
    ensures a == [] <==> b == []
    ensures AllDash(a) <==> AllDash(b)
  {
    if a != [] { NamedFound(a, 0); }
    if b != [] { NamedFound(b, 0); }
    forall i | 0 <= i < |a|
      ensures AllDash(b) ==> a[i].name == "-"
    {
      NamedFound(a, i);
      var j := Named(b, a[i].name)[0];
      NamedIn(b, a[i].name, 0);
    }
    forall i | 0 <= i < |b|
      ensures AllDash(a) ==> b[i].name == "-"
    {
      NamedFound(b, i);
      NamedIn(a, b[i].name, 0);
    }
  }

  lemma {:induction false} NamedIn(nodes: seq<Node>, name: string, i: nat)
    requires i < |Named(nodes, name)|
    ensures Named(nodes, name)[i] in nodes
    decreases |nodes|
  {
    var init := nodes[..|nodes| - 1];
    if i < |Named(init, name)| {
      NamedIn(init, name, i);
    }
  }

  /**
   * Reordering siblings of different names, at any depth of the tree and in any number of places, leaves the whole
   * JSON unchanged.
   */
  lemma {:induction false} OrderIsFree(a: seq<Node>, b: seq<Node>)
    requires SameForest(a, b)
    ensures NodesFields(a) == NodesFields(b)
    decreases Size(a), 1
  {
    hide NodeJson, Gathered;
    forall key
      ensures key in NodesFields(a) <==> key in NodesFields(b)
      ensures key in NodesFields(a) ==> NodesFields(a)[key] == NodesFields(b)[key]
    {
      KeyHoldsItsNodes(a, key);
      KeyHoldsItsNodes(b, key);
      assert SameNamed(a, b, key);
      forall i | 0 <= i < |Named(a, key)|
        ensures NodeJson(Named(a, key)[i]) == NodeJson(Named(b, key)[i])
      {
        OrderIsFreeBelow(Named(a, key)[i], Named(b, key)[i]);
      }
      assert Values(Named(a, key)) == Values(Named(b, key));
    }
  }

  /** The JSON of a node depends on its children's fields, and on their elements if all are dashed. */
  lemma SameJson(a: Node, b: Node)
    requires a.entries == b.entries && NodesFields(a.children) == NodesFields(b.children)
    requires (a.children == [] <==> b.children == []) && (AllDash(a.children) <==> AllDash(b.children))
    requires AllDash(a.children) ==> |a.children| == |b.children|
    requires AllDash(a.children) ==> forall i | 0 <= i < |a.children| :: DashJson(a.children[i]) == DashJson(b.children[i])
    ensures NodeJson(a) == NodeJson(b) && DashJson(a) == DashJson(b)
  {
    hide NodesFields, Size, NodeSize, AllDash, WithProps, WithArgs, Args, Props, ArgsJson;
  }

  lemma {:induction false} OrderIsFreeBelow(a: Node, b: Node)
    requires SameNode(a, b)
    ensures NodeJson(a) == NodeJson(b) && DashJson(a) == DashJson(b)
    decreases NodeSize(a), 0
  {
    hide NodeJson, DashJson, NodesFields, Named;
    OrderIsFree(a.children, b.children);
    forall name
      ensures |Named(a.children, name)| == |Named(b.children, name)|
    {
      assert SameNamed(a.children, b.children, name);
    }
    SameNames(a.children, b.children);
    if AllDash(a.children) {
      assert SameNamed(a.children, b.children, "-");
      NamedAll(a.children, "-");
      NamedAll(b.children, "-");
      forall i | 0 <= i < |a.children|
        ensures DashJson(a.children[i]) == DashJson(b.children[i])
      {
        OrderIsFreeBelow(a.children[i], b.children[i]);
      }
    }
    SameJson(a, b);
  }

  lemma {:induction false} NamedAppend(a: seq<Node>, b: seq<Node>, name: string)
    ensures Named(a + b, name) == Named(a, name) + Named(b, name)
    decreases |b|
  {
    if b == [] {
      assert a + b == a;
    } else {
      assert (a + b)[..|a + b| - 1] == a + b[..|b| - 1];
      NamedAppend(a, b[..|b| - 1], name);
    }
  }

  lemma {:induction false} SameAsItself(nodes: seq<Node>)
    ensures SameForest(nodes, nodes)
    decreases Size(nodes), 1
  {
    forall name
      ensures SameNamed(nodes, nodes, name)
    {
      forall i | 0 <= i < |Named(nodes, name)|
        ensures SameNode(Named(nodes, name)[i], Named(nodes, name)[i])
      {
        SameAsItself(Named(nodes, name)[i].children);
      }
    }
  }

  lemma SameByName(a: seq<Node>, b: seq<Node>)
    requires forall name :: Named(a, name) == Named(b, name)
    ensures SameForest(a, b)
  {
    forall name
      ensures SameNamed(a, b, name)
    {
      SameAsItself(a);
      assert SameNamed(a, a, name);
    }
  }

  lemma MovedNamed(before: seq<Node>, moved: Node, passed: seq<Node>, after: seq<Node>, name: string)
    requires forall i | 0 <= i < |passed| :: passed[i].name != moved.name
    ensures Named(before + [moved] + passed + after, name) == Named(before + passed + [moved] + after, name)
  {
    hide Named, Size, NodeSize;
    NamedAppend(before + [moved] + passed, after, name);
    NamedAppend(before + [moved], passed, name);
    NamedAppend(before, [moved], name);
    NamedAppend(before + passed + [moved], after, name);
    NamedAppend(before + passed, [moved], name);
    NamedAppend(before, passed, name);
    if name == moved.name {
      NamedNone(passed, name);
    } else {
      NamedNone([moved], name);
    }
  }

  /** For one: moving a node past siblings of other names. */
  lemma MovePastOthers(before: seq<Node>, moved: Node, passed: seq<Node>, after: seq<Node>)
    requires forall i | 0 <= i < |passed| :: passed[i].name != moved.name
    ensures NodesFields(before + [moved] + passed + after) == NodesFields(before + passed + [moved] + after)
  {
    hide Named, Size, NodeSize, NodesFields, SameForest;
    var a, b := before + [moved] + passed + after, before + passed + [moved] + after;
    forall name
      ensures Named(a, name) == Named(b, name)
    {
      MovedNamed(before, moved, passed, after, name);
    }
    SameByName(a, b);
    OrderIsFree(a, b);
  }

  lemma {:induction false} NamedNone(nodes: seq<Node>, name: string)
    requires forall i | 0 <= i < |nodes| :: nodes[i].name != name
    ensures Named(nodes, name) == []
    decreases |nodes|
  {
    if nodes != [] {
      NamedNone(nodes[..|nodes| - 1], name);
    }
  }

  // ----- What is ignored -----

  lemma {:induction false} PropsOfProps(entries: seq<Entry>)
    ensures Props(Props(entries)) == Props(entries)
  {
    if entries != [] {
      var init, last := entries[..|entries| - 1], entries[|entries| - 1];
      PropsOfProps(init);
      if last.name.Some? {
        assert Props(entries)[..|Props(entries)| - 1] == Props(init);
      } else {
        assert Props(entries) == Props(init);
      }
    }
  }

  /** The positional arguments of a node with children are dropped, and with dashed children its properties too. */
  lemma {:induction false} ArgumentsDropped(node: Node)
    requires node.children != []
    ensures NodeJson(node) == NodeJson(node.(entries := Props(node.entries)))
    ensures AllDash(node.children) ==> NodeJson(node) == NodeJson(node.(entries := []))
    ensures DashJson(node) == DashJson(node.(entries := Props(node.entries)))
  {
    PropsOfProps(node.entries);
  }

  // ----- What a node's entries become -----

  /** Scalars keep their kind and value; a float that is not finite becomes null. */
  lemma ScalarsKept(value: Value)
    ensures forall s :: ValueJson(value) == JString(s) <==> value == Str(s)
    ensures forall i :: ValueJson(value) == JInt(i) <==> value == Int(i)
    ensures forall f :: ValueJson(value) == JFloat(f) <==> value == Float(Some(f))
    ensures forall b :: ValueJson(value) == JBool(b) <==> value == Bool(b)
    ensures ValueJson(value) == JNull <==> value == Null || value == Float(None)
  {
  }

  /** A node with one dashed child per value. */
  function Dashed(name: string, values: seq<Value>): Node {
    Node(name, [], seq(|values|, i requires 0 <= i < |values| => Plain("-", [values[i]])))
  }

  /** The two ways to write a list agree, and keep its order, unless the list has a single value. */
  lemma ListFormsAgreeIff(name: string, values: seq<Value>)
    ensures NodeJson(Dashed(name, values)) == NodeJson(Plain(name, values)) <==> |values| != 1
    ensures |values| > 1 ==>
              var json := NodeJson(Plain(name, values));
              && json.JArray? && |json.items| == |values|
              && forall i | 0 <= i < |values| :: json.items[i] == ValueJson(values[i])
  {
    var plain, dashed := Plain(name, values), Dashed(name, values);
    PlainEntries(plain.entries);
    forall i | 0 <= i < |values|
      ensures DashJson(dashed.children[i]) == ValueJson(values[i])
    {
      PlainEntries(dashed.children[i].entries);
    }
    if |values| > 0 {
      assert dashed.children != [] && AllDash(dashed.children);
      var items := NodeJson(dashed).items;
      assert forall i | 0 <= i < |values| :: items[i] == ValueJson(values[i]);
      if |values| > 1 {
        assert items == NodeJson(plain).items;
      }
    }
  }

  /** The value of the last property of this name. */
  function LastProperty(entries: seq<Entry>, key: string): Option<Value> {
    if entries == [] then None
    else if entries[|entries| - 1].name == Some(key) then Some(entries[|entries| - 1].value)
    else LastProperty(entries[..|entries| - 1], key)
  }

  lemma {:induction false} LastOfProps(entries: seq<Entry>, key: string)
    ensures LastProperty(Props(entries), key) == LastProperty(entries, key)
    ensures LastProperty(entries, key).Some? ==> Props(entries) != []
  {
    if entries != [] {
      var init, last := entries[..|entries| - 1], entries[|entries| - 1];
      LastOfProps(init, key);
      if last.name.Some? {
        assert Props(entries)[..|Props(entries)| - 1] == Props(init);
      } else {
        assert Props(entries) == Props(init);
      }
    }
  }

  lemma {:induction false} PropsOverFields(fields: Fields, props: seq<Entry>, key: string)
    requires forall k | 0 <= k < |props| :: props[k].name.Some?
    ensures var r, last := WithProps(fields, props), LastProperty(props, key);
            && (key in r <==> key in fields || last.Some?)
            && (last.Some? ==> r[key] == ValueJson(last.value))
            && (last.None? && key in fields ==> r[key] == fields[key])
  {
    hide ValueJson;
    if props != [] {
      PropsOverFields(fields, props[..|props| - 1], key);
    }
  }

  lemma {:induction false} ArgsGathered(fields: Fields, args: seq<Entry>)
    ensures var r := WithArgs(fields, args); var before := if "_" in fields then [fields["_"]] else [];
            && (forall key | key != "_" :: (key in r <==> key in fields) && (key in r ==> r[key] == fields[key]))
            && ("_" in r <==> before + ArgsJson(args).items != [])
            && ("_" in r ==> r["_"] == Gathered(before + ArgsJson(args).items))
  {
    hide ValueJson, Gathered;
    var before := if "_" in fields then [fields["_"]] else [];
    if args == [] {
      assert before + ArgsJson(args).items == before;
      if "_" in fields {
        OneGathered(fields["_"]);
      }
    } else {
      var init, value := args[..|args| - 1], ValueJson(args[|args| - 1].value);
      ArgsGathered(fields, init);
      assert before + ArgsJson(args).items == before + ArgsJson(init).items + [value];
      if before + ArgsJson(init).items == [] {
        OneGathered(value);
        assert before + ArgsJson(args).items == [value];
      } else {
        GatheredAgain(before + ArgsJson(init).items, value);
      }
    }
  }

  /** Inline properties win over children of the same name, the last of them over the others. */
  lemma InlinePropertiesWin(node: Node, key: string)
    requires node.children != []
    ensures var last, named := LastProperty(node.entries, key), Named(node.children, key);
            forall json | json == DashJson(node) || (json == NodeJson(node) && !AllDash(node.children)) ::
              && json.JObject? && (key in json.fields <==> last.Some? || named != [])
              && (last.Some? ==> json.fields[key] == ValueJson(last.value))
              && (last.None? && named != [] ==> json.fields[key] == Gathered(Values(named)))
  {
    hide NodesFields, Gathered, ValueJson, Props, WithProps;
    PropsOverFields(NodesFields(node.children), Props(node.entries), key);
    LastOfProps(node.entries, key);
    KeyHoldsItsNodes(node.children, key);
  }

  /**
   * A node without children whose entries have names is the object of its properties; its arguments are gathered under
   * "_" after a property of that name. A dashed one loses them.
   */
  lemma LeafFields(node: Node, key: string)
    requires node.children == [] && Props(node.entries) != []
    ensures var json, dashed, last := NodeJson(node), DashJson(node), LastProperty(node.entries, key);
            var values := (if last.Some? then [ValueJson(last.value)] else [])
                          + if key == "_" then ArgsJson(Args(node.entries)).items else [];
            && json.JObject? && dashed.JObject?
            && (key in json.fields <==> values != []) && (key in json.fields ==> json.fields[key] == Gathered(values))
            && (key in dashed.fields <==> last.Some?) && (last.Some? ==> dashed.fields[key] == ValueJson(last.value))
  {
    hide Gathered, ValueJson, Props, Args, WithProps, WithArgs;
    var props := WithProps(map[], Props(node.entries));
    var last := LastProperty(node.entries, key);
    PropsOverFields(map[], Props(node.entries), key);
    LastOfProps(node.entries, key);
    ArgsGathered(props, Args(node.entries));
    if last.Some? {
      OneGathered(ValueJson(last.value));
      assert [ValueJson(last.value)] + [] == [ValueJson(last.value)];
    }
  }
}

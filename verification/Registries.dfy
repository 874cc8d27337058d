/** The static tool, resource and prompt registries: maps that only grow, listed in pages. */
module Registries {
  import opened Wrappers
  import opened Pager
  import opened Listing
  import opened Reflection

  datatype Page<+V> = Page(items: seq<V>, nextCursor: string)

  function Lookup<V>(m: map<string, V>, names: seq<string>): (items: seq<V>)
    requires forall k | k in names :: k in m
    ensures |items| == |names| && forall i :: 0 <= i < |names| ==> items[i] == m[names[i]]
  {
    if names == [] then [] else [m[names[0]]] + Lookup(m, names[1..])
  }

  lemma PageIsKnown<V>(m: map<string, V>, cursor: string)
    ensures forall k | k in PageOf(m.Keys, cursor) :: k in m
  {
    hide Less;
    var names := Ordered(Remaining(m.Keys, cursor));
    forall k | k in PageOf(m.Keys, cursor) ensures k in m {
      assert k in names;
    }
  }

  /** The one page every list method returns: the entries of the page's keys, in order. */
  ghost function PageFrom<V>(m: map<string, V>, cursor: string): Page<V> {
    PageIsKnown(m, cursor);
    Page(Lookup(m, PageOf(m.Keys, cursor)), NextOf(m.Keys, cursor))
  }

  /** The entries of a page, by position, and only keys that are there. */
  lemma PageEntries<V>(m: map<string, V>, cursor: string)
    ensures var page, names := PageFrom(m, cursor), PageOf(m.Keys, cursor);
            && |page.items| == |names|
            && page.nextCursor == NextOf(m.Keys, cursor)
            && forall i :: 0 <= i < |names| ==> names[i] in m && page.items[i] == m[names[i]]
  {
    hide PageOf, NextOf;
    PageIsKnown(m, cursor);
  }

  lemma PageIs<V>(m: map<string, V>, cursor: string, names: seq<string>, items: seq<V>)
    requires names == PageOf(m.Keys, cursor) && |items| == |names|
    requires forall i :: 0 <= i < |names| ==> names[i] in m && items[i] == m[names[i]]
    ensures PageFrom(m, cursor) == Page(items, NextOf(m.Keys, cursor))
  {
    hide PageOf, NextOf;
    PageIsKnown(m, cursor);
    assert items == Lookup(m, names);
  }

  datatype Error = EmptyName | AlreadyExists | NotFound | NoProvider | BadSchema | BadHandler

  // ---- Tools ----

  datatype Tool = Tool(name: string, description: string, schema: Schema)

  /** A typed handler wrapped around a struct, or a handler that takes the parameter map. */
  datatype ToolHandler = StructHandler(input: InputType) | PlainHandler(id: nat)

  /** The parameter map of a call, which belongs to the caller. */
  class ParamTable {
    var m: map<string, Value>

    constructor (m: map<string, Value>)
      ensures this.m == m
    {
      this.m := m;
    }
  }

  /** How a call ends: refused, failed while filling the struct, or in the tool's own handler. */
  datatype CallOutcome =
    | UnknownTool
    | MissingParameter(name: string)
    | InvalidParameters
    | CalledTyped(slots: seq<Slot>)
    | CalledPlain(id: nat, params: map<string, Value>)

  /** The parameters extended with the schema's defaults for absent keys. */
  function WithDefaults(schema: Schema, params: map<string, Value>): map<string, Value> {
    params + map k | k in schema.properties && schema.properties[k].default.Some? && k !in params ::
      schema.properties[k].default.value
  }

  /** `after` is `before` plus schema defaults for some of the absent keys. */
  ghost predicate Extends(schema: Schema, before: map<string, Value>, after: map<string, Value>) {
    && (forall k | k in before :: k in after && after[k] == before[k])
    && (forall k | k in after && k !in before ::
          k in schema.properties && schema.properties[k].default == Some(after[k]))
  }

  /** With a default for every absent key that has one, that is all of them. */
  lemma ExtendedFully(schema: Schema, before: map<string, Value>, after: map<string, Value>)
    requires Extends(schema, before, after)
    requires forall k | k in schema.properties && schema.properties[k].default.Some? :: k in after
    ensures after == WithDefaults(schema, before)
  {
    var full := WithDefaults(schema, before);
    assert forall k :: k in after <==> k in full;
    assert forall k | k in full :: after[k] == full[k];
  }

  lemma ExtendsNothing(schema: Schema, params: map<string, Value>)
    ensures Extends(schema, params, params)
  {
  }

  lemma ExtendsOne(schema: Schema, before: map<string, Value>, after: map<string, Value>, k: string)
    requires Extends(schema, before, after) && k !in after
    requires k in schema.properties && schema.properties[k].default.Some?
    ensures Extends(schema, before, after[k := schema.properties[k].default.value])
  {
  }

  predicate HasRequired(schema: Schema, params: map<string, Value>) {
    forall name | name in schema.required :: name in params
  }

  /** A new struct filled field by field; none when a field fails. */
  function FillAll(lib: Library, fields: seq<Field>, params: map<string, Value>): Option<seq<Slot>> {
    if fields == [] then Some([])
    else match FillAll(lib, fields[..|fields| - 1], params)
      case None => None
      case Some(slots) =>
        var filling := Fill(lib, fields[|fields| - 1], params);
        if filling.Fails? then None else Some(slots + [After(Zero, filling)])
  }

  lemma {:induction false} FillAllIsPointwise(lib: Library, fields: seq<Field>, params: map<string, Value>)
    ensures var all := FillAll(lib, fields, params);
            && (all.Some? <==> forall i :: 0 <= i < |fields| ==> !Fill(lib, fields[i], params).Fails?)
            && (all.Some? ==> |all.value| == |fields|)
            && (all.Some? ==> forall i :: 0 <= i < |fields| ==>
                  all.value[i] == After(Zero, Fill(lib, fields[i], params)))
  {
    hide Fill;
    if fields != [] {
      var prefix := fields[..|fields| - 1];
      FillAllIsPointwise(lib, prefix, params);
      assert forall i :: 0 <= i < |prefix| ==> prefix[i] == fields[i];
    }
  }

  /** The wrapped handler: a struct is filled, anything else is no target. */
  function RunHandler(lib: Library, h: ToolHandler, params: map<string, Value>): CallOutcome {
    match h
    case PlainHandler(id) => CalledPlain(id, params)
    case StructHandler(StructOf(fields)) =>
      (match FillAll(lib, fields, params) case Some(slots) => CalledTyped(slots) case None => InvalidParameters)
    case StructHandler(_) => InvalidParameters
  }

  /** The first required name that `params` lacks. */
  function FirstMissing(required: seq<string>, params: map<string, Value>): (missing: Option<string>)
    ensures missing.None? <==> forall name | name in required :: name in params
    ensures missing.Some? ==> missing.value !in params && exists i ::
      0 <= i < |required| && required[i] == missing.value && forall j :: 0 <= j < i ==> required[j] in params
  {
    if required == [] then None
    else if required[0] !in params then Some(required[0])
    else
      var missing := FirstMissing(required[1..], params);
      assert missing.Some? ==> forall i :: 0 <= i < |required| - 1 ==> required[1..][i] == required[i + 1];
      missing
  }

  /** A struct handler belongs to a tool with the schema of its own struct. */
  predicate Matches(lib: Library, tool: Tool, handler: ToolHandler) {
    handler.StructHandler? ==> Registrable(lib, handler.input) && tool.schema == SchemaFor(lib, handler.input)
  }

  /** The two tables of a tool registry fit together. */
  ghost predicate Consistent(lib: Library, tools: map<string, Tool>, handlers: map<string, ToolHandler>) {
    && "" !in tools
    && handlers.Keys == tools.Keys
    && forall name | name in tools :: tools[name].name == name && Matches(lib, tools[name], handlers[name])
  }

  /** How a call ends, given the tables. */
  function CallTable(
    lib: Library, tools: map<string, Tool>, handlers: map<string, ToolHandler>, name: string, params: map<string, Value>)
    : CallOutcome
    requires name in tools ==> name in handlers
  {
    if name !in tools then UnknownTool
    else match FirstMissing(tools[name].schema.required, params)
      case Some(missing) => MissingParameter(missing)
      case None => RunHandler(lib, handlers[name], WithDefaults(tools[name].schema, params))
  }

  class StaticToolRegistry {
    const lib: Library
    var tools: map<string, Tool>
    var handlers: map<string, ToolHandler>

    constructor (lib: Library)
      ensures this.lib == lib && Valid() && tools == map[]
    {
      this.lib := lib;
      tools := map[];
      handlers := map[];
    }

    ghost predicate Valid()
      reads this
    {
      Consistent(lib, tools, handlers)
    }

    /** A name is taken once: registered tools are never replaced or removed. Struct handlers come
        from `RegisterStructToolWithHandler` alone, so any other caller's handler matches. */
    method RegisterTool(tool: Tool, handler: ToolHandler) returns (err: Option<Error>)
      requires Valid() && Matches(lib, tool, handler)
      modifies this
      ensures Valid()
      ensures err == if tool.name == "" then Some(EmptyName)
                     else if tool.name in old(tools) then Some(AlreadyExists) else None
      ensures tools == if err.None? then old(tools)[tool.name := tool] else old(tools)
      ensures handlers == if err.None? then old(handlers)[tool.name := handler] else old(handlers)
    {
      if tool.name == "" {
        return Some(EmptyName);
      }
      if tool.name in tools {
        return Some(AlreadyExists);
      }
      tools := tools[tool.name := tool];
      handlers := handlers[tool.name := handler];
      err := None;
    }

    /** `handlerFits` says whether the handler is a function of two arguments and two results. */
    method RegisterStructToolWithHandler(
      name: string, description: string, input: InputType, handlerFits: bool)
      returns (err: Option<Error>)
      requires Valid()
      modifies this
      ensures Valid()
      ensures err.None? <==>
        && name != "" && name !in old(tools) && handlerFits
        && Registrable(lib, input)
      ensures err.None? ==>
        && tools == old(tools)[name := Tool(name, description, SchemaFor(lib, input))]
        && handlers == old(handlers)[name := StructHandler(input)]
      ensures err.Some? ==> tools == old(tools) && handlers == old(handlers)
    {
      if name == "" {
        return Some(EmptyName);
      }
      var schema := GenerateSchemaFromStruct(lib, input);
      if schema.None? {
        return Some(BadSchema);
      }
      if !handlerFits {
        return Some(BadHandler);
      }
      err := RegisterTool(Tool(name, description, schema.value), StructHandler(input));
    }

    /** Callers have plain handlers only to give. */
    method SetToolHandler(name: string, id: nat) returns (err: Option<Error>)
      requires Valid()
      modifies this
      ensures Valid() && tools == old(tools)
      ensures err == if name in old(tools) then None else Some(NotFound)
      ensures handlers == if err.None? then old(handlers)[name := PlainHandler(id)] else old(handlers)
    {
      if name !in tools {
        return Some(NotFound);
      }
      handlers := handlers[name := PlainHandler(id)];
      err := None;
    }

    method ListTools(cursor: string) returns (result: Page<Tool>)
      requires Valid()
      ensures result == PageFrom(tools, cursor)
      ensures forall i, j :: 0 <= i < j < |result.items| ==> ComesBefore(result.items[i].name, result.items[j].name)
    {
      hide ComesBefore, PageFrom, Matches;
      var names, next := PageNames(tools, cursor);
      var items := [];
      for i := 0 to |names|
        invariant |items| == i && forall j :: 0 <= j < i ==> items[j] == tools[names[j]]
      {
        items := items + [tools[names[i]]];
      }
      result := Page(items, next);
      PageIs(tools, cursor, names, items);
    }

    /** Validate, fill in defaults in the caller's map, and hand over to the tool's handler. */
    method CallTool(name: string, params: ParamTable) returns (outcome: CallOutcome)
      requires Valid()
      modifies params
      ensures outcome == CallTable(lib, tools, handlers, name, old(params.m))
      ensures params.m ==
        if name in tools && HasRequired(tools[name].schema, old(params.m))
        then WithDefaults(tools[name].schema, old(params.m)) else old(params.m)
    {
      hide WithDefaults, RunHandler, Matches;
      if name !in tools || name !in handlers {
        return UnknownTool;
      }
      var tool, handler := tools[name], handlers[name];
      for i := 0 to |tool.schema.required|
        invariant FirstMissing(tool.schema.required, params.m) == FirstMissing(tool.schema.required[i..], params.m)
      {
        assert tool.schema.required[i..][1..] == tool.schema.required[i + 1..];
        if tool.schema.required[i] !in params.m {
          return MissingParameter(tool.schema.required[i]);
        }
      }
      ApplyDefaults(tool.schema, params);
      outcome := CallHandler(handler, params);
    }

    method CallHandler(handler: ToolHandler, params: ParamTable) returns (outcome: CallOutcome)
      ensures outcome == RunHandler(lib, handler, params.m)
    {
      match handler
      case PlainHandler(id) => outcome := CalledPlain(id, params.m);
      case StructHandler(input) => outcome := CallStruct(input, params);
    }

    /** The loop over the schema's properties, in whatever order they come. */
    method ApplyDefaults(schema: Schema, params: ParamTable)
      modifies params
      ensures params.m == WithDefaults(schema, old(params.m))
    {
      hide Extends, WithDefaults;
      assert Extends(schema, params.m, params.m) by {
        ExtendsNothing(schema, params.m);
      }
      var rest := schema.properties.Keys;
      while rest != {}
        invariant rest <= schema.properties.Keys
        invariant Extends(schema, old(params.m), params.m)
        invariant forall k | k in schema.properties && k !in rest && schema.properties[k].default.Some? :: k in params.m
        decreases |rest|
      {
        var k :| k in rest;
        if schema.properties[k].default.Some? {
          if k !in params.m {
            ExtendsOne(schema, old(params.m), params.m, k);
            params.m := params.m[k := schema.properties[k].default.value];
          }
        }
        rest := rest - {k};
      }
      ExtendedFully(schema, old(params.m), params.m);
    }

    method CallStruct(input: InputType, params: ParamTable) returns (outcome: CallOutcome)
      ensures outcome == RunHandler(lib, StructHandler(input), params.m)
    {
      if !input.StructOf? {
        return InvalidParameters;
      }
      var fields := input.fields;
      var target := new Slot[|fields|](_ => Zero);
      var ok := UnmarshalParams(lib, params.m, fields, target);
      FillAllIsPointwise(lib, fields, params.m);
      if !ok {
        return InvalidParameters;
      }
      outcome := CalledTyped(target[..]);
      assert target[..] == FillAll(lib, fields, params.m).value;
    }
  }

  // ---- Prompts ----

  datatype Prompt = Prompt(name: string, description: string)

  class StaticPromptRegistry {
    var prompts: map<string, Prompt>

    constructor ()
      ensures Valid() && prompts == map[]
    {
      prompts := map[];
    }

    ghost predicate Valid()
      reads this
    {
      "" !in prompts && forall name | name in prompts :: prompts[name].name == name
    }

    /** Registering a name again replaces the prompt. */
    method RegisterPrompt(prompt: Prompt) returns (err: Option<Error>)
      requires Valid()
      modifies this
      ensures Valid()
      ensures err == if prompt.name == "" then Some(EmptyName) else None
      ensures prompts == if err.None? then old(prompts)[prompt.name := prompt] else old(prompts)
    {
      if prompt.name == "" {
        return Some(EmptyName);
      }
      prompts := prompts[prompt.name := prompt];
      err := None;
    }

    method ListPrompts(cursor: string) returns (result: Page<Prompt>)
      requires Valid()
      ensures result == PageFrom(prompts, cursor)
      ensures forall i, j :: 0 <= i < j < |result.items| ==> ComesBefore(result.items[i].name, result.items[j].name)
    {
      hide ComesBefore, PageFrom;
      var names, next := PageNames(prompts, cursor);
      var items := [];
      for i := 0 to |names|
        invariant |items| == i && forall j :: 0 <= j < i ==> items[j] == prompts[names[j]]
      {
        items := items + [prompts[names[i]]];
      }
      result := Page(items, next);
      PageIs(prompts, cursor, names, items);
    }
  }
}

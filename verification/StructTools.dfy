/** The call pipeline of a tool registered from a struct: schema, required check, defaults and
    field assignment all rest on the same reading of the struct's tags. */
module StructTools {
  import opened Wrappers
  import opened Reflection
  import opened Registries

  function BaseType(t: GoType): GoType {
    match t
    case Plain(_, _) => t
    case Pointer(elem) => BaseType(elem)
  }

  /** Through any number of pointers, a value is converted to the type at the end. */
  lemma {:induction false} PointersAreFollowed(lib: Library, t: GoType, v: Value)
    ensures SetField(lib, t, v) ==
            if v == Nil then Untouched
            else match lib.convert(v, BaseType(t)) case Some(w) => Becomes(w) case None => Fails
    decreases t
  {
    if t.Pointer? {
      PointersAreFollowed(lib, t.elem, v);
    }
  }

  /** The field takes its value from `params`: it is exported, not skipped, and its key holds a
      non-nil value. */
  predicate TakesValue(lib: Library, f: Field, params: map<string, Value>) {
    f.public && ParseField(lib, f).Parsed? && ParseField(lib, f).name in params && params[ParseField(lib, f).name] != Nil
  }

  function Converted(lib: Library, f: Field, params: map<string, Value>): Option<Value>
    requires TakesValue(lib, f, params)
  {
    lib.convert(params[ParseField(lib, f).name], BaseType(f.typ))
  }

  lemma FillByKey(lib: Library, f: Field, params: map<string, Value>)
    requires f.public ==> !ParseField(lib, f).TypeError?
    ensures Fill(lib, f, params) ==
            if !TakesValue(lib, f, params) then Untouched
            else match Converted(lib, f, params) case Some(v) => Becomes(v) case None => Fails
  {
    hide ParseField;
    if f.public && ParseField(lib, f).Parsed? && ParseField(lib, f).name in params {
      PointersAreFollowed(lib, f.typ, params[ParseField(lib, f).name]);
    }
  }

  /** A struct whose schema could be generated never fails to parse when it is filled. */
  lemma RegisteredFieldsParse(lib: Library, fields: seq<Field>, i: nat)
    requires SchemaOf(lib, fields).Some? && i < |fields| && fields[i].public
    ensures !ParseField(lib, fields[i]).TypeError?
  {
    hide ParseField;
    if ParseField(lib, fields[i]).TypeError? {
      SchemaFails(lib, fields, i);
    }
  }

  /** Filling reaches every field's own verdict: nothing taken fails to convert, or the call fails. */
  lemma FillAllByKey(lib: Library, fields: seq<Field>, params: map<string, Value>)
    requires SchemaOf(lib, fields).Some?
    ensures var all := FillAll(lib, fields, params);
            && (all.Some? <==> forall f | f in fields && TakesValue(lib, f, params) :: Converted(lib, f, params).Some?)
            && (all.Some? ==> |all.value| == |fields| && forall i :: 0 <= i < |fields| ==>
                  if TakesValue(lib, fields[i], params)
                  then all.value[i].Filled? && Some(all.value[i].v) == Converted(lib, fields[i], params)
                  else all.value[i] == Zero)
  {
    hide ParseField, Fill, TakesValue, Converted, SchemaOf;
    FillAllIsPointwise(lib, fields, params);
    forall i | 0 <= i < |fields|
      ensures Fill(lib, fields[i], params) ==
              if !TakesValue(lib, fields[i], params) then Untouched
              else match Converted(lib, fields[i], params) case Some(v) => Becomes(v) case None => Fails
    {
      if fields[i].public {
        RegisteredFieldsParse(lib, fields, i);
      }
      FillByKey(lib, fields[i], params);
    }
  }

  /** `full` is what the caller gave, plus the schema's default for each absent key that has one. */
  predicate Completes(schema: Schema, params: map<string, Value>, full: map<string, Value>) {
    && (forall k | k in params :: k in full && full[k] == params[k])
    && (forall k | k in schema.properties && k !in params && schema.properties[k].default.Some? ::
          k in full && full[k] == schema.properties[k].default.value)
    && (forall k | k in full && k !in params :: k in schema.properties && schema.properties[k].default.Some?)
  }

  lemma CompletionIsUnique(schema: Schema, params: map<string, Value>, full: map<string, Value>)
    ensures Completes(schema, params, full) <==> full == WithDefaults(schema, params)
  {
    var other := WithDefaults(schema, params);
    if Completes(schema, params, full) {
      assert forall k :: k in full <==> k in other;
      assert forall k | k in full :: full[k] == other[k];
    }
  }

  /** Every value that the struct of this handler takes from `full` converts, and there is a struct. */
  predicate Fillable(lib: Library, h: ToolHandler, full: map<string, Value>) {
    && h.StructHandler? && h.input.StructOf?
    && forall f | f in h.input.fields && TakesValue(lib, f, full) :: Converted(lib, f, full).Some?
  }

  /** All that a call of a tool can come to, in any registry. With the required keys there, a plain
      handler gets the completed parameters. The typed handler is reached exactly when the tool was
      registered with a struct itself, not a pointer to it, and every value taken converts; then each
      slot holds the conversion of its key's value if it takes one, and stays zero otherwise. */
  lemma StructToolPipeline(
    lib: Library, tools: map<string, Tool>, handlers: map<string, ToolHandler>, name: string,
    params: map<string, Value>, full: map<string, Value>)
    requires Consistent(lib, tools, handlers)
    requires name in tools ==> Completes(tools[name].schema, params, full)
    ensures var outcome := CallTable(lib, tools, handlers, name, params);
            var complete := name in tools && forall k | k in tools[name].schema.required :: k in params;
            && (outcome.UnknownTool? <==> name !in tools)
            && (outcome.MissingParameter? <==> name in tools && !complete)
            && (outcome.CalledPlain? <==> complete && handlers[name].PlainHandler?)
            && (outcome.CalledPlain? ==> outcome.id == handlers[name].id && outcome.params == full)
            && (outcome.CalledTyped? <==> complete && Fillable(lib, handlers[name], full))
            && (outcome.InvalidParameters? <==>
                complete && handlers[name].StructHandler? && !Fillable(lib, handlers[name], full))
    ensures var outcome := CallTable(lib, tools, handlers, name, params);
            outcome.CalledTyped? ==>
              var fields := handlers[name].input.fields;
              |outcome.slots| == |fields| && forall i :: 0 <= i < |fields| ==>
                if TakesValue(lib, fields[i], full)
                then outcome.slots[i].Filled? && Some(outcome.slots[i].v) == Converted(lib, fields[i], full)
                else outcome.slots[i] == Zero
  {
    hide TakesValue, Converted, WithDefaults, SchemaOf, FillAll, Completes;
    if name in tools {
      CompletionIsUnique(tools[name].schema, params, full);
      assert Matches(lib, tools[name], handlers[name]);
      if handlers[name].StructHandler? && handlers[name].input.StructOf? {
        FillAllByKey(lib, handlers[name].input.fields, full);
      }
    }
  }

  /** A tool registered with a pointer to a struct is in order, and no call gets through to it. */
  lemma PointerToolIsUnreachable(lib: Library)
    ensures var input := PointerTo(StructOf([]));
            && Registrable(lib, input)
            && var tools, handlers := map["t" := Tool("t", "", SchemaFor(lib, input))], map["t" := StructHandler(input)];
               && Consistent(lib, tools, handlers)
               && forall params :: CallTable(lib, tools, handlers, "t", params) == InvalidParameters
  {
    assert SchemaOf(lib, []) == Some(Schema(map[], []));
  }

  /** The parameters a handler sees: the caller's own, untouched, and for an absent key the default
      of the last exported field that declares it, if that field has one. */
  lemma {:induction false} DefaultsComeFromTags(lib: Library, fields: seq<Field>, params: map<string, Value>, k: string)
    requires SchemaOf(lib, fields).Some?
    ensures var full := WithDefaults(SchemaOf(lib, fields).value, params);
            && (k in params ==> k in full && full[k] == params[k])
            && (k !in params && k in full ==>
                exists i: nat :: LastDeclares(lib, fields, |fields|, k, i) &&
                                 ParseField(lib, fields[i]).property.default == Some(full[k]))
            && (k !in full ==> forall i: nat | LastDeclares(lib, fields, |fields|, k, i) ::
                                 ParseField(lib, fields[i]).property.default == None)
  {
    hide ParseField, Declares;
    assert fields[..|fields|] == fields;
    PropertiesAreDeclared(lib, fields, |fields|, k);
  }

  /** The required check asks for exactly the keys that some exported field's tag requires. */
  lemma {:induction false} RequiredCheck(lib: Library, fields: seq<Field>, params: map<string, Value>)
    requires SchemaOf(lib, fields).Some?
    ensures HasRequired(SchemaOf(lib, fields).value, params) <==>
            forall i, k :: 0 <= i < |fields| && Requires(lib, fields[i], k) ==> k in params
  {
    hide ParseField, Requires;
    assert fields[..|fields|] == fields;
    forall k {
      RequiredAreDeclared(lib, fields, |fields|, k);
    }
    var schema := SchemaOf(lib, fields).value;
    if HasRequired(schema, params) {
      forall i, k | 0 <= i < |fields| && Requires(lib, fields[i], k) ensures k in params {
        RequiredAreDeclared(lib, fields, |fields|, k);
        assert k in schema.required;
      }
    }
  }
}

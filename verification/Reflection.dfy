/** Struct tags, the input schema generated from them, and filling a struct from call parameters.
    One parser reads the tags for both. */
module Reflection {
  import opened Wrappers
  import opened Strings

  datatype Kind = String | Integer | Unsigned | Float | Boolean | List | Map | Struct | Interface | Unsupported

  /** A type is a pointer, or known by its kind and its name: two struct types differ. */
  datatype GoType = Plain(kind: Kind, name: string) | Pointer(elem: GoType)

  datatype Field = Field(name: string, public: bool, tag: string, typ: GoType)

  /** The type a tool is registered with. */
  datatype InputType = StructOf(fields: seq<Field>) | PointerTo(target: InputType) | NoStruct

  /** What JSON decoding and default parsing produce. */
  datatype Value = Nil | Str(s: string) | Int(i: int) | Uint(u: nat) | Num(r: real) | Bool(b: bool) | Compound(id: nat)

  type Present = v: Value | v != Nil witness Bool(false)

  datatype Property = Property(typ: string, description: string, default: Option<Present>)

  datatype Schema = Schema(properties: map<string, Property>, required: seq<string>)

  /** Library functions left uninterpreted: lower-casing, `strconv`, and reflect's conversion of a
      non-nil value to a field's type. */
  datatype Library = Library(
    lower: string -> string,
    parse: (string, Kind) -> Option<Present>,
    convert: (Present, GoType) -> Option<Present>)

  // ---- Tags ----

  predicate IsSpace(c: char) {
    c == ' ' || '\t' <= c <= '\r' || c == '\U{85}' || c == '\U{A0}' || c == '\U{1680}' ||
    '\U{2000}' <= c <= '\U{200A}' || c == '\U{2028}' || c == '\U{2029}' || c == '\U{202F}' ||
    c == '\U{205F}' || c == '\U{3000}'
  }

  function TrimLeft(s: string): string {
    if s != "" && IsSpace(s[0]) then TrimLeft(s[1..]) else s
  }

  function TrimRight(s: string): string {
    if s != "" && IsSpace(s[|s| - 1]) then TrimRight(s[..|s| - 1]) else s
  }

  function TrimSpace(s: string): string {
    TrimRight(TrimLeft(s))
  }

  const DEFAULT := "default="

  predicate IsDefault(option: string) {
    |option| >= 8 && option[..8] == DEFAULT
  }

  /** The options of a tag, its third part onward: whether "required" is among them, and the text
      of the last default. */
  function Scan(options: seq<string>): (bool, Option<string>) {
    if options == [] then (false, None)
    else
      var (required, default) := Scan(options[..|options| - 1]);
      var part := TrimSpace(options[|options| - 1]);
      if part == "required" then (true, default)
      else if IsDefault(part) then (required, Some(part[8..]))
      else (required, default)
  }

  function Elem(t: GoType): GoType {
    if t.Pointer? then t.elem else t
  }

  function SchemaType(t: GoType): Option<string> {
    match Elem(t)
    case Pointer(_) => None
    case Plain(kind, _) =>
      match kind
      case String => Some("string")
      case Integer => Some("integer")
      case Unsigned => Some("integer")
      case Float => Some("number")
      case Boolean => Some("boolean")
      case List => Some("array")
      case Map => Some("object")
      case Struct => Some("object")
      case Interface => Some("object")
      case Unsupported => None
  }

  /** A default that does not parse for the field's kind stays a string. */
  function DefaultValue(lib: Library, text: string, t: GoType): Present {
    match Elem(t)
    case Pointer(_) => Str(text)
    case Plain(kind, _) =>
      if kind in {Integer, Unsigned, Float, Boolean} then
        match lib.parse(text, kind)
        case Some(v) => v
        case None => Str(text)
      else Str(text)
  }

  /** `Skipped` is the empty field name of a "-" tag. */
  datatype ParsedField = Skipped | Parsed(name: string, property: Property, required: bool) | TypeError

  function ParseField(lib: Library, f: Field): ParsedField {
    if f.tag == "-" then Skipped
    else
      var parts := if f.tag == "" then [] else Split(f.tag, ',');
      var name := if |parts| > 0 && parts[0] != "" then parts[0] else lib.lower(f.name);
      var description := if |parts| > 1 then parts[1] else "";
      var (required, default) := if |parts| > 2 then Scan(parts[2..]) else (false, None);
      var value := if default.Some? then Some(DefaultValue(lib, default.value, f.typ)) else None;
      match SchemaType(f.typ)
      case None => TypeError
      case Some(typ) => if name == "" then Skipped else Parsed(name, Property(typ, description, value), required)
  }

  lemma ScanNone()
    ensures Scan([]) == (false, None)
  {
  }

  /** One option more. */
  lemma ScanOne(parts: seq<string>, i: nat)
    requires 2 <= i < |parts|
    ensures var (required, default) := Scan(parts[2..i]);
            var part := TrimSpace(parts[i]);
            Scan(parts[2..i + 1]) ==
            if part == "required" then (true, default)
            else if IsDefault(part) then (required, Some(part[8..]))
            else (required, default)
  {
    hide TrimSpace;
    assert parts[2..i + 1][..i - 2] == parts[2..i];
  }

  method ParseStructField(lib: Library, f: Field) returns (parsed: ParsedField)
    ensures parsed == ParseField(lib, f)
  {
    hide TrimSpace, SchemaType, DefaultValue, Split, Scan;
    ScanNone();
    if f.tag == "-" {
      return Skipped;
    }
    var fieldName, description, default, required := lib.lower(f.name), "", None, false;
    if f.tag != "" {
      var parts := Split(f.tag, ',');
      if |parts| > 0 && parts[0] != "" {
        fieldName := parts[0];
      }
      if |parts| > 1 && parts[1] != "" {
        description := parts[1];
      }
      ghost var text: Option<string> := None;
      var i := 2;
      assert |parts| >= 2 ==> parts[2..i] == [];
      while i < |parts|
        invariant |parts| >= 2 ==> 2 <= i <= |parts| && (required, text) == Scan(parts[2..i])
        invariant |parts| < 2 ==> i == 2 && !required && text == None
        invariant default == if text.Some? then Some(DefaultValue(lib, text.value, f.typ)) else None
      {
        var part := TrimSpace(parts[i]);
        ScanOne(parts, i);
        if part == "required" {
          required := true;
        } else if IsDefault(part) {
          default := Some(DefaultValue(lib, part[8..], f.typ));
          text := Some(part[8..]);
        }
        i := i + 1;
      }
      assert |parts| >= 2 ==> parts[2..i] == parts[2..];
    }
    var schemaType := SchemaType(f.typ);
    if schemaType.None? {
      return TypeError;
    }
    if fieldName == "" {
      return Skipped;
    }
    parsed := Parsed(fieldName, Property(schemaType.value, description, default), required);
  }

  // ---- Schema ----

  /** The schema of the first fields of a struct; none when an exported field has an unsupported type. */
  function SchemaOf(lib: Library, fields: seq<Field>): Option<Schema> {
    if fields == [] then Some(Schema(map[], []))
    else
      var f := fields[|fields| - 1];
      match SchemaOf(lib, fields[..|fields| - 1])
      case None => None
      case Some(schema) =>
        if !f.public then Some(schema)
        else match ParseField(lib, f)
          case TypeError => None
          case Skipped => Some(schema)
          case Parsed(name, property, required) =>
            Some(Schema(schema.properties[name := property],
                        if required then schema.required + [name] else schema.required))
  }

  /** One pointer is looked through. */
  function FieldsForSchema(t: InputType): Option<seq<Field>> {
    match t
    case StructOf(fields) => Some(fields)
    case PointerTo(StructOf(fields)) => Some(fields)
    case _ => None
  }

  /** A struct type, or a pointer to one, whose exported fields all have a type with a schema. */
  predicate Registrable(lib: Library, input: InputType) {
    FieldsForSchema(input).Some? && SchemaOf(lib, FieldsForSchema(input).value).Some?
  }

  function SchemaFor(lib: Library, input: InputType): Schema
    requires Registrable(lib, input)
  {
    SchemaOf(lib, FieldsForSchema(input).value).value
  }

  method GenerateSchemaFromStruct(lib: Library, t: InputType) returns (schema: Option<Schema>)
    ensures schema == if FieldsForSchema(t).Some? then SchemaOf(lib, FieldsForSchema(t).value) else None
  {
    hide ParseField;
    var structType := if t.PointerTo? then t.target else t;
    if !structType.StructOf? {
      return None;
    }
    var fields := structType.fields;
    var properties: map<string, Property> := map[];
    var requiredNames: seq<string> := [];
    for i := 0 to |fields|
      invariant SchemaOf(lib, fields[..i]) == Some(Schema(properties, requiredNames))
    {
      var f := fields[i];
      assert fields[..i + 1][..i] == fields[..i];
      if f.public {
        var parsed := ParseStructField(lib, f);
        if parsed.TypeError? {
          SchemaFails(lib, fields, i);
          return None;
        }
        if parsed.Parsed? {
          properties := properties[parsed.name := parsed.property];
          if parsed.required {
            requiredNames := requiredNames + [parsed.name];
          }
        }
      }
    }
    assert fields[..|fields|] == fields;
    schema := Some(Schema(properties, requiredNames));
  }

  /** One field of an unsupported type spoils the whole schema. */
  lemma {:induction false} SchemaFails(lib: Library, fields: seq<Field>, i: nat)
    requires i < |fields| && fields[i].public && ParseField(lib, fields[i]).TypeError?
    ensures SchemaOf(lib, fields) == None
  {
    hide ParseField;
    var n := |fields| - 1;
    if i < n {
      SchemaFails(lib, fields[..n], i);
    }
  }

  /** Nothing but an exported field of an unsupported type that is not skipped stands in the way. */
  lemma {:induction false} SchemaExists(lib: Library, fields: seq<Field>)
    ensures SchemaOf(lib, fields).Some? <==>
            forall i :: 0 <= i < |fields| && fields[i].public && fields[i].tag != "-" ==> SchemaType(fields[i].typ).Some?
  {
    hide SchemaType, ParseField, SchemaOf;
    if fields == [] {
      NoFields(lib);
    } else {
      var n := |fields| - 1;
      SchemaExists(lib, fields[..n]);
      assert forall i | 0 <= i < n :: fields[..n][i] == fields[i];
      OnlyTypesFail(lib, fields[n]);
      OneMoreField(lib, fields);
    }
  }

  lemma NoFields(lib: Library)
    ensures SchemaOf(lib, []) == Some(Schema(map[], []))
  {
  }

  lemma OneMoreField(lib: Library, fields: seq<Field>)
    requires fields != []
    ensures var n := |fields| - 1;
            SchemaOf(lib, fields).Some? <==>
            SchemaOf(lib, fields[..n]).Some? && (fields[n].public ==> !ParseField(lib, fields[n]).TypeError?)
  {
    hide ParseField;
  }

  lemma OnlyTypesFail(lib: Library, f: Field)
    ensures ParseField(lib, f).TypeError? <==> f.tag != "-" && SchemaType(f.typ).None?
  {
  }

  /** A struct type and a pointer to it have the same schema, if their exported fields allow it; no
      other type has one. */
  lemma Registration(lib: Library, input: InputType, fields: seq<Field>)
    ensures input == StructOf(fields) || input == PointerTo(StructOf(fields)) ==>
              (Registrable(lib, input) <==> SchemaOf(lib, fields).Some?) &&
              (Registrable(lib, input) ==> SchemaFor(lib, input) == SchemaOf(lib, fields).value)
    ensures Registrable(lib, input) ==> input.StructOf? || (input.PointerTo? && input.target.StructOf?)
  {
  }

  /** Every required name is the key of a property. */
  lemma {:induction false} RequiredAreProperties(lib: Library, fields: seq<Field>)
    requires SchemaOf(lib, fields).Some?
    ensures var schema := SchemaOf(lib, fields).value;
            forall name | name in schema.required :: name in schema.properties
  {
    hide ParseField;
    if fields != [] {
      RequiredAreProperties(lib, fields[..|fields| - 1]);
    }
  }

  ghost predicate Declares(lib: Library, f: Field, name: string) {
    f.public && ParseField(lib, f).Parsed? && ParseField(lib, f).name == name
  }

  ghost predicate LastDeclares(lib: Library, fields: seq<Field>, n: nat, name: string, i: nat) {
    i < n <= |fields| && Declares(lib, fields[i], name) && forall j :: i < j < n ==> !Declares(lib, fields[j], name)
  }

  ghost predicate Requires(lib: Library, f: Field, name: string) {
    Declares(lib, f, name) && ParseField(lib, f).required
  }

  lemma SchemaPrefix(fields: seq<Field>, n: nat)
    requires 0 < n <= |fields|
    ensures fields[..n][..n - 1] == fields[..n - 1] && fields[..n][n - 1] == fields[n - 1]
  {
  }

  /** A name is a property exactly when an exported field declares it, and the last such field
      gives the property. */
  lemma {:induction false} PropertiesAreDeclared(lib: Library, fields: seq<Field>, n: nat, name: string)
    requires n <= |fields| && SchemaOf(lib, fields[..n]).Some?
    ensures var properties := SchemaOf(lib, fields[..n]).value.properties;
            if name in properties then
              exists i: nat :: LastDeclares(lib, fields, n, name, i) &&
                               properties[name] == ParseField(lib, fields[i]).property
            else forall i :: 0 <= i < n ==> !Declares(lib, fields[i], name)
  {
    hide ParseField;
    if n > 0 {
      SchemaPrefix(fields, n);
      PropertiesAreDeclared(lib, fields, n - 1, name);
      if Declares(lib, fields[n - 1], name) {
        assert LastDeclares(lib, fields, n, name, n - 1);
      } else if name in SchemaOf(lib, fields[..n - 1]).value.properties {
        var i: nat :| LastDeclares(lib, fields, n - 1, name, i) &&
          SchemaOf(lib, fields[..n - 1]).value.properties[name] == ParseField(lib, fields[i]).property;
        assert LastDeclares(lib, fields, n, name, i);
      }
    }
  }

  /** The required names are those some exported field declares as required. */
  lemma {:induction false} RequiredAreDeclared(lib: Library, fields: seq<Field>, n: nat, name: string)
    requires n <= |fields| && SchemaOf(lib, fields[..n]).Some?
    ensures name in SchemaOf(lib, fields[..n]).value.required <==>
            exists i :: 0 <= i < n && Requires(lib, fields[i], name)
  {
    hide ParseField;
    if n > 0 {
      SchemaPrefix(fields, n);
      RequiredAreDeclared(lib, fields, n - 1, name);
      var before := SchemaOf(lib, fields[..n - 1]).value.required;
      var after := SchemaOf(lib, fields[..n]).value.required;
      var parsed := ParseField(lib, fields[n - 1]);
      assert after == if fields[n - 1].public && parsed.Parsed? && parsed.required then before + [parsed.name] else before;
      assert name in after <==> name in before || Requires(lib, fields[n - 1], name);
    }
  }

  // ---- Filling a struct ----

  /** A field of the target: its zero value, or a value set. */
  datatype Slot = Zero | Filled(v: Value)

  /** What filling does to one field. */
  datatype Filling = Untouched | Becomes(v: Value) | Fails

  /** `setFieldValue`: nil leaves the field alone, pointers are followed. */
  function SetField(lib: Library, t: GoType, v: Value): Filling
    decreases t
  {
    if v == Nil then Untouched
    else match t
      case Pointer(elem) => SetField(lib, elem, v)
      case Plain(_, _) =>
        match lib.convert(v, t)
        case Some(w) => Becomes(w)
        case None => Fails
  }

  /** One field of the target, from the call's parameters. */
  function Fill(lib: Library, f: Field, params: map<string, Value>): Filling {
    if !f.public then Untouched
    else match ParseField(lib, f)
      case TypeError => Fails
      case Skipped => Untouched
      case Parsed(name, _, _) => if name in params then SetField(lib, f.typ, params[name]) else Untouched
  }

  function After(slot: Slot, filling: Filling): Slot {
    if filling.Becomes? then Filled(filling.v) else slot
  }

  /** Fills `target`, one slot per field, in place; untouched fields keep what they held. */
  method UnmarshalParams(lib: Library, params: map<string, Value>, fields: seq<Field>, target: array<Slot>)
    returns (ok: bool)
    requires target.Length == |fields|
    modifies target
    ensures ok <==> forall i :: 0 <= i < |fields| ==> !Fill(lib, fields[i], params).Fails?
    ensures ok ==> forall i :: 0 <= i < |fields| ==>
      target[i] == After(old(target[i]), Fill(lib, fields[i], params))
    ensures ok ==> forall i :: 0 <= i < |fields| ==>
      match Fill(lib, fields[i], params)
      case Becomes(v) => target[i] == Filled(v)
      case _ => target[i] == old(target[i])
  {
    hide ParseField, SetField;
    for i := 0 to |fields|
      invariant forall j :: 0 <= j < i ==> !Fill(lib, fields[j], params).Fails?
      invariant forall j :: 0 <= j < i ==> target[j] == After(old(target[j]), Fill(lib, fields[j], params))
      invariant forall j :: i <= j < |fields| ==> target[j] == old(target[j])
    {
      var f := fields[i];
      if f.public {
        var parsed := ParseStructField(lib, f);
        if parsed.TypeError? {
          assert Fill(lib, fields[i], params).Fails?;
          return false;
        }
        if parsed.Parsed? && parsed.name in params {
          var filling := SetField(lib, f.typ, params[parsed.name]);
          if filling.Fails? {
            assert Fill(lib, fields[i], params).Fails?;
            return false;
          }
          if filling.Becomes? {
            target[i] := Filled(filling.v);
          }
        }
      }
    }
    ok := true;
  }
}

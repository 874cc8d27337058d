/** The documented tag format `name,description,required,default=value`, written and read back. */
module TagFormat {
  import opened Wrappers
  import opened Strings
  import opened Reflection

  function Options(required: bool, default: Option<string>): seq<string> {
    (if required then ["required"] else []) +
    (match default case Some(v) => [DEFAULT + v] case None => [])
  }

  function Commas(options: seq<string>): string {
    if options == [] then "" else "," + options[0] + Commas(options[1..])
  }

  /** The tag text for a field. */
  function Render(name: string, description: string, required: bool, default: Option<string>): string {
    name + "," + description + Commas(Options(required, default))
  }

  // ---- Trimming ----

  lemma {:induction false} TrimRightClean(s: string)
    ensures var t := TrimRight(s);
            t <= s && (t == "" || !IsSpace(t[|t| - 1]))
  {
    if s != "" && IsSpace(s[|s| - 1]) {
      TrimRightClean(s[..|s| - 1]);
    }
  }

  lemma {:induction false} TrimLeftIsSuffix(s: string)
    ensures |TrimLeft(s)| <= |s| && TrimLeft(s) == s[|s| - |TrimLeft(s)|..]
  {
    if s != "" && IsSpace(s[0]) {
      TrimLeftIsSuffix(s[1..]);
    }
  }

  predicate NoTrailingSpace(s: string) {
    s == "" || !IsSpace(s[|s| - 1])
  }

  /** Whatever default the scan finds has no comma and no space at its end. */
  lemma {:induction false} ScannedDefaultIsClean(options: seq<string>)
    requires forall p | p in options :: ',' !in p
    ensures var default := Scan(options).1;
            default.Some? ==> ',' !in default.value && NoTrailingSpace(default.value)
  {
    if options != [] {
      var last := options[|options| - 1];
      ScannedDefaultIsClean(options[..|options| - 1]);
      TrimLeftIsSuffix(last);
      TrimRightClean(TrimLeft(last));
      var part := TrimSpace(last);
      assert forall c | c in part :: c in TrimLeft(last);
      assert forall c | c in TrimLeft(last) :: c in last;
      if IsDefault(part) {
        assert forall c | c in part[8..] :: c in part;
      }
    }
  }

  // ---- Splitting ----

  lemma SplitOne(s: string)
    requires ',' !in s
    ensures Split(s, ',') == [s]
  {
  }

  lemma {:induction false} SplitCommas(head: string, options: seq<string>)
    requires ',' !in head && forall p | p in options :: ',' !in p
    ensures Split(head + Commas(options), ',') == [head] + options
    decreases |options|
  {
    hide Split;
    if options == [] {
      assert head + "" == head;
      SplitOne(head);
    } else {
      var rest := options[0] + Commas(options[1..]);
      SplitCommas(options[0], options[1..]);
      SplitAfter(head, ',', rest);
      assert head + Commas(options) == head + [','] + rest;
      assert [head] + ([options[0]] + options[1..]) == [head] + options;
    }
  }

  lemma TrimKeeps(s: string)
    requires s != "" && !IsSpace(s[0]) && !IsSpace(s[|s| - 1])
    ensures TrimSpace(s) == s
  {
  }

  /** Scanning well-formed options finds what was written. */
  lemma ScanOptions(required: bool, default: Option<string>)
    requires default.Some? ==> NoTrailingSpace(default.value)
    ensures Scan(Options(required, default)) == (required, default)
  {
    TrimKeeps("required");
    var first: seq<string> := if required then ["required"] else [];
    assert Scan(first) == (required, None) by {
      if required {
        assert first[..0] == [];
      }
    }
    match default {
      case None =>
        assert Options(required, default) == first;
      case Some(v) =>
        var option := DEFAULT + v;
        var options := Options(required, default);
        assert options == first + [option] && options[..|options| - 1] == first;
        TrimKeeps(option);
        assert option[..8] == DEFAULT && option[8..] == v;
        assert option[0] == 'd' && "required"[0] == 'r';
    }
  }

  // ---- The round trip ----

  predicate WellFormed(name: string, description: string, default: Option<string>) {
    && name != "" && ',' !in name
    && ',' !in description
    && (default.Some? ==> ',' !in default.value && NoTrailingSpace(default.value))
  }

  /** An exported string field with the rendered tag. */
  function TaggedField(
    fieldName: string, name: string, description: string, required: bool, default: Option<string>): Field
  {
    Field(fieldName, true, Render(name, description, required, default), Plain(String, "string"))
  }

  function Expected(name: string, description: string, required: bool, default: Option<string>): ParsedField {
    Parsed(name, Property("string", description, if default.Some? then Some(Str(default.value)) else None), required)
  }

  lemma TagIsCommas(name: string, description: string, required: bool, default: Option<string>)
    ensures Render(name, description, required, default) ==
            name + Commas([description] + Options(required, default))
  {
    hide Options;
    var options := Options(required, default);
    assert ([description] + options)[1..] == options;
    assert Commas([description] + options) == "," + description + Commas(options);
  }

  lemma WellFormedParts(name: string, description: string, required: bool, default: Option<string>)
    requires WellFormed(name, description, default)
    ensures Split(Render(name, description, required, default), ',') == [name, description] + Options(required, default)
  {
    hide Split, Commas, Render;
    var options := Options(required, default);
    assert forall p | p in options :: ',' !in p;
    TagIsCommas(name, description, required, default);
    SplitCommas(name, [description] + options);
    assert [name] + ([description] + options) == [name, description] + options;
  }

  lemma WellFormedReadsBack(
    lib: Library, fieldName: string, name: string, description: string, required: bool, default: Option<string>)
    requires WellFormed(name, description, default)
    ensures ParseField(lib, TaggedField(fieldName, name, description, required, default)) ==
            Expected(name, description, required, default)
  {
    WellFormedParts(name, description, required, default);
    ScanOptions(required, default);
    TagHasComma(name, description, required, default);
    hide Split, Commas, Render, Scan, Options, ParseField, NoTrailingSpace;
    var f := TaggedField(fieldName, name, description, required, default);
    SplitTagParses(lib, f);
    assert Split(f.tag, ',')[2..] == Options(required, default);
  }

  /** A tag of two parts or more, the first not empty, on a string field. */
  lemma SplitTagParses(lib: Library, f: Field)
    requires f.tag != "" && f.tag != "-" && f.typ == Plain(String, "string")
    requires |Split(f.tag, ',')| >= 2 && Split(f.tag, ',')[0] != ""
    ensures var parts := Split(f.tag, ',');
            var (required, default) := Scan(parts[2..]);
            ParseField(lib, f) == Expected(parts[0], parts[1], required, default)
  {
    ScanNone();
    hide Split, Scan;
    var parts := Split(f.tag, ',');
    assert |parts| == 2 ==> parts[2..] == [];
  }

  lemma TagHasComma(name: string, description: string, required: bool, default: Option<string>)
    ensures var tag := Render(name, description, required, default);
            tag != "" && tag != "-" && ',' in tag
  {
    var tag := Render(name, description, required, default);
    assert tag[|name|] == ',';
  }

  /** Writing a field's tag and reading it back returns the four parts exactly when the name is
      non-empty, no part holds a comma, and the default does not end in white space. */
  lemma TagRoundTrip(
    lib: Library, fieldName: string, name: string, description: string, required: bool, default: Option<string>)
    requires lib.lower(fieldName) != "" && ',' !in lib.lower(fieldName)
    ensures ParseField(lib, TaggedField(fieldName, name, description, required, default)) ==
            Expected(name, description, required, default) <==>
            WellFormed(name, description, default)
  {
    if WellFormed(name, description, default) {
      WellFormedReadsBack(lib, fieldName, name, description, required, default);
    } else if ParseField(lib, TaggedField(fieldName, name, description, required, default)) ==
              Expected(name, description, required, default) {
      ReadsAreWellFormed(lib, fieldName, name, description, required, default);
    }
  }

  lemma ReadsAreWellFormed(
    lib: Library, fieldName: string, name: string, description: string, required: bool, default: Option<string>)
    requires lib.lower(fieldName) != "" && ',' !in lib.lower(fieldName)
    requires ParseField(lib, TaggedField(fieldName, name, description, required, default)) ==
             Expected(name, description, required, default)
    ensures WellFormed(name, description, default)
  {
    TagHasComma(name, description, required, default);
    NameIsFirst(name, description, required, default);
    hide Split, Commas, Render, Scan, Options, NoTrailingSpace;
    var parts := Split(Render(name, description, required, default), ',');
    ScannedDefaultIsClean(parts[2..]);
    assert forall p | p in parts :: ',' !in p;
  }

  lemma NameIsFirst(name: string, description: string, required: bool, default: Option<string>)
    ensures ',' !in name ==> Split(Render(name, description, required, default), ',')[0] == name
  {
    hide Split, Options;
    if ',' !in name {
      var rest := description + Commas(Options(required, default));
      assert Render(name, description, required, default) == name + [','] + rest;
      SplitAfter(name, ',', rest);
    }
  }
}

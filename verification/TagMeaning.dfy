/** What any struct tag means, not only one in the documented format: part by part, whatever the
    order, the spacing and the repetitions of its options. */
module TagMeaning {
  import opened Wrappers
  import opened Strings
  import opened Reflection

  predicate AllSpace(s: string) {
    forall c | c in s :: IsSpace(c)
  }

  /** The characters with Unicode's White_Space property. */
  lemma SpacesOfUnicode(c: char)
    ensures IsSpace(c) <==>
            c in ['\t', '\n', '\U{0B}', '\U{0C}', '\r', ' ', '\U{85}', '\U{A0}', '\U{1680}',
                  '\U{2000}', '\U{2001}', '\U{2002}', '\U{2003}', '\U{2004}', '\U{2005}', '\U{2006}',
                  '\U{2007}', '\U{2008}', '\U{2009}', '\U{200A}', '\U{2028}', '\U{2029}', '\U{202F}',
                  '\U{205F}', '\U{3000}']
  {
  }

  lemma {:induction false} TrimLeftMeaning(s: string) returns (before: string)
    ensures s == before + TrimLeft(s) && AllSpace(before)
    ensures TrimLeft(s) == "" || !IsSpace(TrimLeft(s)[0])
  {
    hide IsSpace;
    if s != "" && IsSpace(s[0]) {
      var rest := TrimLeftMeaning(s[1..]);
      before := [s[0]] + rest;
      assert s == [s[0]] + s[1..];
    } else {
      before := "";
    }
  }

  lemma {:induction false} TrimRightMeaning(s: string) returns (after: string)
    ensures s == TrimRight(s) + after && AllSpace(after)
    ensures TrimRight(s) == "" || !IsSpace(TrimRight(s)[|TrimRight(s)| - 1])
  {
    hide IsSpace;
    if s != "" && IsSpace(s[|s| - 1]) {
      var rest := TrimRightMeaning(s[..|s| - 1]);
      after := rest + [s[|s| - 1]];
      assert s == s[..|s| - 1] + [s[|s| - 1]];
    } else {
      after := "";
    }
  }

  /** `t` is `s` without the white space around it. */
  ghost predicate IsTrimmed(s: string, t: string) {
    && (exists before, after :: s == before + t + after && AllSpace(before) && AllSpace(after))
    && (t == "" || (!IsSpace(t[0]) && !IsSpace(t[|t| - 1])))
  }

  lemma TrimSpaceMeaning(s: string)
    ensures IsTrimmed(s, TrimSpace(s))
  {
    hide IsSpace, TrimLeft, TrimRight, AllSpace;
    var before := TrimLeftMeaning(s);
    var after := TrimRightMeaning(TrimLeft(s));
    assert s == before + TrimSpace(s) + after;
  }

  /** The last option that gives a default is number `j`. */
  ghost predicate LastDefault(options: seq<string>, j: nat) {
    && j < |options| && "default=" <= TrimSpace(options[j])
    && forall i :: j < i < |options| ==> !("default=" <= TrimSpace(options[i]))
  }

  /** "required" counts wherever it stands, and of several defaults the last. */
  lemma {:induction false} ScanMeaning(options: seq<string>)
    ensures var (required, default) := Scan(options);
            && (required <==> exists j :: 0 <= j < |options| && TrimSpace(options[j]) == "required")
            && (default.None? <==> forall j :: 0 <= j < |options| ==> !("default=" <= TrimSpace(options[j])))
            && (default.Some? ==> exists j: nat ::
                  LastDefault(options, j) && "default=" + default.value == TrimSpace(options[j]))
  {
    hide TrimSpace;
    if options != [] {
      var n := |options| - 1;
      var shorter := options[..n];
      ScanMeaning(shorter);
      PartKinds(TrimSpace(options[n]));
      assert forall j | 0 <= j < n :: shorter[j] == options[j];
      if "default=" <= TrimSpace(options[n]) {
        assert LastDefault(options, n);
      } else if j: nat :| LastDefault(shorter, j) && Scan(shorter).1.Some? &&
                          "default=" + Scan(shorter).1.value == TrimSpace(shorter[j]) {
        assert LastDefault(options, j);
      }
    }
  }

  lemma PartKinds(part: string)
    ensures IsDefault(part) <==> "default=" <= part
    ensures IsDefault(part) ==> part != "required" && "default=" + part[8..] == part
  {
    assert part == "required" ==> part[0] == 'r';
  }

  /** The kinds of fields and their schema types; one pointer is looked through. */
  lemma SchemaTypes(kind: Kind, name: string)
    ensures var t := SchemaType(Plain(kind, name));
            && (kind == String <==> t == Some("string"))
            && (kind in {Integer, Unsigned} <==> t == Some("integer"))
            && (kind == Float <==> t == Some("number"))
            && (kind == Boolean <==> t == Some("boolean"))
            && (kind == List <==> t == Some("array"))
            && (kind in {Map, Struct, Interface} <==> t == Some("object"))
            && (kind == Unsupported <==> t == None)
            && SchemaType(Pointer(Plain(kind, name))) == t
            && forall elem :: SchemaType(Pointer(Pointer(elem))) == None
  {
    assert |"string"| == 6 && |"integer"| == 7 && |"number"| == 6 && |"boolean"| == 7 && |"array"| == 5 && |"object"| == 6;
    assert "string"[0] == 's' && "number"[0] == 'n' && "object"[0] == 'o' && "integer"[0] == 'i' && "boolean"[0] == 'b';
  }

  /** A default becomes a number or truth value if the field wants one and the text is one; else it
      stays a string. */
  lemma DefaultValues(lib: Library, text: string, kind: Kind, name: string)
    ensures var v := DefaultValue(lib, text, Plain(kind, name));
            && (kind in {Integer, Unsigned, Float, Boolean} && lib.parse(text, kind).Some? ==>
                  v == lib.parse(text, kind).value)
            && (kind in {Integer, Unsigned, Float, Boolean} && lib.parse(text, kind).None? ==> v == Str(text))
            && (kind in {String, List, Map, Struct, Interface, Unsupported} ==> v == Str(text))
            && DefaultValue(lib, text, Pointer(Plain(kind, name))) == v
  {
  }

  ghost predicate SaysRequired(parts: seq<string>) {
    exists j :: 2 <= j < |parts| && TrimSpace(parts[j]) == "required"
  }

  /** Part `j` is the last that gives a default, and it gives `text`. */
  ghost predicate SaysDefault(parts: seq<string>, j: nat, text: string) {
    && 2 <= j < |parts| && TrimSpace(parts[j]) == "default=" + text
    && forall i :: j < i < |parts| ==> !("default=" <= TrimSpace(parts[i]))
  }

  ghost predicate SaysNoDefault(parts: seq<string>) {
    forall j :: 2 <= j < |parts| ==> !("default=" <= TrimSpace(parts[j]))
  }

  /** What the scan of the parts from the third on finds. */
  lemma OptionsMeaning(parts: seq<string>, required: bool, default: Option<string>)
    requires (required, default) == if |parts| > 2 then Scan(parts[2..]) else (false, None)
    ensures required <==> SaysRequired(parts)
    ensures default.None? <==> SaysNoDefault(parts)
    ensures default.Some? ==> exists j: nat :: SaysDefault(parts, j, default.value)
  {
    hide TrimSpace, Scan;
    if |parts| > 2 {
      var options := parts[2..];
      ScanMeaning(options);
      assert forall j | 2 <= j < |parts| :: parts[j] == options[j - 2];
      assert forall j | 0 <= j < |options| :: options[j] == parts[j + 2];
      if j: nat :| LastDefault(options, j) && Scan(options).1.Some? &&
                   "default=" + Scan(options).1.value == TrimSpace(options[j]) {
        assert SaysDefault(parts, j + 2, Scan(options).1.value);
      }
    }
  }

  /** Any tag on any field: "-" skips the field, an unsupported type is an error; else the first part,
      or the lower-cased field name if that is empty or there is no tag, is the key, the second the
      description, and the parts from the third on say whether it is required and its default. */
  lemma AnyTag(lib: Library, f: Field)
    ensures var parsed, typ := ParseField(lib, f), SchemaType(f.typ);
            var parts := if f.tag == "" then [] else Split(f.tag, ',');
            var key := if f.tag != "" && parts[0] != "" then parts[0] else lib.lower(f.name);
            && (f.tag == "-" ==> parsed == Skipped)
            && (f.tag != "-" && typ == None ==> parsed == TypeError)
            && (f.tag != "-" && typ.Some? && key == "" ==> parsed == Skipped)
            && (f.tag != "-" && typ.Some? && key != "" ==>
                  && parsed.Parsed? && parsed.name == key && parsed.property.typ == typ.value
                  && parsed.property.description == (if |parts| > 1 then parts[1] else "")
                  && (parsed.required <==> SaysRequired(parts))
                  && (parsed.property.default.None? <==> SaysNoDefault(parts))
                  && (parsed.property.default.Some? ==> exists j: nat, text: string ::
                        SaysDefault(parts, j, text) &&
                        parsed.property.default == Some(DefaultValue(lib, text, f.typ))))
  {
    var parts := if f.tag == "" then [] else Split(f.tag, ',');
    var (required, default) := if |parts| > 2 then Scan(parts[2..]) else (false, None);
    OptionsMeaning(parts, required, default);
    hide TrimSpace, Scan, Split, SchemaType, DefaultValue, SaysRequired, SaysDefault, SaysNoDefault;
    var parsed := ParseField(lib, f);
    if parsed.Parsed? {
      assert parsed.property.default ==
             if default.Some? then Some(DefaultValue(lib, default.value, f.typ)) else None;
    }
  }
}

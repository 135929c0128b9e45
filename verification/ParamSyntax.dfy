// The names and references of the workflow format
// (backend/app/workflows/definition.py), read as its regular expressions read them.
module ParamSyntax {
  import opened Text
  import opened Wrappers

  // A JSON value: a string, the rendering of anything else, or null.
  datatype Value = Str(text: string) | Other(json: string) | Null

  // A parameter value, as `referenced_step` reads it.
  datatype Param = Reference(step: string) | Literal(value: Value)

  predicate NameChar(c: char) {
    'a' <= c <= 'z' || '0' <= c <= '9' || c == '_'
  }

  predicate Identifier(s: string) {
    s != "" && 'a' <= s[0] <= 'z' && forall i :: 0 <= i < |s| ==> NameChar(s[i])
  }

  // `^[a-z][a-z0-9_]*$`: the `$` also matches before a final newline.
  predicate NameMatches(s: string) {
    Identifier(s) || (s != "" && s[|s| - 1] == '\n' && Identifier(s[..|s| - 1]))
  }

  function NameEnd(s: string): (n: nat)
    ensures n <= |s|
    ensures forall i :: 0 <= i < n ==> NameChar(s[i])
    ensures n < |s| ==> !NameChar(s[n])
  {
    if s == "" || !NameChar(s[0]) then 0 else 1 + NameEnd(s[1..])
  }

  // The text after a required prefix.
  function After(s: string, prefix: string): Option<string> {
    if prefix <= s then Some(s[|prefix|..]) else None
  }

  // `$` also matches before a final newline.
  function Line(s: string): string {
    if s != "" && s[|s| - 1] == '\n' then s[..|s| - 1] else s
  }

  // `^\{\{\s*steps\.`
  function Prefix(s: string): Option<string> {
    var braced := After(Line(s), "{{");
    if braced.None? then None else After(LStrip(braced.value), "steps.")
  }

  // `([a-z][a-z0-9_]*)\.output\s*\}\}$`
  function NameAndSuffix(s: string): (r: Option<string>)
    ensures r.Some? ==> Identifier(r.value)
  {
    var name := s[..NameEnd(s)];
    var closed := After(s[|name|..], ".output");
    if Identifier(name) && closed.Some? && LStrip(closed.value) == "}}" then Some(name) else None
  }

  function ParseReference(s: string): (r: Option<string>)
    ensures r.Some? ==> Identifier(r.value)
  {
    if Prefix(s).None? then None else NameAndSuffix(Prefix(s).value)
  }

  const SUFFIX := ".output" + (" " + "}}")

  // `reference_to`
  function ReferenceTo(id: string): string {
    "{{" + (" " + ("steps." + (id + SUFFIX)))
  }

  // `referenced_step`: only a string that is entirely a reference is one.
  function ReadParam(value: Value): (p: Param)
    ensures p.Reference? ==> Identifier(p.step) && value.Str?
    ensures p.Literal? ==> p.value == value
  {
    if value.Str? && ParseReference(value.text).Some? then Reference(ParseReference(value.text).value)
    else Literal(value)
  }

  lemma {:induction false} NameEndOf(id: string, rest: string)
    requires (forall i :: 0 <= i < |id| ==> NameChar(id[i])) && (rest == "" || !NameChar(rest[0]))
    ensures NameEnd(id + rest) == |id|
  {
    if id == "" {
      assert id + rest == rest;
    } else {
      assert (id + rest)[1..] == id[1..] + rest;
      NameEndOf(id[1..], rest);
    }
  }

  lemma AfterOf(prefix: string, rest: string)
    ensures After(prefix + rest, prefix) == Some(rest)
  {
    assert (prefix + rest)[|prefix|..] == rest;
  }

  lemma LStripOne(c: char, rest: string)
    requires IsSpace(c) && rest != "" && !IsSpace(rest[0])
    ensures LStrip([c] + rest) == rest
  {
    assert ([c] + rest)[1..] == rest;
  }

  lemma LineOf(a: string, b: string)
    requires b != "" && b[|b| - 1] != '\n'
    ensures Line(a + b) == a + b
  {
  }

  lemma SuffixEnds()
    ensures SUFFIX != "" && SUFFIX[|SUFFIX| - 1] == '}'
    ensures SUFFIX[0] == '.'
  {
  }

  lemma PrefixOf(dotted: string)
    requires dotted != "" && dotted[|dotted| - 1] != '\n'
    ensures Prefix("{{" + (" " + ("steps." + dotted))) == Some(dotted)
  {
    var steps := "steps." + dotted;
    var spaced := " " + steps;
    LineOf("{{", spaced);
    AfterOf("{{", spaced);
    LStripOne(' ', steps);
    AfterOf("steps.", dotted);
  }

  lemma SuffixOf(id: string)
    requires Identifier(id)
    ensures NameAndSuffix(id + SUFFIX) == Some(id)
  {
    SuffixEnds();
    NameEndOf(id, SUFFIX);
    assert (id + SUFFIX)[..|id|] == id && (id + SUFFIX)[|id|..] == SUFFIX;
    AfterOf(".output", " " + "}}");
    LStripOne(' ', "}}");
  }

  lemma SuffixOfOther(name: string, rest: string)
    requires Identifier(name) && rest != "" && !NameChar(rest[0]) && rest[0] != '.'
    ensures NameAndSuffix(name + rest) == None
  {
    NameEndOf(name, rest);
    assert (name + rest)[..|name|] == name && (name + rest)[|name|..] == rest;
    assert ".output"[0] == '.';
  }

  lemma ParsesTo(id: string)
    ensures ParseReference(ReferenceTo(id)) == NameAndSuffix(id + SUFFIX)
  {
    SuffixEnds();
    assert (id + SUFFIX)[|id + SUFFIX| - 1] == SUFFIX[|SUFFIX| - 1];
    PrefixOf(id + SUFFIX);
  }

  lemma NewlineEndsName(name: string, suffix: string)
    requires Identifier(name)
    ensures NameAndSuffix((name + "\n") + suffix) == None
  {
    SuffixOfOther(name, "\n" + suffix);
    assert (name + "\n") + suffix == name + ("\n" + suffix);
  }

  lemma IdentifierReadBack(id: string)
    requires Identifier(id)
    ensures ParseReference(ReferenceTo(id)) == Some(id)
  {
    ParsesTo(id);
    SuffixOf(id);
  }

  lemma NewlineNotReadBack(name: string)
    requires Identifier(name)
    ensures ParseReference(ReferenceTo(name + "\n")) == None
  {
    ParsesTo(name + "\n");
    NewlineEndsName(name, SUFFIX);
  }

  // The ids that the name pattern lets through: an identifier, or one and a newline.
  function Named(name: string, newline: bool): string {
    if newline then name + "\n" else name
  }

  lemma NamesThatMatch(id: string)
    ensures NameMatches(id) <==> exists name, newline :: Identifier(name) && id == Named(name, newline)
  {
    if NameMatches(id) {
      if Identifier(id) {
        assert id == Named(id, false);
      } else {
        assert id == Named(id[..|id| - 1], true);
      }
    }
    if name, newline :| Identifier(name) && id == Named(name, newline) {
      assert newline ==> id[..|id| - 1] == name;
    }
  }

  // A reference to such an id is read back as that id exactly without the newline.
  lemma ReferenceRoundTrip(name: string, newline: bool)
    requires Identifier(name)
    ensures ParseReference(ReferenceTo(Named(name, newline))) == Some(Named(name, newline)) <==> !newline
  {
    if newline {
      NewlineNotReadBack(name);
    } else {
      IdentifierReadBack(name);
    }
  }

  // -- the pattern itself -------------------------------------------------

  // What `^\{\{\s*steps\.([a-z][a-z0-9_]*)\.output\s*\}\}$` matches with `id` as its group.
  ghost predicate HasForm(s: string, id: string, before: string, after: string, newline: bool) {
    && Identifier(id) && AllSpace(before) && AllSpace(after)
    && s == Named("{{" + (before + ("steps." + (id + (".output" + (after + "}}"))))), newline)
  }

  lemma {:induction false} LStripOf(space: string, rest: string)
    requires AllSpace(space) && rest != "" && !IsSpace(rest[0])
    ensures LStrip(space + rest) == rest
  {
    if space == "" {
      assert space + rest == rest;
    } else {
      assert (space + rest)[1..] == space[1..] + rest;
      LStripOf(space[1..], rest);
    }
  }

  lemma {:induction false} DroppedIsSpace(s: string, i: nat)
    requires i < |s| - |LStrip(s)|
    ensures IsSpace(s[i])
  {
    if i > 0 {
      DroppedIsSpace(s[1..], i - 1);
    }
  }

  lemma Stripped(s: string) returns (space: string)
    ensures AllSpace(space) && s == space + LStrip(s)
  {
    space := s[..|s| - |LStrip(s)|];
    forall i | 0 <= i < |space|
      ensures IsSpace(space[i])
    {
      DroppedIsSpace(s, i);
    }
  }

  lemma AfterIs(s: string, prefix: string)
    requires After(s, prefix).Some?
    ensures s == prefix + After(s, prefix).value
  {
  }

  lemma LineOfNamed(s: string, newline: bool)
    requires s != "" && s[|s| - 1] != '\n'
    ensures Line(Named(s, newline)) == s
  {
  }

  lemma LineIsNamed(s: string)
    ensures s == Named(Line(s), s != "" && s[|s| - 1] == '\n')
  {
  }

  lemma SuffixReads(id: string, after: string)
    requires Identifier(id) && AllSpace(after)
    ensures NameAndSuffix(id + (".output" + (after + "}}"))) == Some(id)
  {
    var rest := ".output" + (after + "}}");
    assert rest[0] == '.';
    NameEndOf(id, rest);
    assert (id + rest)[..|id|] == id && (id + rest)[|id|..] == rest;
    AfterOf(".output", after + "}}");
    LStripOf(after, "}}");
  }

  lemma SuffixParts(s: string) returns (closed: string)
    requires NameAndSuffix(s).Some?
    ensures s == NameAndSuffix(s).value + (".output" + closed) && LStrip(closed) == "}}"
  {
    var name := s[..NameEnd(s)];
    closed := After(s[|name|..], ".output").value;
    AfterIs(s[|name|..], ".output");
    assert s == name + s[|name|..];
  }

  lemma SuffixRead(s: string) returns (after: string)
    requires NameAndSuffix(s).Some?
    ensures AllSpace(after) && s == NameAndSuffix(s).value + (".output" + (after + "}}"))
  {
    var closed := SuffixParts(s);
    after := Stripped(closed);
  }

  lemma PrefixReads(before: string, dotted: string, newline: bool)
    requires AllSpace(before) && dotted != "" && dotted[|dotted| - 1] != '\n'
    ensures Prefix(Named("{{" + (before + ("steps." + dotted)), newline)) == Some(dotted)
  {
    var steps := "steps." + dotted;
    var spaced := before + steps;
    assert ("{{" + spaced)[|"{{" + spaced| - 1] == dotted[|dotted| - 1];
    LineOfNamed("{{" + spaced, newline);
    AfterOf("{{", spaced);
    assert steps[0] == 's';
    LStripOf(before, steps);
    AfterOf("steps.", dotted);
  }

  lemma PrefixRead(s: string) returns (before: string, newline: bool)
    requires Prefix(s).Some?
    ensures AllSpace(before) && s == Named("{{" + (before + ("steps." + Prefix(s).value)), newline)
  {
    newline := s != "" && s[|s| - 1] == '\n';
    LineIsNamed(s);
    var braced := After(Line(s), "{{").value;
    AfterIs(Line(s), "{{");
    AfterIs(LStrip(braced), "steps.");
    before := Stripped(braced);
  }

  // Reading a reference step by step finds exactly what the pattern matches.
  lemma ParsesExactlyTheForm(s: string, id: string)
    ensures ParseReference(s) == Some(id) <==>
              exists before, after, newline :: HasForm(s, id, before, after, newline)
  {
    if ParseReference(s) == Some(id) {
      var before, newline := PrefixRead(s);
      var after := SuffixRead(Prefix(s).value);
      assert HasForm(s, id, before, after, newline);
    }
    if before, after, newline :| HasForm(s, id, before, after, newline) {
      FormParses(s, id, before, after, newline);
    }
  }

  // A parameter is a reference exactly if it is a string of that form, and then to that name.
  lemma ReadsExactlyTheForm(value: Value, id: string)
    ensures ReadParam(value) == Reference(id) <==>
              value.Str? && exists before, after, newline :: HasForm(value.text, id, before, after, newline)
    ensures ReadParam(value).Literal? ==> ReadParam(value).value == value
  {
    if value.Str? {
      ParsesExactlyTheForm(value.text, id);
    }
  }

  lemma FormParses(s: string, id: string, before: string, after: string, newline: bool)
    requires HasForm(s, id, before, after, newline)
    ensures ParseReference(s) == Some(id)
  {
    var dotted := id + (".output" + (after + "}}"));
    assert dotted[|dotted| - 1] == '}';
    PrefixReads(before, dotted, newline);
    SuffixReads(id, after);
  }
}

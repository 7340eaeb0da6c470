/** deb822 stanzas: one `Key: value` line per field, and the parser that
    reads such a stanza back. */
module Deb822 {
  import opened Wrappers
  import opened Strings

  datatype Field = Field(key: string, value: string)

  function FieldLine(f: Field): string {
    f.key + ": " + f.value
  }

  function FieldLines(fs: seq<Field>): (ls: seq<string>)
    ensures |ls| == |fs|
    ensures forall i :: 0 <= i < |fs| ==> ls[i] == FieldLine(fs[i])
  {
    if fs == [] then [] else [FieldLine(fs[0])] + FieldLines(fs[1..])
  }

  /** The text of a stanza. */
  function Render(fs: seq<Field>): string {
    Unlines(FieldLines(fs))
  }

  /** A line `key: value` with the key running up to its first colon. */
  function ParseField(line: string): (r: Option<Field>)
    ensures r.Some? ==> FieldLine(r.value) == line && ':' !in r.value.key
  {
    var i := IndexOf(line, ':');
    if i + 2 <= |line| && line[i + 1] == ' ' then
      assert line == line[..i] + ": " + line[i + 2..];
      Some(Field(line[..i], line[i + 2..]))
    else None
  }

  function ParseFields(ls: seq<string>): (r: Option<seq<Field>>)
    ensures r.Some? ==> |r.value| == |ls|
  {
    if ls == [] then Some([])
    else match (ParseField(ls[0]), ParseFields(ls[1..]))
      case (Some(f), Some(fs)) => Some([f] + fs)
      case _ => None
  }

  /** Reads a stanza: newline-terminated lines, each a field. */
  function Parse(text: string): Option<seq<Field>> {
    var ls := Split(text, '\n');
    if ls[|ls| - 1] != "" then None else ParseFields(ls[..|ls| - 1])
  }

  /** The value of the first field named `key`. */
  function Lookup(fs: seq<Field>, key: string): (r: Option<string>)
    ensures r.Some? <==> exists i :: 0 <= i < |fs| && fs[i].key == key
  {
    if fs == [] then None
    else if fs[0].key == key then Some(fs[0].value)
    else
      var r := Lookup(fs[1..], key);
      assert forall i :: 1 <= i < |fs| ==> fs[i] == fs[1..][i - 1];
      r
  }

  /** A field is writable when its key holds no colon and neither part holds a newline. */
  predicate Writable(f: Field) {
    ':' !in f.key && '\n' !in f.key && '\n' !in f.value
  }

  lemma ParseFieldLine(f: Field)
    requires ':' !in f.key
    ensures ParseField(FieldLine(f)) == Some(f)
  {
    IndexOfPrefix(f.key, ':', " " + f.value);
    assert FieldLine(f) == f.key + [':'] + (" " + f.value);
    var line := FieldLine(f);
    assert line[..|f.key|] == f.key;
    assert line[|f.key| + 2..] == f.value;
  }

  lemma {:induction false} ParseFieldLines(fs: seq<Field>)
    requires forall i :: 0 <= i < |fs| ==> ':' !in fs[i].key
    ensures ParseFields(FieldLines(fs)) == Some(fs)
    decreases |fs|
  {
    if fs != [] {
      ParseFieldLine(fs[0]);
      ParseFieldLines(fs[1..]);
      assert FieldLines(fs)[1..] == FieldLines(fs[1..]);
      assert [fs[0]] + fs[1..] == fs;
    }
  }

  /** Reading a rendered stanza gives back exactly its fields, in order. */
  lemma RenderParse(fs: seq<Field>)
    requires forall i :: 0 <= i < |fs| ==> Writable(fs[i])
    ensures Parse(Render(fs)) == Some(fs)
  {
    var ls := FieldLines(fs);
    UnlinesIsJoin(ls);
    forall i | 0 <= i < |ls + [""]|
      ensures '\n' !in (ls + [""])[i]
    {
      if i < |ls| {
        assert ls[i] == fs[i].key + ": " + fs[i].value;
      }
    }
    SplitJoin(ls + [""], '\n');
    assert (ls + [""])[..|ls|] == ls;
    ParseFieldLines(fs);
  }

  lemma {:induction false} LookupAppend(a: seq<Field>, b: seq<Field>, key: string)
    ensures Lookup(a + b, key) == if Lookup(a, key).Some? then Lookup(a, key) else Lookup(b, key)
    decreases |a|
  {
    if a == [] {
      assert a + b == b;
    } else {
      assert (a + b)[1..] == a[1..] + b;
      LookupAppend(a[1..], b, key);
    }
  }

  lemma LookupCons(f: Field, rest: seq<Field>, key: string)
    ensures Lookup([f] + rest, key) == if f.key == key then Some(f.value) else Lookup(rest, key)
  {
    assert ([f] + rest)[1..] == rest;
  }

  /** The field a lookup finds stands in the text as a `key: value` line. */
  lemma {:induction false} LookupRendered(fs: seq<Field>, key: string)
    requires Lookup(fs, key).Some?
    ensures Contains(Render(fs), FieldLine(Field(key, Lookup(fs, key).value)) + "\n")
    decreases |fs|
  {
    var line := FieldLine(fs[0]) + "\n";
    assert FieldLines(fs) == [FieldLine(fs[0])] + FieldLines(fs[1..]);
    assert Render(fs) == FieldLine(fs[0]) + "\n" + Render(fs[1..]);
    if fs[0].key == key {
      ContainsInfix("", line, Render(fs[1..]));
      assert "" + line + Render(fs[1..]) == Render(fs);
    } else {
      LookupRendered(fs[1..], key);
      ContainsAfter(line, Render(fs[1..]), FieldLine(Field(key, Lookup(fs, key).value)) + "\n");
    }
  }
}

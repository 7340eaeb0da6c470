/** Properties of the `apt::source` model: its errors, the shape of the
    legacy lines, the option table, and the deb822 stanza read back. */
module AptSourceProperties {
  import opened Wrappers
  import opened Strings
  import opened AptSource
  import Deb822

  /** The errors, each under the conditions that raise it. */
  lemma DeclareErrors(p: Params, facts: Facts)
    ensures p.pin.PinFlag? ==> Declare(p, facts) == Failure(InvalidPin)
    ensures !p.pin.PinFlag? && ParseFormat(p.sourceFormat).Some? && p.ensure == Present && !HasLocation(p)
      ==> Declare(p, facts) == Failure(MissingLocation)
    ensures !p.pin.PinFlag? && ParseFormat(p.sourceFormat).Some? && p.ensure == Present && HasLocation(p)
      && p.release.None? && facts.codename.None?
      ==> Declare(p, facts) == Failure(MissingRelease("os.distro.codename"))
  {
  }

  /** Each message holds the words the define's callers match on. */
  lemma ErrorMessages()
    ensures Contains(Message(MissingLocation), "source entry without specifying a location")
    ensures Contains(Message(MissingRelease(CodenameFact)), CodenameFact + " fact not available: release parameter required")
    ensures Contains(Message(InvalidPin), "expects a value")
  {
    ContainsInfix("cannot create a ", "source entry without specifying a location", "");
    assert "cannot create a " + "source entry without specifying a location" + "" == Message(MissingLocation);
    ContainsInfix("", Message(MissingRelease(CodenameFact)), "");
    assert "" + Message(MissingRelease(CodenameFact)) + "" == Message(MissingRelease(CodenameFact));
    ContainsInfix("parameter 'pin' ", "expects a value", " of type Undef, Hash, Numeric, or String, got Boolean");
  }

  lemma LineTail(location: string, release: string, components: string)
    ensures Join([location, release] + (if components == "" then [] else [components]), " ")
      == location + " " + release + (if components == "" then "" else " " + components)
  {
    if components == "" {
      assert [location, release] + [] == [location] + [release];
      JoinCons(location, [release], " ");
    } else {
      assert [location, release] + [components] == [location] + ([release] + [components]);
      JoinCons(location, [release] + [components], " ");
      JoinCons(release, [components], " ");
    }
  }

  /** What follows the type in a legacy line: option clause (or nothing),
      location, release verbatim, and the components only when there are any. */
  function EntryTail(t: seq<SourceOption>, location: string, release: string, components: string): string {
    OptionClause(t) + location + " " + release + (if components == "" then "" else " " + components)
  }

  lemma PrefixedTail(x: string, location: string, release: string, more: string)
    ensures x + (location + " " + release + more) == x + location + " " + release + more
  {
  }

  /** The legacy line written out: the type, a space, then the tail. */
  lemma EntryShape(kind: string, t: seq<SourceOption>, location: string, release: string, components: string)
    ensures Entry(kind, t, location, release, components) == kind + " " + EntryTail(t, location, release, components)
  {
    var more := if components == "" then "" else " " + components;
    var cs := if components == "" then [] else [components];
    var rest := [location, release] + cs;
    var line := location + " " + release + more;
    LineTail(location, release, components);
    assert Join(rest, " ") == line;
    var words := OptionWords(t) + rest;
    assert [kind] + OptionWords(t) + [location, release] + cs == [kind] + words;
    JoinCons(kind, words, " ");
    if t == [] {
      assert words == rest;
      PrefixedTail("", location, release, more);
    } else {
      var w := "[" + Join(LegacyTokens(t), " ") + "]";
      assert words == [w] + rest;
      JoinCons(w, rest, " ");
      assert OptionClause(t) == w + " ";
      PrefixedTail(w + " ", location, release, more);
    }
  }

  /** What follows the type in every legacy line of `p`. */
  function LegacyTail(p: Params, release: Text): string
    requires p.location.Some?
  {
    var rel := Flat(release);
    EntryTail(OptionTable(p), Flat(p.location.value), rel, LegacyComponents(p, rel))
  }

  /** The lines for a comment and the `deb`/`deb-src` choice, each entry
      its type followed by the same tail. */
  lemma EntryLinesChosen(c: string, deb: bool, src: bool, t: seq<SourceOption>, location: string, release: string, components: string)
    ensures var tail := EntryTail(t, location, release, components);
      [c] + EntryLines((if deb then ["deb"] else []) + (if src then ["deb-src"] else []), t, location, release, components)
        == [c] + (if deb then ["deb " + tail] else []) + (if src then ["deb-src " + tail] else [])
  {
    var tail := EntryTail(t, location, release, components);
    EntryShape("deb", t, location, release, components);
    EntryShape("deb-src", t, location, release, components);
    assert "deb" + " " == "deb " && "deb-src" + " " == "deb-src ";
    var kinds := (if deb then ["deb"] else []) + (if src then ["deb-src"] else []);
    var es := EntryLines(kinds, t, location, release, components);
    if deb && src {
      assert kinds == ["deb", "deb-src"];
      assert es == ["deb " + tail, "deb-src " + tail];
    } else if deb {
      assert kinds == ["deb"];
      assert es == ["deb " + tail];
    } else if src {
      assert kinds == ["deb-src"];
      assert es == ["deb-src " + tail];
    } else {
      assert kinds == [];
      assert es == [];
    }
  }

  /** The legacy lines spelled out: the comment once, first; then a `deb`
      line when `include.deb` holds and a `deb-src` line when `include.src`
      holds, each the type followed by the same tail. */
  lemma LegacyLinesSpelledOut(p: Params, release: Text)
    requires p.location.Some?
    ensures var tail := LegacyTail(p, release);
      LegacyLines(p, release)
        == ["# " + Comment(p)]
           + (if IncludeDeb(p) then ["deb " + tail] else [])
           + (if IncludeSrc(p) then ["deb-src " + tail] else [])
  {
    var rel := Flat(release);
    var t := OptionTable(p);
    var loc := Flat(p.location.value);
    var comps := LegacyComponents(p, rel);
    EntryLinesChosen("# " + Comment(p), IncludeDeb(p), IncludeSrc(p), t, loc, rel, comps);
  }

  /** The first word of a `deb` or `deb-src` line is its type. */
  lemma TypeWord(kind: string, tail: string)
    requires kind == "deb" || kind == "deb-src"
    ensures TakeToken(kind + " " + tail) == kind
  {
    assert kind + " " + tail == kind + (" " + tail);
    TakeTokenOf(kind, " " + tail);
  }

  lemma ChosenTypes(c: string, deb: bool, src: bool, tail: string)
    ensures var kinds := (if deb then ["deb"] else []) + (if src then ["deb-src"] else []);
      var ls := [c] + (if deb then ["deb " + tail] else []) + (if src then ["deb-src " + tail] else []);
      |ls| == 1 + |kinds| && forall i :: 0 <= i < |kinds| ==> TakeToken(ls[i + 1]) == kinds[i]
  {
    TypeWord("deb", tail);
    TypeWord("deb-src", tail);
    assert "deb" + " " == "deb " && "deb-src" + " " == "deb-src ";
  }

  /** The first word of each legacy line after the comment is its type. */
  lemma LegacyLineTypes(p: Params, release: Text)
    requires p.location.Some?
    ensures |LegacyLines(p, release)| == 1 + |DefaultTypes(p)|
    ensures forall i :: 0 <= i < |DefaultTypes(p)| ==> TakeToken(LegacyLines(p, release)[i + 1]) == DefaultTypes(p)[i]
  {
    LegacyLinesSpelledOut(p, release);
    ChosenTypes("# " + Comment(p), IncludeDeb(p), IncludeSrc(p), LegacyTail(p, release));
  }

  lemma UnlinesCons(a: string, ls: seq<string>)
    ensures Unlines([a] + ls) == a + "\n" + Unlines(ls)
  {
    assert ([a] + ls)[1..] == ls;
  }

  lemma UnlinesOptional(c: string, x: string, y: string, useX: bool, useY: bool)
    ensures Unlines([c] + (if useX then [x] else []) + (if useY then [y] else []))
      == c + "\n" + (if useX then x + "\n" else "") + (if useY then y + "\n" else "")
  {
    var xs := if useX then [x] else [];
    var ys := if useY then [y] else [];
    assert [c] + xs + ys == [c] + (xs + ys);
    UnlinesCons(c, xs + ys);
    UnlinesCons(y, []);
    if useX {
      assert xs + ys == [x] + ys;
      UnlinesCons(x, ys);
    } else {
      assert xs + ys == ys;
    }
  }

  /** The whole legacy content: the comment line, then a `deb` line when
      `include.deb` holds, then a `deb-src` line when `include.src` holds,
      every line ending in a newline. */
  lemma LegacyContent(p: Params, release: Text)
    requires p.location.Some?
    ensures var tail := LegacyTail(p, release);
      Content(List, p, release)
        == "# " + Comment(p) + "\n"
           + (if IncludeDeb(p) then "deb " + tail + "\n" else "")
           + (if IncludeSrc(p) then "deb-src " + tail + "\n" else "")
  {
    var tail := LegacyTail(p, release);
    LegacyLinesSpelledOut(p, release);
    UnlinesOptional("# " + Comment(p), "deb " + tail, "deb-src " + tail, IncludeDeb(p), IncludeSrc(p));
  }

  lemma SelectCons(p: Params, c: SourceOption, cs: seq<SourceOption>)
    ensures Select(p, [c] + cs) == (if Active(p, c) then [c] else []) + Select(p, cs)
  {
    assert ([c] + cs)[1..] == cs;
  }

  /** The option table spelled out: each option, in the fixed order, when its parameter asks for it. */
  lemma OptionTableSpelledOut(p: Params)
    ensures OptionTable(p)
      == (if ArchValues(p) != [] then [Arch(ArchValues(p))] else [])
       + ((if p.allowUnsigned == Some(true) then [Trusted] else [])
       + ((if p.checkValidUntil == Some(false) then [CheckValidUntilFalse] else [])
       + ((if p.allowInsecure == Some(true) then [AllowInsecure] else [])
       + ((if p.keyring.Some? then [SignedBy(p.keyring.value)] else []) + []))))
  {
    var c0, c1, c2, c3, c4 := Arch(ArchValues(p)), Trusted, CheckValidUntilFalse, AllowInsecure, SignedBy(GetOr(p.keyring, ""));
    assert Candidates(p) == [c0] + ([c1] + ([c2] + ([c3] + ([c4] + []))));
    assert p.keyring.Some? ==> c4 == SignedBy(p.keyring.value);
    SelectCons(p, c4, []);
    SelectCons(p, c3, [c4] + []);
    SelectCons(p, c2, [c3] + ([c4] + []));
    SelectCons(p, c1, [c2] + ([c3] + ([c4] + [])));
    SelectCons(p, c0, [c1] + ([c2] + ([c3] + ([c4] + []))));
  }

  /** Selection depends only on which options are active. */
  lemma {:induction false} SelectSameActive(p: Params, q: Params, cs: seq<SourceOption>)
    requires forall i :: 0 <= i < |cs| ==> Active(p, cs[i]) == Active(q, cs[i])
    ensures Select(p, cs) == Select(q, cs)
    decreases |cs|
  {
    if cs != [] {
      SelectSameActive(p, q, cs[1..]);
    }
  }

  /** `check_valid_until => true` selects the same options as leaving it unset. */
  lemma CheckValidUntilTrueTable(p: Params)
    ensures OptionTable(p.(checkValidUntil := Some(true))) == OptionTable(p.(checkValidUntil := None))
  {
    var p1 := p.(checkValidUntil := Some(true));
    var p2 := p.(checkValidUntil := None);
    assert Candidates(p1) == Candidates(p2);
    SelectSameActive(p1, p2, Candidates(p1));
  }

  /** ... hence the same content, in either format. */
  lemma CheckValidUntilTrueContent(p: Params, f: Format, release: Text)
    requires p.location.Some?
    ensures Content(f, p.(checkValidUntil := Some(true)), release) == Content(f, p.(checkValidUntil := None), release)
  {
    var p1 := p.(checkValidUntil := Some(true));
    var p2 := p.(checkValidUntil := None);
    CheckValidUntilTrueTable(p);
    assert Comment(p1) == Comment(p2) && DefaultTypes(p1) == DefaultTypes(p2) && Types(p1) == Types(p2) && Repos(p1) == Repos(p2);
    match f
    case List =>
      assert LegacyLines(p1, release) == LegacyLines(p2, release);
    case Sources =>
      assert StanzaFields(p1, release) == StanzaFields(p2, release);
  }

  /** `check_valid_until => true` renders exactly as leaving it unset. */
  lemma CheckValidUntilTrueIsDefault(p: Params, facts: Facts)
    ensures Declare(p.(checkValidUntil := Some(true)), facts) == Declare(p.(checkValidUntil := None), facts)
  {
    var p1 := p.(checkValidUntil := Some(true));
    var p2 := p.(checkValidUntil := None);
    if Declare(p1, facts).Success? && p.ensure == Present {
      CheckValidUntilTrueContent(p, ParseFormat(p.sourceFormat).value, ResolveRelease(p, facts).value);
    }
  }

  /** The `architecture` fact never stands in for the parameter. */
  lemma ArchitectureFactUnused(p: Params, facts: Facts, arch: Option<string>)
    ensures Declare(p, facts.(architecture := arch)) == Declare(p, facts)
  {
  }

  lemma {:induction false} LookupOptionField(t: seq<SourceOption>, o: SourceOption)
    requires RankOrdered(t) && o in t && FieldOf(o).Some?
    ensures Deb822.Lookup(OptionFields(t), FieldOf(o).value.key) == Some(FieldOf(o).value.value)
    decreases |t|
  {
    if t[0] != o {
      assert o in t[1..];
      var j :| 0 <= j < |t[1..]| && t[1..][j] == o;
      assert t[j + 1] == o;
      assert Rank(t[0]) < Rank(o);
      LookupOptionField(t[1..], o);
    }
  }

  /** The deb822 key of the option of each rank (rank 3, `allow-insecure`, has no field). */
  function KeyOfRank(r: nat): string
    requires r in {0, 1, 2, 4}
  {
    if r == 0 then "Architectures"
    else if r == 1 then "Trusted"
    else if r == 2 then "Check-Valid-Until"
    else "Signed-By"
  }

  lemma FieldKey(o: SourceOption, r: nat)
    requires FieldOf(o).Some? && r in {0, 1, 2, 4}
    ensures FieldOf(o).value.key == KeyOfRank(r) <==> Rank(o) == r
  {
  }

  lemma {:induction false} LookupOptionFieldAbsent(t: seq<SourceOption>, r: nat)
    requires r in {0, 1, 2, 4}
    requires forall i :: 0 <= i < |t| ==> Rank(t[i]) != r
    ensures Deb822.Lookup(OptionFields(t), KeyOfRank(r)) == None
    decreases |t|
  {
    if t != [] {
      if FieldOf(t[0]).Some? {
        FieldKey(t[0], r);
      }
      LookupOptionFieldAbsent(t[1..], r);
    }
  }

  lemma OptionKeysWritable()
    ensures ':' !in "Architectures" && '\n' !in "Architectures"
    ensures ':' !in "Trusted" && '\n' !in "Trusted"
    ensures ':' !in "Check-Valid-Until" && '\n' !in "Check-Valid-Until"
    ensures ':' !in "Signed-By" && '\n' !in "Signed-By"
  {
  }

  lemma FieldOfWritable(o: SourceOption)
    requires FieldOf(o).Some? && '\n' !in FieldOf(o).value.value
    ensures Deb822.Writable(FieldOf(o).value)
  {
    OptionKeysWritable();
  }

  lemma {:induction false} OptionFieldsWritable(t: seq<SourceOption>)
    requires forall i :: 0 <= i < |OptionFields(t)| ==> '\n' !in OptionFields(t)[i].value
    ensures forall i :: 0 <= i < |OptionFields(t)| ==> Deb822.Writable(OptionFields(t)[i])
    decreases |t|
  {
    if t != [] {
      if FieldOf(t[0]).Some? {
        assert OptionFields(t) == [FieldOf(t[0]).value] + OptionFields(t[1..]);
        assert OptionFields(t)[0] == FieldOf(t[0]).value;
        FieldOfWritable(t[0]);
        assert forall i :: 0 <= i < |OptionFields(t[1..])| ==> OptionFields(t[1..])[i] == OptionFields(t)[i + 1];
      } else {
        assert OptionFields(t) == OptionFields(t[1..]);
      }
      OptionFieldsWritable(t[1..]);
    }
  }

  /** No field value of the stanza holds a line break. */
  predicate SingleLineValues(p: Params, release: Text)
    requires p.location.Some?
  {
    forall i :: 0 <= i < |StanzaFields(p, release)| ==> '\n' !in StanzaFields(p, release)[i].value
  }

  lemma HeadKeysWritable()
    ensures ':' !in "Enabled" && ':' !in "Types" && ':' !in "URIs" && ':' !in "Suites" && ':' !in "Components"
    ensures '\n' !in "Enabled" && '\n' !in "Types" && '\n' !in "URIs" && '\n' !in "Suites" && '\n' !in "Components"
  {
  }

  lemma HeadWritable(types: string, uris: string, suites: string, components: string)
    requires forall i :: 0 <= i < |StanzaHead(types, uris, suites, components)| ==> '\n' !in StanzaHead(types, uris, suites, components)[i].value
    ensures forall i :: 0 <= i < |StanzaHead(types, uris, suites, components)| ==> Deb822.Writable(StanzaHead(types, uris, suites, components)[i])
  {
    HeadKeysWritable();
  }

  /** Reading the rendered stanza back gives exactly its fields, in order. */
  lemma StanzaReadBack(p: Params, release: Text)
    requires p.location.Some? && SingleLineValues(p, release)
    ensures Deb822.Parse(Content(Sources, p, release)) == Some(StanzaFields(p, release))
  {
    var fs := StanzaFields(p, release);
    var head := StanzaHead(Join(Types(p), " "), Flat(p.location.value), Flat(release), Flat(Repos(p)));
    var opts := OptionFields(OptionTable(p));
    forall i | 0 <= i < |head| ensures '\n' !in head[i].value {
      assert head[i] == fs[i];
    }
    HeadWritable(Join(Types(p), " "), Flat(p.location.value), Flat(release), Flat(Repos(p)));
    forall i | 0 <= i < |opts| ensures '\n' !in opts[i].value {
      assert opts[i] == fs[|head| + i];
    }
    OptionFieldsWritable(OptionTable(p));
    forall i | 0 <= i < |fs| ensures Deb822.Writable(fs[i]) {
      if i < |head| {
        assert fs[i] == head[i];
      } else {
        assert fs[i] == opts[i - |head|];
      }
    }
    Deb822.RenderParse(fs);
  }

  /** A key that names no option field is not found among them. */
  lemma {:induction false} LookupOptionFieldsOther(t: seq<SourceOption>, key: string)
    requires key != "Architectures" && key != "Trusted" && key != "Check-Valid-Until" && key != "Signed-By"
    ensures Deb822.Lookup(OptionFields(t), key) == None
    decreases |t|
  {
    if t != [] {
      LookupOptionFieldsOther(t[1..], key);
    }
  }

  /** The head fields, looked up by name. */
  lemma HeadLookups(types: string, uris: string, suites: string, components: string)
    ensures var head := StanzaHead(types, uris, suites, components);
      && Deb822.Lookup(head, "Enabled") == Some("yes")
      && Deb822.Lookup(head, "Types") == Some(types)
      && Deb822.Lookup(head, "URIs") == Some(uris)
      && Deb822.Lookup(head, "Suites") == Some(suites)
      && Deb822.Lookup(head, "Components") == (if components == "" then None else Some(components))
  {
    var comps := if components == "" then [] else [Deb822.Field("Components", components)];
    var fs := [Deb822.Field("Enabled", "yes"), Deb822.Field("Types", types), Deb822.Field("URIs", uris), Deb822.Field("Suites", suites)];
    LookupFour(fs, comps, "Enabled");
    LookupFour(fs, comps, "Types");
    LookupFour(fs, comps, "URIs");
    LookupFour(fs, comps, "Suites");
    LookupFour(fs, comps, "Components");
    if components != "" {
      Deb822.LookupCons(comps[0], [], "Components");
    }
  }

  lemma LookupFour(fs: seq<Deb822.Field>, rest: seq<Deb822.Field>, key: string)
    requires |fs| == 4
    ensures Deb822.Lookup(fs + rest, key)
      == if fs[0].key == key then Some(fs[0].value)
         else if fs[1].key == key then Some(fs[1].value)
         else if fs[2].key == key then Some(fs[2].value)
         else if fs[3].key == key then Some(fs[3].value)
         else Deb822.Lookup(rest, key)
  {
    assert fs + rest == [fs[0]] + ([fs[1]] + ([fs[2]] + ([fs[3]] + rest)));
    Deb822.LookupCons(fs[3], rest, key);
    Deb822.LookupCons(fs[2], [fs[3]] + rest, key);
    Deb822.LookupCons(fs[1], [fs[2]] + ([fs[3]] + rest), key);
    Deb822.LookupCons(fs[0], [fs[1]] + ([fs[2]] + ([fs[3]] + rest)), key);
  }

  /** The head holds no option field. */
  lemma HeadLacksOption(types: string, uris: string, suites: string, components: string, r: nat)
    requires r in {0, 1, 2, 4}
    ensures Deb822.Lookup(StanzaHead(types, uris, suites, components), KeyOfRank(r)) == None
  {
  }

  /** The head fields of the stanza, looked up by name. */
  lemma StanzaHeadLookups(p: Params, release: Text)
    requires p.location.Some?
    ensures var fs := StanzaFields(p, release);
      && Deb822.Lookup(fs, "Enabled") == Some("yes")
      && Deb822.Lookup(fs, "Types") == Some(Join(Types(p), " "))
      && Deb822.Lookup(fs, "URIs") == Some(Flat(p.location.value))
      && Deb822.Lookup(fs, "Suites") == Some(Flat(release))
      && Deb822.Lookup(fs, "Components") == (if Flat(Repos(p)) == "" then None else Some(Flat(Repos(p))))
  {
    var head := StanzaHead(Join(Types(p), " "), Flat(p.location.value), Flat(release), Flat(Repos(p)));
    var opts := OptionFields(OptionTable(p));
    HeadLookups(Join(Types(p), " "), Flat(p.location.value), Flat(release), Flat(Repos(p)));
    Deb822.LookupAppend(head, opts, "Enabled");
    Deb822.LookupAppend(head, opts, "Types");
    Deb822.LookupAppend(head, opts, "URIs");
    Deb822.LookupAppend(head, opts, "Suites");
    Deb822.LookupAppend(head, opts, "Components");
    LookupOptionFieldsOther(OptionTable(p), "Components");
  }

  /** At least one word, and every word non-empty and free of spaces and line breaks. */
  predicate Words(xs: seq<string>) {
    |xs| > 0 && forall i :: 0 <= i < |xs| ==> xs[i] != "" && ' ' !in xs[i] && '\n' !in xs[i]
  }

  /** Reading the stanza back and splitting its list fields at spaces gives
      the entry's types, locations, releases and components again. */
  lemma StanzaListsReadBack(p: Params, release: Text)
    requires p.location.Some? && SingleLineValues(p, release)
    requires Words(Types(p)) && Words(Items(p.location.value)) && Words(Items(release)) && Words(Items(Repos(p)))
    ensures var fs := Deb822.Parse(Content(Sources, p, release));
      && fs.Some?
      && Deb822.Lookup(fs.value, "Types").Some? && Split(Deb822.Lookup(fs.value, "Types").value, ' ') == Types(p)
      && Deb822.Lookup(fs.value, "URIs").Some? && Split(Deb822.Lookup(fs.value, "URIs").value, ' ') == Items(p.location.value)
      && Deb822.Lookup(fs.value, "Suites").Some? && Split(Deb822.Lookup(fs.value, "Suites").value, ' ') == Items(release)
      && Deb822.Lookup(fs.value, "Components").Some? && Split(Deb822.Lookup(fs.value, "Components").value, ' ') == Items(Repos(p))
  {
    StanzaReadBack(p, release);
    StanzaHeadLookups(p, release);
    var repos := Items(Repos(p));
    assert |Flat(Repos(p))| >= |repos[0]|;
    SplitJoin(Types(p), ' ');
    SplitJoin(Items(p.location.value), ' ');
    SplitJoin(Items(release), ' ');
    SplitJoin(repos, ' ');
  }

  /** An active option's field is found in the stanza with the option's value. */
  lemma ActiveOptionLookup(p: Params, release: Text, o: SourceOption, r: nat)
    requires p.location.Some? && r in {0, 1, 2, 4}
    requires o in OptionTable(p) && Rank(o) == r && FieldOf(o).Some?
    ensures Deb822.Lookup(StanzaFields(p, release), KeyOfRank(r)) == Some(FieldOf(o).value.value)
  {
    var t := OptionTable(p);
    var head := StanzaHead(Join(Types(p), " "), Flat(p.location.value), Flat(release), Flat(Repos(p)));
    HeadLacksOption(Join(Types(p), " "), Flat(p.location.value), Flat(release), Flat(Repos(p)), r);
    Deb822.LookupAppend(head, OptionFields(t), KeyOfRank(r));
    FieldKey(o, r);
    LookupOptionField(t, o);
  }

  /** No field of rank `r` is in the stanza when no option of that rank is active. */
  lemma InactiveOptionLookup(p: Params, release: Text, r: nat)
    requires p.location.Some? && r in {0, 1, 2, 4}
    requires forall o :: o in OptionTable(p) ==> Rank(o) != r
    ensures Deb822.Lookup(StanzaFields(p, release), KeyOfRank(r)) == None
  {
    var t := OptionTable(p);
    var head := StanzaHead(Join(Types(p), " "), Flat(p.location.value), Flat(release), Flat(Repos(p)));
    HeadLacksOption(Join(Types(p), " "), Flat(p.location.value), Flat(release), Flat(Repos(p)), r);
    Deb822.LookupAppend(head, OptionFields(t), KeyOfRank(r));
    forall i | 0 <= i < |t| ensures Rank(t[i]) != r {
      assert t[i] in t;
    }
    LookupOptionFieldAbsent(t, r);
  }

  /** `Architectures` is there exactly when architectures are given, space-separated. */
  lemma ArchitecturesLookup(p: Params, release: Text)
    requires p.location.Some?
    ensures Deb822.Lookup(StanzaFields(p, release), "Architectures")
      == if ArchValues(p) != [] then Some(Join(ArchValues(p), " ")) else None
  {
    OptionTableMembers(p);
    if ArchValues(p) != [] {
      ActiveOptionLookup(p, release, Arch(ArchValues(p)), 0);
    } else {
      InactiveOptionLookup(p, release, 0);
    }
  }

  /** `Trusted: yes` is there exactly when `allow_unsigned` is true. */
  lemma TrustedLookup(p: Params, release: Text)
    requires p.location.Some?
    ensures Deb822.Lookup(StanzaFields(p, release), "Trusted")
      == if p.allowUnsigned == Some(true) then Some("yes") else None
  {
    OptionTableMembers(p);
    if p.allowUnsigned == Some(true) {
      ActiveOptionLookup(p, release, Trusted, 1);
    } else {
      InactiveOptionLookup(p, release, 1);
    }
  }

  /** `Check-Valid-Until: false` is there exactly when `check_valid_until` is false. */
  lemma CheckValidUntilLookup(p: Params, release: Text)
    requires p.location.Some?
    ensures Deb822.Lookup(StanzaFields(p, release), "Check-Valid-Until")
      == if p.checkValidUntil == Some(false) then Some("false") else None
  {
    OptionTableMembers(p);
    if p.checkValidUntil == Some(false) {
      ActiveOptionLookup(p, release, CheckValidUntilFalse, 2);
    } else {
      InactiveOptionLookup(p, release, 2);
    }
  }

  /** `Signed-By` is there exactly when a keyring is given, with its path. */
  lemma SignedByLookup(p: Params, release: Text)
    requires p.location.Some?
    ensures Deb822.Lookup(StanzaFields(p, release), "Signed-By")
      == if p.keyring.Some? then Some(p.keyring.value) else None
  {
    OptionTableMembers(p);
    if p.keyring.Some? {
      ActiveOptionLookup(p, release, SignedBy(p.keyring.value), 4);
    } else {
      InactiveOptionLookup(p, release, 4);
    }
  }

  /** A field the stanza holds appears in the rendered content as one whole line. */
  lemma FieldRendered(p: Params, release: Text, key: string, v: string)
    requires p.location.Some? && Deb822.Lookup(StanzaFields(p, release), key) == Some(v)
    ensures Contains(Content(Sources, p, release), Deb822.FieldLine(Deb822.Field(key, v)) + "\n")
  {
    Deb822.LookupRendered(StanzaFields(p, release), key);
  }

  /** The head's field lines appear in the rendered stanza, each whole on its line. */
  lemma RenderedHeadLines(p: Params, release: Text)
    requires p.location.Some?
    ensures var c := Content(Sources, p, release);
      && Contains(c, Deb822.FieldLine(Deb822.Field("Enabled", "yes")) + "\n")
      && Contains(c, Deb822.FieldLine(Deb822.Field("Types", Join(Types(p), " "))) + "\n")
      && Contains(c, Deb822.FieldLine(Deb822.Field("URIs", Flat(p.location.value))) + "\n")
      && Contains(c, Deb822.FieldLine(Deb822.Field("Suites", Flat(release))) + "\n")
      && (Flat(Repos(p)) != "" ==> Contains(c, Deb822.FieldLine(Deb822.Field("Components", Flat(Repos(p)))) + "\n"))
  {
    StanzaHeadLookups(p, release);
    FieldRendered(p, release, "Enabled", "yes");
    FieldRendered(p, release, "Types", Join(Types(p), " "));
    FieldRendered(p, release, "URIs", Flat(p.location.value));
    FieldRendered(p, release, "Suites", Flat(release));
    if Flat(Repos(p)) != "" {
      FieldRendered(p, release, "Components", Flat(Repos(p)));
    }
  }

  /** The field line of each active option appears in the rendered stanza. */
  lemma RenderedOptionLines(p: Params, release: Text)
    requires p.location.Some?
    ensures var c := Content(Sources, p, release);
      && (ArchValues(p) != [] ==> Contains(c, Deb822.FieldLine(Deb822.Field("Architectures", Join(ArchValues(p), " "))) + "\n"))
      && (p.allowUnsigned == Some(true) ==> Contains(c, Deb822.FieldLine(Deb822.Field("Trusted", "yes")) + "\n"))
      && (p.checkValidUntil == Some(false) ==> Contains(c, Deb822.FieldLine(Deb822.Field("Check-Valid-Until", "false")) + "\n"))
      && (p.keyring.Some? ==> Contains(c, Deb822.FieldLine(Deb822.Field("Signed-By", p.keyring.value)) + "\n"))
  {
    ArchitecturesLookup(p, release);
    TrustedLookup(p, release);
    CheckValidUntilLookup(p, release);
    SignedByLookup(p, release);
    if ArchValues(p) != [] { FieldRendered(p, release, "Architectures", Join(ArchValues(p), " ")); }
    if p.allowUnsigned == Some(true) { FieldRendered(p, release, "Trusted", "yes"); }
    if p.checkValidUntil == Some(false) { FieldRendered(p, release, "Check-Valid-Until", "false"); }
    if p.keyring.Some? { FieldRendered(p, release, "Signed-By", p.keyring.value); }
  }

  // ---------------------------------------------------------------------------
  // Pin and key

  /** The host of `scheme://host/path` is `host`. */
  lemma HostOf(scheme: string, host: string, path: string)
    requires '/' !in scheme && '/' !in host
    requires path == "" || path[0] == '/'
    ensures Host(scheme + "//" + host + path) == Some(host)
  {
    assert scheme + "//" + host + path == scheme + ['/'] + ([] + ['/'] + (host + path));
    SplitAppend(scheme, '/', [] + ['/'] + (host + path));
    SplitAppend([], '/', host + path);
    SplitNoSeparator(scheme, '/');
    if path == "" {
      assert host + path == host;
      SplitNoSeparator(host, '/');
    } else {
      assert host + path == host + ['/'] + path[1..];
      SplitAppend(host, '/', path[1..]);
      SplitNoSeparator(host, '/');
    }
  }

  /** A bare priority pins the entry's origin (the location's host), at that
      priority, with the entry's title and `ensure`; a pin hash is handed on
      unchanged under the entry's title. */
  lemma DeclarePin(p: Params, facts: Facts)
    requires Declare(p, facts).Success?
    ensures p.pin.NoPin? ==> Declare(p, facts).value.pin == None
    ensures p.pin.PinPriority? ==>
      var d := Declare(p, facts).value.pin;
      && d.Some? && d.value.name == p.title && d.value.ensure == p.ensure
      && d.value.priority == Some(p.pin.priority)
      && d.value.origin == Origin(p)
      && d.value.release.None? && d.value.explanation.None? && d.value.version.None? && d.value.packages.None?
    ensures p.pin.PinMap? ==>
      var d := Declare(p, facts).value.pin;
      var h := p.pin.fields;
      d == Some(PinDirective(p.title, p.ensure, h.priority, h.origin, h.release, h.explanation, h.version, h.packages))
  {
  }

  /** With a location `scheme://host/path`, a bare priority pins origin `host`. */
  lemma DeclarePinOrigin(p: Params, facts: Facts, scheme: string, host: string, path: string)
    requires Declare(p, facts).Success? && p.pin.PinPriority?
    requires p.location == Some(Str(scheme + "//" + host + path))
    requires '/' !in scheme && '/' !in host
    requires path == "" || path[0] == '/'
    ensures Declare(p, facts).value.pin.value.origin == Some(host)
  {
    HostOf(scheme, host, path);
  }

  /** A key id asks for that key, present, under a title naming both the key and the source;
      a key hash is handed on, `present` unless it says otherwise. */
  lemma DeclareKey(p: Params, facts: Facts)
    requires Declare(p, facts).Success?
    ensures p.key.NoKey? ==> Declare(p, facts).value.key == None
    ensures p.key.KeyId? ==>
      Declare(p, facts).value.key
        == Some(KeyDirective("Add key: " + p.key.id + " from Apt::Source " + p.title, KeyPresent, p.key.id, None, None, None, None, None))
    ensures p.key.KeyMap? ==>
      var h := p.key.fields;
      var k := Declare(p, facts).value.key;
      && k.Some?
      && k.value.name == "Add key: " + h.id + " from Apt::Source " + p.title
      && k.value.id == h.id
      && k.value.ensure == (if h.ensure.Some? then h.ensure.value else KeyPresent)
      && k.value.server == h.server && k.value.content == h.content && k.value.source == h.source
      && k.value.weakSsl == h.weakSsl && k.value.options == h.options
  {
  }
}

/** The deb822 cases of the define's examples, with `source_format => 'sources'`. */
module AptSourceDeb822Examples {
  import opened Wrappers
  import opened Strings
  import opened AptSource
  import opened AptSourceProperties
  import opened AptSourceExamples
  import Deb822

  const Components := ["main", "contrib", "non-free"]

  /** What a present deb822 entry declares, once its release is known. */
  lemma SourcesOutcome(p: Params, facts: Facts, release: Text)
    requires !p.pin.PinFlag? && p.sourceFormat == Some("sources") && p.ensure == Present
    requires HasLocation(p) && ResolveRelease(p, facts) == Some(release)
    ensures Declare(p, facts)
      == Success(Declaration(
           Setting("sources-" + p.title, Present, Some(Content(Sources, p, release)), p.notifyUpdate != Some(false)),
           PinOf(p), KeyOf(p)))
  {
  }

  /** A deb822 entry with one mirror and three components: a `sources-` setting, notified. */
  lemma Deb822Basic(b: Params, p: Params, facts: Facts)
    requires Bare(b) && p == b.(sourceFormat := Some("sources"), location := Some(Strs([Mirror])), repos := Some(Strs(Components)))
    requires facts.codename == Some("stretch")
    ensures Declare(p, facts)
      == Success(Declaration(
           Setting("sources-my_source", Present,
             Some(Deb822.Render(StanzaHead("deb", Mirror, "stretch", Join(Components, " ")))), true),
           None, None))
  {
    NoOptionsSet(p);
    assert Types(p) == ["deb"];
    assert Join(["deb"], " ") == "deb";
    assert Flat(p.location.value) == Mirror;
    assert StanzaFields(p, Str("stretch")) == StanzaHead("deb", Mirror, "stretch", Join(Components, " ")) + [];
    var head := StanzaHead("deb", Mirror, "stretch", Join(Components, " "));
    assert head + [] == head;
    assert SettingName(Sources, p.title) == "sources-my_source";
    assert ResolveRelease(p, facts) == Some(Str("stretch"));
    assert Content(Sources, p, Str("stretch")) == Deb822.Render(StanzaHead("deb", Mirror, "stretch", Join(Components, " ")));
    assert Declare(p, facts).Success?;
    assert Declare(p, facts).value.setting.content == Some(Content(Sources, p, Str("stretch")));
    assert Declare(p, facts).value.pin == None;
    assert Declare(p, facts).value.key == None;
    assert Declare(p, facts).value.setting.name == "sources-my_source";
    assert Declare(p, facts).value.setting.notifyUpdate;
  }

  const Types2 := ["deb", "deb-src"]
  const Locations := ["http://fr.debian.org/debian", "http://de.debian.org/debian"]
  const Suites := ["stable", "stable-updates", "stable-backports"]
  const Archs := ["amd64", "i386"]

  /** The parameters of the complex deb822 entry. */
  predicate ComplexParams(b: Params, p: Params) {
    Bare(b) && p == b.(sourceFormat := Some("sources"), types := Some(Types2), location := Some(Strs(Locations)),
      release := Some(Strs(Suites)), repos := Some(Strs(Components)), architecture := Some(Strs(Archs)),
      allowUnsigned := Some(true), notifyUpdate := Some(false))
  }

  /** The complex deb822 entry: a `sources-` setting holding the stanza, not notified. */
  lemma Deb822Complex(b: Params, p: Params, facts: Facts)
    requires ComplexParams(b, p)
    ensures Declare(p, facts)
      == Success(Declaration(Setting("sources-my_source", Present, Some(Content(Sources, p, Strs(Suites))), false), None, None))
  {
    assert SettingName(Sources, p.title) == "sources-my_source";
  }

  /** Each field line the complex entry's stanza must hold. */
  lemma Deb822ComplexFields(b: Params, p: Params)
    requires ComplexParams(b, p)
    ensures var c := Content(Sources, p, Strs(Suites));
      && Contains(c, Deb822.FieldLine(Deb822.Field("Enabled", "yes")) + "\n")
      && Contains(c, Deb822.FieldLine(Deb822.Field("Types", Join(Types2, " "))) + "\n")
      && Contains(c, Deb822.FieldLine(Deb822.Field("URIs", Join(Locations, " "))) + "\n")
      && Contains(c, Deb822.FieldLine(Deb822.Field("Suites", Join(Suites, " "))) + "\n")
      && Contains(c, Deb822.FieldLine(Deb822.Field("Components", Join(Components, " "))) + "\n")
      && Contains(c, Deb822.FieldLine(Deb822.Field("Architectures", Join(Archs, " "))) + "\n")
      && Contains(c, Deb822.FieldLine(Deb822.Field("Trusted", "yes")) + "\n")
  {
    RenderedHeadLines(p, Strs(Suites));
    RenderedOptionLines(p, Strs(Suites));
    assert Types(p) == Types2 && ArchValues(p) == Archs;
    assert Join(Components, " ") != "" by {
      JoinCons("main", ["contrib", "non-free"], " ");
    }
  }

  /** The parameters of the deb822 entry written as a one-line entry would be. */
  predicate CompatParams(b: Params, p: Params) {
    Bare(b) && p == b.(sourceFormat := Some("sources"), location := Some(Str(Mirror)), release := Some(Str("unstable")),
      repos := Some(Str("main contrib non-free")),
      key := KeyMap(KeyHash(CompatId, None, Some("keyserver.ubuntu.com"), None, None, None, None)), pin := PinPriority(Word("-10")))
  }

  /** A one-line style entry given in the deb822 format: still a `sources-` setting, with its pin and key. */
  lemma ListCompat(b: Params, p: Params, facts: Facts)
    requires CompatParams(b, p)
    ensures Declare(p, facts).Success?
    ensures Declare(p, facts).value.setting == Setting("sources-my_source", Present, Some(Content(Sources, p, Str("unstable"))), true)
    ensures Declare(p, facts).value.pin == Some(PinDirective("my_source", Present, Some(Word("-10")), Some("debian.mirror.iweb.ca"), None, None, None, None))
    ensures Declare(p, facts).value.key == Some(KeyDirective(KeyLabel(CompatId, "my_source"), KeyPresent, CompatId, Some("keyserver.ubuntu.com"), None, None, None, None))
  {
    CompatSetting(b, p, facts);
    CompatDirectives(b, p, facts);
  }

  lemma CompatSetting(b: Params, p: Params, facts: Facts)
    requires CompatParams(b, p)
    ensures Declare(p, facts).Success?
    ensures Declare(p, facts).value.setting == Setting("sources-my_source", Present, Some(Content(Sources, p, Str("unstable"))), true)
  {
    assert "sources-" + p.title == "sources-my_source";
    SourcesOutcome(p, facts, Str("unstable"));
  }

  lemma CompatDirectives(b: Params, p: Params, facts: Facts)
    requires CompatParams(b, p)
    ensures Declare(p, facts).Success?
    ensures Declare(p, facts).value.pin == Some(PinDirective("my_source", Present, Some(Word("-10")), Some("debian.mirror.iweb.ca"), None, None, None, None))
    ensures Declare(p, facts).value.key == Some(KeyDirective(KeyLabel(CompatId, "my_source"), KeyPresent, CompatId, Some("keyserver.ubuntu.com"), None, None, None, None))
  {
    CompatPinAndKey(p);
    SourcesOutcome(p, facts, Str("unstable"));
  }

  lemma CompatPinAndKey(p: Params)
    requires p.location == Some(Str(Mirror)) && p.pin == PinPriority(Word("-10")) && p.ensure == Present
    requires p.key == KeyMap(KeyHash(CompatId, None, Some("keyserver.ubuntu.com"), None, None, None, None))
    ensures PinOf(p) == Some(PinDirective(p.title, Present, Some(Word("-10")), Some("debian.mirror.iweb.ca"), None, None, None, None))
    ensures KeyOf(p) == Some(KeyDirective(KeyLabel(CompatId, p.title), KeyPresent, CompatId, Some("keyserver.ubuntu.com"), None, None, None, None))
  {
    MirrorOrigin(p);
  }

  const CompatId := "A1BD8E9D78F7FE5C3E65D8AF8B48AD6246925553"
}

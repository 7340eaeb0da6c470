/** The `apt::source` model on the parameter sets of the define's own examples.
    Expected lines are written as their words joined by single spaces, and the
    content as its lines, each followed by a newline (`Unlines`). */
module AptSourceExamples {
  import opened Wrappers
  import opened Strings
  import opened AptSource
  import opened AptSourceProperties
  import Deb822

  /** The title `my_source` and every other parameter unset. */
  predicate Bare(p: Params) {
    && p.title == "my_source" && p.ensure == Present && p.sourceFormat == None && p.comment == None
    && p.location == None && p.release == None && p.repos == None && p.architecture == None
    && p.types == None && p.includes == Include(None, None) && p.allowUnsigned == None && p.allowInsecure == None
    && p.checkValidUntil == None && p.keyring == None && p.key == NoKey && p.pin == NoPin && p.notifyUpdate == None
  }

  lemma LegacyLinesOf(p: Params, release: Text)
    requires p.location.Some?
    ensures var t := OptionTable(p);
      var loc := Flat(p.location.value);
      var rel := Flat(release);
      var comps := LegacyComponents(p, rel);
      LegacyLines(p, release)
        == ["# " + Comment(p)]
         + (if IncludeDeb(p) then [Entry("deb", t, loc, rel, comps)] else [])
         + (if IncludeSrc(p) then [Entry("deb-src", t, loc, rel, comps)] else [])
  {
    var t := OptionTable(p);
    var loc := Flat(p.location.value);
    var rel := Flat(release);
    var comps := LegacyComponents(p, rel);
    var es := EntryLines(DefaultTypes(p), t, loc, rel, comps);
    assert LegacyLines(p, release) == ["# " + Comment(p)] + es;
    assert es == (if IncludeDeb(p) then [Entry("deb", t, loc, rel, comps)] else []) + (if IncludeSrc(p) then [Entry("deb-src", t, loc, rel, comps)] else []);
  }

  /** What a present one-line entry declares, once its release, lines, name,
      notification, pin and key are known. */
  lemma ListDeclared(p: Params, facts: Facts, release: Text, lines: seq<string>, name: string, notify: bool,
                     pin: Option<PinDirective>, key: Option<KeyDirective>)
    requires !p.pin.PinFlag? && p.sourceFormat == None && p.ensure == Present && HasLocation(p)
    requires ResolveRelease(p, facts) == Some(release) && LegacyLines(p, release) == lines
    requires "list-" + p.title == name && (p.notifyUpdate != Some(false)) == notify
    requires PinOf(p) == pin && KeyOf(p) == key
    ensures Declare(p, facts) == Success(Declaration(Setting(name, Present, Some(Unlines(lines)), notify), pin, key))
  {
  }

  lemma PlainEntry(kind: string, t: seq<SourceOption>, loc: string, rel: string, comps: string)
    requires t == []
    ensures comps == "" ==> Entry(kind, t, loc, rel, comps) == Join([kind, loc, rel], " ")
    ensures comps != "" ==> Entry(kind, t, loc, rel, comps) == Join([kind, loc, rel, comps], " ")
  {
    assert [kind] + OptionWords(t) + [loc, rel] == [kind, loc, rel];
    assert [kind, loc, rel] + [comps] == [kind, loc, rel, comps];
    assert [kind, loc, rel] + [] == [kind, loc, rel];
  }

  lemma OptionEntry(kind: string, t: seq<SourceOption>, w: string, loc: string, rel: string, comps: string)
    requires OptionWords(t) == [w]
    ensures comps == "" ==> Entry(kind, t, loc, rel, comps) == Join([kind, w, loc, rel], " ")
    ensures comps != "" ==> Entry(kind, t, loc, rel, comps) == Join([kind, w, loc, rel, comps], " ")
  {
    assert [kind] + OptionWords(t) + [loc, rel] == [kind, w, loc, rel];
    assert [kind, w, loc, rel] + [comps] == [kind, w, loc, rel, comps];
    assert [kind, w, loc, rel] + [] == [kind, w, loc, rel];
  }

  lemma NoOptionsSet(p: Params)
    requires ArchValues(p) == [] && p.allowUnsigned != Some(true) && p.checkValidUntil != Some(false) && p.allowInsecure != Some(true) && p.keyring.None?
    ensures OptionTable(p) == []
  {
    OptionTableSpelledOut(p);
  }

  /** The option clause of a table, from its tokens. */
  lemma ClauseOf(t: seq<SourceOption>, tokens: seq<string>)
    requires t != [] && LegacyTokens(t) == tokens
    ensures OptionWords(t) == ["[" + Join(tokens, " ") + "]"]
  {
  }

  // ---------------------------------------------------------------------------
  // Errors

  /** Without a location a present entry is refused. */
  lemma WithoutLocation(b: Params, facts: Facts)
    requires Bare(b)
    ensures Declare(b, facts) == Failure(MissingLocation)
    ensures Contains(Message(Declare(b, facts).error), "source entry without specifying a location")
  {
    ErrorMessages();
  }

  /** Without a release and without the codename fact a present entry is refused. */
  lemma WithoutRelease(b: Params, facts: Facts)
    requires Bare(b) && facts.codename == None
    ensures Declare(b.(location := Some(Str("hello.there"))), facts) == Failure(MissingRelease("os.distro.codename"))
    ensures Contains(Message(MissingRelease(CodenameFact)), CodenameFact + " fact not available: release parameter required")
  {
    ErrorMessages();
  }

  /** A boolean pin is refused by the parameter's type. */
  lemma BooleanPin(b: Params, facts: Facts)
    requires Bare(b)
    ensures Declare(b.(location := Some(Str("hello.there")), pin := PinFlag(true)), facts) == Failure(InvalidPin)
    ensures Contains(Message(InvalidPin), "expects a value")
  {
    ErrorMessages();
  }

  /** An absent entry needs no location: the setting is declared absent. */
  lemma AbsentEntry(b: Params, facts: Facts)
    requires Bare(b)
    ensures Declare(b.(ensure := Absent), facts) == Success(Declaration(Setting("list-my_source", Absent, None, true), None, None))
  {
    assert "list-" + "my_source" == "list-my_source";
  }

  /** `notify_update` unset or true notifies the update, false does not. */
  lemma NotifyUpdate(b: Params, p: Params, facts: Facts, n: Option<bool>)
    requires Bare(b) && p == b.(location := Some(Str("hello.there")), notifyUpdate := n) && facts.codename == Some("stretch")
    ensures Declare(p, facts).Success?
    ensures Declare(p, facts).value.setting.name == "list-my_source"
    ensures Declare(p, facts).value.setting.notifyUpdate <==> n != Some(false)
  {
    assert ParseFormat(p.sourceFormat) == Some(List) && HasLocation(p);
    assert SettingName(List, p.title) == "list-my_source";
  }

  // ---------------------------------------------------------------------------
  // One-line entries

  const Keyring := "/usr/share/keyrings/foo-archive-keyring.gpg"
  const Mirror := "http:" + "//" + "debian.mirror.iweb.ca" + "/debian/"
  const Id := "6F6B15509CF8E59E6E469F327F438280EF8D349F"
  /** The name of the `apt::key` the define declares for `Id`. */
  const SourceKeyName := "Add key: " + Id + " from Apt::Source " + "my_source"

  lemma BracketArchTrusted() ensures "[" + Join(["arch=x86_64", "trusted=yes"], " ") + "]" == "[arch=x86_64 trusted=yes]" {
    JoinCons("arch=x86_64", ["trusted=yes"], " ");
    assert "[" + "arch=x86_64 trusted=yes" + "]" == "[arch=x86_64 trusted=yes]";
  }

  /** The mirror's host is the pin origin of a bare priority. */
  lemma MirrorOrigin(p: Params)
    requires p.location == Some(Str(Mirror))
    ensures Origin(p) == Some("debian.mirror.iweb.ca")
  {
    HostOf("http:", "debian.mirror.iweb.ca", "/debian/");
  }

  /** The pin and the key of the simple-key entry. */
  lemma MirrorPinAndKey(p: Params)
    requires p.location == Some(Str(Mirror)) && p.pin == PinPriority(Word("10")) && p.key == KeyId(Id)
    requires p.ensure == Present && p.title == "my_source"
    ensures PinOf(p) == Some(PinDirective("my_source", Present, Some(Word("10")), Some("debian.mirror.iweb.ca"), None, None, None, None))
    ensures KeyOf(p) == Some(KeyDirective(SourceKeyName, KeyPresent, Id, None, None, None, None, None))
  {
    MirrorOrigin(p);
  }

  /** The pin and the key of the complex-key entry. */
  lemma MirrorPinAndHashKey(p: Params)
    requires p.location == Some(Str(Mirror)) && p.pin == PinPriority(Word("10"))
    requires p.key == KeyMap(KeyHash(Id, Some(KeyRefreshed), Some("pgp.mit.edu"), Some("GPG key content"), Some("http://apt.puppetlabs.com/pubkey.gpg"), Some(true), None))
    requires p.ensure == Present && p.title == "my_source"
    ensures PinOf(p) == Some(PinDirective("my_source", Present, Some(Word("10")), Some("debian.mirror.iweb.ca"), None, None, None, None))
    ensures KeyOf(p) == Some(KeyDirective(SourceKeyName, KeyRefreshed, Id, Some("pgp.mit.edu"), Some("GPG key content"), Some("http://apt.puppetlabs.com/pubkey.gpg"), Some(true), None))
  {
    MirrorOrigin(p);
  }


  lemma BracketAllowInsecure() ensures "[" + Join(["allow-insecure=yes"], " ") + "]" == "[allow-insecure=yes]" {
    assert "[" + "allow-insecure=yes" + "]" == "[allow-insecure=yes]";
  }
  lemma BracketTrusted() ensures "[" + Join(["trusted=yes"], " ") + "]" == "[trusted=yes]" {
    assert "[" + "trusted=yes" + "]" == "[trusted=yes]";
  }
  lemma BracketCheckValidUntil() ensures "[" + Join(["check-valid-until=false"], " ") + "]" == "[check-valid-until=false]" {
    assert "[" + "check-valid-until=false" + "]" == "[check-valid-until=false]";
  }
  lemma BracketSignedBy(k: string) ensures "[" + Join(["signed-by=" + k], " ") + "]" == "[signed-by=" + k + "]" {
  }
  lemma BracketArch() ensures "[" + Join(["arch=x86_64"], " ") + "]" == "[arch=x86_64]" {
    assert "[" + "arch=x86_64" + "]" == "[arch=x86_64]";
  }

  lemma WithLocationParts(b: Params, p: Params)
    requires Bare(b) && p == b.(location := Some(Str("hello.there")))
    ensures OptionTable(p) == []
    ensures "# " + Comment(p) == "# my_source" && LegacyComponents(p, "stretch") == "main"
    ensures p.location.Some? && Flat(p.location.value) == "hello.there" && IncludeDeb(p) && !IncludeSrc(p)
  {
    NoOptionsSet(p);
  }

  lemma WithLocationLines(p: Params)
    requires OptionTable(p) == []
    requires "# " + Comment(p) == "# my_source" && LegacyComponents(p, "stretch") == "main"
    requires p.location.Some? && Flat(p.location.value) == "hello.there" && IncludeDeb(p) && !IncludeSrc(p)
    ensures LegacyLines(p, Str("stretch")) == ["# my_source", Join(["deb", "hello.there", "stretch", "main"], " ")]
  {
    LegacyLinesOf(p, Str("stretch"));
    PlainEntry("deb", OptionTable(p), "hello.there", "stretch", "main");
    assert ["# my_source"] + [Entry("deb", OptionTable(p), "hello.there", "stretch", "main")] + []
      == ["# my_source", Join(["deb", "hello.there", "stretch", "main"], " ")];
  }

  lemma WithLocationGiven(b: Params, p: Params, facts: Facts)
    requires Bare(b) && p == b.(location := Some(Str("hello.there"))) && facts.codename == Some("stretch")
    ensures !p.pin.PinFlag? && p.sourceFormat == None && p.ensure == Present && HasLocation(p)
    ensures ResolveRelease(p, facts) == Some(Str("stretch")) && "list-" + p.title == "list-my_source" && p.notifyUpdate != Some(false)
    ensures PinOf(p) == None && KeyOf(p) == None
  {
  }

  /** With only a location: one `deb` line, the codename as release, `main` as component. */
  lemma WithLocation(b: Params, p: Params, facts: Facts)
    requires Bare(b) && p == b.(location := Some(Str("hello.there"))) && facts.codename == Some("stretch")
    ensures Declare(p, facts) == Success(Declaration(Setting("list-my_source", Present, Some(Unlines(["# my_source", Join(["deb", "hello.there", "stretch", "main"], " ")])), true), None, None))
  {
    WithLocationParts(b, p);
    WithLocationLines(p);
    WithLocationGiven(b, p, facts);
    ListDeclared(p, facts, Str("stretch"), ["# my_source", Join(["deb", "hello.there", "stretch", "main"], " ")], "list-my_source", true, None, None);
  }

  lemma EmptyReposParts(b: Params, p: Params)
    requires Bare(b) && p == b.(location := Some(Str("hello.there")), repos := Some(Strs([])))
    ensures OptionTable(p) == []
    ensures "# " + Comment(p) == "# my_source" && LegacyComponents(p, "stretch") == ""
    ensures p.location.Some? && Flat(p.location.value) == "hello.there" && IncludeDeb(p) && !IncludeSrc(p)
  {
    NoOptionsSet(p);
  }

  lemma EmptyReposLines(p: Params)
    requires OptionTable(p) == []
    requires "# " + Comment(p) == "# my_source" && LegacyComponents(p, "stretch") == ""
    requires p.location.Some? && Flat(p.location.value) == "hello.there" && IncludeDeb(p) && !IncludeSrc(p)
    ensures LegacyLines(p, Str("stretch")) == ["# my_source", Join(["deb", "hello.there", "stretch"], " ")]
  {
    LegacyLinesOf(p, Str("stretch"));
    PlainEntry("deb", OptionTable(p), "hello.there", "stretch", "");
    assert ["# my_source"] + [Entry("deb", OptionTable(p), "hello.there", "stretch", "")] + []
      == ["# my_source", Join(["deb", "hello.there", "stretch"], " ")];
  }

  lemma EmptyReposGiven(b: Params, p: Params, facts: Facts)
    requires Bare(b) && p == b.(location := Some(Str("hello.there")), repos := Some(Strs([]))) && facts.codename == Some("stretch")
    ensures !p.pin.PinFlag? && p.sourceFormat == None && p.ensure == Present && HasLocation(p)
    ensures ResolveRelease(p, facts) == Some(Str("stretch")) && "list-" + p.title == "list-my_source" && p.notifyUpdate != Some(false)
    ensures PinOf(p) == None && KeyOf(p) == None
  {
  }

  /** An empty component list leaves the components out. */
  lemma EmptyRepos(b: Params, p: Params, facts: Facts)
    requires Bare(b) && p == b.(location := Some(Str("hello.there")), repos := Some(Strs([]))) && facts.codename == Some("stretch")
    ensures Declare(p, facts) == Success(Declaration(Setting("list-my_source", Present, Some(Unlines(["# my_source", Join(["deb", "hello.there", "stretch"], " ")])), true), None, None))
  {
    EmptyReposParts(b, p);
    EmptyReposLines(p);
    EmptyReposGiven(b, p, facts);
    ListDeclared(p, facts, Str("stretch"), ["# my_source", Join(["deb", "hello.there", "stretch"], " ")], "list-my_source", true, None, None);
  }

  lemma ThreeReposParts(b: Params, p: Params)
    requires Bare(b) && p == b.(location := Some(Str("hello.there")), repos := Some(Strs(["main", "non-free", "contrib"])))
    ensures OptionTable(p) == []
    ensures "# " + Comment(p) == "# my_source" && LegacyComponents(p, "stretch") == "main non-free contrib"
    ensures p.location.Some? && Flat(p.location.value) == "hello.there" && IncludeDeb(p) && !IncludeSrc(p)
  {
    NoOptionsSet(p);
    JoinCons("main", ["non-free", "contrib"], " ");
    JoinCons("non-free", ["contrib"], " ");
    assert "main" + " " + ("non-free" + " " + "contrib") == "main non-free contrib";
  }

  lemma ThreeReposLines(p: Params)
    requires OptionTable(p) == []
    requires "# " + Comment(p) == "# my_source" && LegacyComponents(p, "stretch") == "main non-free contrib"
    requires p.location.Some? && Flat(p.location.value) == "hello.there" && IncludeDeb(p) && !IncludeSrc(p)
    ensures LegacyLines(p, Str("stretch")) == ["# my_source", Join(["deb", "hello.there", "stretch", "main non-free contrib"], " ")]
  {
    LegacyLinesOf(p, Str("stretch"));
    PlainEntry("deb", OptionTable(p), "hello.there", "stretch", "main non-free contrib");
    assert ["# my_source"] + [Entry("deb", OptionTable(p), "hello.there", "stretch", "main non-free contrib")] + []
      == ["# my_source", Join(["deb", "hello.there", "stretch", "main non-free contrib"], " ")];
  }

  lemma ThreeReposGiven(b: Params, p: Params, facts: Facts)
    requires Bare(b) && p == b.(location := Some(Str("hello.there")), repos := Some(Strs(["main", "non-free", "contrib"]))) && facts.codename == Some("stretch")
    ensures !p.pin.PinFlag? && p.sourceFormat == None && p.ensure == Present && HasLocation(p)
    ensures ResolveRelease(p, facts) == Some(Str("stretch")) && "list-" + p.title == "list-my_source" && p.notifyUpdate != Some(false)
    ensures PinOf(p) == None && KeyOf(p) == None
  {
  }

  /** Several components are written in order, space-separated. */
  lemma ThreeRepos(b: Params, p: Params, facts: Facts)
    requires Bare(b) && p == b.(location := Some(Str("hello.there")), repos := Some(Strs(["main", "non-free", "contrib"]))) && facts.codename == Some("stretch")
    ensures Declare(p, facts) == Success(Declaration(Setting("list-my_source", Present, Some(Unlines(["# my_source", Join(["deb", "hello.there", "stretch", "main non-free contrib"], " ")])), true), None, None))
  {
    ThreeReposParts(b, p);
    ThreeReposLines(p);
    ThreeReposGiven(b, p, facts);
    ListDeclared(p, facts, Str("stretch"), ["# my_source", Join(["deb", "hello.there", "stretch", "main non-free contrib"], " ")], "list-my_source", true, None, None);
  }

  lemma AllowInsecureTrueClause(p: Params)
    requires p.architecture == None && p.allowUnsigned == None && p.checkValidUntil == None && p.allowInsecure == Some(true) && p.keyring == None
    ensures OptionWords(OptionTable(p)) == ["[allow-insecure=yes]"]
  {
    var t := [AllowInsecure];
    OptionTableSpelledOut(p);
    assert OptionTable(p) == t;
    assert LegacyToken(t[0]) == "allow-insecure=yes";
    assert LegacyTokens(t) == ["allow-insecure=yes"];
    ClauseOf(t, ["allow-insecure=yes"]);
    BracketAllowInsecure();
  }

  lemma AllowInsecureTrueParts(b: Params, p: Params)
    requires Bare(b) && p == b.(location := Some(Str("hello.there")), allowInsecure := Some(true))
    ensures OptionWords(OptionTable(p)) == ["[allow-insecure=yes]"]
    ensures "# " + Comment(p) == "# my_source" && LegacyComponents(p, "stretch") == "main"
    ensures p.location.Some? && Flat(p.location.value) == "hello.there" && IncludeDeb(p) && !IncludeSrc(p)
  {
    AllowInsecureTrueClause(p);
  }

  lemma AllowInsecureTrueLines(p: Params)
    requires OptionWords(OptionTable(p)) == ["[allow-insecure=yes]"]
    requires "# " + Comment(p) == "# my_source" && LegacyComponents(p, "stretch") == "main"
    requires p.location.Some? && Flat(p.location.value) == "hello.there" && IncludeDeb(p) && !IncludeSrc(p)
    ensures LegacyLines(p, Str("stretch")) == ["# my_source", Join(["deb", "[allow-insecure=yes]", "hello.there", "stretch", "main"], " ")]
  {
    LegacyLinesOf(p, Str("stretch"));
    OptionEntry("deb", OptionTable(p), "[allow-insecure=yes]", "hello.there", "stretch", "main");
    assert ["# my_source"] + [Entry("deb", OptionTable(p), "hello.there", "stretch", "main")] + []
      == ["# my_source", Join(["deb", "[allow-insecure=yes]", "hello.there", "stretch", "main"], " ")];
  }

  lemma AllowInsecureTrueGiven(b: Params, p: Params, facts: Facts)
    requires Bare(b) && p == b.(location := Some(Str("hello.there")), allowInsecure := Some(true)) && facts.codename == Some("stretch")
    ensures !p.pin.PinFlag? && p.sourceFormat == None && p.ensure == Present && HasLocation(p)
    ensures ResolveRelease(p, facts) == Some(Str("stretch")) && "list-" + p.title == "list-my_source" && p.notifyUpdate != Some(false)
    ensures PinOf(p) == None && KeyOf(p) == None
  {
  }

  /** `allow_insecure` gives the `allow-insecure=yes` option. */
  lemma AllowInsecureTrue(b: Params, p: Params, facts: Facts)
    requires Bare(b) && p == b.(location := Some(Str("hello.there")), allowInsecure := Some(true)) && facts.codename == Some("stretch")
    ensures Declare(p, facts) == Success(Declaration(Setting("list-my_source", Present, Some(Unlines(["# my_source", Join(["deb", "[allow-insecure=yes]", "hello.there", "stretch", "main"], " ")])), true), None, None))
  {
    AllowInsecureTrueParts(b, p);
    AllowInsecureTrueLines(p);
    AllowInsecureTrueGiven(b, p, facts);
    ListDeclared(p, facts, Str("stretch"), ["# my_source", Join(["deb", "[allow-insecure=yes]", "hello.there", "stretch", "main"], " ")], "list-my_source", true, None, None);
  }

  lemma AllowUnsignedTrueClause(p: Params)
    requires p.architecture == None && p.allowUnsigned == Some(true) && p.checkValidUntil == None && p.allowInsecure == None && p.keyring == None
    ensures OptionWords(OptionTable(p)) == ["[trusted=yes]"]
  {
    var t := [Trusted];
    OptionTableSpelledOut(p);
    assert OptionTable(p) == t;
    assert LegacyToken(t[0]) == "trusted=yes";
    assert LegacyTokens(t) == ["trusted=yes"];
    ClauseOf(t, ["trusted=yes"]);
    BracketTrusted();
  }

  lemma AllowUnsignedTrueParts(b: Params, p: Params)
    requires Bare(b) && p == b.(location := Some(Str("hello.there")), allowUnsigned := Some(true))
    ensures OptionWords(OptionTable(p)) == ["[trusted=yes]"]
    ensures "# " + Comment(p) == "# my_source" && LegacyComponents(p, "stretch") == "main"
    ensures p.location.Some? && Flat(p.location.value) == "hello.there" && IncludeDeb(p) && !IncludeSrc(p)
  {
    AllowUnsignedTrueClause(p);
  }

  lemma AllowUnsignedTrueLines(p: Params)
    requires OptionWords(OptionTable(p)) == ["[trusted=yes]"]
    requires "# " + Comment(p) == "# my_source" && LegacyComponents(p, "stretch") == "main"
    requires p.location.Some? && Flat(p.location.value) == "hello.there" && IncludeDeb(p) && !IncludeSrc(p)
    ensures LegacyLines(p, Str("stretch")) == ["# my_source", Join(["deb", "[trusted=yes]", "hello.there", "stretch", "main"], " ")]
  {
    LegacyLinesOf(p, Str("stretch"));
    OptionEntry("deb", OptionTable(p), "[trusted=yes]", "hello.there", "stretch", "main");
    assert ["# my_source"] + [Entry("deb", OptionTable(p), "hello.there", "stretch", "main")] + []
      == ["# my_source", Join(["deb", "[trusted=yes]", "hello.there", "stretch", "main"], " ")];
  }

  lemma AllowUnsignedTrueGiven(b: Params, p: Params, facts: Facts)
    requires Bare(b) && p == b.(location := Some(Str("hello.there")), allowUnsigned := Some(true)) && facts.codename == Some("stretch")
    ensures !p.pin.PinFlag? && p.sourceFormat == None && p.ensure == Present && HasLocation(p)
    ensures ResolveRelease(p, facts) == Some(Str("stretch")) && "list-" + p.title == "list-my_source" && p.notifyUpdate != Some(false)
    ensures PinOf(p) == None && KeyOf(p) == None
  {
  }

  /** `allow_unsigned` gives the `trusted=yes` option. */
  lemma AllowUnsignedTrue(b: Params, p: Params, facts: Facts)
    requires Bare(b) && p == b.(location := Some(Str("hello.there")), allowUnsigned := Some(true)) && facts.codename == Some("stretch")
    ensures Declare(p, facts) == Success(Declaration(Setting("list-my_source", Present, Some(Unlines(["# my_source", Join(["deb", "[trusted=yes]", "hello.there", "stretch", "main"], " ")])), true), None, None))
  {
    AllowUnsignedTrueParts(b, p);
    AllowUnsignedTrueLines(p);
    AllowUnsignedTrueGiven(b, p, facts);
    ListDeclared(p, facts, Str("stretch"), ["# my_source", Join(["deb", "[trusted=yes]", "hello.there", "stretch", "main"], " ")], "list-my_source", true, None, None);
  }

  lemma CheckValidUntilFalseOptionClause(p: Params)
    requires p.architecture == None && p.allowUnsigned == None && p.checkValidUntil == Some(false) && p.allowInsecure == None && p.keyring == None
    ensures OptionWords(OptionTable(p)) == ["[check-valid-until=false]"]
  {
    var t := [CheckValidUntilFalse];
    OptionTableSpelledOut(p);
    assert OptionTable(p) == t;
    assert LegacyToken(t[0]) == "check-valid-until=false";
    assert LegacyTokens(t) == ["check-valid-until=false"];
    ClauseOf(t, ["check-valid-until=false"]);
    BracketCheckValidUntil();
  }

  lemma CheckValidUntilFalseOptionParts(b: Params, p: Params)
    requires Bare(b) && p == b.(location := Some(Str("hello.there")), checkValidUntil := Some(false))
    ensures OptionWords(OptionTable(p)) == ["[check-valid-until=false]"]
    ensures "# " + Comment(p) == "# my_source" && LegacyComponents(p, "stretch") == "main"
    ensures p.location.Some? && Flat(p.location.value) == "hello.there" && IncludeDeb(p) && !IncludeSrc(p)
  {
    CheckValidUntilFalseOptionClause(p);
  }

  lemma CheckValidUntilFalseOptionLines(p: Params)
    requires OptionWords(OptionTable(p)) == ["[check-valid-until=false]"]
    requires "# " + Comment(p) == "# my_source" && LegacyComponents(p, "stretch") == "main"
    requires p.location.Some? && Flat(p.location.value) == "hello.there" && IncludeDeb(p) && !IncludeSrc(p)
    ensures LegacyLines(p, Str("stretch")) == ["# my_source", Join(["deb", "[check-valid-until=false]", "hello.there", "stretch", "main"], " ")]
  {
    LegacyLinesOf(p, Str("stretch"));
    OptionEntry("deb", OptionTable(p), "[check-valid-until=false]", "hello.there", "stretch", "main");
    assert ["# my_source"] + [Entry("deb", OptionTable(p), "hello.there", "stretch", "main")] + []
      == ["# my_source", Join(["deb", "[check-valid-until=false]", "hello.there", "stretch", "main"], " ")];
  }

  lemma CheckValidUntilFalseOptionGiven(b: Params, p: Params, facts: Facts)
    requires Bare(b) && p == b.(location := Some(Str("hello.there")), checkValidUntil := Some(false)) && facts.codename == Some("stretch")
    ensures !p.pin.PinFlag? && p.sourceFormat == None && p.ensure == Present && HasLocation(p)
    ensures ResolveRelease(p, facts) == Some(Str("stretch")) && "list-" + p.title == "list-my_source" && p.notifyUpdate != Some(false)
    ensures PinOf(p) == None && KeyOf(p) == None
  {
  }

  /** `check_valid_until => false` gives the `check-valid-until=false` option. */
  lemma CheckValidUntilFalseOption(b: Params, p: Params, facts: Facts)
    requires Bare(b) && p == b.(location := Some(Str("hello.there")), checkValidUntil := Some(false)) && facts.codename == Some("stretch")
    ensures Declare(p, facts) == Success(Declaration(Setting("list-my_source", Present, Some(Unlines(["# my_source", Join(["deb", "[check-valid-until=false]", "hello.there", "stretch", "main"], " ")])), true), None, None))
  {
    CheckValidUntilFalseOptionParts(b, p);
    CheckValidUntilFalseOptionLines(p);
    CheckValidUntilFalseOptionGiven(b, p, facts);
    ListDeclared(p, facts, Str("stretch"), ["# my_source", Join(["deb", "[check-valid-until=false]", "hello.there", "stretch", "main"], " ")], "list-my_source", true, None, None);
  }

  lemma CheckValidUntilTrueNoOptionParts(b: Params, p: Params)
    requires Bare(b) && p == b.(location := Some(Str("hello.there")), checkValidUntil := Some(true))
    ensures OptionTable(p) == []
    ensures "# " + Comment(p) == "# my_source" && LegacyComponents(p, "stretch") == "main"
    ensures p.location.Some? && Flat(p.location.value) == "hello.there" && IncludeDeb(p) && !IncludeSrc(p)
  {
    NoOptionsSet(p);
  }

  lemma CheckValidUntilTrueNoOptionLines(p: Params)
    requires OptionTable(p) == []
    requires "# " + Comment(p) == "# my_source" && LegacyComponents(p, "stretch") == "main"
    requires p.location.Some? && Flat(p.location.value) == "hello.there" && IncludeDeb(p) && !IncludeSrc(p)
    ensures LegacyLines(p, Str("stretch")) == ["# my_source", Join(["deb", "hello.there", "stretch", "main"], " ")]
  {
    LegacyLinesOf(p, Str("stretch"));
    PlainEntry("deb", OptionTable(p), "hello.there", "stretch", "main");
    assert ["# my_source"] + [Entry("deb", OptionTable(p), "hello.there", "stretch", "main")] + []
      == ["# my_source", Join(["deb", "hello.there", "stretch", "main"], " ")];
  }

  lemma CheckValidUntilTrueNoOptionGiven(b: Params, p: Params, facts: Facts)
    requires Bare(b) && p == b.(location := Some(Str("hello.there")), checkValidUntil := Some(true)) && facts.codename == Some("stretch")
    ensures !p.pin.PinFlag? && p.sourceFormat == None && p.ensure == Present && HasLocation(p)
    ensures ResolveRelease(p, facts) == Some(Str("stretch")) && "list-" + p.title == "list-my_source" && p.notifyUpdate != Some(false)
    ensures PinOf(p) == None && KeyOf(p) == None
  {
  }

  /** `check_valid_until => true` gives no option at all. */
  lemma CheckValidUntilTrueNoOption(b: Params, p: Params, facts: Facts)
    requires Bare(b) && p == b.(location := Some(Str("hello.there")), checkValidUntil := Some(true)) && facts.codename == Some("stretch")
    ensures Declare(p, facts) == Success(Declaration(Setting("list-my_source", Present, Some(Unlines(["# my_source", Join(["deb", "hello.there", "stretch", "main"], " ")])), true), None, None))
  {
    CheckValidUntilTrueNoOptionParts(b, p);
    CheckValidUntilTrueNoOptionLines(p);
    CheckValidUntilTrueNoOptionGiven(b, p, facts);
    ListDeclared(p, facts, Str("stretch"), ["# my_source", Join(["deb", "hello.there", "stretch", "main"], " ")], "list-my_source", true, None, None);
  }

  lemma KeyringSetClause(p: Params)
    requires p.architecture == None && p.allowUnsigned == None && p.checkValidUntil == None && p.allowInsecure == None && p.keyring == Some(Keyring)
    ensures OptionWords(OptionTable(p)) == ["[signed-by=" + Keyring + "]"]
  {
    var t := [SignedBy(Keyring)];
    OptionTableSpelledOut(p);
    assert OptionTable(p) == t;
    assert LegacyToken(t[0]) == "signed-by=" + Keyring;
    assert LegacyTokens(t) == ["signed-by=" + Keyring];
    ClauseOf(t, ["signed-by=" + Keyring]);
    BracketSignedBy(Keyring);
  }

  lemma KeyringSetParts(b: Params, p: Params)
    requires Bare(b) && p == b.(location := Some(Str("hello.there")), keyring := Some(Keyring))
    ensures OptionWords(OptionTable(p)) == ["[signed-by=" + Keyring + "]"]
    ensures "# " + Comment(p) == "# my_source" && LegacyComponents(p, "stretch") == "main"
    ensures p.location.Some? && Flat(p.location.value) == "hello.there" && IncludeDeb(p) && !IncludeSrc(p)
  {
    KeyringSetClause(p);
  }

  lemma KeyringSetLines(p: Params)
    requires OptionWords(OptionTable(p)) == ["[signed-by=" + Keyring + "]"]
    requires "# " + Comment(p) == "# my_source" && LegacyComponents(p, "stretch") == "main"
    requires p.location.Some? && Flat(p.location.value) == "hello.there" && IncludeDeb(p) && !IncludeSrc(p)
    ensures LegacyLines(p, Str("stretch")) == ["# my_source", Join(["deb", "[signed-by=" + Keyring + "]", "hello.there", "stretch", "main"], " ")]
  {
    LegacyLinesOf(p, Str("stretch"));
    OptionEntry("deb", OptionTable(p), "[signed-by=" + Keyring + "]", "hello.there", "stretch", "main");
    assert ["# my_source"] + [Entry("deb", OptionTable(p), "hello.there", "stretch", "main")] + []
      == ["# my_source", Join(["deb", "[signed-by=" + Keyring + "]", "hello.there", "stretch", "main"], " ")];
  }

  lemma KeyringSetGiven(b: Params, p: Params, facts: Facts)
    requires Bare(b) && p == b.(location := Some(Str("hello.there")), keyring := Some(Keyring)) && facts.codename == Some("stretch")
    ensures !p.pin.PinFlag? && p.sourceFormat == None && p.ensure == Present && HasLocation(p)
    ensures ResolveRelease(p, facts) == Some(Str("stretch")) && "list-" + p.title == "list-my_source" && p.notifyUpdate != Some(false)
    ensures PinOf(p) == None && KeyOf(p) == None
  {
  }

  /** `keyring` gives the `signed-by` option with its path. */
  lemma KeyringSet(b: Params, p: Params, facts: Facts)
    requires Bare(b) && p == b.(location := Some(Str("hello.there")), keyring := Some(Keyring)) && facts.codename == Some("stretch")
    ensures Declare(p, facts) == Success(Declaration(Setting("list-my_source", Present, Some(Unlines(["# my_source", Join(["deb", "[signed-by=" + Keyring + "]", "hello.there", "stretch", "main"], " ")])), true), None, None))
  {
    KeyringSetParts(b, p);
    KeyringSetLines(p);
    KeyringSetGiven(b, p, facts);
    ListDeclared(p, facts, Str("stretch"), ["# my_source", Join(["deb", "[signed-by=" + Keyring + "]", "hello.there", "stretch", "main"], " ")], "list-my_source", true, None, None);
  }

  lemma KeyringArchitectureUnsignedClause(p: Params)
    requires p.architecture == Some(Str("amd64")) && p.allowUnsigned == Some(true) && p.checkValidUntil == None && p.allowInsecure == None && p.keyring == Some(Keyring)
    ensures OptionWords(OptionTable(p)) == ["[" + Join(["arch=amd64", "trusted=yes", "signed-by=" + Keyring], " ") + "]"]
  {
    var t := [Arch(["amd64"]), Trusted, SignedBy(Keyring)];
    OptionTableSpelledOut(p);
    assert OptionTable(p) == t;
    assert LegacyToken(t[0]) == "arch=amd64";
    assert LegacyToken(t[1]) == "trusted=yes";
    assert LegacyToken(t[2]) == "signed-by=" + Keyring;
    assert LegacyTokens(t) == ["arch=amd64", "trusted=yes", "signed-by=" + Keyring];
    ClauseOf(t, ["arch=amd64", "trusted=yes", "signed-by=" + Keyring]);
  }

  lemma KeyringArchitectureUnsignedParts(b: Params, p: Params)
    requires Bare(b) && p == b.(location := Some(Str("hello.there")), architecture := Some(Str("amd64")), allowUnsigned := Some(true), keyring := Some(Keyring))
    ensures OptionWords(OptionTable(p)) == ["[" + Join(["arch=amd64", "trusted=yes", "signed-by=" + Keyring], " ") + "]"]
    ensures "# " + Comment(p) == "# my_source" && LegacyComponents(p, "stretch") == "main"
    ensures p.location.Some? && Flat(p.location.value) == "hello.there" && IncludeDeb(p) && !IncludeSrc(p)
  {
    KeyringArchitectureUnsignedClause(p);
  }

  lemma KeyringArchitectureUnsignedLines(p: Params)
    requires OptionWords(OptionTable(p)) == ["[" + Join(["arch=amd64", "trusted=yes", "signed-by=" + Keyring], " ") + "]"]
    requires "# " + Comment(p) == "# my_source" && LegacyComponents(p, "stretch") == "main"
    requires p.location.Some? && Flat(p.location.value) == "hello.there" && IncludeDeb(p) && !IncludeSrc(p)
    ensures LegacyLines(p, Str("stretch")) == ["# my_source", Join(["deb", "[" + Join(["arch=amd64", "trusted=yes", "signed-by=" + Keyring], " ") + "]", "hello.there", "stretch", "main"], " ")]
  {
    LegacyLinesOf(p, Str("stretch"));
    OptionEntry("deb", OptionTable(p), "[" + Join(["arch=amd64", "trusted=yes", "signed-by=" + Keyring], " ") + "]", "hello.there", "stretch", "main");
    assert ["# my_source"] + [Entry("deb", OptionTable(p), "hello.there", "stretch", "main")] + []
      == ["# my_source", Join(["deb", "[" + Join(["arch=amd64", "trusted=yes", "signed-by=" + Keyring], " ") + "]", "hello.there", "stretch", "main"], " ")];
  }

  lemma KeyringArchitectureUnsignedGiven(b: Params, p: Params, facts: Facts)
    requires Bare(b) && p == b.(location := Some(Str("hello.there")), architecture := Some(Str("amd64")), allowUnsigned := Some(true), keyring := Some(Keyring)) && facts.codename == Some("stretch")
    ensures !p.pin.PinFlag? && p.sourceFormat == None && p.ensure == Present && HasLocation(p)
    ensures ResolveRelease(p, facts) == Some(Str("stretch")) && "list-" + p.title == "list-my_source" && p.notifyUpdate != Some(false)
    ensures PinOf(p) == None && KeyOf(p) == None
  {
  }

  /** Three options keep the fixed order: arch, trusted, signed-by. */
  lemma KeyringArchitectureUnsigned(b: Params, p: Params, facts: Facts)
    requires Bare(b) && p == b.(location := Some(Str("hello.there")), architecture := Some(Str("amd64")), allowUnsigned := Some(true), keyring := Some(Keyring)) && facts.codename == Some("stretch")
    ensures Declare(p, facts) == Success(Declaration(Setting("list-my_source", Present, Some(Unlines(["# my_source", Join(["deb", "[" + Join(["arch=amd64", "trusted=yes", "signed-by=" + Keyring], " ") + "]", "hello.there", "stretch", "main"], " ")])), true), None, None))
  {
    KeyringArchitectureUnsignedParts(b, p);
    KeyringArchitectureUnsignedLines(p);
    KeyringArchitectureUnsignedGiven(b, p, facts);
    ListDeclared(p, facts, Str("stretch"), ["# my_source", Join(["deb", "[" + Join(["arch=amd64", "trusted=yes", "signed-by=" + Keyring], " ") + "]", "hello.there", "stretch", "main"], " ")], "list-my_source", true, None, None);
  }

  lemma SourceOnlyWithArchitectureClause(p: Params)
    requires p.architecture == Some(Str("x86_64")) && p.allowUnsigned == None && p.checkValidUntil == None && p.allowInsecure == None && p.keyring == None
    ensures OptionWords(OptionTable(p)) == ["[arch=x86_64]"]
  {
    var t := [Arch(["x86_64"])];
    OptionTableSpelledOut(p);
    assert OptionTable(p) == t;
    assert LegacyToken(t[0]) == "arch=x86_64";
    assert LegacyTokens(t) == ["arch=x86_64"];
    ClauseOf(t, ["arch=x86_64"]);
    BracketArch();
  }

  lemma SourceOnlyWithArchitectureParts(b: Params, p: Params)
    requires Bare(b) && p == b.(location := Some(Str("hello.there")), includes := Include(Some(false), Some(true)), architecture := Some(Str("x86_64")))
    ensures OptionWords(OptionTable(p)) == ["[arch=x86_64]"]
    ensures "# " + Comment(p) == "# my_source" && LegacyComponents(p, "wheezy") == "main"
    ensures p.location.Some? && Flat(p.location.value) == "hello.there" && !IncludeDeb(p) && IncludeSrc(p)
  {
    SourceOnlyWithArchitectureClause(p);
  }

  lemma SourceOnlyWithArchitectureLines(p: Params)
    requires OptionWords(OptionTable(p)) == ["[arch=x86_64]"]
    requires "# " + Comment(p) == "# my_source" && LegacyComponents(p, "wheezy") == "main"
    requires p.location.Some? && Flat(p.location.value) == "hello.there" && !IncludeDeb(p) && IncludeSrc(p)
    ensures LegacyLines(p, Str("wheezy")) == ["# my_source", Join(["deb-src", "[arch=x86_64]", "hello.there", "wheezy", "main"], " ")]
  {
    LegacyLinesOf(p, Str("wheezy"));
    OptionEntry("deb-src", OptionTable(p), "[arch=x86_64]", "hello.there", "wheezy", "main");
    assert ["# my_source"] + [] + [Entry("deb-src", OptionTable(p), "hello.there", "wheezy", "main")]
      == ["# my_source", Join(["deb-src", "[arch=x86_64]", "hello.there", "wheezy", "main"], " ")];
  }

  lemma SourceOnlyWithArchitectureGiven(b: Params, p: Params, facts: Facts)
    requires Bare(b) && p == b.(location := Some(Str("hello.there")), includes := Include(Some(false), Some(true)), architecture := Some(Str("x86_64"))) && facts.codename == Some("wheezy")
    ensures !p.pin.PinFlag? && p.sourceFormat == None && p.ensure == Present && HasLocation(p)
    ensures ResolveRelease(p, facts) == Some(Str("wheezy")) && "list-" + p.title == "list-my_source" && p.notifyUpdate != Some(false)
    ensures PinOf(p) == None && KeyOf(p) == None
  {
  }

  /** Only the `deb-src` line, with the architecture option, on the host's codename. */
  lemma SourceOnlyWithArchitecture(b: Params, p: Params, facts: Facts)
    requires Bare(b) && p == b.(location := Some(Str("hello.there")), includes := Include(Some(false), Some(true)), architecture := Some(Str("x86_64"))) && facts.codename == Some("wheezy")
    ensures Declare(p, facts) == Success(Declaration(Setting("list-my_source", Present, Some(Unlines(["# my_source", Join(["deb-src", "[arch=x86_64]", "hello.there", "wheezy", "main"], " ")])), true), None, None))
  {
    SourceOnlyWithArchitectureParts(b, p);
    SourceOnlyWithArchitectureLines(p);
    SourceOnlyWithArchitectureGiven(b, p, facts);
    ListDeclared(p, facts, Str("wheezy"), ["# my_source", Join(["deb-src", "[arch=x86_64]", "hello.there", "wheezy", "main"], " ")], "list-my_source", true, None, None);
  }

  lemma SourceOnlyParts(b: Params, p: Params)
    requires Bare(b) && p == b.(location := Some(Str("hello.there")), includes := Include(Some(false), Some(true)))
    ensures OptionTable(p) == []
    ensures "# " + Comment(p) == "# my_source" && LegacyComponents(p, "stretch") == "main"
    ensures p.location.Some? && Flat(p.location.value) == "hello.there" && !IncludeDeb(p) && IncludeSrc(p)
  {
    NoOptionsSet(p);
  }

  lemma SourceOnlyLines(p: Params)
    requires OptionTable(p) == []
    requires "# " + Comment(p) == "# my_source" && LegacyComponents(p, "stretch") == "main"
    requires p.location.Some? && Flat(p.location.value) == "hello.there" && !IncludeDeb(p) && IncludeSrc(p)
    ensures LegacyLines(p, Str("stretch")) == ["# my_source", Join(["deb-src", "hello.there", "stretch", "main"], " ")]
  {
    LegacyLinesOf(p, Str("stretch"));
    PlainEntry("deb-src", OptionTable(p), "hello.there", "stretch", "main");
    assert ["# my_source"] + [] + [Entry("deb-src", OptionTable(p), "hello.there", "stretch", "main")]
      == ["# my_source", Join(["deb-src", "hello.there", "stretch", "main"], " ")];
  }

  lemma SourceOnlyGiven(b: Params, p: Params, facts: Facts)
    requires Bare(b) && p == b.(location := Some(Str("hello.there")), includes := Include(Some(false), Some(true))) && facts.codename == Some("stretch")
    ensures !p.pin.PinFlag? && p.sourceFormat == None && p.ensure == Present && HasLocation(p)
    ensures ResolveRelease(p, facts) == Some(Str("stretch")) && "list-" + p.title == "list-my_source" && p.notifyUpdate != Some(false)
    ensures PinOf(p) == None && KeyOf(p) == None
  {
  }

  /** Only the `deb-src` line; whatever the `architecture` fact says, no option. */
  lemma SourceOnly(b: Params, p: Params, facts: Facts)
    requires Bare(b) && p == b.(location := Some(Str("hello.there")), includes := Include(Some(false), Some(true))) && facts.codename == Some("stretch")
    ensures Declare(p, facts) == Success(Declaration(Setting("list-my_source", Present, Some(Unlines(["# my_source", Join(["deb-src", "hello.there", "stretch", "main"], " ")])), true), None, None))
  {
    SourceOnlyParts(b, p);
    SourceOnlyLines(p);
    SourceOnlyGiven(b, p, facts);
    ListDeclared(p, facts, Str("stretch"), ["# my_source", Join(["deb-src", "hello.there", "stretch", "main"], " ")], "list-my_source", true, None, None);
  }

  lemma IncludeSourceParts(b: Params, p: Params)
    requires Bare(b) && p == b.(location := Some(Str("hello.there")), includes := Include(None, Some(true)))
    ensures OptionTable(p) == []
    ensures "# " + Comment(p) == "# my_source" && LegacyComponents(p, "stretch") == "main"
    ensures p.location.Some? && Flat(p.location.value) == "hello.there" && IncludeDeb(p) && IncludeSrc(p)
  {
    NoOptionsSet(p);
  }

  lemma IncludeSourceLines(p: Params)
    requires OptionTable(p) == []
    requires "# " + Comment(p) == "# my_source" && LegacyComponents(p, "stretch") == "main"
    requires p.location.Some? && Flat(p.location.value) == "hello.there" && IncludeDeb(p) && IncludeSrc(p)
    ensures LegacyLines(p, Str("stretch")) == ["# my_source", Join(["deb", "hello.there", "stretch", "main"], " "), Join(["deb-src", "hello.there", "stretch", "main"], " ")]
  {
    LegacyLinesOf(p, Str("stretch"));
    PlainEntry("deb", OptionTable(p), "hello.there", "stretch", "main");
    PlainEntry("deb-src", OptionTable(p), "hello.there", "stretch", "main");
    assert ["# my_source"] + [Entry("deb", OptionTable(p), "hello.there", "stretch", "main")] + [Entry("deb-src", OptionTable(p), "hello.there", "stretch", "main")]
      == ["# my_source", Join(["deb", "hello.there", "stretch", "main"], " "), Join(["deb-src", "hello.there", "stretch", "main"], " ")];
  }

  lemma IncludeSourceGiven(b: Params, p: Params, facts: Facts)
    requires Bare(b) && p == b.(location := Some(Str("hello.there")), includes := Include(None, Some(true))) && facts.codename == Some("stretch")
    ensures !p.pin.PinFlag? && p.sourceFormat == None && p.ensure == Present && HasLocation(p)
    ensures ResolveRelease(p, facts) == Some(Str("stretch")) && "list-" + p.title == "list-my_source" && p.notifyUpdate != Some(false)
    ensures PinOf(p) == None && KeyOf(p) == None
  {
  }

  /** `include => { src => true }`: the `deb` line, then the `deb-src` line. */
  lemma IncludeSource(b: Params, p: Params, facts: Facts)
    requires Bare(b) && p == b.(location := Some(Str("hello.there")), includes := Include(None, Some(true))) && facts.codename == Some("stretch")
    ensures Declare(p, facts) == Success(Declaration(Setting("list-my_source", Present, Some(Unlines(["# my_source", Join(["deb", "hello.there", "stretch", "main"], " "), Join(["deb-src", "hello.there", "stretch", "main"], " ")])), true), None, None))
  {
    IncludeSourceParts(b, p);
    IncludeSourceLines(p);
    IncludeSourceGiven(b, p, facts);
    ListDeclared(p, facts, Str("stretch"), ["# my_source", Join(["deb", "hello.there", "stretch", "main"], " "), Join(["deb-src", "hello.there", "stretch", "main"], " ")], "list-my_source", true, None, None);
  }

  lemma IncludeNoDebParts(b: Params, p: Params)
    requires Bare(b) && p == b.(location := Some(Str("hello.there")), includes := Include(Some(false), None))
    ensures OptionTable(p) == []
    ensures "# " + Comment(p) == "# my_source" && LegacyComponents(p, "stretch") == "main"
    ensures p.location.Some? && Flat(p.location.value) == "hello.there" && !IncludeDeb(p) && !IncludeSrc(p)
  {
    NoOptionsSet(p);
  }

  lemma IncludeNoDebLines(p: Params)
    requires OptionTable(p) == []
    requires "# " + Comment(p) == "# my_source" && LegacyComponents(p, "stretch") == "main"
    requires p.location.Some? && Flat(p.location.value) == "hello.there" && !IncludeDeb(p) && !IncludeSrc(p)
    ensures LegacyLines(p, Str("stretch")) == ["# my_source"]
  {
    LegacyLinesOf(p, Str("stretch"));
    assert ["# my_source"] + [] + []
      == ["# my_source"];
  }

  lemma IncludeNoDebGiven(b: Params, p: Params, facts: Facts)
    requires Bare(b) && p == b.(location := Some(Str("hello.there")), includes := Include(Some(false), None)) && facts.codename == Some("stretch")
    ensures !p.pin.PinFlag? && p.sourceFormat == None && p.ensure == Present && HasLocation(p)
    ensures ResolveRelease(p, facts) == Some(Str("stretch")) && "list-" + p.title == "list-my_source" && p.notifyUpdate != Some(false)
    ensures PinOf(p) == None && KeyOf(p) == None
  {
  }

  /** `include => { deb => false }`: no line but the comment. */
  lemma IncludeNoDeb(b: Params, p: Params, facts: Facts)
    requires Bare(b) && p == b.(location := Some(Str("hello.there")), includes := Include(Some(false), None)) && facts.codename == Some("stretch")
    ensures Declare(p, facts) == Success(Declaration(Setting("list-my_source", Present, Some(Unlines(["# my_source"])), true), None, None))
  {
    IncludeNoDebParts(b, p);
    IncludeNoDebLines(p);
    IncludeNoDebGiven(b, p, facts);
    ListDeclared(p, facts, Str("stretch"), ["# my_source"], "list-my_source", true, None, None);
  }

  lemma EmptyReleaseParts(b: Params, p: Params)
    requires Bare(b) && p == b.(location := Some(Str("hello.there")), release := Some(Str("")))
    ensures OptionTable(p) == []
    ensures "# " + Comment(p) == "# my_source" && LegacyComponents(p, "") == "main"
    ensures p.location.Some? && Flat(p.location.value) == "hello.there" && IncludeDeb(p) && !IncludeSrc(p)
  {
    NoOptionsSet(p);
  }

  lemma EmptyReleaseLines(p: Params)
    requires OptionTable(p) == []
    requires "# " + Comment(p) == "# my_source" && LegacyComponents(p, "") == "main"
    requires p.location.Some? && Flat(p.location.value) == "hello.there" && IncludeDeb(p) && !IncludeSrc(p)
    ensures LegacyLines(p, Str("")) == ["# my_source", Join(["deb", "hello.there", "", "main"], " ")]
  {
    LegacyLinesOf(p, Str(""));
    PlainEntry("deb", OptionTable(p), "hello.there", "", "main");
    assert ["# my_source"] + [Entry("deb", OptionTable(p), "hello.there", "", "main")] + []
      == ["# my_source", Join(["deb", "hello.there", "", "main"], " ")];
  }

  lemma EmptyReleaseGiven(b: Params, p: Params, facts: Facts)
    requires Bare(b) && p == b.(location := Some(Str("hello.there")), release := Some(Str("")))
    ensures !p.pin.PinFlag? && p.sourceFormat == None && p.ensure == Present && HasLocation(p)
    ensures ResolveRelease(p, facts) == Some(Str("")) && "list-" + p.title == "list-my_source" && p.notifyUpdate != Some(false)
    ensures PinOf(p) == None && KeyOf(p) == None
  {
  }

  /** An empty release is written as is, between the location and the components. */
  lemma EmptyRelease(b: Params, p: Params, facts: Facts)
    requires Bare(b) && p == b.(location := Some(Str("hello.there")), release := Some(Str("")))
    ensures Declare(p, facts) == Success(Declaration(Setting("list-my_source", Present, Some(Unlines(["# my_source", Join(["deb", "hello.there", "", "main"], " ")])), true), None, None))
  {
    EmptyReleaseParts(b, p);
    EmptyReleaseLines(p);
    EmptyReleaseGiven(b, p, facts);
    ListDeclared(p, facts, Str(""), ["# my_source", Join(["deb", "hello.there", "", "main"], " ")], "list-my_source", true, None, None);
  }

  lemma SlashReleaseParts(b: Params, p: Params)
    requires Bare(b) && p == b.(location := Some(Str("hello.there")), release := Some(Str("/")))
    ensures OptionTable(p) == []
    ensures "# " + Comment(p) == "# my_source" && LegacyComponents(p, "/") == ""
    ensures p.location.Some? && Flat(p.location.value) == "hello.there" && IncludeDeb(p) && !IncludeSrc(p)
  {
    NoOptionsSet(p);
  }

  lemma SlashReleaseLines(p: Params)
    requires OptionTable(p) == []
    requires "# " + Comment(p) == "# my_source" && LegacyComponents(p, "/") == ""
    requires p.location.Some? && Flat(p.location.value) == "hello.there" && IncludeDeb(p) && !IncludeSrc(p)
    ensures LegacyLines(p, Str("/")) == ["# my_source", Join(["deb", "hello.there", "/"], " ")]
  {
    LegacyLinesOf(p, Str("/"));
    PlainEntry("deb", OptionTable(p), "hello.there", "/", "");
    assert ["# my_source"] + [Entry("deb", OptionTable(p), "hello.there", "/", "")] + []
      == ["# my_source", Join(["deb", "hello.there", "/"], " ")];
  }

  lemma SlashReleaseGiven(b: Params, p: Params, facts: Facts)
    requires Bare(b) && p == b.(location := Some(Str("hello.there")), release := Some(Str("/")))
    ensures !p.pin.PinFlag? && p.sourceFormat == None && p.ensure == Present && HasLocation(p)
    ensures ResolveRelease(p, facts) == Some(Str("/")) && "list-" + p.title == "list-my_source" && p.notifyUpdate != Some(false)
    ensures PinOf(p) == None && KeyOf(p) == None
  {
  }

  /** A release `/` names the root of a flat repository, so (as this model
      reads it) no components follow it: the whole entry is `deb hello.there /`. */
  lemma SlashReleaseFlat(b: Params, p: Params, facts: Facts)
    requires Bare(b) && p == b.(location := Some(Str("hello.there")), release := Some(Str("/")))
    ensures Declare(p, facts) == Success(Declaration(Setting("list-my_source", Present, Some(Unlines(["# my_source", Join(["deb", "hello.there", "/"], " ")])), true), None, None))
  {
    SlashReleaseParts(b, p);
    SlashReleaseLines(p);
    SlashReleaseGiven(b, p, facts);
    ListDeclared(p, facts, Str("/"), ["# my_source", Join(["deb", "hello.there", "/"], " ")], "list-my_source", true, None, None);
  }

  lemma FlatReleaseParts(b: Params, p: Params)
    requires Bare(b) && p == b.(location := Some(Str("hello.there")), release := Some(Str("test/")))
    ensures OptionTable(p) == []
    ensures "# " + Comment(p) == "# my_source" && LegacyComponents(p, "test/") == ""
    ensures p.location.Some? && Flat(p.location.value) == "hello.there" && IncludeDeb(p) && !IncludeSrc(p)
  {
    NoOptionsSet(p);
  }

  lemma FlatReleaseLines(p: Params)
    requires OptionTable(p) == []
    requires "# " + Comment(p) == "# my_source" && LegacyComponents(p, "test/") == ""
    requires p.location.Some? && Flat(p.location.value) == "hello.there" && IncludeDeb(p) && !IncludeSrc(p)
    ensures LegacyLines(p, Str("test/")) == ["# my_source", Join(["deb", "hello.there", "test/"], " ")]
  {
    LegacyLinesOf(p, Str("test/"));
    PlainEntry("deb", OptionTable(p), "hello.there", "test/", "");
    assert ["# my_source"] + [Entry("deb", OptionTable(p), "hello.there", "test/", "")] + []
      == ["# my_source", Join(["deb", "hello.there", "test/"], " ")];
  }

  lemma FlatReleaseGiven(b: Params, p: Params, facts: Facts)
    requires Bare(b) && p == b.(location := Some(Str("hello.there")), release := Some(Str("test/")))
    ensures !p.pin.PinFlag? && p.sourceFormat == None && p.ensure == Present && HasLocation(p)
    ensures ResolveRelease(p, facts) == Some(Str("test/")) && "list-" + p.title == "list-my_source" && p.notifyUpdate != Some(false)
    ensures PinOf(p) == None && KeyOf(p) == None
  {
  }

  /** A release ending in `/` names a flat repository, so (as this model
      reads it) no components follow it: the whole entry is `deb hello.there test/`. */
  lemma FlatReleaseFlat(b: Params, p: Params, facts: Facts)
    requires Bare(b) && p == b.(location := Some(Str("hello.there")), release := Some(Str("test/")))
    ensures Declare(p, facts) == Success(Declaration(Setting("list-my_source", Present, Some(Unlines(["# my_source", Join(["deb", "hello.there", "test/"], " ")])), true), None, None))
  {
    FlatReleaseParts(b, p);
    FlatReleaseLines(p);
    FlatReleaseGiven(b, p, facts);
    ListDeclared(p, facts, Str("test/"), ["# my_source", Join(["deb", "hello.there", "test/"], " ")], "list-my_source", true, None, None);
  }

  /** The text of a comment line and one entry holds the entry's location
      and release, one space apart. */
  lemma EntryNamesLocationAndRelease(comment: string, kind: string, loc: string, rel: string)
    ensures Contains(Unlines([comment, Join([kind, loc, rel], " ")]), loc + " " + rel)
  {
    assert [kind, loc, rel][1..] == [loc, rel] && [loc, rel][1..] == [rel];
    assert Join([loc, rel], " ") == loc + " " + rel;
    var line := Join([kind, loc, rel], " ");
    assert line == kind + " " + (loc + " " + rel);
    assert [comment, line][1..] == [line] && [line][1..] == [];
    assert Unlines([line]) == line + "\n";
    assert Unlines([comment, line]) == comment + "\n" + (kind + " " + (loc + " " + rel) + "\n");
    assert Unlines([comment, line]) == (comment + "\n" + kind + " ") + (loc + " " + rel) + "\n";
    ContainsInfix(comment + "\n" + kind + " ", loc + " " + rel, "\n");
  }

  /** A one-entry `list-my_source` declaration holds `t`, its location and release one space apart. */
  lemma DeclaredWithLocationAndRelease(d: Result<Declaration, SourceError>, loc: string, rel: string, t: string)
    requires d == Success(Declaration(Setting("list-my_source", Present, Some(Unlines(["# my_source", Join(["deb", loc, rel], " ")])), true), None, None))
    requires loc + " " + rel == t
    ensures d.Success? && d.value.setting.name == "list-my_source"
    ensures d.value.setting.content.Some? && Contains(d.value.setting.content.value, t)
  {
    EntryNamesLocationAndRelease("# my_source", "deb", loc, rel);
  }

  lemma ReleaseTexts()
    ensures "hello.there" + " " + "/" == "hello.there /"
    ensures "hello.there" + " " + "test/" == "hello.there test/"
  {
  }

  /** With release `/` the entry's content holds `hello.there /`. */
  lemma SlashRelease(b: Params, p: Params, facts: Facts)
    requires Bare(b) && p == b.(location := Some(Str("hello.there")), release := Some(Str("/")))
    ensures Declare(p, facts).Success? && Declare(p, facts).value.setting.name == "list-my_source"
    ensures Declare(p, facts).value.setting.content.Some?
    ensures Contains(Declare(p, facts).value.setting.content.value, "hello.there /")
  {
    SlashReleaseFlat(b, p, facts);
    ReleaseTexts();
    DeclaredWithLocationAndRelease(Declare(p, facts), "hello.there", "/", "hello.there /");
  }

  /** With release `test/` the entry's content holds `hello.there test/`. */
  lemma FlatRelease(b: Params, p: Params, facts: Facts)
    requires Bare(b) && p == b.(location := Some(Str("hello.there")), release := Some(Str("test/")))
    ensures Declare(p, facts).Success? && Declare(p, facts).value.setting.name == "list-my_source"
    ensures Declare(p, facts).value.setting.content.Some?
    ensures Contains(Declare(p, facts).value.setting.content.value, "hello.there test/")
  {
    FlatReleaseFlat(b, p, facts);
    ReleaseTexts();
    DeclaredWithLocationAndRelease(Declare(p, facts), "hello.there", "test/", "hello.there test/");
  }

  lemma PathReleaseParts(b: Params, p: Params)
    requires Bare(b) && p == b.(location := Some(Str("hello.there")), release := Some(Str("test/test")))
    ensures OptionTable(p) == []
    ensures "# " + Comment(p) == "# my_source" && LegacyComponents(p, "test/test") == "main"
    ensures p.location.Some? && Flat(p.location.value) == "hello.there" && IncludeDeb(p) && !IncludeSrc(p)
  {
    NoOptionsSet(p);
  }

  lemma PathReleaseLines(p: Params)
    requires OptionTable(p) == []
    requires "# " + Comment(p) == "# my_source" && LegacyComponents(p, "test/test") == "main"
    requires p.location.Some? && Flat(p.location.value) == "hello.there" && IncludeDeb(p) && !IncludeSrc(p)
    ensures LegacyLines(p, Str("test/test")) == ["# my_source", Join(["deb", "hello.there", "test/test", "main"], " ")]
  {
    LegacyLinesOf(p, Str("test/test"));
    PlainEntry("deb", OptionTable(p), "hello.there", "test/test", "main");
    assert ["# my_source"] + [Entry("deb", OptionTable(p), "hello.there", "test/test", "main")] + []
      == ["# my_source", Join(["deb", "hello.there", "test/test", "main"], " ")];
  }

  lemma PathReleaseGiven(b: Params, p: Params, facts: Facts)
    requires Bare(b) && p == b.(location := Some(Str("hello.there")), release := Some(Str("test/test")))
    ensures !p.pin.PinFlag? && p.sourceFormat == None && p.ensure == Present && HasLocation(p)
    ensures ResolveRelease(p, facts) == Some(Str("test/test")) && "list-" + p.title == "list-my_source" && p.notifyUpdate != Some(false)
    ensures PinOf(p) == None && KeyOf(p) == None
  {
  }

  /** A release with an inner `/` keeps its components. */
  lemma PathRelease(b: Params, p: Params, facts: Facts)
    requires Bare(b) && p == b.(location := Some(Str("hello.there")), release := Some(Str("test/test")))
    ensures Declare(p, facts) == Success(Declaration(Setting("list-my_source", Present, Some(Unlines(["# my_source", Join(["deb", "hello.there", "test/test", "main"], " ")])), true), None, None))
  {
    PathReleaseParts(b, p);
    PathReleaseLines(p);
    PathReleaseGiven(b, p, facts);
    ListDeclared(p, facts, Str("test/test"), ["# my_source", Join(["deb", "hello.there", "test/test", "main"], " ")], "list-my_source", true, None, None);
  }

  lemma ComplexPinParts(b: Params, p: Params)
    requires Bare(b) && p == b.(location := Some(Str("hello.there")), pin := PinMap(PinHash(Some("wishwash"), Some("wishwash"), Some(Num(1001)), None, None, None)))
    ensures OptionTable(p) == []
    ensures "# " + Comment(p) == "# my_source" && LegacyComponents(p, "stretch") == "main"
    ensures p.location.Some? && Flat(p.location.value) == "hello.there" && IncludeDeb(p) && !IncludeSrc(p)
  {
    NoOptionsSet(p);
  }

  lemma ComplexPinLines(p: Params)
    requires OptionTable(p) == []
    requires "# " + Comment(p) == "# my_source" && LegacyComponents(p, "stretch") == "main"
    requires p.location.Some? && Flat(p.location.value) == "hello.there" && IncludeDeb(p) && !IncludeSrc(p)
    ensures LegacyLines(p, Str("stretch")) == ["# my_source", Join(["deb", "hello.there", "stretch", "main"], " ")]
  {
    LegacyLinesOf(p, Str("stretch"));
    PlainEntry("deb", OptionTable(p), "hello.there", "stretch", "main");
    assert ["# my_source"] + [Entry("deb", OptionTable(p), "hello.there", "stretch", "main")] + []
      == ["# my_source", Join(["deb", "hello.there", "stretch", "main"], " ")];
  }

  lemma ComplexPinGiven(b: Params, p: Params, facts: Facts)
    requires Bare(b) && p == b.(location := Some(Str("hello.there")), pin := PinMap(PinHash(Some("wishwash"), Some("wishwash"), Some(Num(1001)), None, None, None))) && facts.codename == Some("stretch")
    ensures !p.pin.PinFlag? && p.sourceFormat == None && p.ensure == Present && HasLocation(p)
    ensures ResolveRelease(p, facts) == Some(Str("stretch")) && "list-" + p.title == "list-my_source" && p.notifyUpdate != Some(false)
  {
  }

  lemma ComplexPinDirectives(b: Params, p: Params)
    requires Bare(b) && p == b.(location := Some(Str("hello.there")), pin := PinMap(PinHash(Some("wishwash"), Some("wishwash"), Some(Num(1001)), None, None, None)))
    ensures PinOf(p) == Some(PinDirective("my_source", Present, Some(Num(1001)), None, Some("wishwash"), Some("wishwash"), None, None)) && KeyOf(p) == None
  {
  }

  /** A pin hash is handed on to `apt::pin` as it is, with the entry's `ensure`. */
  lemma ComplexPin(b: Params, p: Params, facts: Facts)
    requires Bare(b) && p == b.(location := Some(Str("hello.there")), pin := PinMap(PinHash(Some("wishwash"), Some("wishwash"), Some(Num(1001)), None, None, None))) && facts.codename == Some("stretch")
    ensures Declare(p, facts)
      == Success(Declaration(
           Setting("list-my_source", Present, Some(Unlines(["# my_source", Join(["deb", "hello.there", "stretch", "main"], " ")])), true),
           Some(PinDirective("my_source", Present, Some(Num(1001)), None, Some("wishwash"), Some("wishwash"), None, None)), None))
  {
    ComplexPinParts(b, p);
    ComplexPinLines(p);
    ComplexPinGiven(b, p, facts);
    ComplexPinDirectives(b, p);
    ListDeclared(p, facts, Str("stretch"), ["# my_source", Join(["deb", "hello.there", "stretch", "main"], " ")], "list-my_source", true, Some(PinDirective("my_source", Present, Some(Num(1001)), None, Some("wishwash"), Some("wishwash"), None, None)), None);
  }

  lemma SimpleKeyClause(p: Params)
    requires p.architecture == Some(Str("x86_64")) && p.allowUnsigned == Some(true) && p.checkValidUntil == None && p.allowInsecure == None && p.keyring == None
    ensures OptionWords(OptionTable(p)) == ["[arch=x86_64 trusted=yes]"]
  {
    var t := [Arch(["x86_64"]), Trusted];
    OptionTableSpelledOut(p);
    assert OptionTable(p) == t;
    assert LegacyToken(t[0]) == "arch=x86_64";
    assert LegacyToken(t[1]) == "trusted=yes";
    assert LegacyTokens(t) == ["arch=x86_64", "trusted=yes"];
    ClauseOf(t, ["arch=x86_64", "trusted=yes"]);
    BracketArchTrusted();
  }

  lemma SimpleKeyParts(b: Params, p: Params, loc: string)
    requires Bare(b) && p == b.(comment := Some("foo"), location := Some(Str(loc)), release := Some(Str("sid")), repos := Some(Str("testing")), key := KeyId(Id), pin := PinPriority(Word("10")), architecture := Some(Str("x86_64")), allowUnsigned := Some(true))
    ensures OptionWords(OptionTable(p)) == ["[arch=x86_64 trusted=yes]"]
    ensures "# " + Comment(p) == "# foo" && LegacyComponents(p, "sid") == "testing"
    ensures p.location.Some? && Flat(p.location.value) == loc && IncludeDeb(p) && !IncludeSrc(p)
  {
    SimpleKeyClause(p);
  }

  lemma SimpleKeyLines(p: Params, loc: string)
    requires OptionWords(OptionTable(p)) == ["[arch=x86_64 trusted=yes]"]
    requires "# " + Comment(p) == "# foo" && LegacyComponents(p, "sid") == "testing"
    requires p.location.Some? && Flat(p.location.value) == loc && IncludeDeb(p) && !IncludeSrc(p)
    ensures LegacyLines(p, Str("sid")) == ["# foo", Join(["deb", "[arch=x86_64 trusted=yes]", loc, "sid", "testing"], " ")]
  {
    LegacyLinesOf(p, Str("sid"));
    OptionEntry("deb", OptionTable(p), "[arch=x86_64 trusted=yes]", loc, "sid", "testing");
    assert ["# foo"] + [Entry("deb", OptionTable(p), loc, "sid", "testing")] + []
      == ["# foo", Join(["deb", "[arch=x86_64 trusted=yes]", loc, "sid", "testing"], " ")];
  }

  lemma SimpleKeyGiven(b: Params, p: Params, facts: Facts)
    requires Bare(b) && p == b.(comment := Some("foo"), location := Some(Str(Mirror)), release := Some(Str("sid")), repos := Some(Str("testing")), key := KeyId(Id), pin := PinPriority(Word("10")), architecture := Some(Str("x86_64")), allowUnsigned := Some(true))
    ensures !p.pin.PinFlag? && p.sourceFormat == None && p.ensure == Present && HasLocation(p)
    ensures ResolveRelease(p, facts) == Some(Str("sid")) && "list-" + p.title == "list-my_source" && p.notifyUpdate != Some(false)
  {
  }

  lemma SimpleKeyDirectives(b: Params, p: Params)
    requires Bare(b) && p == b.(comment := Some("foo"), location := Some(Str(Mirror)), release := Some(Str("sid")), repos := Some(Str("testing")), key := KeyId(Id), pin := PinPriority(Word("10")), architecture := Some(Str("x86_64")), allowUnsigned := Some(true))
    ensures PinOf(p) == Some(PinDirective("my_source", Present, Some(Word("10")), Some("debian.mirror.iweb.ca"), None, None, None, None)) && KeyOf(p) == Some(KeyDirective(SourceKeyName, KeyPresent, Id, None, None, None, None, None))
  {
    MirrorPinAndKey(p);
  }

  /** A key id and a bare pin priority: the options, the mirror's host as pin origin, and the key to add. */
  lemma SimpleKey(b: Params, p: Params, facts: Facts)
    requires Bare(b) && p == b.(comment := Some("foo"), location := Some(Str(Mirror)), release := Some(Str("sid")), repos := Some(Str("testing")), key := KeyId(Id), pin := PinPriority(Word("10")), architecture := Some(Str("x86_64")), allowUnsigned := Some(true))
    ensures Declare(p, facts)
      == Success(Declaration(
           Setting("list-my_source", Present, Some(Unlines(["# foo", Join(["deb", "[arch=x86_64 trusted=yes]", Mirror, "sid", "testing"], " ")])), true),
           Some(PinDirective("my_source", Present, Some(Word("10")), Some("debian.mirror.iweb.ca"), None, None, None, None)), Some(KeyDirective(SourceKeyName, KeyPresent, Id, None, None, None, None, None))))
  {
    SimpleKeyParts(b, p, Mirror);
    SimpleKeyLines(p, Mirror);
    SimpleKeyGiven(b, p, facts);
    SimpleKeyDirectives(b, p);
    ListDeclared(p, facts, Str("sid"), ["# foo", Join(["deb", "[arch=x86_64 trusted=yes]", Mirror, "sid", "testing"], " ")], "list-my_source", true, Some(PinDirective("my_source", Present, Some(Word("10")), Some("debian.mirror.iweb.ca"), None, None, None, None)), Some(KeyDirective(SourceKeyName, KeyPresent, Id, None, None, None, None, None)));
  }

  lemma ComplexKeyParts(b: Params, p: Params, loc: string)
    requires Bare(b) && p == b.(comment := Some("foo"), location := Some(Str(loc)), release := Some(Str("sid")), repos := Some(Str("testing")), key := KeyMap(KeyHash(Id, Some(KeyRefreshed), Some("pgp.mit.edu"), Some("GPG key content"), Some("http://apt.puppetlabs.com/pubkey.gpg"), Some(true), None)), pin := PinPriority(Word("10")), architecture := Some(Str("x86_64")), allowUnsigned := Some(true))
    ensures OptionWords(OptionTable(p)) == ["[arch=x86_64 trusted=yes]"]
    ensures "# " + Comment(p) == "# foo" && LegacyComponents(p, "sid") == "testing"
    ensures p.location.Some? && Flat(p.location.value) == loc && IncludeDeb(p) && !IncludeSrc(p)
  {
    SimpleKeyClause(p);
  }

  lemma ComplexKeyLines(p: Params, loc: string)
    requires OptionWords(OptionTable(p)) == ["[arch=x86_64 trusted=yes]"]
    requires "# " + Comment(p) == "# foo" && LegacyComponents(p, "sid") == "testing"
    requires p.location.Some? && Flat(p.location.value) == loc && IncludeDeb(p) && !IncludeSrc(p)
    ensures LegacyLines(p, Str("sid")) == ["# foo", Join(["deb", "[arch=x86_64 trusted=yes]", loc, "sid", "testing"], " ")]
  {
    LegacyLinesOf(p, Str("sid"));
    OptionEntry("deb", OptionTable(p), "[arch=x86_64 trusted=yes]", loc, "sid", "testing");
    assert ["# foo"] + [Entry("deb", OptionTable(p), loc, "sid", "testing")] + []
      == ["# foo", Join(["deb", "[arch=x86_64 trusted=yes]", loc, "sid", "testing"], " ")];
  }

  lemma ComplexKeyGiven(b: Params, p: Params, facts: Facts)
    requires Bare(b) && p == b.(comment := Some("foo"), location := Some(Str(Mirror)), release := Some(Str("sid")), repos := Some(Str("testing")), key := KeyMap(KeyHash(Id, Some(KeyRefreshed), Some("pgp.mit.edu"), Some("GPG key content"), Some("http://apt.puppetlabs.com/pubkey.gpg"), Some(true), None)), pin := PinPriority(Word("10")), architecture := Some(Str("x86_64")), allowUnsigned := Some(true))
    ensures !p.pin.PinFlag? && p.sourceFormat == None && p.ensure == Present && HasLocation(p)
    ensures ResolveRelease(p, facts) == Some(Str("sid")) && "list-" + p.title == "list-my_source" && p.notifyUpdate != Some(false)
  {
  }

  lemma ComplexKeyDirectives(b: Params, p: Params)
    requires Bare(b) && p == b.(comment := Some("foo"), location := Some(Str(Mirror)), release := Some(Str("sid")), repos := Some(Str("testing")), key := KeyMap(KeyHash(Id, Some(KeyRefreshed), Some("pgp.mit.edu"), Some("GPG key content"), Some("http://apt.puppetlabs.com/pubkey.gpg"), Some(true), None)), pin := PinPriority(Word("10")), architecture := Some(Str("x86_64")), allowUnsigned := Some(true))
    ensures PinOf(p) == Some(PinDirective("my_source", Present, Some(Word("10")), Some("debian.mirror.iweb.ca"), None, None, None, None)) && KeyOf(p) == Some(KeyDirective(SourceKeyName, KeyRefreshed, Id, Some("pgp.mit.edu"), Some("GPG key content"), Some("http://apt.puppetlabs.com/pubkey.gpg"), Some(true), None))
  {
    MirrorPinAndHashKey(p);
  }

  /** A key hash is handed on to `apt::key`, with its own `ensure`. */
  lemma ComplexKey(b: Params, p: Params, facts: Facts)
    requires Bare(b) && p == b.(comment := Some("foo"), location := Some(Str(Mirror)), release := Some(Str("sid")), repos := Some(Str("testing")), key := KeyMap(KeyHash(Id, Some(KeyRefreshed), Some("pgp.mit.edu"), Some("GPG key content"), Some("http://apt.puppetlabs.com/pubkey.gpg"), Some(true), None)), pin := PinPriority(Word("10")), architecture := Some(Str("x86_64")), allowUnsigned := Some(true))
    ensures Declare(p, facts)
      == Success(Declaration(
           Setting("list-my_source", Present, Some(Unlines(["# foo", Join(["deb", "[arch=x86_64 trusted=yes]", Mirror, "sid", "testing"], " ")])), true),
           Some(PinDirective("my_source", Present, Some(Word("10")), Some("debian.mirror.iweb.ca"), None, None, None, None)), Some(KeyDirective(SourceKeyName, KeyRefreshed, Id, Some("pgp.mit.edu"), Some("GPG key content"), Some("http://apt.puppetlabs.com/pubkey.gpg"), Some(true), None))))
  {
    ComplexKeyParts(b, p, Mirror);
    ComplexKeyLines(p, Mirror);
    ComplexKeyGiven(b, p, facts);
    ComplexKeyDirectives(b, p);
    ListDeclared(p, facts, Str("sid"), ["# foo", Join(["deb", "[arch=x86_64 trusted=yes]", Mirror, "sid", "testing"], " ")], "list-my_source", true, Some(PinDirective("my_source", Present, Some(Word("10")), Some("debian.mirror.iweb.ca"), None, None, None, None)), Some(KeyDirective(SourceKeyName, KeyRefreshed, Id, Some("pgp.mit.edu"), Some("GPG key content"), Some("http://apt.puppetlabs.com/pubkey.gpg"), Some(true), None)));
  }

}

/** The `apt::source` defined type: from its parameters and the host's facts
    to the `apt::setting` it declares (a `sources.list` entry or a deb822
    stanza), together with the pin and the key it hands on. */
module AptSource {
  import opened Wrappers
  import opened Strings
  import Deb822

  // ---------------------------------------------------------------------------
  // Parameters

  datatype Ensure = Present | Absent

  /** `source_format`: `list` is the one-line format, `sources` is deb822. */
  datatype Format = List | Sources

  /** A parameter that takes a string or an array of strings. */
  datatype Text = Str(s: string) | Strs(items: seq<string>)

  /** A pin priority, given as a number or as a string. */
  datatype Scalar = Num(n: int) | Word(w: string)

  /** A pin given as a hash: its entries go to `apt::pin` unchanged. */
  datatype PinHash = PinHash(
    release: Option<string>,
    explanation: Option<string>,
    priority: Option<Scalar>,
    origin: Option<string>,
    version: Option<string>,
    packages: Option<string>)

  /** `pin`: unset, a boolean (refused), a bare priority, or a hash. */
  datatype Pin = NoPin | PinFlag(flag: bool) | PinPriority(priority: Scalar) | PinMap(fields: PinHash)

  datatype KeyEnsure = KeyPresent | KeyAbsent | KeyRefreshed

  /** A key given as a hash: its entries go to `apt::key` unchanged. */
  datatype KeyHash = KeyHash(
    id: string,
    ensure: Option<KeyEnsure>,
    server: Option<string>,
    content: Option<string>,
    source: Option<string>,
    weakSsl: Option<bool>,
    options: Option<string>)

  /** `key`: unset, a key id, or a hash. */
  datatype Key = NoKey | KeyId(id: string) | KeyMap(fields: KeyHash)

  /** `include`: which of the two legacy lines to write; unset entries take their defaults. */
  datatype Include = Include(deb: Option<bool>, src: Option<bool>)

  datatype Params = Params(
    title: string,
    ensure: Ensure,
    sourceFormat: Option<string>,
    comment: Option<string>,
    location: Option<Text>,
    release: Option<Text>,
    repos: Option<Text>,
    architecture: Option<Text>,
    types: Option<seq<string>>,
    includes: Include,
    allowUnsigned: Option<bool>,
    allowInsecure: Option<bool>,
    checkValidUntil: Option<bool>,
    keyring: Option<string>,
    key: Key,
    pin: Pin,
    notifyUpdate: Option<bool>)

  /** The facts the define reads: `os.distro.codename` and `architecture`. */
  datatype Facts = Facts(codename: Option<string>, architecture: Option<string>)

  // ---------------------------------------------------------------------------
  // What the define declares

  /** The `apt::setting`; `content` is only rendered for a present entry. */
  datatype Setting = Setting(name: string, ensure: Ensure, content: Option<string>, notifyUpdate: bool)

  /** The `apt::pin` resource, named after the entry's title. */
  datatype PinDirective = PinDirective(
    name: string,
    ensure: Ensure,
    priority: Option<Scalar>,
    origin: Option<string>,
    release: Option<string>,
    explanation: Option<string>,
    version: Option<string>,
    packages: Option<string>)

  datatype KeyDirective = KeyDirective(
    name: string,
    ensure: KeyEnsure,
    id: string,
    server: Option<string>,
    content: Option<string>,
    source: Option<string>,
    weakSsl: Option<bool>,
    options: Option<string>)

  datatype Declaration = Declaration(setting: Setting, pin: Option<PinDirective>, key: Option<KeyDirective>)

  datatype SourceError = MissingLocation | MissingRelease(fact: string) | InvalidPin | UnknownFormat(format: string)

  const CodenameFact := "os.distro.codename"

  function Message(e: SourceError): string {
    match e
    case MissingLocation => "cannot create a " + "source entry without specifying a location"
    case MissingRelease(fact) => fact + " fact not available: release parameter required"
    case InvalidPin => "parameter 'pin' " + "expects a value" + " of type Undef, Hash, Numeric, or String, got Boolean"
    case UnknownFormat(f) => "parameter 'source_format' expects a match for Enum['list', 'sources'], got '" + f + "'"
  }

  // ---------------------------------------------------------------------------
  // Defaults

  function Items(t: Text): seq<string> {
    match t
    case Str(s) => [s]
    case Strs(xs) => xs
  }

  /** A string parameter verbatim, an array parameter space-joined. */
  function Flat(t: Text): string {
    Join(Items(t), " ")
  }

  function GetOr<T>(o: Option<T>, default: T): T {
    match o
    case Some(v) => v
    case None => default
  }

  function IncludeDeb(p: Params): bool { GetOr(p.includes.deb, true) }

  function IncludeSrc(p: Params): bool { GetOr(p.includes.src, false) }

  function Comment(p: Params): string { GetOr(p.comment, p.title) }

  function Repos(p: Params): Text { GetOr(p.repos, Str("main")) }

  /** `deb` and `deb-src`, in that order, as `include` selects them. */
  function DefaultTypes(p: Params): seq<string> {
    (if IncludeDeb(p) then ["deb"] else []) + (if IncludeSrc(p) then ["deb-src"] else [])
  }

  function ParseFormat(f: Option<string>): (r: Option<Format>)
    ensures r == Some(List) <==> f == None || f == Some("list")
    ensures r == Some(Sources) <==> f == Some("sources")
  {
    match f
    case None => Some(List)
    case Some(s) => if s == "list" then Some(List) else if s == "sources" then Some(Sources) else None
  }

  /** A present entry needs at least one location. */
  predicate HasLocation(p: Params) {
    p.location.Some? && Items(p.location.value) != []
  }

  /** The release parameter, or else the distribution codename fact. */
  function ResolveRelease(p: Params, facts: Facts): (r: Option<Text>)
    ensures p.release.Some? ==> r == p.release
    ensures p.release.None? ==> (r.Some? <==> facts.codename.Some?)
    ensures p.release.None? && facts.codename.Some? ==> r == Some(Str(facts.codename.value))
  {
    if p.release.Some? then p.release
    else match facts.codename
      case Some(c) => Some(Str(c))
      case None => None
  }

  function SettingName(f: Format, title: string): string {
    (if f == List then "list-" else "sources-") + title
  }

  // ---------------------------------------------------------------------------
  // The option table shared by both formats

  datatype SourceOption = Arch(values: seq<string>) | Trusted | CheckValidUntilFalse | AllowInsecure | SignedBy(keyring: string)

  /** The fixed position of each option in the table. */
  function Rank(o: SourceOption): nat {
    match o
    case Arch(_) => 0
    case Trusted => 1
    case CheckValidUntilFalse => 2
    case AllowInsecure => 3
    case SignedBy(_) => 4
  }

  predicate RankOrdered(t: seq<SourceOption>) {
    forall i, j :: 0 <= i < j < |t| ==> Rank(t[i]) < Rank(t[j])
  }

  function ArchValues(p: Params): seq<string> {
    if p.architecture.Some? then Items(p.architecture.value) else []
  }

  /** Every option the define knows, in the fixed order, with the parameter's value. */
  function Candidates(p: Params): seq<SourceOption> {
    [Arch(ArchValues(p)), Trusted, CheckValidUntilFalse, AllowInsecure, SignedBy(GetOr(p.keyring, ""))]
  }

  /** Whether the parameters ask for the option: `check_valid_until` only when explicitly false. */
  predicate Active(p: Params, o: SourceOption) {
    match o
    case Arch(a) => a != []
    case Trusted => p.allowUnsigned == Some(true)
    case CheckValidUntilFalse => p.checkValidUntil == Some(false)
    case AllowInsecure => p.allowInsecure == Some(true)
    case SignedBy(_) => p.keyring.Some?
  }

  /** The active elements of `cs`, in their order. */
  function Select(p: Params, cs: seq<SourceOption>): (t: seq<SourceOption>)
    ensures forall x :: x in t <==> x in cs && Active(p, x)
  {
    if cs == [] then []
    else (if Active(p, cs[0]) then [cs[0]] else []) + Select(p, cs[1..])
  }

  /** Selection keeps the order: from a rank-ordered list it picks a rank-ordered list. */
  lemma {:induction false} SelectOrdered(p: Params, cs: seq<SourceOption>)
    requires RankOrdered(cs)
    ensures RankOrdered(Select(p, cs))
    decreases |cs|
  {
    if cs != [] {
      var rest := Select(p, cs[1..]);
      SelectOrdered(p, cs[1..]);
      if Active(p, cs[0]) {
        forall i | 0 <= i < |rest|
          ensures Rank(cs[0]) < Rank(rest[i])
        {
          assert rest[i] in cs[1..];
          var j :| 0 <= j < |cs[1..]| && cs[1..][j] == rest[i];
          assert cs[j + 1] == rest[i];
        }
        assert Select(p, cs) == [cs[0]] + rest;
      }
    }
  }

  /** The active options in the fixed order. */
  function OptionTable(p: Params): (t: seq<SourceOption>)
    ensures RankOrdered(t)
  {
    SelectOrdered(p, Candidates(p));
    Select(p, Candidates(p))
  }

  /** Each option is in the table exactly when its parameter asks for it. */
  lemma OptionTableMembers(p: Params)
    ensures forall a :: Arch(a) in OptionTable(p) <==> a == ArchValues(p) && a != []
    ensures Trusted in OptionTable(p) <==> p.allowUnsigned == Some(true)
    ensures CheckValidUntilFalse in OptionTable(p) <==> p.checkValidUntil == Some(false)
    ensures AllowInsecure in OptionTable(p) <==> p.allowInsecure == Some(true)
    ensures forall k :: SignedBy(k) in OptionTable(p) <==> p.keyring == Some(k)
  {
  }

  // ---------------------------------------------------------------------------
  // The one-line format

  /** An option as written inside the brackets. A list of architectures is
      comma-separated, as sources.list(5) writes multiple values. */
  function LegacyToken(o: SourceOption): string {
    match o
    case Arch(a) => "arch=" + Join(a, ",")
    case Trusted => "trusted=yes"
    case CheckValidUntilFalse => "check-valid-until=false"
    case AllowInsecure => "allow-insecure=yes"
    case SignedBy(k) => "signed-by=" + k
  }

  function LegacyTokens(t: seq<SourceOption>): (r: seq<string>)
    ensures |r| == |t|
    ensures forall i :: 0 <= i < |t| ==> r[i] == LegacyToken(t[i])
  {
    if t == [] then [] else [LegacyToken(t[0])] + LegacyTokens(t[1..])
  }

  /** The bracketed option clause as one word, or no word when no option is active. */
  function OptionWords(t: seq<SourceOption>): seq<string> {
    if t == [] then [] else ["[" + Join(LegacyTokens(t), " ") + "]"]
  }

  /** The option clause as it stands in the line, with its trailing space. */
  function OptionClause(t: seq<SourceOption>): string {
    if t == [] then "" else "[" + Join(LegacyTokens(t), " ") + "] "
  }

  /** The components of a legacy entry: none for a flat repository, whose release ends in `/`. */
  function LegacyComponents(p: Params, release: string): string {
    if EndsWith(release, "/") then "" else Flat(Repos(p))
  }

  /** One line: its words joined by single spaces; an empty component list is no word. */
  function Entry(kind: string, t: seq<SourceOption>, location: string, release: string, components: string): string {
    Join([kind] + OptionWords(t) + [location, release] + (if components == "" then [] else [components]), " ")
  }

  /** One line per type, in the order given. */
  function EntryLines(kinds: seq<string>, t: seq<SourceOption>, location: string, release: string, components: string): (ls: seq<string>)
    ensures |ls| == |kinds|
    ensures forall i :: 0 <= i < |kinds| ==> ls[i] == Entry(kinds[i], t, location, release, components)
  {
    if kinds == [] then []
    else [Entry(kinds[0], t, location, release, components)] + EntryLines(kinds[1..], t, location, release, components)
  }

  /** The comment line, then one line for each type `include` selects. */
  function LegacyLines(p: Params, release: Text): (ls: seq<string>)
    requires p.location.Some?
    ensures |ls| == 1 + |DefaultTypes(p)| && ls[0] == "# " + Comment(p)
  {
    var rel := Flat(release);
    ["# " + Comment(p)] + EntryLines(DefaultTypes(p), OptionTable(p), Flat(p.location.value), rel, LegacyComponents(p, rel))
  }

  // ---------------------------------------------------------------------------
  // The deb822 format

  /** `types`, or else the types `include` selects. */
  function Types(p: Params): seq<string> {
    GetOr(p.types, DefaultTypes(p))
  }

  /** An option as a deb822 field; `allow-insecure` has none. */
  function FieldOf(o: SourceOption): Option<Deb822.Field> {
    match o
    case Arch(a) => Some(Deb822.Field("Architectures", Join(a, " ")))
    case Trusted => Some(Deb822.Field("Trusted", "yes"))
    case CheckValidUntilFalse => Some(Deb822.Field("Check-Valid-Until", "false"))
    case AllowInsecure => None
    case SignedBy(k) => Some(Deb822.Field("Signed-By", k))
  }

  function OptionFields(t: seq<SourceOption>): (fs: seq<Deb822.Field>)
    ensures |fs| <= |t|
  {
    if t == [] then []
    else (match FieldOf(t[0]) case Some(f) => [f] case None => []) + OptionFields(t[1..])
  }

  /** The fields every stanza of a present entry has (hence `Enabled: yes`),
      and `Components` when there are any. */
  function StanzaHead(types: string, uris: string, suites: string, components: string): seq<Deb822.Field> {
    [ Deb822.Field("Enabled", "yes"),
      Deb822.Field("Types", types),
      Deb822.Field("URIs", uris),
      Deb822.Field("Suites", suites) ]
    + (if components == "" then [] else [Deb822.Field("Components", components)])
  }

  /** The stanza: its head, then a field per active option. */
  function StanzaFields(p: Params, release: Text): (fs: seq<Deb822.Field>)
    requires p.location.Some?
    ensures 4 <= |fs| <= 5 + |OptionTable(p)|
    ensures fs[0] == Deb822.Field("Enabled", "yes")
    ensures fs[1].key == "Types" && fs[2].key == "URIs" && fs[3].key == "Suites"
  {
    StanzaHead(Join(Types(p), " "), Flat(p.location.value), Flat(release), Flat(Repos(p)))
    + OptionFields(OptionTable(p))
  }

  /** The setting's content: every line of it ends in a newline, and it
      starts with the comment line or with `Enabled: yes`. */
  function Content(f: Format, p: Params, release: Text): (c: string)
    requires p.location.Some?
    ensures |c| > 0 && c[|c| - 1] == '\n'
    ensures f == List ==> StartsWith(c, "# " + Comment(p) + "\n")
    ensures f == Sources ==> StartsWith(c, Deb822.FieldLine(Deb822.Field("Enabled", "yes")) + "\n")
  {
    match f
    case List =>
      var ls := LegacyLines(p, release);
      UnlinesNonEmpty(ls);
      Unlines(ls)
    case Sources =>
      var ls := Deb822.FieldLines(StanzaFields(p, release));
      UnlinesNonEmpty(ls);
      Deb822.Render(StanzaFields(p, release))
  }

  // ---------------------------------------------------------------------------
  // Pin and key

  /** The host of a URL: the third piece when it is split at every `/`. */
  function Host(url: string): (r: Option<string>)
    ensures r.Some? ==> '/' !in r.value
    ensures '/' !in url ==> r.None?
  {
    var pieces := Split(url, '/');
    assert '/' !in url ==> pieces == [url] by {
      if '/' !in url { SplitNoSeparator(url, '/'); }
    }
    if |pieces| > 2 then Some(pieces[2]) else None
  }

  function Origin(p: Params): Option<string> {
    if HasLocation(p) then Host(Items(p.location.value)[0]) else None
  }

  /** The `apt::pin` a present pin declares: a bare priority gets the location's host as origin. */
  function PinOf(p: Params): (r: Option<PinDirective>)
    requires !p.pin.PinFlag?
    ensures r.None? <==> p.pin.NoPin?
    ensures r.Some? ==> r.value.name == p.title && r.value.ensure == p.ensure
    ensures p.pin.PinPriority? ==> r.Some? && r.value.priority == Some(p.pin.priority) && r.value.origin == Origin(p)
    ensures p.pin.PinMap? ==> r.Some? && r.value.priority == p.pin.fields.priority && r.value.origin == p.pin.fields.origin
  {
    match p.pin
    case NoPin => None
    case PinPriority(v) => Some(PinDirective(p.title, p.ensure, Some(v), Origin(p), None, None, None, None))
    case PinMap(h) => Some(PinDirective(p.title, p.ensure, h.priority, h.origin, h.release, h.explanation, h.version, h.packages))
  }

  function KeyLabel(id: string, title: string): string {
    "Add key: " + id + " from Apt::Source " + title
  }

  /** The `apt::key` a present key declares. */
  function KeyOf(p: Params): (r: Option<KeyDirective>)
    ensures r.None? <==> p.key.NoKey?
    ensures r.Some? ==> r.value.name == KeyLabel(r.value.id, p.title)
    ensures p.key.KeyId? ==> r.Some? && r.value.id == p.key.id && r.value.ensure == KeyPresent
    ensures p.key.KeyMap? ==> r.Some? && r.value.id == p.key.fields.id
  {
    match p.key
    case NoKey => None
    case KeyId(id) => Some(KeyDirective(KeyLabel(id, p.title), KeyPresent, id, None, None, None, None, None))
    case KeyMap(h) =>
      Some(KeyDirective(KeyLabel(h.id, p.title), GetOr(h.ensure, KeyPresent), h.id, h.server, h.content, h.source, h.weakSsl, h.options))
  }

  // ---------------------------------------------------------------------------
  // The define

  /** What `apt::source` declares, or the error that stops it. */
  function Declare(p: Params, facts: Facts): (r: Result<Declaration, SourceError>)
    ensures r.Failure? <==>
      p.pin.PinFlag? || ParseFormat(p.sourceFormat).None?
      || (p.ensure == Present && (!HasLocation(p) || (p.release.None? && facts.codename.None?)))
    ensures r.Success? ==>
      var s := r.value.setting;
      && s.ensure == p.ensure
      && s.name == SettingName(ParseFormat(p.sourceFormat).value, p.title)
      && s.notifyUpdate == (p.notifyUpdate != Some(false))
      && (s.content.Some? <==> p.ensure == Present)
      && (p.ensure == Present ==> s.content == Some(Content(ParseFormat(p.sourceFormat).value, p, ResolveRelease(p, facts).value)))
      && (!p.pin.PinFlag? ==> r.value.pin == PinOf(p))
      && r.value.key == KeyOf(p)
  {
    if p.pin.PinFlag? then Failure(InvalidPin)
    else match ParseFormat(p.sourceFormat)
      case None => Failure(UnknownFormat(p.sourceFormat.value))
      case Some(f) =>
        var name := SettingName(f, p.title);
        var notify := GetOr(p.notifyUpdate, true);
        if p.ensure == Absent then
          Success(Declaration(Setting(name, Absent, None, notify), PinOf(p), KeyOf(p)))
        else if !HasLocation(p) then
          assert p.ensure == Present;
          Failure(MissingLocation)
        else if p.release.None? && facts.codename.None? then Failure(MissingRelease(CodenameFact))
        else
          var rel := ResolveRelease(p, facts).value;
          Success(Declaration(Setting(name, Present, Some(Content(f, p, rel)), notify), PinOf(p), KeyOf(p)))
  }
}

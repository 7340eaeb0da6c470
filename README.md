# puppetlabs-apt: `apt::source` and `apt_package_dist_updates` in Dafny

This project models two parts of the Puppet `apt` module. The behaviour is
taken from the module's RSpec examples.

- **`apt::source`**, the defined type that writes one APT source entry. Its
  inputs are the parameters and the host's facts:
  - `location`, `release`, `repos` and `architecture`;
  - `comment`, and `include` (or `types`);
  - `allow_unsigned`, `allow_insecure`, `check_valid_until` and `keyring`;
  - `pin`, `key`, `ensure`, `notify_update` and `source_format`;
  - the facts `os.distro.codename` and `architecture`.

  It declares three things:
  - an `apt::setting` named `list-<title>` or `sources-<title>`, with its
    `ensure`, its `notify_update` flag and its content;
  - the `apt::pin` that the `pin` parameter asks for;
  - the `apt::key` that the `key` parameter asks for.

  Or it fails with the define's error: a boolean pin, a `source_format`
  other than `list` or `sources`, a missing location, or a missing release
  when the codename fact is missing.

  The content takes one of two forms:
  - a one-line `sources.list` entry: a `# <comment>` line, then a `deb`
    and/or a `deb-src` line, `<type> [options] <uri> <suite> <components>`;
  - a deb822 stanza: `Enabled`, `Types`, `URIs`, `Suites` and
    `Components`, then a field for each active option.

  The options share one table, in a fixed order:
  `arch`, `trusted`, `check-valid-until=false`, `allow-insecure`, `signed-by`.
- **`apt_package_dist_updates`**, the Facter fact. When the host has dist
  updates, its value is the list of package names on the `Inst` lines of a
  simulated `apt-get dist-upgrade`, in order. Otherwise it has no value.

Modules:

| module | file | contents |
|---|---|---|
| `Wrappers` | `wrappers.dfy` | `Option`, `Result` |
| `Strings` | `strings.dfy` | join, split, token and containment helpers, with their lemmas |
| `Deb822` | `deb822.dfy` | field lines, stanza rendering, a stanza parser and the round trip |
| `AptSource` | `apt_source.dfy` | parameters, defaults, the option table, both renderings, pin, key, `Declare` |
| `AptSourceProperties` | `apt_source_properties.dfy` | errors, line shape, option order, deb822 lookups, pin and key |
| `AptSourceExamples` | `apt_source_examples.dfy` | the one-line examples, each as a whole declaration |
| `AptSourceDeb822Examples` | `apt_source_deb822_examples.dfy` | the deb822 examples |
| `DistUpdates` | `dist_updates.dfy` | the `Inst` line parser and its properties |
| `DistUpdatesExamples` | `dist_updates_examples.dfy` | the four-line sample |

The examples file states each expected line as its words joined by single
spaces. It states the content as lines, each followed by a newline
(`Unlines`).

## Model

| member | source | states |
|---|---|---|
| AptSource.Declare | spec/defines/source_spec.rb:26-38 | It fails exactly for a boolean pin, an unknown format, or a present entry lacking a location or any release. On success: the setting's name comes from the format and title; its `ensure` is the define's; `notify_update` is true unless false; content exists exactly for a present entry and is the rendering; the pin and key are the normalised ones |
| AptSourceProperties.DeclareErrors | spec/defines/source_spec.rb:27-31 | Each error arises under its own condition: a boolean pin gives `InvalidPin`; no location gives `MissingLocation`; no release and no codename fact give `MissingRelease("os.distro.codename")` |
| AptSourceProperties.ErrorMessages | spec/defines/source_spec.rb:345-365 | Each error message contains the words the examples match on |
| AptSourceExamples.WithoutLocation | spec/defines/source_spec.rb:27-31 | An entry without a location fails, and the message contains "source entry without specifying a location" |
| AptSourceExamples.WithoutRelease | spec/defines/source_spec.rb:345-365 | Without a release or codename fact, the entry fails naming `os.distro.codename` |
| AptSourceExamples.BooleanPin | spec/defines/source_spec.rb:392-402 | A boolean pin fails with a message containing "expects a value" |
| AptSourceExamples.AbsentEntry | spec/defines/source_spec.rb:332-341 | `ensure => absent` declares `list-my_source` as absent, with no content |
| AptSourceExamples.NotifyUpdate | spec/defines/source_spec.rb:405-435 | `notify_update` is true when unset or true, and false when false |
| AptSource.ParseFormat | spec/defines/source_spec.rb:438-456 | iff: the format is the one-line one exactly when unset or `list`; it is deb822 exactly for `sources` |
| AptSource.ResolveRelease | spec/defines/source_spec.rb:345-365 | The `release` parameter wins. Otherwise the codename fact is used, and there is a release exactly when that fact exists |
| AptSource.Select | spec/defines/source_spec.rb:226-240 | The selection holds exactly the active elements of the list given |
| AptSource.SelectOrdered | spec/defines/source_spec.rb:226-240 | Selecting from a rank-ordered list keeps it rank-ordered |
| AptSource.OptionTable | spec/defines/source_spec.rb:236-240 | The active options are strictly in the fixed order arch, trusted, check-valid-until, allow-insecure, signed-by |
| AptSource.OptionTableMembers | spec/defines/source_spec.rb:159-240 | iff, per option: each option is in the table exactly when its parameter asks for it, `signed-by` with the keyring given |
| AptSourceProperties.OptionTableSpelledOut | spec/defines/source_spec.rb:226-240 | The table is the five optional entries in the fixed order, each present exactly when asked for |
| AptSourceProperties.SelectSameActive | spec/defines/source_spec.rb:198-208 | Two parameter sets that activate the same options select the same table |
| AptSource.LegacyTokens | spec/defines/source_spec.rb:236-240 | One token per option, in the table's order |
| AptSource.EntryLines | spec/defines/source_spec.rb:289-299 | One line per type, in the order given, each with the same options, location, release and components |
| AptSourceProperties.EntryShape | spec/defines/source_spec.rb:159-170 | A one-line entry is its type, a space, the option clause or nothing, the location, the release verbatim, then the components only when there are any |
| AptSource.LegacyLines | spec/defines/source_spec.rb:289-330 | One line for the comment, then one per selected type. The first line is `# <comment>` |
| AptSource.StanzaFields | spec/defines/source_spec.rb:474-480 | At least the four head fields and at most one more field plus one per active option. `Enabled: yes` comes first, then `Types`, `URIs` and `Suites` |
| AptSource.Content | spec/defines/source_spec.rb:33-38 | The content is non-empty and ends in a newline. The one-line form starts with the comment line, the deb822 form with `Enabled: yes` |
| AptSourceProperties.LegacyLinesSpelledOut | spec/defines/source_spec.rb:289-330 | The comment line comes first and once. Then a `deb` line when `include.deb` holds, then a `deb-src` line when `include.src` holds, both with the same tail |
| AptSourceProperties.LegacyLineTypes | spec/defines/source_spec.rb:302-330 | After the comment there is one line per selected type, and each line's first word is its type |
| AptSourceProperties.LegacyContent | spec/defines/source_spec.rb:289-299 | The one-line content is the comment line, then the selected entry lines, each ending in a newline |
| AptSourceProperties.CheckValidUntilTrueTable | spec/defines/source_spec.rb:198-208 | `check_valid_until => true` selects the same options as leaving it unset |
| AptSourceProperties.CheckValidUntilTrueContent | spec/defines/source_spec.rb:198-208 | ... and so gives the same content in either format |
| AptSourceProperties.CheckValidUntilTrueIsDefault | spec/defines/source_spec.rb:198-208 | `check_valid_until => true` declares exactly what leaving it unset declares |
| AptSourceProperties.ArchitectureFactUnused | spec/defines/source_spec.rb:273-286 | The `architecture` fact never changes the declaration |
| AptSourceProperties.StanzaReadBack | spec/defines/source_spec.rb:458-481 | Parsing a rendered stanza gives back exactly its fields, in order |
| AptSourceProperties.StanzaListsReadBack | spec/defines/source_spec.rb:474-478 | When the types, locations, releases and components are words without spaces, reading the stanza back and splitting those four fields at spaces gives the four lists again |
| AptSourceProperties.StanzaHeadLookups | spec/defines/source_spec.rb:474-478 | `Enabled` is `yes`. `Types`, `URIs` and `Suites` are the space-joined inputs. `Components` is the space-joined repos, absent when there are none |
| AptSourceProperties.ActiveOptionLookup | spec/defines/source_spec.rb:479-480 | An active option with a field is found with its value |
| AptSourceProperties.InactiveOptionLookup | spec/defines/source_spec.rb:479-480 | No field of a rank is found when no option of that rank is active |
| AptSourceProperties.ArchitecturesLookup | spec/defines/source_spec.rb:479 | `Architectures` is there exactly when architectures are given, space-joined |
| AptSourceProperties.TrustedLookup | spec/defines/source_spec.rb:480 | `Trusted: yes` is there exactly when `allow_unsigned` is true |
| AptSourceProperties.CheckValidUntilLookup | spec/defines/source_spec.rb:185-195 | `Check-Valid-Until: false` is there exactly when `check_valid_until` is false |
| AptSourceProperties.SignedByLookup | spec/defines/source_spec.rb:211-223 | `Signed-By` carries the keyring path exactly when one is given |
| AptSourceProperties.LookupOptionField | spec/defines/source_spec.rb:479-480 | In a rank-ordered table, each option's field is found with that option's value |
| AptSourceProperties.LookupOptionFieldAbsent | spec/defines/source_spec.rb:479-480 | A key whose rank is absent from the table is not found |
| AptSourceProperties.FieldRendered | spec/defines/source_spec.rb:474-480 | A field the stanza holds is a whole line of the content |
| AptSourceProperties.RenderedHeadLines | spec/defines/source_spec.rb:474-478 | The `Enabled`, `Types`, `URIs`, `Suites` and `Components` lines are whole lines of the content |
| AptSourceProperties.RenderedOptionLines | spec/defines/source_spec.rb:479-480 | Each active option's field line is a whole line of the content |
| AptSourceProperties.HostOf | spec/defines/source_spec.rb:104-108 | The host of `scheme://host/path` is `host` |
| AptSource.PinOf | spec/defines/source_spec.rb:77-108 | There is a pin exactly when the `pin` parameter is set. It is named by the title and has the entry's `ensure`. A bare priority gives that priority and the location's host as origin. A pin hash gives its own priority and origin |
| AptSource.KeyOf | spec/defines/source_spec.rb:110-155 | There is a key exactly when the `key` parameter is set. It is labelled by its id and the title. A key id gives that id, present. A key hash gives its own id |
| AptSource.Host | spec/defines/source_spec.rb:104-108 | A host found in a location has no `/`. A location without `/` has no host |
| AptSourceProperties.DeclarePin | spec/defines/source_spec.rb:77-82 | Three cases. No pin gives no `apt::pin`. A bare priority pins the location's host with that priority, under the entry's title and with its `ensure`. A pin hash is handed on field by field under the entry's title |
| AptSourceProperties.DeclarePinOrigin | spec/defines/source_spec.rb:104-108 | A bare priority with location `scheme://host/path` pins origin `host` |
| AptSourceProperties.DeclareKey | spec/defines/source_spec.rb:110-113 | A key id gives `Add key: <id> from Apt::Source <title>`, present. A key hash is forwarded field by field, present unless it says otherwise |
| AptSourceExamples.WithLocation | spec/defines/source_spec.rb:33-38 | With only a location, the declaration is `list-my_source` holding `# my_source` and `deb hello.there stretch main`, notified, with no pin or key |
| AptSourceExamples.EmptyRepos | spec/defines/source_spec.rb:41-46 | An empty repos array leaves the components out |
| AptSourceExamples.ThreeRepos | spec/defines/source_spec.rb:49-54 | Three repos are written in order, space-joined |
| AptSourceExamples.ComplexPin | spec/defines/source_spec.rb:61-83 | The line is `hello.there stretch main`. The pin hash goes unchanged to the `apt::pin` named `my_source` |
| AptSourceExamples.SimpleKey | spec/defines/source_spec.rb:85-114 | `# foo` and `deb [arch=x86_64 trusted=yes] http://debian.mirror.iweb.ca/debian/ sid testing` with no `deb-src`. The `apt::pin` `my_source` has priority `10` and origin `debian.mirror.iweb.ca`. The key is labelled by id and title |
| AptSourceExamples.ComplexKey | spec/defines/source_spec.rb:116-157 | The same lines and the same `apt::pin` `my_source`. The key hash is forwarded with ensure `refreshed`, server, content, source and `weak_ssl` |
| AptSourceExamples.AllowInsecureTrue | spec/defines/source_spec.rb:159-170 | The line is `deb [allow-insecure=yes] hello.there stretch main` |
| AptSourceExamples.AllowUnsignedTrue | spec/defines/source_spec.rb:172-183 | The line is `deb [trusted=yes] hello.there stretch main` |
| AptSourceExamples.CheckValidUntilFalseOption | spec/defines/source_spec.rb:185-196 | The line is `deb [check-valid-until=false] hello.there stretch main` |
| AptSourceExamples.CheckValidUntilTrueNoOption | spec/defines/source_spec.rb:198-209 | The line is `deb hello.there stretch main`, with no brackets |
| AptSourceExamples.KeyringSet | spec/defines/source_spec.rb:211-224 | The line is `deb [signed-by=/usr/share/keyrings/foo-archive-keyring.gpg] hello.there stretch main` |
| AptSourceExamples.KeyringArchitectureUnsigned | spec/defines/source_spec.rb:226-241 | The three options appear as `[arch=amd64 trusted=yes signed-by=...]` |
| AptSourceExamples.SourceOnlyWithArchitecture | spec/defines/source_spec.rb:243-271 | On the codename `wheezy`, the only line is `deb-src [arch=x86_64] hello.there wheezy main` |
| AptSourceExamples.SourceOnly | spec/defines/source_spec.rb:273-287 | With the architecture parameter unset, the only line is `deb-src hello.there stretch main` |
| AptSourceExamples.IncludeSource | spec/defines/source_spec.rb:289-300 | `deb hello.there stretch main`, then `deb-src hello.there stretch main`, under one comment |
| AptSourceExamples.IncludeNoDeb | spec/defines/source_spec.rb:302-315 | `deb => false` leaves only the comment line |
| AptSourceExamples.EmptyRelease | spec/defines/source_spec.rb:368-372 | An empty release gives `deb hello.there  main`, with two spaces |
| AptSourceExamples.SlashRelease | spec/defines/source_spec.rb:374-378 | Release `/` declares `list-my_source`, whose content contains `hello.there /` |
| AptSourceExamples.FlatRelease | spec/defines/source_spec.rb:380-384 | Release `test/` declares `list-my_source`, whose content contains `hello.there test/` |
| AptSourceExamples.SlashReleaseFlat | spec/defines/source_spec.rb:374-378 | A model choice: the whole entry is `deb hello.there /`, with no components after the flat release |
| AptSourceExamples.FlatReleaseFlat | spec/defines/source_spec.rb:380-384 | A model choice: the whole entry is `deb hello.there test/`, with no components after the flat release |
| AptSourceExamples.PathRelease | spec/defines/source_spec.rb:386-390 | Release `test/test` gives `deb hello.there test/test main` |
| AptSourceDeb822Examples.Deb822Basic | spec/defines/source_spec.rb:445-456 | `sources-my_source` holds the stanza of one mirror, the codename as suite and three components. It is notified, with no pin or key |
| AptSourceDeb822Examples.Deb822Complex | spec/defines/source_spec.rb:458-473 | The complex deb822 entry declares `sources-my_source` holding the stanza, not notified |
| AptSourceDeb822Examples.Deb822ComplexFields | spec/defines/source_spec.rb:474-480 | Its content holds each of `Enabled: yes`, `Types: deb deb-src`, `URIs: ...`, `Suites: ...`, `Components: main contrib non-free`, `Architectures: amd64 i386` and `Trusted: yes` as whole lines |
| AptSourceDeb822Examples.ListCompat | spec/defines/source_spec.rb:483-500 | A one-line style parameter set in deb822 format declares a notified `sources-my_source`. The `apt::pin` `my_source` is `-10` with the mirror's host as origin. The key hash is forwarded, present |
| Deb822.RenderParse | spec/defines/source_spec.rb:474-480 | Parsing a rendered stanza of writable fields gives back exactly those fields |
| Deb822.Lookup | spec/defines/source_spec.rb:474-480 | iff: a lookup finds a value exactly when some field has that key |
| Deb822.LookupRendered | spec/defines/source_spec.rb:474-480 | The field a lookup finds is a whole `key: value` line of the rendered text |
| DistUpdates.InstPackage | spec/unit/facter/apt_dist_package_updates_spec.rb:26-29 | A name is found only on a line of `Inst`, one whitespace character, then the name. The name is non-empty, has no whitespace, and ends at whitespace or the end of the line |
| DistUpdates.InstPackageOf | spec/unit/facter/apt_dist_package_updates_spec.rb:26-33 | The converse: `Inst`, a separator, a name and a rest starting with whitespace give back that name |
| DistUpdates.PackageNames | spec/unit/facter/apt_dist_package_updates_spec.rb:26-33 | iff: a name is listed exactly when some line's `InstPackage` gives it; never more names than lines |
| DistUpdates.PackageDistUpdates | spec/unit/facter/apt_dist_package_updates_spec.rb:10-33 | iff: no value exactly when there are no dist updates. Otherwise the listed names are exactly those of the dist-upgrade output's `Inst` lines |
| DistUpdates.PackageNamesAppend | spec/unit/facter/apt_dist_package_updates_spec.rb:26-33 | Names are collected line by line in order: the names of `a + b` are those of `a`, then those of `b` |
| DistUpdates.IgnoredLine | spec/unit/facter/apt_dist_package_updates_spec.rb:27 | A line that names no package (a `Conf` line) changes nothing, wherever it stands |
| DistUpdates.PackageNamesCount | spec/unit/facter/apt_dist_package_updates_spec.rb:26-33 | There is one name per `Inst` line |
| DistUpdates.PackageNamesDistinct | spec/unit/facter/apt_dist_package_updates_spec.rb:26-33 | When the `Inst` lines name different packages, no name is listed twice |
| DistUpdates.LinesOfUnlines | spec/unit/facter/apt_dist_package_updates_spec.rb:26-29 | Splitting newline-terminated lines gives them back, then the empty remainder |
| DistUpdates.ConcatenatedOutput | spec/unit/facter/apt_dist_package_updates_spec.rb:26-29 | Output in two parts joined at a line break gives the two name lists, one after the other |
| DistUpdatesExamples.SampleLines | spec/unit/facter/apt_dist_package_updates_spec.rb:26-29 | The sample output splits into its four lines, then the empty remainder |
| DistUpdatesExamples.TuxracerName | spec/unit/facter/apt_dist_package_updates_spec.rb:26 | The first `Inst` line names `extremetuxracer`, without its annotations |
| DistUpdatesExamples.PlanetName | spec/unit/facter/apt_dist_package_updates_spec.rb:28 | The second `Inst` line names `planet.rb`, dot included |
| DistUpdatesExamples.ConfLinesIgnored | spec/unit/facter/apt_dist_package_updates_spec.rb:27-29 | The `Conf` lines and the empty remainder name no package |
| DistUpdatesExamples.TwoPackages | spec/unit/facter/apt_dist_package_updates_spec.rb:26-33 | Two `Inst`/`Conf` pairs give exactly the two names, in order |
| DistUpdatesExamples.SampleUpdates | spec/unit/facter/apt_dist_package_updates_spec.rb:18-33 | For the sample, the fact is exactly `['extremetuxracer', 'planet.rb']`, whatever the `upgrade` run printed |
| DistUpdatesExamples.NoDistUpdates | spec/unit/facter/apt_dist_package_updates_spec.rb:10-16 | Without dist updates the fact has no value (nil), not an empty list |

## Left out

- The first `apt::source` examples expect *no* `deb-src ... wheezy` line (source_spec.rb:33-54). The model proves the positive content instead: one `deb` line on `stretch`. That content has no `deb-src` line.
- The manifest, the ERB templates and the Facter code are not part of this model. The behaviour follows the RSpec examples, completed where they leave choices open:
  - When a release ends in `/`, the components are left out (a flat repository). The examples only match the prefixes `hello.there /` and `hello.there test/` (source_spec.rb:377, 383). `SlashRelease` and `FlatRelease` state those prefixes. `SlashReleaseFlat` and `FlatReleaseFlat` state the whole entry under this reading.
  - Several architectures in a one-line entry are joined with `,`, the `sources.list` notation.
  - A `source_format` other than `list` or `sources` is refused, as the parameter's enumerated type does.
  - Error order: a boolean pin, then an unknown format, then a missing location, then a missing release.
  - Only a bare priority gets the location's host as origin. A pin hash keeps its own `origin`.
  - deb822 has no `allow-insecure` field and no comment line.
  - The `Inst` name must be followed by whitespace or the end of the line.
- Deb822ComplexFields: states that each field line is contained, not the order of the stanza's fields, because the examples only check containment (source_spec.rb:474-480). `StanzaReadBack` gives the full field sequence in the model's order.
- AbsentEntry: an absent entry is declared with no content. What the setting does with absence is not modelled (source_spec.rb:340).
- PackageDistUpdates: does not remove duplicate names. Each `Inst` line contributes its name, and `PackageNamesDistinct` shows that distinct `Inst` lines give a list without repeats. The sample has one `Inst` line per package.
- Resource relationships are not modelled: `that_notifies('Class[Apt::Update]')`, `that_comes_before`, and the placement of files under `/etc/apt/sources.list.d/` (source_spec.rb:75). The model only records the `notify_update` flag.
- Key management itself is not modelled: fetching from a key server, `weak_ssl`, `refreshed`. The key's fields are forwarded and its label is built.
- The Facter side is not modelled: running `apt-get`, `File.executable?`, the `os.family` check and `Facter.clear` caching (apt_dist_package_updates_spec.rb:8, 20-25). The has-updates flag and both outputs are parameters of `PackageDistUpdates`.
- Puppet's type checks on other parameters are not modelled. Two are modelled: a boolean pin is refused, and so is a `source_format` other than `list` or `sources`.
- LegacyLines: an array `location` or `release` in the one-line format is joined with spaces into the line (`deb a b stretch main`), not refused. No example gives one, and the types the manifest declares for these parameters are not part of this model.

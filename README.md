# Spotless: Maven provisioning and Eclipse formatter configuration, in Dafny

This project models two pieces of Spotless, the code-formatting plugin for Gradle and Maven. It proves properties of both.

1. **The Maven provisioner** (`MavenProvisioner.create`). It is built from an `ArtifactResolver`. It maps a set of Maven coordinates to the deduplicated union of the artifacts the resolver returns for each one. A null resolver is rejected. If the resolver fails on any requested coordinate, the whole call fails. Module `Provisioning` (`provisioning.dfy`) models it as pure functions.
2. **The Eclipse formatter configuration** (`EclipseConfiguration`). It is a mutable builder over a fixed list of supported versions. It holds the current version, an optional module URL, an optional dependency override and a list of preference files. Its `get()` returns an immutable `State`, which offers `compareVersionTo`, `loadClass` and `getPreferences`.
   - Module `Versions` (`versions.dfy`): version strings, their numeric comparison, and the default version (the highest supported one).
   - Module `EclipseConfig` (`configuration.dfy`): the builder as a class `Configuration`, and `State` as a datatype with structural equality.
   - Module `ConfigScenarios` (`scenarios.dfy`): every case of `EclipseConfigurationTest`, written as a client method. Its preconditions say what the case needs from the outside world. Its postconditions are the case's assertions.

`wrappers.dfy` holds `Option`, `Result` and `Outcome`, which stand for Java's null and exceptions.

Collaborators outside the model are passed in as function-valued fields of `EclipseConfig.Environment`:
- the `Provisioner`;
- the default coordinates of a version;
- URL well-formedness (`new URL(s)` succeeding);
- the dependency list a module URL points at;
- the classes an isolated class loader over a set of artifacts can find;
- whether a file exists, and the properties it holds.

The artifact resolver is likewise a plain function, `Provisioning.Resolver`.

The source of `EclipseConfiguration` is not part of this model; only its test is. Where the test leaves the behaviour open, the model makes these choices:
- `setVersion(s)` first checks whether `s` is a supported version. If not, and `s` has the shape of a version string, it is an unsupported-version error. If not, and `s` is a well-formed URL, `s` becomes the module URL. Otherwise it is a malformed-URL error. Every error leaves the configuration unchanged.
- A supported version drops any module URL. A URL leaves the version as it was.
- The test's module URL points at a file named `dependencies_old.txt`, so the model reads a module URL as a dependency list. Those coordinates are then provisioned.
- The artifact source in effect is, in order of precedence: the module URL, then the dependency override, then the version's default coordinates.
- Preference files are merged in order, and a later file overrides an earlier one's keys. A missing file is reported, as a non-user-argument error, only when the preferences are read.
- Two versions are compared by their numeric components, with missing trailing components read as 0.
- A state holds the list of preference files, not their merged contents. The equality test varies the file list, and the contents are read only by `getPreferences`.

## Model

| member | source | states |
|---|---|---|
| `Provisioning.Create` | plugin-maven/src/main/java/com/diffplug/spotless/maven/MavenProvisioner.java:28-34 | With no resolver, `create` fails with `NullResolver` before any provisioner exists. Otherwise the provisioner maps every coordinate set to `Provision` over the resolver. |
| `Provisioning.Provision` | plugin-maven/src/main/java/com/diffplug/spotless/maven/MavenProvisioner.java:31-33 | The call fails iff some requested coordinate fails to resolve. On success, an artifact is in the result iff some requested coordinate resolves to it. |
| `Provisioning.FailureReportsEveryCoordinate` | plugin-maven/src/main/java/com/diffplug/spotless/maven/MavenProvisioner.java:32 | A failed call names exactly the requested coordinates the resolver failed on, each with the resolver's own message. |
| `Provisioning.EmptyRequest` | plugin-maven/src/main/java/com/diffplug/spotless/maven/MavenProvisioner.java:31-33 | No coordinates give an empty artifact set, with no failure. |
| `Provisioning.SingleCoordinate` | plugin-maven/src/main/java/com/diffplug/spotless/maven/MavenProvisioner.java:32 | For one coordinate, the result is exactly the resolver's result for it: its artifacts, or its failure. |
| `Provisioning.DistributesOverUnion` | plugin-maven/src/main/java/com/diffplug/spotless/maven/MavenProvisioner.java:31-33 | Provisioning A ∪ B is the union of provisioning A and B, and fails iff either one fails, with the failures of both. So the result depends on the set alone, not on any order. |
| `Provisioning.Monotone` | plugin-maven/src/main/java/com/diffplug/spotless/maven/MavenProvisioner.java:31-33 | Shrinking a successful request keeps it successful, and its artifacts are a subset of the larger request's. |
| `Provisioning.Deduplicates` | plugin-maven/src/main/java/com/diffplug/spotless/maven/MavenProvisioner.java:33 | When every requested coordinate resolves to the same artifacts, the result is those artifacts once (the set collector). |
| `Versions.FieldsRoundTrip` | lib-extra/src/test/java/com/diffplug/spotless/extra/config/EclipseConfigurationTest.java:40-43 | Splitting a version string at its dots and joining the pieces with dots gives the string back, and no piece contains a dot. |
| `Versions.FieldsOfJoin` | lib-extra/src/test/java/com/diffplug/spotless/extra/config/EclipseConfigurationTest.java:40-43 | A dot-free piece followed by a dot and the rest splits into that piece followed by the fields of the rest. |
| `Versions.ComponentsOfNumber` | lib-extra/src/test/java/com/diffplug/spotless/extra/config/EclipseConfigurationTest.java:93-97 | A run of digits is a version string with exactly one component, the run's decimal value. |
| `Versions.ComponentsOfJoin` | lib-extra/src/test/java/com/diffplug/spotless/extra/config/EclipseConfigurationTest.java:93-97 | A number, a dot and a version string form a version string whose components are the number's decimal value followed by the version's components. |
| `Versions.NumeralRoundTrip` | lib-extra/src/test/java/com/diffplug/spotless/extra/config/EclipseConfigurationTest.java:93-97 | Reading the decimal numeral of a number back with `DecimalValue` gives that number. |
| `Versions.RenderRoundTrip` | lib-extra/src/test/java/com/diffplug/spotless/extra/config/EclipseConfigurationTest.java:93-97 | Any non-empty component sequence, written out as numerals joined by dots, is a version string and parses back to exactly that sequence. |
| `Versions.CompareComponents` | lib-extra/src/test/java/com/diffplug/spotless/extra/config/EclipseConfigurationTest.java:93-97 | The comparison is three-valued: -1, 0 or 1. |
| `Versions.CompareIsLexicographic` | lib-extra/src/test/java/com/diffplug/spotless/extra/config/EclipseConfigurationTest.java:93-97 | Compared with a reference order on zero-padded components: the result is 0 iff every component agrees, and -1 iff the first differing component of the left operand is smaller. |
| `Versions.CompareAntisymmetric` | lib-extra/src/test/java/com/diffplug/spotless/extra/config/EclipseConfigurationTest.java:93-97 | Swapping the operands negates the result, so a version compares 0 with itself. |
| `Versions.CompareTransitive` | lib-extra/src/test/java/com/diffplug/spotless/extra/config/EclipseConfigurationTest.java:93-97 | The order "not higher than" is transitive. |
| `Versions.CompareVersions` | lib-extra/src/test/java/com/diffplug/spotless/extra/config/EclipseConfigurationTest.java:93-97 | Two version strings compare to -1, 0 or 1. |
| `Versions.LatestVersion` | lib-extra/src/test/java/com/diffplug/spotless/extra/config/EclipseConfigurationTest.java:44-61 | The default version is one of the supported ones, and none of them is higher. This holds for a list in any order. |
| `EclipseConfig.State.CompareVersionTo` | lib-extra/src/test/java/com/diffplug/spotless/extra/config/EclipseConfigurationTest.java:93-102 | A null argument is a user-argument error. Otherwise the result is 0 iff the padded components agree, -1 iff the argument is higher, and 1 iff it is lower. |
| `EclipseConfig.State.LoadClass` | lib-extra/src/test/java/com/diffplug/spotless/extra/config/EclipseConfigurationTest.java:119-133 | A class loads iff the loader over the state's artifacts contains it. Otherwise the result is a user-argument error naming the class. |
| `EclipseConfig.LoadPreferences` | lib-extra/src/test/java/com/diffplug/spotless/extra/config/EclipseConfigurationTest.java:104-117 | Reading succeeds iff every file exists. Otherwise it fails on the first missing file. On success, the keys are exactly those defined in some file. |
| `EclipseConfig.State.GetPreferences` | lib-extra/src/test/java/com/diffplug/spotless/extra/config/EclipseConfigurationTest.java:104-117 | A state's preferences are its files read now through `LoadPreferences`. Reading succeeds iff every file exists. Otherwise the error is a missing-file error, which is not a user-argument error. |
| `EclipseConfig.LaterFilesOverride` | lib-extra/src/test/java/com/diffplug/spotless/extra/config/EclipseConfigurationTest.java:105-109 | Each key has the value given by the last file that defines it. |
| `EclipseConfig.CoordinatesOf` | lib-extra/src/test/java/com/diffplug/spotless/extra/config/EclipseConfigurationTest.java:76-84 | An override provisions exactly its coordinate, and a version its default coordinates. A module URL fails iff its dependency list cannot be read. |
| `EclipseConfig.Snapshot` | lib-extra/src/test/java/com/diffplug/spotless/extra/config/EclipseConfigurationTest.java:119-133 | The state reports the configured version and preference files, and the origin in effect (URL over override over default). A resolution failure is the provisioner's own failure for that origin's coordinates. |
| `EclipseConfig.ModuleUrlIsSoleSource` | lib-extra/src/test/java/com/diffplug/spotless/extra/config/EclipseConfigurationTest.java:76-84 | With a module URL, any dependency override is ignored. The artifacts are those of the URL's dependency list, and the reported version is unchanged. |
| `EclipseConfig.DependencyOverridesDefault` | lib-extra/src/test/java/com/diffplug/spotless/extra/config/EclipseConfigurationTest.java:128-133 | An override's artifacts are those of its coordinate alone. Class lookup then gives the same answer whatever the version. |
| `EclipseConfig.VersionSelectsDefault` | lib-extra/src/test/java/com/diffplug/spotless/extra/config/EclipseConfigurationTest.java:119-126 | Without overrides, the artifacts are the provisioned default coordinates of the current version. |
| `EclipseConfig.EqualStatesHaveEqualSettings` | lib-extra/src/test/java/com/diffplug/spotless/extra/config/EclipseConfigurationTest.java:135-174 | Equal states come from equal versions, preference files and module URLs, and, without a URL, equal dependency overrides. |
| `EclipseConfig.SameSettingsSameState` | lib-extra/src/test/java/com/diffplug/spotless/extra/config/EclipseConfigurationTest.java:135-174 | Two distinct configuration objects with the same settings give equal states. Nothing in a state depends on object identity. |
| `EclipseConfig.Configuration.constructor` | lib-extra/src/test/java/com/diffplug/spotless/extra/config/EclipseConfigurationTest.java:53-61 | A new configuration reports the highest supported version, with no URL, no override and no preference files. |
| `EclipseConfig.Configuration.SetVersion` | lib-extra/src/test/java/com/diffplug/spotless/extra/config/EclipseConfigurationTest.java:63-90 | A supported version becomes current and drops any URL. A well-formed URL becomes the module URL and keeps the version. An unsupported version or a malformed URL is a user-argument error that changes nothing. |
| `EclipseConfig.Configuration.SetDependencies` | lib-extra/src/test/java/com/diffplug/spotless/extra/config/EclipseConfigurationTest.java:128-133 | Sets the dependency override and changes nothing else. |
| `EclipseConfig.Configuration.SetPreferences` | lib-extra/src/test/java/com/diffplug/spotless/extra/config/EclipseConfigurationTest.java:112-117 | Stores the files without checking them, and changes nothing else. |
| `EclipseConfig.Configuration.Get` | lib-extra/src/test/java/com/diffplug/spotless/extra/config/EclipseConfigurationTest.java:166-172 | The snapshot of the current settings. On success it reports the current version, which is a version string, and the current preference files. |
| `ConfigScenarios.TestVersionComponents` | lib-extra/src/test/java/com/diffplug/spotless/extra/config/EclipseConfigurationTest.java:40-43 | 0.0.1, 0.1.0, 1.0.0 and 10.0.0 are version strings with components [0,0,1], [0,1,0], [1,0,0] and [10,0,0]. |
| `ConfigScenarios.TestVersionsSupported` | lib-extra/src/test/java/com/diffplug/spotless/extra/config/EclipseConfigurationTest.java:40-44 | The test's three versions are well-formed version strings. |
| `ConfigScenarios.TestVersionOrder` | lib-extra/src/test/java/com/diffplug/spotless/extra/config/EclipseConfigurationTest.java:93-97 | 1.0.0 is above 0.0.1 and 0.1.0, and below 10.0.0. Also 9.0.0 is below 10.0.0, which plain text order reverses, so the comparison is numeric. |
| `ConfigScenarios.TestDefaultIsHigh` | lib-extra/src/test/java/com/diffplug/spotless/extra/config/EclipseConfigurationTest.java:44-61 | The default of the unordered list {0.0.1, 1.0.0, 0.1.0} is 1.0.0, not the last entry. |
| `ConfigScenarios.JdtVersionComponents` | lib-extra/src/main/java/com/diffplug/spotless/extra/java/EclipseJdtFormatterStep.java:34 | Each JDT formatter step version is a version string of three single-digit components. |
| `ConfigScenarios.JdtDefaultIsNewest` | lib-extra/src/main/java/com/diffplug/spotless/extra/java/EclipseJdtFormatterStep.java:34 | The default among the JDT formatter step's versions is 4.7.2. |
| `ConfigScenarios.NotAVersion` | lib-extra/src/test/java/com/diffplug/spotless/extra/config/EclipseConfigurationTest.java:86-90 | A string whose first character is not a digit is not a version string, so `setVersion` treats it as a URL. |
| `ConfigScenarios.NewTestConfig` | lib-extra/src/test/java/com/diffplug/spotless/extra/config/EclipseConfigurationTest.java:53-56 | The fixture's fresh configuration reports 1.0.0 and has no overrides. |
| `ConfigScenarios.DefaultVersionIsLatest` | lib-extra/src/test/java/com/diffplug/spotless/extra/config/EclipseConfigurationTest.java:58-61 | `get().compareVersionTo("1.0.0")` is 0 on a fresh configuration. |
| `ConfigScenarios.SetVersionToLow` | lib-extra/src/test/java/com/diffplug/spotless/extra/config/EclipseConfigurationTest.java:63-67 | After `setVersion("0.0.1")` succeeds, comparing with 0.0.1 gives 0. |
| `ConfigScenarios.SetUnsupportedVersion` | lib-extra/src/test/java/com/diffplug/spotless/extra/config/EclipseConfigurationTest.java:69-73 | `setVersion("10.0.0")` is a user-argument error, and the version is still 1.0.0. |
| `ConfigScenarios.SetUrlInsteadOfVersion` | lib-extra/src/test/java/com/diffplug/spotless/extra/config/EclipseConfigurationTest.java:75-84 | A URL to the old dependency list keeps the version at 1.0.0. KtLintStep then fails to load with a user-argument error, and ImportOrderStep loads. |
| `ConfigScenarios.SetMalformedUrl` | lib-extra/src/test/java/com/diffplug/spotless/extra/config/EclipseConfigurationTest.java:86-90 | The malformed URL is a user-argument error, and the version is still 1.0.0. |
| `ConfigScenarios.VersionComparison` | lib-extra/src/test/java/com/diffplug/spotless/extra/config/EclipseConfigurationTest.java:92-97 | Compared with 1.0.0, 10.0.0 and 0.0.1, the default gives 0, -1 and 1. |
| `ConfigScenarios.VersionComparisonForInvalidValue` | lib-extra/src/test/java/com/diffplug/spotless/extra/config/EclipseConfigurationTest.java:99-102 | `compareVersionTo(null)` is a user-argument error. |
| `ConfigScenarios.Preferences` | lib-extra/src/test/java/com/diffplug/spotless/extra/config/EclipseConfigurationTest.java:104-110 | The preferences of a file holding A=B contain A → B. |
| `ConfigScenarios.InvalidPreferences` | lib-extra/src/test/java/com/diffplug/spotless/extra/config/EclipseConfigurationTest.java:112-117 | Setting a missing file succeeds. Reading the preferences then fails with a missing-file error that is not a user-argument error. |
| `ConfigScenarios.DefaultDependencyResolution` | lib-extra/src/test/java/com/diffplug/spotless/extra/config/EclipseConfigurationTest.java:119-126 | With the 1.0.0 default both classes load. After switching to 0.0.1, KtLintStep is not found and ImportOrderStep still loads. |
| `ConfigScenarios.UserDependencyResolution` | lib-extra/src/test/java/com/diffplug/spotless/extra/config/EclipseConfigurationTest.java:128-133 | With the old spotless-lib as override, KtLintStep is not found and ImportOrderStep loads. |
| `ConfigScenarios.Recreate` | lib-extra/src/test/java/com/diffplug/spotless/extra/config/EclipseConfigurationTest.java:166-172 | Applying the three setters to a reused configuration leaves exactly those settings. The state is the snapshot of them, whatever was set before. |
| `ConfigScenarios.Equality` | lib-extra/src/test/java/com/diffplug/spotless/extra/config/EclipseConfigurationTest.java:135-174 | The four settings of the equality test give pairwise unequal states. Rebuilding each one on the reused configuration gives an equal state. |

## Left out

- `EclipseJdtFormatterStep.apply` and `createStep`: reflective instantiation of the external Eclipse formatter, and lazy thread-safe materialization of the step. Neither has state or logic to model beyond what `State` already offers. Only the step's version list is used, as instance data.
- Network and Maven repository access, the resolver itself, real class loading and the isolated class-loader boundary: they appear only as function-valued collaborators.
- Reading and parsing `.properties` files, file existence and URL parsing: these are abstract functions of the environment.
- The test harness (`ResourceHarness`, `TestProvisioner.mavenCentral`) and the Java serialization round trip of `SerializableEqualityTester`. States are plain values, so equality is structural.
- Provisioning.Provision: on failure it reports every failing coordinate with its message. Java throws the exception of whichever failing coordinate the hash-set stream reaches first, and that order is unspecified.
- `EclipseConfig.Configuration.SetDependencies` takes a coordinate and never clears the override. What a null argument does is not visible in the test.
- The `get()` of the unseen implementation may fail in ways the test does not show. The model fails only on an unreadable module URL or a provisioning failure.
- `Versions.LatestVersion` is the model's own way to compute the default. The unseen implementation may select it differently, but it must give the highest version, as the test requires.
- `EclipseConfig.Configuration.constructor` requires a non-empty list of well-formed version strings. How the unseen implementation treats any other list is not visible.

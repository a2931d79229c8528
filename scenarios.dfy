/**
 * The cases of EclipseConfigurationTest, each written as a client of the
 * configuration model. What a case needs from the outside world (which
 * classes the old and new spotless-lib artifacts contain, which files exist)
 * is a precondition on the environment; what the case asserts is the
 * postcondition.
 */
module ConfigScenarios {
  import opened Wrappers
  import opened Provisioning
  import opened Versions
  import opened EclipseConfig

  const Name := "test configuration"
  const Low := "0.0.1"
  const InBetween := "0.1.0"
  const High := "1.0.0"
  const TooHigh := "10.0.0"
  /** Deliberately not in ascending order. */
  const TestVersions := [Low, High, InBetween]
  const DependencyOld := "com.diffplug.spotless:spotless-lib:1.0.0"
  const DependencyNew := "com.diffplug.spotless:spotless-lib:1.12.0"
  const KtLintStep := "com.diffplug.spotless.kotlin.KtLintStep"
  const ImportOrderStep := "com.diffplug.spotless.java.ImportOrderStep"
  /** Split in two so that its first character can be read off the short first part. */
  const MalformedUrlText := "invalidProtocol:" + "//some.domain/some.properties"
  const MissingFile := "doesNotExist"

  /** The versions EclipseJdtFormatterStep supports, in ascending order. */
  const JdtVersions := ["4.6.1", "4.6.3", "4.7.0", "4.7.1", "4.7.2"]

  /** Artifacts of the old spotless-lib: ImportOrderStep exists, KtLintStep does not yet. */
  predicate OldModule(env: Environment, artifacts: set<Artifact>)
  {
    KtLintStep !in env.classesIn(artifacts) && ImportOrderStep in env.classesIn(artifacts)
  }

  /** Artifacts of a recent spotless-lib: both classes exist. */
  predicate NewModule(env: Environment, artifacts: set<Artifact>)
  {
    KtLintStep in env.classesIn(artifacts) && ImportOrderStep in env.classesIn(artifacts)
  }

  /** The version's default dependencies can be provisioned. */
  predicate DefaultResolves(env: Environment, version: string)
  {
    env.provisioner(env.defaultCoordinates(version)).Success?
  }

  /** A version written as three single digits, such as "4.7.2". */
  lemma {:induction false} ThreeDigits(a: char, b: char, c: char)
    requires IsDigit(a) && IsDigit(b) && IsDigit(c)
    ensures IsVersionString([a, '.', b, '.', c])
    ensures Components([a, '.', b, '.', c]) == [a as int - '0' as int, b as int - '0' as int, c as int - '0' as int]
  {
    assert [a, '.', b, '.', c] == [a] + "." + ([b] + "." + [c]);
    assert [a][..0] == [] && [b][..0] == [] && [c][..0] == [];
    ComponentsOfNumber([c]);
    ComponentsOfJoin([b], [c]);
    ComponentsOfJoin([a], [b] + "." + [c]);
  }

  /** The components of the test's versions. */
  lemma TestVersionComponents()
    ensures IsVersionString(Low) && Components(Low) == [0, 0, 1]
    ensures IsVersionString(InBetween) && Components(InBetween) == [0, 1, 0]
    ensures IsVersionString(High) && Components(High) == [1, 0, 0]
    ensures IsVersionString(TooHigh) && Components(TooHigh) == [10, 0, 0]
  {
    ThreeDigits('0', '0', '1');
    ThreeDigits('0', '1', '0');
    ThreeDigits('1', '0', '0');
    assert Fields(TooHigh)[0] == "10" && Fields(TooHigh)[1] == "0" && Fields(TooHigh)[2] == "0";
    assert DecimalValue("10") == 10;
  }

  lemma TestVersionsSupported()
    ensures SupportedVersions(TestVersions)
  {
    TestVersionComponents();
  }

  /**
   * The comparisons the test relies on. The last one shows the order is
   * numeric: as plain text "9.0.0" comes after "10.0.0".
   */
  lemma {:induction false} TestVersionOrder()
    ensures IsVersionString(Low) && IsVersionString(InBetween) && IsVersionString(High) && IsVersionString(TooHigh)
    ensures CompareVersions(High, Low) == 1 && CompareVersions(High, InBetween) == 1
    ensures CompareVersions(High, TooHigh) == -1
    ensures IsVersionString("9.0.0") && CompareVersions("9.0.0", TooHigh) == -1
  {
    TestVersionComponents();
    ThreeDigits('9', '0', '0');
  }

  /** The default of the test's unordered version list is its highest entry, not its last. */
  lemma {:induction false} TestDefaultIsHigh(v: string)
    requires SupportedVersions(TestVersions)
    requires IsLatest(v, TestVersions)
    ensures v == High
  {
    TestVersionOrder();
    assert CompareVersions(TestVersions[1], v) <= 0;
  }

  /** The components of the JDT formatter step's versions. */
  lemma JdtVersionComponents()
    ensures IsVersionString("4.6.1") && Components("4.6.1") == [4, 6, 1]
    ensures IsVersionString("4.6.3") && Components("4.6.3") == [4, 6, 3]
    ensures IsVersionString("4.7.0") && Components("4.7.0") == [4, 7, 0]
    ensures IsVersionString("4.7.1") && Components("4.7.1") == [4, 7, 1]
    ensures IsVersionString("4.7.2") && Components("4.7.2") == [4, 7, 2]
  {
    ThreeDigits('4', '6', '1');
    ThreeDigits('4', '6', '3');
    ThreeDigits('4', '7', '0');
    ThreeDigits('4', '7', '1');
    ThreeDigits('4', '7', '2');
  }

  /** The default of the Eclipse JDT formatter step is its newest version, 4.7.2. */
  lemma {:induction false} JdtDefaultIsNewest(v: string)
    requires SupportedVersions(JdtVersions)
    requires IsLatest(v, JdtVersions)
    ensures v == "4.7.2"
  {
    JdtVersionComponents();
    assert CompareVersions(JdtVersions[4], v) <= 0;
  }

  /** A string that does not start with a digit is not a version. */
  lemma NotAVersion(s: string)
    requires s != [] && !IsDigit(s[0])
    ensures !IsVersionString(s)
  {
    var fs := Fields(s);
    if s[0] == '.' {
      assert fs[0] == "";
    } else {
      assert fs[0][0] == s[0];
    }
    assert !IsNumber(fs[0]);
  }

  /** The test fixture: a configuration over the test's versions. */
  method NewTestConfig(env: Environment) returns (config: Configuration)
    ensures fresh(config) && config.Valid()
    ensures config.env == env && config.supported == TestVersions
    ensures config.version == High
    ensures config.moduleUrl == None && config.dependency == None && config.preferences == []
  {
    TestVersionsSupported();
    config := new Configuration(Name, env, TestVersions);
    TestDefaultIsHigh(config.version);
  }

  /** testConfig.get().compareVersionTo(v) */
  function GetThenCompare(config: Configuration, v: Option<string>): Result<int, ConfigError>
    reads config
    requires config.Valid()
  {
    match config.Get()
    case Failure(e) => Failure(e)
    case Success(state) => state.CompareVersionTo(v)
  }

  /** testConfig.get().loadClass(name) */
  function GetThenLoad(config: Configuration, name: ClassName): Result<ClassName, ConfigError>
    reads config
    requires config.Valid()
  {
    match config.Get()
    case Failure(e) => Failure(e)
    case Success(state) => state.LoadClass(config.env, name)
  }

  method DefaultVersionIsLatest(env: Environment) returns (cmp: Result<int, ConfigError>)
    requires DefaultResolves(env, High)
    ensures cmp == Success(0)
  {
    var config := NewTestConfig(env);
    TestVersionOrder();
    CompareAntisymmetric(Components(High), Components(High));
    cmp := GetThenCompare(config, Some(High));
  }

  method SetVersionToLow(env: Environment) returns (outcome: Outcome<ConfigError>, cmp: Result<int, ConfigError>)
    requires DefaultResolves(env, Low)
    ensures outcome == Pass && cmp == Success(0)
  {
    var config := NewTestConfig(env);
    outcome := config.SetVersion(Low);
    TestVersionOrder();
    CompareAntisymmetric(Components(Low), Components(Low));
    cmp := GetThenCompare(config, Some(Low));
  }

  method SetUnsupportedVersion(env: Environment) returns (outcome: Outcome<ConfigError>, cmp: Result<int, ConfigError>)
    requires DefaultResolves(env, High)
    ensures outcome.Fail? && outcome.error.IsUserArgumentError()
    ensures cmp == Success(0)
  {
    var config := NewTestConfig(env);
    TestVersionOrder();
    outcome := config.SetVersion(TooHigh);
    CompareAntisymmetric(Components(High), Components(High));
    cmp := GetThenCompare(config, Some(High));
  }

  method SetUrlInsteadOfVersion(env: Environment, url: string)
    returns (outcome: Outcome<ConfigError>, cmp: Result<int, ConfigError>,
             ktLint: Result<ClassName, ConfigError>, importOrder: Result<ClassName, ConfigError>)
    requires env.isWellFormedUrl(url) && !IsVersionString(url)
    requires env.dependenciesAt(url).Some?
    requires env.provisioner(env.dependenciesAt(url).value).Success?
    requires OldModule(env, env.provisioner(env.dependenciesAt(url).value).value)
    ensures outcome == Pass
    ensures cmp == Success(0)
    ensures ktLint == Failure(ClassNotFound(KtLintStep)) && ktLint.error.IsUserArgumentError()
    ensures importOrder == Success(ImportOrderStep)
  {
    var config := NewTestConfig(env);
    outcome := config.SetVersion(url);
    TestVersionOrder();
    CompareAntisymmetric(Components(High), Components(High));
    cmp := GetThenCompare(config, Some(High));
    ktLint := GetThenLoad(config, KtLintStep);
    importOrder := GetThenLoad(config, ImportOrderStep);
  }

  method SetMalformedUrl(env: Environment) returns (outcome: Outcome<ConfigError>, cmp: Result<int, ConfigError>)
    requires !env.isWellFormedUrl(MalformedUrlText)
    requires DefaultResolves(env, High)
    ensures outcome == Fail(MalformedUrl(MalformedUrlText)) && outcome.error.IsUserArgumentError()
    ensures cmp == Success(0)
  {
    var config := NewTestConfig(env);
    assert MalformedUrlText[0] == 'i';
    NotAVersion(MalformedUrlText);
    outcome := config.SetVersion(MalformedUrlText);
    TestVersionOrder();
    CompareAntisymmetric(Components(High), Components(High));
    cmp := GetThenCompare(config, Some(High));
  }

  method VersionComparison(env: Environment)
    returns (same: Result<int, ConfigError>, higher: Result<int, ConfigError>, lower: Result<int, ConfigError>)
    requires DefaultResolves(env, High)
    ensures same == Success(0) && higher == Success(-1) && lower == Success(1)
  {
    var config := NewTestConfig(env);
    TestVersionOrder();
    CompareAntisymmetric(Components(High), Components(High));
    same := GetThenCompare(config, Some(High));
    higher := GetThenCompare(config, Some(TooHigh));
    lower := GetThenCompare(config, Some(Low));
  }

  method VersionComparisonForInvalidValue(env: Environment) returns (cmp: Result<int, ConfigError>)
    requires DefaultResolves(env, High)
    ensures cmp == Failure(NullVersion) && cmp.error.IsUserArgumentError()
  {
    var config := NewTestConfig(env);
    cmp := GetThenCompare(config, None);
  }

  method Preferences(env: Environment, file: File) returns (prefs: Result<Properties, ConfigError>)
    requires DefaultResolves(env, High)
    requires env.fileExists(file)
    requires "A" in env.propertiesOf(file) && env.propertiesOf(file)["A"] == "B"
    ensures prefs.Success? && "A" in prefs.value && prefs.value["A"] == "B"
  {
    var config := NewTestConfig(env);
    config.SetPreferences([file]);
    var state := config.Get();
    LaterFilesOverride(env, [file], 0, "A");
    prefs := state.value.GetPreferences(env);
  }

  method InvalidPreferences(env: Environment) returns (prefs: Result<Properties, ConfigError>)
    requires DefaultResolves(env, High)
    requires !env.fileExists(MissingFile)
    ensures prefs == Failure(MissingPreferences(MissingFile)) && !prefs.error.IsUserArgumentError()
  {
    var config := NewTestConfig(env);
    config.SetPreferences([MissingFile]);
    var state := config.Get();
    prefs := state.value.GetPreferences(env);
  }

  method DefaultDependencyResolution(env: Environment)
    returns (ktLintHigh: Result<ClassName, ConfigError>, importOrderHigh: Result<ClassName, ConfigError>,
             ktLintLow: Result<ClassName, ConfigError>, importOrderLow: Result<ClassName, ConfigError>)
    requires DefaultResolves(env, High) && NewModule(env, env.provisioner(env.defaultCoordinates(High)).value)
    requires DefaultResolves(env, Low) && OldModule(env, env.provisioner(env.defaultCoordinates(Low)).value)
    ensures ktLintHigh == Success(KtLintStep) && importOrderHigh == Success(ImportOrderStep)
    ensures ktLintLow == Failure(ClassNotFound(KtLintStep)) && importOrderLow == Success(ImportOrderStep)
  {
    var config := NewTestConfig(env);
    ktLintHigh := GetThenLoad(config, KtLintStep);
    importOrderHigh := GetThenLoad(config, ImportOrderStep);
    var outcome := config.SetVersion(Low);
    ktLintLow := GetThenLoad(config, KtLintStep);
    importOrderLow := GetThenLoad(config, ImportOrderStep);
  }

  method UserDependencyResolution(env: Environment)
    returns (ktLint: Result<ClassName, ConfigError>, importOrder: Result<ClassName, ConfigError>)
    requires env.provisioner({DependencyOld}).Success?
    requires OldModule(env, env.provisioner({DependencyOld}).value)
    ensures ktLint == Failure(ClassNotFound(KtLintStep)) && importOrder == Success(ImportOrderStep)
  {
    var config := NewTestConfig(env);
    config.SetDependencies(DependencyOld);
    ktLint := GetThenLoad(config, KtLintStep);
    importOrder := GetThenLoad(config, ImportOrderStep);
  }

  /** The create() of the equality test: all three settings applied to the same configuration, then get(). */
  method Recreate(config: Configuration, version: string, files: seq<File>, coordinate: Coord)
    returns (state: Result<State, ConfigError>)
    requires config.Valid() && version in config.supported
    modifies config
    ensures config.Valid()
    ensures config.version == version && config.moduleUrl == None
    ensures config.dependency == Some(coordinate) && config.preferences == files
    ensures state == Snapshot(config.env, version, None, Some(coordinate), files)
  {
    var outcome := config.SetVersion(version);
    config.SetPreferences(files);
    config.SetDependencies(coordinate);
    state := config.Get();
  }

  /**
   * The equality test: the four settings (Low, no files, new), (High, no
   * files, new), (High, files, new), (High, files, old) give pairwise
   * different states, and each, built again on the reused configuration,
   * gives an equal state.
   */
  method Equality(env: Environment, files: seq<File>) returns (states: seq<State>, again: seq<State>)
    requires files != []
    requires env.provisioner({DependencyNew}).Success? && env.provisioner({DependencyOld}).Success?
    ensures |states| == 4 && |again| == 4
    ensures forall i, j :: 0 <= i < j < 4 ==> states[i] != states[j]
    ensures forall i :: 0 <= i < 4 ==> again[i] == states[i]
  {
    var config := NewTestConfig(env);
    var r1 := Recreate(config, Low, [], DependencyNew);
    var r2 := Recreate(config, High, [], DependencyNew);
    var r3 := Recreate(config, High, files, DependencyNew);
    var r4 := Recreate(config, High, files, DependencyOld);
    states := [r1.value, r2.value, r3.value, r4.value];
    var s1 := Recreate(config, Low, [], DependencyNew);
    var s2 := Recreate(config, High, [], DependencyNew);
    var s3 := Recreate(config, High, files, DependencyNew);
    var s4 := Recreate(config, High, files, DependencyOld);
    again := [s1.value, s2.value, s3.value, s4.value];
  }
}

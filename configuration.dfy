/**
 * The configuration of an Eclipse-based formatter step (EclipseConfiguration):
 * a mutable builder holding the supported versions, the selected version, an
 * optional module URL, an optional dependency override and a list of
 * preference files, and the immutable State snapshot it produces.
 */
module EclipseConfig {
  import opened Wrappers
  import opened Provisioning
  import opened Versions

  type File = string
  type ClassName = string
  type Properties = map<string, string>

  /**
   * The collaborators whose behaviour lies outside this model, given as
   * functions: how coordinates are provisioned, which coordinates a version
   * needs by default, whether a string is a well-formed URL, which dependency
   * list a module URL points at, which classes an isolated loader over a set
   * of artifacts can find, whether a file exists and which properties it holds.
   */
  datatype Environment = Environment(
    provisioner: Provisioner,
    defaultCoordinates: string -> set<Coord>,
    isWellFormedUrl: string -> bool,
    dependenciesAt: string -> Option<set<Coord>>,
    classesIn: set<Artifact> -> set<ClassName>,
    fileExists: File -> bool,
    propertiesOf: File -> Properties)

  datatype ConfigError =
    | UnsupportedVersion(version: string)
    | MalformedUrl(text: string)
    | UnreadableUrl(url: string)
    | NullVersion
    | MalformedVersion(text: string)
    | ClassNotFound(name: ClassName)
    | ResolutionFailure(cause: ProvisionError)
    | MissingPreferences(file: File)
  {
    /** The errors the source reports as a UserArgumentException. */
    predicate IsUserArgumentError()
    {
      !ResolutionFailure? && !MissingPreferences?
    }
  }

  /** Where the formatter's artifacts come from. */
  datatype Origin =
    | DefaultFor(version: string)
    | Dependency(coordinate: Coord)
    | ModuleUrl(url: string)

  /** A list of supported versions as a configuration needs it: non-empty, each a version string. */
  predicate SupportedVersions(versions: seq<string>)
  {
    |versions| > 0 && forall i :: 0 <= i < |versions| ==> IsVersionString(versions[i])
  }

  /**
   * The immutable snapshot returned by get(). It is a plain value: two
   * snapshots are equal exactly when their fields are, whichever process or
   * configuration object produced them.
   */
  datatype State = State(version: string, preferences: seq<File>, origin: Origin, artifacts: set<Artifact>)
  {
    /**
     * compareVersionTo: 0 for the reported version, -1 for a higher one, 1 for
     * a lower one; a missing or malformed argument is a user-argument error.
     */
    function CompareVersionTo(other: Option<string>): (r: Result<int, ConfigError>)
      requires IsVersionString(version)
      ensures other.None? ==> r == Failure(NullVersion)
      ensures other.Some? && !IsVersionString(other.value) ==> r == Failure(MalformedVersion(other.value))
      ensures r.Failure? ==> r.error.IsUserArgumentError()
      ensures other.Some? && IsVersionString(other.value) ==>
        && r.Success?
        && (r.value == 0 <==> forall i: nat :: Padded(Components(version), i) == Padded(Components(other.value), i))
        && (r.value == -1 <==> exists k: nat :: LowerAt(Components(version), Components(other.value), k))
        && (r.value == 1 <==> exists k: nat :: LowerAt(Components(other.value), Components(version), k))
    {
      match other
      case None => Failure(NullVersion)
      case Some(v) =>
        if !IsVersionString(v) then Failure(MalformedVersion(v))
        else
          var a, b := Components(version), Components(v);
          CompareIsLexicographic(a, b);
          CompareIsLexicographic(b, a);
          CompareAntisymmetric(a, b);
          Success(CompareVersions(version, v))
    }

    /** loadClass: a class is found exactly when the loader over this state's artifacts contains it. */
    function LoadClass(env: Environment, name: ClassName): (r: Result<ClassName, ConfigError>)
      ensures r.Success? <==> name in env.classesIn(artifacts)
      ensures r.Success? ==> r.value == name
      ensures r.Failure? ==> r.error == ClassNotFound(name) && r.error.IsUserArgumentError()
    {
      if name in env.classesIn(artifacts) then Success(name) else Failure(ClassNotFound(name))
    }

    /**
     * getPreferences: the preference files read and merged now, not when they
     * were set; a missing file is reported here, and not as a user-argument error.
     */
    function GetPreferences(env: Environment): (r: Result<Properties, ConfigError>)
      ensures r == LoadPreferences(env, preferences)
      ensures r.Success? <==> forall i :: 0 <= i < |preferences| ==> env.fileExists(preferences[i])
      ensures r.Failure? ==> r.error.MissingPreferences? && !r.error.IsUserArgumentError()
    {
      LoadPreferences(env, preferences)
    }
  }

  /**
   * Reads the preference files in order into one property map, later files
   * overriding earlier keys; fails on the first file that does not exist.
   */
  function LoadPreferences(env: Environment, files: seq<File>): (r: Result<Properties, ConfigError>)
    ensures r.Success? <==> forall i :: 0 <= i < |files| ==> env.fileExists(files[i])
    ensures r.Failure? ==>
      exists i :: 0 <= i < |files| && !env.fileExists(files[i]) && r.error == MissingPreferences(files[i]) &&
        forall j :: 0 <= j < i ==> env.fileExists(files[j])
    ensures r.Success? ==>
      forall key :: key in r.value <==> exists i :: 0 <= i < |files| && key in env.propertiesOf(files[i])
    decreases |files|
  {
    if files == [] then Success(map[])
    else
      var init, last := files[..|files| - 1], files[|files| - 1];
      assert forall i :: 0 <= i < |init| ==> init[i] == files[i];
      match LoadPreferences(env, init)
      case Failure(e) => Failure(e)
      case Success(earlier) =>
        if !env.fileExists(last) then Failure(MissingPreferences(last))
        else Success(earlier + env.propertiesOf(last))
  }

  /** Each key takes the value of the last file that defines it. */
  lemma {:induction false} LaterFilesOverride(env: Environment, files: seq<File>, i: nat, key: string)
    requires forall j :: 0 <= j < |files| ==> env.fileExists(files[j])
    requires i < |files| && key in env.propertiesOf(files[i])
    requires forall j :: i < j < |files| ==> key !in env.propertiesOf(files[j])
    ensures LoadPreferences(env, files).Success?
    ensures key in LoadPreferences(env, files).value
    ensures LoadPreferences(env, files).value[key] == env.propertiesOf(files[i])[key]
    decreases |files|
  {
    var init, last := files[..|files| - 1], files[|files| - 1];
    assert forall j :: 0 <= j < |init| ==> init[j] == files[j];
    if i < |files| - 1 {
      LaterFilesOverride(env, init, i, key);
    }
  }

  /** The coordinates to provision for an origin; a module URL is read for the dependency list it holds. */
  function CoordinatesOf(env: Environment, origin: Origin): (r: Result<set<Coord>, ConfigError>)
    ensures origin.Dependency? ==> r == Success({origin.coordinate})
    ensures origin.DefaultFor? ==> r == Success(env.defaultCoordinates(origin.version))
    ensures origin.ModuleUrl? ==> (r.Failure? <==> env.dependenciesAt(origin.url).None?)
  {
    match origin
    case DefaultFor(v) => Success(env.defaultCoordinates(v))
    case Dependency(c) => Success({c})
    case ModuleUrl(u) =>
      match env.dependenciesAt(u)
      case None => Failure(UnreadableUrl(u))
      case Some(coords) => Success(coords)
  }

  /** The origin in effect: a module URL beats a dependency override, which beats the version's default. */
  function EffectiveOrigin(version: string, moduleUrl: Option<string>, dependency: Option<Coord>): Origin
  {
    if moduleUrl.Some? then ModuleUrl(moduleUrl.value)
    else if dependency.Some? then Dependency(dependency.value)
    else DefaultFor(version)
  }

  /**
   * What get() computes from the configuration's settings: the origin in
   * effect is provisioned, and the state records the reported version, the
   * preference files, the origin and the provisioned artifacts.
   */
  function Snapshot(env: Environment, version: string, moduleUrl: Option<string>,
                    dependency: Option<Coord>, preferences: seq<File>): (r: Result<State, ConfigError>)
    ensures r.Success? ==> r.value.version == version && r.value.preferences == preferences
    ensures r.Success? ==> r.value.origin == EffectiveOrigin(version, moduleUrl, dependency)
    ensures r.Failure? && r.error.ResolutionFailure? ==>
      CoordinatesOf(env, EffectiveOrigin(version, moduleUrl, dependency)).Success? &&
      env.provisioner(CoordinatesOf(env, EffectiveOrigin(version, moduleUrl, dependency)).value)
        == Failure(r.error.cause)
  {
    var origin := EffectiveOrigin(version, moduleUrl, dependency);
    match CoordinatesOf(env, origin)
    case Failure(e) => Failure(e)
    case Success(coords) =>
      match env.provisioner(coords)
      case Failure(e) => Failure(ResolutionFailure(e))
      case Success(artifacts) => Success(State(version, preferences, origin, artifacts))
  }

  /**
   * A module URL is the sole source of artifacts: any dependency override is
   * ignored, and the version still reported is the one set before.
   */
  lemma ModuleUrlIsSoleSource(env: Environment, version: string, url: string, dependency: Option<Coord>, files: seq<File>)
    ensures Snapshot(env, version, Some(url), dependency, files) == Snapshot(env, version, Some(url), None, files)
    ensures Snapshot(env, version, Some(url), dependency, files).Success? <==>
      env.dependenciesAt(url).Some? && env.provisioner(env.dependenciesAt(url).value).Success?
    ensures Snapshot(env, version, Some(url), dependency, files).Success? ==>
      var s := Snapshot(env, version, Some(url), dependency, files).value;
      s.version == version && s.artifacts == env.provisioner(env.dependenciesAt(url).value).value
  {
  }

  /** A dependency override replaces the version-derived artifacts, whatever the version. */
  lemma DependencyOverridesDefault(env: Environment, v1: string, v2: string, coordinate: Coord, files: seq<File>, name: ClassName)
    ensures Snapshot(env, v1, None, Some(coordinate), files).Success? <==> env.provisioner({coordinate}).Success?
    ensures Snapshot(env, v1, None, Some(coordinate), files).Success? ==>
      && Snapshot(env, v1, None, Some(coordinate), files).value.artifacts == env.provisioner({coordinate}).value
      && Snapshot(env, v2, None, Some(coordinate), files).Success?
      && Snapshot(env, v1, None, Some(coordinate), files).value.LoadClass(env, name)
         == Snapshot(env, v2, None, Some(coordinate), files).value.LoadClass(env, name)
  {
  }

  /** Without overrides, the artifacts are the chosen version's default dependencies. */
  lemma VersionSelectsDefault(env: Environment, version: string, files: seq<File>)
    ensures Snapshot(env, version, None, None, files).Success? <==>
      env.provisioner(env.defaultCoordinates(version)).Success?
    ensures Snapshot(env, version, None, None, files).Success? ==>
      Snapshot(env, version, None, None, files).value.artifacts == env.provisioner(env.defaultCoordinates(version)).value
  {
  }

  /**
   * State equality is decided by the settings: equal snapshots come from the
   * same version, preference files and origin in effect.
   */
  lemma EqualStatesHaveEqualSettings(env: Environment,
                                     v1: string, u1: Option<string>, d1: Option<Coord>, p1: seq<File>,
                                     v2: string, u2: Option<string>, d2: Option<Coord>, p2: seq<File>)
    requires Snapshot(env, v1, u1, d1, p1).Success?
    requires Snapshot(env, v1, u1, d1, p1) == Snapshot(env, v2, u2, d2, p2)
    ensures v1 == v2 && p1 == p2
    ensures u1 == u2
    ensures u1.None? ==> d1 == d2
  {
  }

  /** The mutable configuration builder. */
  class Configuration {
    const name: string
    const env: Environment
    const supported: seq<string>
    var version: string
    var moduleUrl: Option<string>
    var dependency: Option<Coord>
    var preferences: seq<File>

    ghost predicate Valid()
      reads this
    {
      SupportedVersions(supported) && version in supported
    }

    /** A new configuration reports the highest supported version and has no overrides. */
    constructor (name: string, env: Environment, supported: seq<string>)
      requires SupportedVersions(supported)
      ensures Valid()
      ensures this.name == name && this.env == env && this.supported == supported
      ensures IsLatest(version, supported)
      ensures moduleUrl == None && dependency == None && preferences == []
    {
      this.name := name;
      this.env := env;
      this.supported := supported;
      var latest := LatestVersion(supported);
      version := latest;
      moduleUrl := None;
      dependency := None;
      preferences := [];
    }

    /**
     * setVersion: a supported version becomes the reported version and drops
     * any module URL; a well-formed URL (that is not a version string) becomes
     * the module URL and leaves the version as it was; an unsupported version
     * or a malformed URL is a user-argument error that changes nothing.
     */
    method SetVersion(v: string) returns (outcome: Outcome<ConfigError>)
      requires Valid()
      modifies this
      ensures Valid()
      ensures dependency == old(dependency) && preferences == old(preferences)
      ensures outcome.Fail? ==> outcome.error.IsUserArgumentError()
      ensures outcome.Fail? ==> version == old(version) && moduleUrl == old(moduleUrl)
      ensures v in supported ==> outcome == Pass && version == v && moduleUrl == None
      ensures v !in supported && IsVersionString(v) ==> outcome == Fail(UnsupportedVersion(v))
      ensures v !in supported && !IsVersionString(v) && env.isWellFormedUrl(v) ==>
        outcome == Pass && version == old(version) && moduleUrl == Some(v)
      ensures v !in supported && !IsVersionString(v) && !env.isWellFormedUrl(v) ==>
        outcome == Fail(MalformedUrl(v))
    {
      if v in supported {
        version := v;
        moduleUrl := None;
        outcome := Pass;
      } else if IsVersionString(v) {
        outcome := Fail(UnsupportedVersion(v));
      } else if env.isWellFormedUrl(v) {
        moduleUrl := Some(v);
        outcome := Pass;
      } else {
        outcome := Fail(MalformedUrl(v));
      }
    }

    /** setDepenencies: the coordinate replaces the version-derived default dependencies. */
    method SetDependencies(coordinate: Coord)
      requires Valid()
      modifies this
      ensures Valid()
      ensures dependency == Some(coordinate)
      ensures version == old(version) && moduleUrl == old(moduleUrl) && preferences == old(preferences)
    {
      dependency := Some(coordinate);
    }

    /** setPreferences: stores the files without checking them; a missing file shows only when the preferences are read. */
    method SetPreferences(files: seq<File>)
      requires Valid()
      modifies this
      ensures Valid()
      ensures preferences == files
      ensures version == old(version) && moduleUrl == old(moduleUrl) && dependency == old(dependency)
    {
      preferences := files;
    }

    /** get(): the snapshot of the current settings. */
    function Get(): (r: Result<State, ConfigError>)
      reads this
      requires Valid()
      ensures r.Success? ==> r.value.version == version && IsVersionString(r.value.version)
      ensures r.Success? ==> r.value.preferences == preferences
      ensures r == Snapshot(env, version, moduleUrl, dependency, preferences)
    {
      Snapshot(env, version, moduleUrl, dependency, preferences)
    }
  }

  /**
   * Two configurations with the same collaborators and settings produce
   * equal states: nothing in a state depends on object identity.
   */
  lemma SameSettingsSameState(c1: Configuration, c2: Configuration)
    requires c1.Valid() && c2.Valid()
    requires c1.env == c2.env && c1.version == c2.version && c1.moduleUrl == c2.moduleUrl
    requires c1.dependency == c2.dependency && c1.preferences == c2.preferences
    ensures c1.Get() == c2.Get()
  {
  }
}

/**
 * The Maven provisioner: a set of Maven coordinates is mapped to the
 * deduplicated union of the artifacts an artifact resolver returns for each
 * coordinate (MavenProvisioner.create).
 */
module Provisioning {
  import opened Wrappers

  /** A Maven coordinate such as "group:artifact:version". */
  type Coord = string

  /** A local artifact location (a java.io.File in the source). */
  datatype Artifact = Artifact(path: string)

  /**
   * The external ArtifactResolver: it resolves one coordinate to a set of
   * artifacts, or fails with a message.
   */
  type Resolver = Coord -> Result<set<Artifact>, string>

  /** Why a provisioning call failed: every requested coordinate that did not resolve, with its message. */
  datatype ProvisionError = Unresolved(failures: map<Coord, string>)

  /** A Provisioner: requested coordinates to the union of their artifacts. */
  type Provisioner = set<Coord> -> Result<set<Artifact>, ProvisionError>

  /** Thrown by Objects.requireNonNull when create is given no resolver. */
  datatype CreateError = NullResolver

  /** The coordinates of `coords` the resolver fails on, with the resolver's messages. */
  function Failures(resolve: Resolver, coords: set<Coord>): (r: map<Coord, string>)
    ensures forall c :: c in r <==> c in coords && resolve(c).Failure?
  {
    map c | c in coords && resolve(c).Failure? :: resolve(c).error
  }

  /**
   * The lambda returned by create, applied to a coordinate set: the stream
   * of coordinates flat-mapped through the resolver and collected into a set.
   * A resolver failure on any coordinate aborts the whole call.
   */
  function Provision(resolve: Resolver, coords: set<Coord>): (r: Result<set<Artifact>, ProvisionError>)
    ensures r.Failure? <==> exists c :: c in coords && resolve(c).Failure?
    ensures r.Success? ==>
      forall a :: a in r.value <==> exists c :: c in coords && resolve(c).Success? && a in resolve(c).value
  {
    var failures := Failures(resolve, coords);
    if failures != map[] then Failure(Unresolved(failures))
    else Success(set c, a | c in coords && resolve(c).Success? && a in resolve(c).value :: a)
  }

  /**
   * MavenProvisioner.create: a missing resolver is rejected before any
   * provisioner exists; otherwise the provisioner is Provision over the resolver.
   */
  function Create(resolver: Option<Resolver>): (p: Result<Provisioner, CreateError>)
    ensures p.Failure? <==> resolver.None?
    ensures p.Failure? ==> p.error == NullResolver
    ensures p.Success? ==> forall coords :: p.value(coords) == Provision(resolver.value, coords)
  {
    match resolver
    case None => Failure(NullResolver)
    case Some(resolve) => Success(coords => Provision(resolve, coords))
  }

  /** Combines the outcomes of provisioning two coordinate sets, as provisioning their union does. */
  function Join(x: Result<set<Artifact>, ProvisionError>, y: Result<set<Artifact>, ProvisionError>)
    : Result<set<Artifact>, ProvisionError>
  {
    match (x, y)
    case (Success(a), Success(b)) => Success(a + b)
    case (Failure(e), Success(_)) => Failure(e)
    case (Success(_), Failure(e)) => Failure(e)
    case (Failure(e1), Failure(e2)) => Failure(Unresolved(e1.failures + e2.failures))
  }

  /** A failed call reports every requested coordinate the resolver failed on, with its message, and no other. */
  lemma FailureReportsEveryCoordinate(resolve: Resolver, coords: set<Coord>)
    requires Provision(resolve, coords).Failure?
    ensures forall c :: c in Provision(resolve, coords).error.failures <==> c in coords && resolve(c).Failure?
    ensures forall c :: c in Provision(resolve, coords).error.failures ==>
      Provision(resolve, coords).error.failures[c] == resolve(c).error
  {
  }

  /** No coordinates, no artifacts. */
  lemma EmptyRequest(resolve: Resolver)
    ensures Provision(resolve, {}) == Success({})
  {
    assert Failures(resolve, {}) == map[];
    var r := Provision(resolve, {});
    assert r.value == {};
  }

  /** For one coordinate the provisioner returns exactly what the resolver returns for it. */
  lemma SingleCoordinate(resolve: Resolver, c: Coord)
    ensures resolve(c).Success? ==> Provision(resolve, {c}) == Success(resolve(c).value)
    ensures resolve(c).Failure? ==> Provision(resolve, {c}) == Failure(Unresolved(map[c := resolve(c).error]))
  {
    var failures := Failures(resolve, {c});
    if resolve(c).Success? {
      assert c !in failures;
      assert failures == map[];
      var r := Provision(resolve, {c});
      assert r.value == resolve(c).value;
    } else {
      assert c in failures;
      assert failures == map[c := resolve(c).error];
    }
  }

  /**
   * Provisioning distributes over the union of coordinate sets, so the
   * result depends only on the set of coordinates and not on any order.
   */
  lemma {:induction false} DistributesOverUnion(resolve: Resolver, xs: set<Coord>, ys: set<Coord>)
    ensures Provision(resolve, xs + ys) == Join(Provision(resolve, xs), Provision(resolve, ys))
  {
    var fx, fy, fxy := Failures(resolve, xs), Failures(resolve, ys), Failures(resolve, xs + ys);
    assert fxy == fx + fy;
    var px, py := Provision(resolve, xs), Provision(resolve, ys);
    if fx == map[] && fy == map[] {
      var pxy := Provision(resolve, xs + ys);
      assert pxy.value == px.value + py.value;
    } else if fx != map[] && fy == map[] {
      assert fxy == fx;
    } else if fx == map[] && fy != map[] {
      assert fxy == fy;
    }
  }

  /** Requesting more coordinates never loses an artifact, and a failure-free request stays failure-free when shrunk. */
  lemma {:induction false} Monotone(resolve: Resolver, xs: set<Coord>, ys: set<Coord>)
    requires xs <= ys
    requires Provision(resolve, ys).Success?
    ensures Provision(resolve, xs).Success?
    ensures Provision(resolve, xs).value <= Provision(resolve, ys).value
  {
    assert ys == xs + (ys - xs);
    DistributesOverUnion(resolve, xs, ys - xs);
  }

  /**
   * The result is a set: when every requested coordinate resolves to the same
   * artifacts, those artifacts appear once, however many coordinates there are.
   */
  lemma Deduplicates(resolve: Resolver, coords: set<Coord>, artifacts: set<Artifact>)
    requires coords != {}
    requires forall c :: c in coords ==> resolve(c) == Success(artifacts)
    ensures Provision(resolve, coords) == Success(artifacts)
  {
    assert Failures(resolve, coords) == map[];
    var c :| c in coords;
    var r := Provision(resolve, coords);
    assert r.value == artifacts;
  }
}

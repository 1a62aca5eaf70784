/**
 * The manifest data model: editions, inheritable fields, build products,
 * publishing rules, the package record and the whole manifest as a value.
 */
module ManifestTypes {
  import opened Wrappers
  import opened Dependencies

  // ---------------------------------------------------------------- enums

  datatype Edition = E2015 | E2018 | E2021

  function EditionYear(e: Edition): nat
  {
    match e
    case E2015 => 2015
    case E2018 => 2018
    case E2021 => 2021
  }

  /** The default edition is the oldest one. */
  function DefaultEdition(): (e: Edition)
    ensures forall other :: EditionYear(e) <= EditionYear(other)
  {
    E2015
  }

  datatype Resolver = V1 | V2

  function ResolverNumber(r: Resolver): nat
  {
    match r
    case V1 => 1
    case V2 => 2
  }

  /** The default dependency resolver is the first one. */
  function DefaultResolver(): (r: Resolver)
    ensures forall other :: ResolverNumber(r) <= ResolverNumber(other)
  {
    V1
  }

  datatype MaintenanceStatus =
    | NoStatus
    | ActivelyDeveloped
    | PassivelyMaintained
    | AsIs
    | Experimental
    | LookingForMaintainer
    | Deprecated

  /** Every status but `none` shows a maintenance badge on the registry's page. */
  predicate DisplaysBadge(s: MaintenanceStatus)
  {
    s != NoStatus
  }

  /** The default maintenance status is the one that shows no badge. */
  function DefaultMaintenanceStatus(): (s: MaintenanceStatus)
    ensures !DisplaysBadge(s)
  {
    NoStatus
  }

  // ------------------------------------------------- inheritable fields

  /** A field given in the package itself, or deferred to the workspace with `field.workspace = true`. */
  datatype MaybeInherited<T> = Inherited | Local(value: T)

  /**
   * The shape such a field has in the document: a `{ workspace = b }` table,
   * or a value of the field's own type.
   */
  datatype RawInheritable<T> = WorkspaceKey(flag: bool) | RawValue(value: T)

  /** Reading the `workspace` marker: only the literal `true` is accepted. */
  function TrueFromBool(b: bool): (r: Result<(), string>)
    ensures r.Ok? <==> b
  {
    if b then Ok(()) else Err("invalid value: boolean `false`, expected a `true` boolean value")
  }

  /** Writing the `workspace` marker: always `true`, the one value reading accepts. */
  function TrueToBool(): (r: bool)
    ensures TrueFromBool(r).Ok?
  {
    true
  }

  /**
   * The error an untagged enum reports when no variant reads the input: the
   * message of the failed `Inherited` attempt is discarded.
   */
  const UntaggedMismatch: string := "data did not match any variant of untagged enum MaybeInherited"

  /**
   * Reading an inheritable field, as an untagged enum: `workspace = true`
   * defers to the workspace, a plain value is local, and anything else
   * matches no variant.
   */
  function InheritableFromRaw<T>(raw: RawInheritable<T>): (r: Result<MaybeInherited<T>, string>)
    ensures r.Ok? <==> raw != WorkspaceKey(false)
    ensures raw.RawValue? ==> r == Ok(Local(raw.value))
    ensures raw == WorkspaceKey(true) ==> r == Ok(Inherited)
    ensures r.Err? ==> r.error == UntaggedMismatch
  {
    match raw
    case WorkspaceKey(flag) =>
      (match TrueFromBool(flag)
       case Ok(_) => Ok(Inherited)
       case Err(_) => Err(UntaggedMismatch))
    case RawValue(v) => Ok(Local(v))
  }

  /** Writing an inheritable field, in a form reading takes back to the same field. */
  function InheritableToRaw<T>(m: MaybeInherited<T>): (r: RawInheritable<T>)
    ensures InheritableFromRaw(r) == Ok(m)
    ensures r != WorkspaceKey(false)
  {
    match m
    case Inherited => WorkspaceKey(TrueToBool())
    case Local(v) => RawValue(v)
  }

  /**
   * The other half of the round trip: a raw form that reads successfully is
   * exactly what writing the field it reads to produces.
   */
  lemma InheritableRoundTrip<T>(raw: RawInheritable<T>)
    ensures InheritableFromRaw(raw).Ok? ==> InheritableToRaw(InheritableFromRaw(raw).value) == raw
  {
  }

  // ------------------------------------------------------------ products

  /** A library, binary, example, test or bench that the package builds. */
  datatype Product = Product(
    path: Option<string>,
    name: Option<string>,
    test: bool,
    doctest: bool,
    bench: bool,
    doc: bool,
    plugin: bool,
    procMacro: bool,
    harness: bool,
    edition: Option<Edition>,
    requiredFeatures: seq<string>,
    crateType: Option<seq<string>>)

  /**
   * The product that declares nothing explicit: no path, name, required
   * features or crate type; tests, doc-tests, benches, docs and the test
   * harness on; not a plugin or procedural macro; the oldest edition.
   */
  function DefaultProduct(): (p: Product)
    ensures p.path.None? && p.name.None? && p.requiredFeatures == [] && p.crateType.None?
    ensures p.test && p.doctest && p.bench && p.doc && p.harness
    ensures !p.plugin && !p.procMacro
    ensures p.edition == Some(DefaultEdition())
  {
    Product(None, None, true, true, true, true, false, false, true, Some(DefaultEdition()), [], None)
  }

  /** `p` agrees with the default product in every field except name, path, edition and crate type. */
  predicate DefaultsElsewhere(p: Product)
  {
    p.(name := None, path := None, edition := DefaultProduct().edition, crateType := None) == DefaultProduct()
  }

  // ---------------------------------------------------------- publishing

  /** `publish = true | false`, or `publish = [registries...]`. */
  datatype Publish = Flag(flag: bool) | Registry(registries: seq<string>)

  function DefaultPublish(): (p: Publish)
    ensures forall reg :: PublishableTo(p, reg)
  {
    Flag(true)
  }

  /** What a publish setting permits: a flag allows every registry or none, a list allows its members. */
  predicate PublishableTo(p: Publish, registry: string)
  {
    match p
    case Flag(f) => f
    case Registry(rs) => registry in rs
  }

  /**
   * Comparing a boolean with a publish setting, as `b == p`: the setting
   * equals `true` exactly when some registry may receive the package, and
   * `false` exactly when none may, so an empty registry list equals `false`.
   */
  function BoolEqPublish(b: bool, p: Publish): (r: bool)
    ensures b ==> (r <==> exists reg :: PublishableTo(p, reg))
    ensures !b ==> (r <==> forall reg :: !PublishableTo(p, reg))
  {
    match p
    case Flag(f) =>
      assert f ==> PublishableTo(p, "");
      f == b
    case Registry(rs) =>
      assert |rs| > 0 ==> PublishableTo(p, rs[0]);
      (|rs| == 0) != b
  }

  /** Comparing a publish setting with a boolean, as `p == b`; it means what `b == p` means. */
  function PublishEqBool(p: Publish, b: bool): (r: bool)
    ensures b ==> (r <==> exists reg :: PublishableTo(p, reg))
    ensures !b ==> (r <==> forall reg :: !PublishableTo(p, reg))
  {
    BoolEqPublish(b, p)
  }

  /**
   * The comparison is symmetric, each setting equals exactly one boolean,
   * and for a flag that boolean is the flag itself.
   */
  lemma PublishEqualsOneBool(p: Publish, b: bool)
    ensures PublishEqBool(p, b) == BoolEqPublish(b, p)
    ensures PublishEqBool(p, b) != PublishEqBool(p, !b)
    ensures p.Flag? ==> (PublishEqBool(p, b) <==> p.flag == b)
    ensures p.Registry? ==> (PublishEqBool(p, b) <==> (|p.registries| > 0) == b)
  {
  }

  // ------------------------------------------------------------- records

  type DepsSet = map<string, Dependency>

  /** Dependencies that apply only when building for one target platform. */
  datatype Target = Target(dependencies: DepsSet, devDependencies: DepsSet, buildDependencies: DepsSet)

  datatype Workspace = Workspace(
    members: seq<string>,
    defaultMembers: Option<seq<string>>,
    exclude: Option<seq<string>>,
    resolver: Option<Resolver>,
    dependencies: Option<DepsSet>)

  datatype Badge = Badge(
    repository: string,
    branch: string,
    service: Option<string>,
    id: Option<string>,
    projectName: Option<string>)

  datatype Badges = Badges(
    appveyor: Option<Badge>,
    circleCi: Option<Badge>,
    gitlab: Option<Badge>,
    travisCi: Option<Badge>,
    codecov: Option<Badge>,
    coveralls: Option<Badge>,
    isItMaintainedIssueResolution: Option<Badge>,
    isItMaintainedOpenIssues: Option<Badge>,
    maintenance: MaintenanceStatus)

  /** The `[package]` table. `build` is the build-script path when it is given as a string. */
  datatype Package = Package(
    name: string,
    edition: Option<MaybeInherited<Edition>>,
    version: MaybeInherited<string>,
    build: Option<string>,
    workspace: Option<string>,
    authors: Option<MaybeInherited<seq<string>>>,
    links: Option<string>,
    description: Option<MaybeInherited<string>>,
    license: Option<MaybeInherited<string>>,
    repository: Option<MaybeInherited<string>>,
    defaultRun: Option<string>,
    autobins: bool,
    autoexamples: bool,
    autotests: bool,
    autobenches: bool,
    publish: Option<MaybeInherited<Publish>>,
    resolver: Option<Resolver>)

  /** The edition the package itself declares; an inherited or absent edition gives none. */
  function LocalEdition(pkg: Package): (r: Option<Edition>)
    ensures r.Some? <==> pkg.edition.Some? && pkg.edition.value.Local?
    ensures r.Some? ==> pkg.edition == Some(Local(r.value))
  {
    match pkg.edition
    case Some(Local(e)) => Some(e)
    case _ => None
  }

  /** The whole manifest as a value. */
  datatype ManifestData = ManifestData(
    package: Option<Package>,
    cargoFeatures: Option<seq<string>>,
    workspace: Option<Workspace>,
    dependencies: Option<DepsSet>,
    devDependencies: Option<DepsSet>,
    buildDependencies: Option<DepsSet>,
    target: Option<map<string, Target>>,
    features: Option<map<string, seq<string>>>,
    bin: Option<seq<Product>>,
    bench: Option<seq<Product>>,
    test: Option<seq<Product>>,
    example: Option<seq<Product>>,
    patch: Option<map<string, DepsSet>>,
    lib: Option<Product>,
    badges: Option<Badges>)
}

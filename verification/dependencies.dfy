/**
 * A dependency as written in the manifest: either a bare version requirement
 * (`foo = "1.0"`) or a table of details (`foo = { git = "...", ... }`), and
 * the accessors that read it uniformly.
 */
module Dependencies {
  import opened Wrappers

  datatype DependencyDetail = DependencyDetail(
    version: Option<string>,
    registry: Option<string>,
    registryIndex: Option<string>,
    path: Option<string>,
    git: Option<string>,
    branch: Option<string>,
    tag: Option<string>,
    rev: Option<string>,
    features: Option<seq<string>>,
    optional: Option<bool>,
    workspace: Option<bool>,
    defaultFeatures: Option<bool>,
    package: Option<string>)

  datatype Dependency = Simple(requirement: string) | Detailed(info: DependencyDetail)

  /** A detail record with nothing set. */
  function EmptyDetail(): DependencyDetail
  {
    DependencyDetail(None, None, None, None, None, None, None, None, None, None, None, None, None)
  }

  /** The detail table of a dependency, if it was written as one. */
  function Detail(d: Dependency): (r: Option<DependencyDetail>)
    ensures r.Some? <==> d.Detailed?
    ensures d.Detailed? ==> r == Some(d.info)
  {
    match d
    case Simple(_) => None
    case Detailed(info) => Some(info)
  }

  /**
   * The version requirement: the `version` of the table the dependency
   * stands for, `"*"` (any version) when that table gives none.
   */
  function Req(d: Dependency): (r: string)
    ensures r == (if AsDetail(d).version.Some? then AsDetail(d).version.value else "*")
  {
    match d
    case Simple(v) => v
    case Detailed(info) => if info.version.Some? then info.version.value else "*"
  }

  /** The features the table the dependency stands for asks for, none when it lists none. */
  function ReqFeatures(d: Dependency): (r: seq<string>)
    ensures r == (if AsDetail(d).features.Some? then AsDetail(d).features.value else [])
  {
    match d
    case Simple(_) => []
    case Detailed(info) => if info.features.Some? then info.features.value else []
  }

  /** Whether the dependency is optional; only `optional = true` makes it so. */
  function Optional(d: Dependency): (r: bool)
    ensures r <==> AsDetail(d).optional == Some(true)
  {
    var det := Detail(d);
    if det.Some? then (if det.value.optional.Some? then det.value.optional.value else false) else false
  }

  /** The package the dependency renames to, if any. */
  function PackageRename(d: Dependency): (r: Option<string>)
    ensures r == AsDetail(d).package
  {
    match d
    case Simple(_) => None
    case Detailed(info) => info.package
  }

  /** The git URL of the dependency, if any. */
  function Git(d: Dependency): (r: Option<string>)
    ensures r == AsDetail(d).git
  {
    var det := Detail(d);
    if det.Some? then det.value.git else None
  }

  /** No field of the table points the dependency away from the default registry. */
  predicate NoSourceOverride(info: DependencyDetail)
  {
    && info.path.None?
    && info.registry.None?
    && info.registryIndex.None?
    && info.git.None?
    && info.tag.None?
    && info.branch.None?
    && info.rev.None?
  }

  /**
   * Whether the dependency is an ordinary one from the default registry:
   * the table it stands for selects no other source.
   */
  function IsCratesIo(d: Dependency): (r: bool)
    ensures r <==> NoSourceOverride(AsDetail(d))
  {
    match d
    case Simple(_) => true
    case Detailed(info) => NoSourceOverride(info)
  }

  /** A dependency as the table it abbreviates: a bare requirement is a table with only `version`. */
  function AsDetail(d: Dependency): DependencyDetail
  {
    match d
    case Simple(v) => EmptyDetail().(version := Some(v))
    case Detailed(info) => info
  }

  /**
   * Every accessor reads a bare requirement `v` exactly as it reads the table
   * `{ version = v }`: the short form is an abbreviation and nothing more.
   */
  lemma SimpleIsVersionOnlyDetail(d: Dependency)
    ensures Req(d) == Req(Detailed(AsDetail(d)))
    ensures ReqFeatures(d) == ReqFeatures(Detailed(AsDetail(d)))
    ensures Optional(d) == Optional(Detailed(AsDetail(d)))
    ensures PackageRename(d) == PackageRename(Detailed(AsDetail(d)))
    ensures Git(d) == Git(Detailed(AsDetail(d)))
    ensures IsCratesIo(d) == IsCratesIo(Detailed(AsDetail(d)))
  {
  }

  /** The same table with every field that selects a source other than the default registry cleared. */
  function WithoutSource(info: DependencyDetail): DependencyDetail
  {
    info.(path := None, registry := None, registryIndex := None, git := None, tag := None, branch := None, rev := None)
  }

  /**
   * The default-registry classification: a bare requirement always is one; a
   * table is one exactly when clearing its source fields changes nothing;
   * a dependency with a git source never is.
   */
  lemma CratesIoClassification(d: Dependency)
    ensures d.Simple? ==> IsCratesIo(d)
    ensures d.Detailed? ==> (IsCratesIo(d) <==> WithoutSource(d.info) == d.info)
    ensures Git(d).Some? ==> !IsCratesIo(d)
  {
  }

  /** A table that sets only `version` is from the default registry; adding `git` to it makes it not. */
  lemma VersionOnlyIsCratesIo(v: string, url: string)
    ensures Req(Detailed(EmptyDetail().(version := Some(v)))) == v
    ensures IsCratesIo(Detailed(EmptyDetail().(version := Some(v))))
    ensures !IsCratesIo(Detailed(EmptyDetail().(version := Some(v), git := Some(url))))
    ensures Git(Detailed(EmptyDetail().(git := Some(url)))) == Some(url)
  {
  }

  /**
   * Each accessor case by case: a bare requirement is its own version
   * requirement and brings no features, rename or git source; a table gives
   * its own version (any version when it sets none), features (none when it
   * lists none), rename and git URL; only `optional = true` makes a
   * dependency optional.
   */
  lemma AccessorCases(d: Dependency)
    ensures d.Simple? ==> Req(d) == d.requirement
    ensures d.Simple? ==> PackageRename(d).None? && Git(d).None? && ReqFeatures(d) == [] && !Optional(d)
    ensures d.Detailed? && d.info.version.Some? ==> Req(d) == d.info.version.value
    ensures d.Detailed? && d.info.version.None? ==> Req(d) == "*"
    ensures d.Detailed? && d.info.features.Some? ==> ReqFeatures(d) == d.info.features.value
    ensures d.Detailed? && d.info.features.None? ==> ReqFeatures(d) == []
    ensures d.Detailed? ==> PackageRename(d) == d.info.package && Git(d) == d.info.git
    ensures Optional(d) <==> d.Detailed? && d.info.optional == Some(true)
  {
  }
}

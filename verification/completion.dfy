/**
 * Completion: filling in the library, binaries, examples, tests, benches
 * and build script that a manifest leaves implicit, from the conventional
 * layout of the package directory.
 */
module Completion {
  import opened Wrappers
  import opened Afs
  import opened ManifestTypes
  import opened AutoScan

  /** The errors completion can surface: a directory listing that failed for a reason other than not-found. */
  datatype Error = Io(message: string)

  /** The package name with every `-` replaced by `_`. */
  function ReplaceDashes(s: string): (r: string)
    ensures |r| == |s|
    ensures forall i :: 0 <= i < |s| ==> r[i] == (if s[i] == '-' then '_' else s[i])
    ensures '-' !in r
  {
    if s == [] then []
    else [if s[0] == '-' then '_' else s[0]] + ReplaceDashes(s[1..])
  }

  /** The entries of `src`: a missing `src` has none, any other listing failure is an error. */
  function SrcEntries(fs: Filesystem): (r: Result<seq<string>, Error>)
    ensures r.Err? <==> FileNamesIn(fs, "src").Failed?
    ensures r.Err? ==> r.error == Io(FileNamesIn(fs, "src").message)
    ensures r.Ok? ==> (forall e :: e in r.value <==> ListingContains(fs, "src", e))
  {
    match FileNamesIn(fs, "src")
    case NotFound => Ok([])
    case Failed(m) => Err(Io(m))
    case Entries(names) => Ok(names)
  }

  /** The library implied by `src/lib.rs`. */
  function LibProduct(pkg: Package, edition: Option<Edition>): Product
  {
    DefaultProduct().(name := Some(ReplaceDashes(pkg.name)), path := Some("src/lib.rs"),
                      edition := edition, crateType := Some(["rlib"]))
  }

  /** The binary implied by `src/main.rs`. */
  function MainProduct(pkg: Package, edition: Option<Edition>): Product
  {
    DefaultProduct().(name := Some(pkg.name), path := Some("src/main.rs"), edition := edition)
  }

  /** A product list is scanned only when its `auto*` flag is on and the manifest gives none. */
  function AutoFill(auto: bool, declared: Option<seq<Product>>, fs: Filesystem, dir: string, edition: Option<Edition>): Option<seq<Product>>
  {
    if auto && declared.None? then Some(AutoSetOf(fs, dir, edition)) else declared
  }

  /** The library after completion: a declared one loses its required features, otherwise `src/lib.rs` implies one. */
  function CompletedLib(declared: Option<Product>, pkg: Package, src: seq<string>): Option<Product>
  {
    if declared.Some? then Some(declared.value.(requiredFeatures := []))
    else if "lib.rs" in src then Some(LibProduct(pkg, LocalEdition(pkg)))
    else None
  }

  /** The binaries after completion: the scan of `src/bin`, then `src/main.rs` when present. */
  function CompletedBin(declared: Option<seq<Product>>, pkg: Package, src: seq<string>, fs: Filesystem): Option<seq<Product>>
  {
    if pkg.autobins && declared.None? then
      var edition := LocalEdition(pkg);
      Some(AutoSetOf(fs, "src/bin", edition) + (if "main.rs" in src then [MainProduct(pkg, edition)] else []))
    else declared
  }

  /** The package after completion: `build.rs` in the root becomes the build script when none is given. */
  function CompletedPackage(pkg: Package, fs: Filesystem): Package
  {
    if pkg.build.None? && ListingContains(fs, ".", "build.rs") then pkg.(build := Some("build.rs")) else pkg
  }

  /** The manifest of package `pkg` once completed, given the entries `src` of its `src` directory. */
  function Completed(m: ManifestData, pkg: Package, src: seq<string>, fs: Filesystem): (r: ManifestData)
    ensures r.(package := m.package, lib := m.lib, bin := m.bin, example := m.example, test := m.test, bench := m.bench) == m
    ensures r.package.Some? && r.package.value.(build := pkg.build) == pkg
  {
    assert CompletedPackage(pkg, fs).(build := pkg.build) == pkg;
    var edition := LocalEdition(pkg);
    m.(package := Some(CompletedPackage(pkg, fs)),
       lib := CompletedLib(m.lib, pkg, src),
       bin := CompletedBin(m.bin, pkg, src, fs),
       example := AutoFill(pkg.autoexamples, m.example, fs, "examples", edition),
       test := AutoFill(pkg.autotests, m.test, fs, "tests", edition),
       bench := AutoFill(pkg.autobenches, m.bench, fs, "benches", edition))
  }

  /**
   * The manifest completion leaves behind, or the error it stops with: a
   * manifest without a package is left as it is, and only a failure to list
   * `src` other than not-found is an error.
   */
  function CompleteSpec(m: ManifestData, fs: Filesystem): (r: Result<ManifestData, Error>)
    ensures m.package.None? ==> r == Ok(m)
    ensures r.Err? <==> m.package.Some? && FileNamesIn(fs, "src").Failed?
    ensures r.Err? ==> r.error == Io(FileNamesIn(fs, "src").message)
    ensures m.package.Some? && FileNamesIn(fs, "src").NotFound? ==> r == Ok(Completed(m, m.package.value, [], fs))
  {
    if m.package.None? then Ok(m)
    else
      match SrcEntries(fs)
      case Err(e) => Err(e)
      case Ok(src) => Ok(Completed(m, m.package.value, src, fs))
  }

  /** The library step of completion. */
  method CompleteLib(declared: Option<Product>, pkg: Package, src: seq<string>) returns (lib: Option<Product>)
    ensures lib == CompletedLib(declared, pkg, src)
  {
    lib := declared;
    if lib.Some? {
      lib := Some(lib.value.(requiredFeatures := []));
    } else if "lib.rs" in src {
      lib := Some(LibProduct(pkg, LocalEdition(pkg)));
    }
  }

  /** The binaries step of completion. */
  method CompleteBins(declared: Option<seq<Product>>, pkg: Package, src: seq<string>, fs: Filesystem) returns (bin: Option<seq<Product>>)
    ensures bin == CompletedBin(declared, pkg, src, fs)
  {
    bin := declared;
    if pkg.autobins && bin.None? {
      var b := Autoset(pkg, "src/bin", fs);
      if "main.rs" in src {
        b := b + [MainProduct(pkg, LocalEdition(pkg))];
      } else {
        assert b + [] == b;
      }
      bin := Some(b);
    }
  }

  /** The examples, tests and benches steps of completion: scan `dir` when `auto` is on and nothing is declared. */
  method CompleteSection(auto: bool, declared: Option<seq<Product>>, pkg: Package, dir: string, fs: Filesystem)
    returns (section: Option<seq<Product>>)
    ensures section == AutoFill(auto, declared, fs, dir, LocalEdition(pkg))
  {
    section := declared;
    if auto && section.None? {
      var products := Autoset(pkg, dir, fs);
      section := Some(products);
    }
  }

  /** The build-script step of completion. */
  method CompleteBuild(pkg: Package, fs: Filesystem) returns (completed: Package)
    ensures completed == CompletedPackage(pkg, fs)
  {
    completed := pkg;
    var root := FileNamesIn(fs, ".");
    if pkg.build.None? && root.Entries? && "build.rs" in root.names {
      completed := pkg.(build := Some("build.rs"));
    }
  }

  // ------------------------------------------------------------ properties

  /**
   * The library rule: a declared library keeps every field but loses its
   * required features; otherwise a library appears exactly when `src` holds
   * `lib.rs`, named after the package with `-` turned into `_`, at
   * `src/lib.rs`, an `rlib`, stamped with the package's own edition, and
   * default in every other field.
   */
  lemma {:induction false} LibRule(m: ManifestData, fs: Filesystem)
    requires m.package.Some? && CompleteSpec(m, fs).Ok?
    ensures var d, pkg := CompleteSpec(m, fs).value, m.package.value;
      && (m.lib.Some? ==> d.lib == Some(m.lib.value.(requiredFeatures := [])))
      && (m.lib.None? ==> (d.lib.Some? <==> ListingContains(fs, "src", "lib.rs")))
      && (m.lib.None? && d.lib.Some? ==>
            && d.lib.value.name == Some(ReplaceDashes(pkg.name))
            && d.lib.value.path == Some("src/lib.rs")
            && d.lib.value.crateType == Some(["rlib"])
            && d.lib.value.edition == LocalEdition(pkg)
            && DefaultsElsewhere(d.lib.value))
  {
    var src := SrcEntries(fs).value;
    assert "lib.rs" in src <==> ListingContains(fs, "src", "lib.rs");
  }

  /**
   * The guards on the product lists: a list is filled in only when its
   * `auto*` flag is on and the manifest gave none, and is then present even
   * if empty; a list that was given, or whose flag is off, is left alone.
   */
  lemma SectionGuards(m: ManifestData, fs: Filesystem)
    requires m.package.Some? && CompleteSpec(m, fs).Ok?
    ensures var d, pkg := CompleteSpec(m, fs).value, m.package.value;
      && (pkg.autobins && m.bin.None? ==> d.bin.Some?)
      && (!pkg.autobins || m.bin.Some? ==> d.bin == m.bin)
      && (pkg.autoexamples && m.example.None? ==> d.example == Some(AutoSetOf(fs, "examples", LocalEdition(pkg))))
      && (!pkg.autoexamples || m.example.Some? ==> d.example == m.example)
      && (pkg.autotests && m.test.None? ==> d.test == Some(AutoSetOf(fs, "tests", LocalEdition(pkg))))
      && (!pkg.autotests || m.test.Some? ==> d.test == m.test)
      && (pkg.autobenches && m.bench.None? ==> d.bench == Some(AutoSetOf(fs, "benches", LocalEdition(pkg))))
      && (!pkg.autobenches || m.bench.Some? ==> d.bench == m.bench)
  {
  }

  /**
   * The binaries, when scanned, are exactly those of `src/bin` followed by
   * one more if and only if `src` holds `main.rs`: the package binary at
   * `src/main.rs`, named after the package as written, with the package's
   * own edition, no crate type and default in every other field.
   */
  lemma {:induction false} BinRule(m: ManifestData, fs: Filesystem)
    requires m.package.Some? && m.package.value.autobins && m.bin.None? && CompleteSpec(m, fs).Ok?
    ensures var d, pkg := CompleteSpec(m, fs).value, m.package.value;
      var scanned := AutoSetOf(fs, "src/bin", LocalEdition(pkg));
      d.bin == Some(scanned + (if ListingContains(fs, "src", "main.rs") then [MainProduct(pkg, LocalEdition(pkg))] else []))
    ensures var d, pkg := CompleteSpec(m, fs).value, m.package.value;
      var scanned := AutoSetOf(fs, "src/bin", LocalEdition(pkg));
      && d.bin.Some?
      && d.bin.value[..|scanned|] == scanned
      && (|d.bin.value| == |scanned| + 1 <==> ListingContains(fs, "src", "main.rs"))
      && (|d.bin.value| == |scanned| + 1 ==>
            && d.bin.value[|scanned|].name == Some(pkg.name)
            && d.bin.value[|scanned|].path == Some("src/main.rs")
            && d.bin.value[|scanned|].edition == LocalEdition(pkg)
            && d.bin.value[|scanned|].crateType.None?
            && DefaultsElsewhere(d.bin.value[|scanned|]))
  {
    var pkg := m.package.value;
    var src := SrcEntries(fs).value;
    var scanned := AutoSetOf(fs, "src/bin", LocalEdition(pkg));
    assert "main.rs" in src <==> ListingContains(fs, "src", "main.rs");
    if "main.rs" !in src {
      assert scanned + [] == scanned;
    }
  }

  /**
   * The edition rule: every product completion adds carries the package's
   * own edition when it declares one locally and none otherwise, never the
   * default product's edition, and is default in every other field.
   */
  lemma {:induction false} SynthesizedEdition(m: ManifestData, fs: Filesystem)
    requires m.package.Some? && CompleteSpec(m, fs).Ok?
    ensures var d, pkg := CompleteSpec(m, fs).value, m.package.value;
      && (m.lib.None? && d.lib.Some? ==> d.lib.value.edition == LocalEdition(pkg))
      && (m.bin.None? && d.bin.Some? ==>
            forall p :: p in d.bin.value ==> p.edition == LocalEdition(pkg) && p.crateType.None? && DefaultsElsewhere(p))
      && (m.example.None? && d.example.Some? ==>
            forall p :: p in d.example.value ==> p.edition == LocalEdition(pkg) && p.crateType.None? && DefaultsElsewhere(p))
      && (m.test.None? && d.test.Some? ==>
            forall p :: p in d.test.value ==> p.edition == LocalEdition(pkg) && p.crateType.None? && DefaultsElsewhere(p))
      && (m.bench.None? && d.bench.Some? ==>
            forall p :: p in d.bench.value ==> p.edition == LocalEdition(pkg) && p.crateType.None? && DefaultsElsewhere(p))
  {
    var pkg := m.package.value;
    var edition := LocalEdition(pkg);
    AutoSetProducts(fs, "src/bin", edition);
    AutoSetProducts(fs, "examples", edition);
    AutoSetProducts(fs, "tests", edition);
    AutoSetProducts(fs, "benches", edition);
  }

  /**
   * The build-script rule: `build` becomes `"build.rs"` only when it was
   * unset and the root's listing succeeds and holds `build.rs`; a root that
   * cannot be listed counts as holding nothing.
   */
  lemma BuildRule(m: ManifestData, fs: Filesystem)
    requires m.package.Some? && CompleteSpec(m, fs).Ok?
    ensures var d, pkg := CompleteSpec(m, fs).value, m.package.value;
      && (pkg.build.Some? ==> d.package.value.build == pkg.build)
      && (pkg.build.None? ==>
            (d.package.value.build == Some("build.rs") <==> ListingContains(fs, ".", "build.rs")))
      && (pkg.build.None? && !ListingContains(fs, ".", "build.rs") ==> d.package.value.build.None?)
  {
  }

  /** Completing a completed manifest against the same filesystem changes nothing. */
  lemma {:induction false} CompletionIsIdempotent(m: ManifestData, fs: Filesystem)
    requires CompleteSpec(m, fs).Ok?
    ensures CompleteSpec(CompleteSpec(m, fs).value, fs) == CompleteSpec(m, fs)
  {
    if m.package.Some? {
      var pkg := m.package.value;
      var src := SrcEntries(fs).value;
      var d := Completed(m, pkg, src, fs);
      var pkg' := CompletedPackage(pkg, fs);
      assert LocalEdition(pkg') == LocalEdition(pkg);
      assert CompletedPackage(pkg', fs) == pkg';
      if m.lib.Some? {
        assert d.lib.value.(requiredFeatures := []) == d.lib.value;
      }
      assert Completed(d, pkg', src, fs) == d;
    }
  }

  /** A manifest whose sections can be completed in place. */
  class Manifest {
    var package: Option<Package>
    var cargoFeatures: Option<seq<string>>
    var workspace: Option<Workspace>
    var dependencies: Option<DepsSet>
    var devDependencies: Option<DepsSet>
    var buildDependencies: Option<DepsSet>
    var target: Option<map<string, Target>>
    var features: Option<map<string, seq<string>>>
    var bin: Option<seq<Product>>
    var bench: Option<seq<Product>>
    var test: Option<seq<Product>>
    var example: Option<seq<Product>>
    var patch: Option<map<string, DepsSet>>
    var lib: Option<Product>
    var badges: Option<Badges>

    ghost function Data(): ManifestData
      reads this
    {
      ManifestData(package, cargoFeatures, workspace, dependencies, devDependencies, buildDependencies,
                   target, features, bin, bench, test, example, patch, lib, badges)
    }

    constructor (d: ManifestData)
      ensures Data() == d
    {
      package, cargoFeatures, workspace := d.package, d.cargoFeatures, d.workspace;
      dependencies, devDependencies, buildDependencies := d.dependencies, d.devDependencies, d.buildDependencies;
      target, features, patch, badges := d.target, d.features, d.patch, d.badges;
      bin, bench, test, example, lib := d.bin, d.bench, d.test, d.example, d.lib;
    }

    /**
     * Completes the manifest from the directory listings of `fs`. On success
     * the manifest is what `CompleteSpec` gives: the package and the five
     * product sections take their completed values and the frame keeps every
     * other section. On failure the manifest is untouched.
     */
    method CompleteFromAbstractFilesystem(fs: Filesystem) returns (r: Result<(), Error>)
      modifies this`package, this`lib, this`bin, this`example, this`test, this`bench
      ensures r.Ok? ==>
        CompleteSpec(old(Data()), fs)
        == Ok(old(Data()).(package := package, lib := lib, bin := bin, example := example, test := test, bench := bench))
      ensures r.Err? ==> CompleteSpec(old(Data()), fs) == Err(r.error) && Data() == old(Data())
    {
      if package.Some? {
        var pkg := package.value;
        var listing := FileNamesIn(fs, "src");
        var src: seq<string>;
        match listing {
          case NotFound => src := [];
          case Failed(msg) => return Err(Io(msg));
          case Entries(names) => src := names;
        }
        assert SrcEntries(fs) == Ok(src);
        var newLib := CompleteLib(lib, pkg, src);
        var newBin := CompleteBins(bin, pkg, src, fs);
        var newExample := CompleteSection(pkg.autoexamples, example, pkg, "examples", fs);
        var newTest := CompleteSection(pkg.autotests, test, pkg, "tests", fs);
        var newBench := CompleteSection(pkg.autobenches, bench, pkg, "benches", fs);
        var newPackage := CompleteBuild(pkg, fs);

        package, lib, bin, example, test, bench := Some(newPackage), newLib, newBin, newExample, newTest, newBench;
      }
      return Ok(());
    }
  }
}

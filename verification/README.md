# cargo-manifest: completing a manifest from the files on disk

A `Cargo.toml` may leave its library, binaries, examples, tests, benches and
build script implicit. Cargo infers them from the files in the package
directory. The `cargo-manifest` crate does the same inference in
`Manifest::complete_from_abstract_filesystem`. That method asks an abstract
filesystem for directory listings and fills in every section the manifest
left out:

- It lists `src`. A listing that fails with "not found" counts as an empty
  directory. Any other failure aborts the completion with an I/O error, and
  the manifest is left untouched.
- A declared `[lib]` loses its `required-features`. Otherwise, when
  `src/lib.rs` exists, a library named after the package (dashes replaced by
  underscores) at `src/lib.rs` with crate type `rlib` is added.
- With `autobins` on and no `[[bin]]`, the binaries are the ones `autoset`
  finds in `src/bin`, followed by the package binary at `src/main.rs` when
  that file exists.
- With `autoexamples`, `autotests` and `autobenches` on, undeclared
  examples, tests and benches are likewise found in `examples`, `tests` and
  `benches`.
- An undeclared build script becomes `build.rs` when the package root lists
  that file.

`autoset` turns every `*.rs` entry of a directory into a product named by
the file name with all trailing `.rs` removed (Rust's `trim_end_matches`).
It turns every sub-directory holding `main.rs` into a product named by the
sub-directory. Products keep the listing order and carry the edition the
package declares locally. An inherited or absent edition gives none.

The project also models the value types around completion:

- `Product::default`, whose edition is the oldest one;
- the defaults of `Edition`, `Resolver` and `MaintenanceStatus`;
- the accessors of `Dependency`;
- the `bool`/`Publish` equality;
- `MaybeInherited` with the `workspace = true` marker it is parsed from.

Layout, one Dafny module per file:

- `wrappers.dfy`: `Option` and `Result`.
- `afs.dfy`: the abstract filesystem, a map from directory path to listing.
- `manifest_types.dfy`: the enums and their defaults, `MaybeInherited`,
  `Product`, `Publish`, `Package` and the manifest as a value.
- `dependencies.dfy`: `Dependency` and its accessors.
- `autoscan.dfy`: `autoset`, as a specification function and a method with a
  loop, plus its lemmas.
- `completion.dfy`: the completion as a specification function, the lemmas
  about it, and the class `Manifest` whose method updates its sections in
  place.

The filesystem is a parameter. A directory listing is `NotFound`,
`Failed(message)` or `Entries(names)`, and a directory missing from the map
lists as `NotFound`.

## Model

| member | source | states |
|---|---|---|
| ManifestTypes.DefaultEdition | src/lib.rs:812-822 | the default edition is 2015, no later than any other edition |
| ManifestTypes.DefaultResolver | src/lib.rs:825-838 | the default resolver is version 1, the lowest |
| ManifestTypes.DefaultMaintenanceStatus | src/lib.rs:796-808 | the default maintenance status is `none`, the one status that shows no badge |
| ManifestTypes.TrueFromBool | src/lib.rs:586-600 | the `True` marker parses from a boolean exactly when the boolean is `true` |
| ManifestTypes.TrueToBool | src/lib.rs:576-584 | the `True` marker is written as a boolean that reading the marker accepts |
| ManifestTypes.InheritableFromRaw | src/lib.rs:559-600 | reading an inheritable field succeeds unless it is `workspace = false`; `workspace = true` reads as inherited and a plain value as that local value; a failed read reports that no variant of the untagged enum matched |
| ManifestTypes.InheritableToRaw | src/lib.rs:559-583 | writing an inheritable field never produces `workspace = false`, and reading what is written gives the field back |
| ManifestTypes.InheritableRoundTrip | src/lib.rs:559-600 | a raw form that reads successfully is exactly what writing the field it reads to produces |
| ManifestTypes.DefaultProduct | src/lib.rs:422-439 | a default product has no name or path, builds tests, doctests, benches, docs and a harness, is neither plugin nor proc-macro, needs no features, has no crate type, and uses the default (oldest) edition |
| ManifestTypes.DefaultPublish | src/lib.rs:688-692 | by default a package may be published to every registry |
| ManifestTypes.BoolEqPublish | src/lib.rs:694-701 | `b == p` holds for `true` exactly when some registry may receive the package, and for `false` exactly when none may |
| ManifestTypes.PublishEqBool | src/lib.rs:703-707 | `p == b` has the same meaning as `b == p`: `true` exactly when some registry may receive the package, `false` exactly when none may |
| ManifestTypes.PublishEqualsOneBool | src/lib.rs:694-707 | `p == b` agrees with `b == p`; each setting equals exactly one boolean; a flag equals itself and a registry list equals whether it is non-empty |
| ManifestTypes.LocalEdition | src/lib.rs:237-240 | the edition used for synthesized products is present exactly when the package declares its edition locally, and it is that edition |
| Dependencies.Detail | src/lib.rs:460-465 | a dependency has a detail table exactly when it is in the detailed form, and then it is the dependency's own table |
| Dependencies.Req | src/lib.rs:467-472 | the version requirement is the `version` of the table the dependency stands for (a bare string stands for a table with only that version), and `*` when that table sets none |
| Dependencies.ReqFeatures | src/lib.rs:474-479 | the features are those of the table the dependency stands for, none when it lists none |
| Dependencies.Optional | src/lib.rs:481-483 | a dependency is optional exactly when the table it stands for says `optional = true` |
| Dependencies.PackageRename | src/lib.rs:485-492 | the package rename is the `package` field of the table the dependency stands for |
| Dependencies.Git | src/lib.rs:494-497 | the git URL is the `git` field of the table the dependency stands for |
| Dependencies.IsCratesIo | src/lib.rs:499-515 | a dependency is from crates.io exactly when the table it stands for sets no path, registry, registry index, git URL, tag, branch or rev |
| Dependencies.SimpleIsVersionOnlyDetail | src/lib.rs:467-515 | every accessor (requirement, features, optional, package, git, crates.io) gives the same answer for a dependency and for its detailed form |
| Dependencies.CratesIoClassification | src/lib.rs:501-515 | a version-only dependency comes from crates.io; a detailed one does exactly when removing its path, registry, registry index, git, tag, branch and rev changes nothing; one with a git URL does not |
| Dependencies.VersionOnlyIsCratesIo | src/lib.rs:501-515 | a detailed dependency that sets only a version is from crates.io, and setting a git URL on it makes it not |
| Dependencies.AccessorCases | src/lib.rs:467-497 | a bare requirement is its own version requirement and has no features, rename or git URL and is not optional; a table gives its own version or `*` when unset, its own features or none when unset, its own rename and git URL; a dependency is optional exactly when its table says `optional = true` |
| AutoScan.TrimEndMatchesRs | src/lib.rs:299 | trimming leaves a prefix of the name that does not end in `.rs` |
| AutoScan.TrimEndMatchesRsSpec | src/lib.rs:299 | the name is what trimming leaves followed by the removed copies of `.rs`, so trimming removes every trailing `.rs` and nothing else |
| AutoScan.ScanEntries | src/lib.rs:298-314 | scanning entries yields at most one product per entry |
| AutoScan.AutoSetOf | src/lib.rs:288-317 | a directory whose listing fails, for any reason, yields no products; otherwise at most one per entry |
| AutoScan.ScanEntriesIsOrderedFilter | src/lib.rs:298-314 | the products are exactly those of the entries that produce one, in listing order |
| AutoScan.ScanEntriesAreAutoProducts | src/lib.rs:298-314 | every scanned product has a name and a path, carries the package's local edition, has no crate type, and is otherwise a default product |
| AutoScan.AutoSetProducts | src/lib.rs:288-317 | the same for every product `autoset` returns |
| AutoScan.ScanEntryRule | src/lib.rs:298-313 | an entry ending in `.rs` gives the product at `dir/entry` named by the entry without its `.rs` suffixes; any other entry gives a product exactly when `dir/entry` lists `main.rs`, and then it is named by the entry with path `dir/entry/main.rs` |
| AutoScan.ScanExample | src/lib.rs:288-317 | `src/bin` listing `tool.rs` and a `helper` directory that holds `main.rs` gives `tool` at `src/bin/tool.rs`, then `helper` at `src/bin/helper/main.rs` |
| AutoScan.Autoset | src/lib.rs:288-317 | the loop computes exactly the products `AutoSetOf` describes for the package's local edition |
| Completion.ReplaceDashes | src/lib.rs:246 | the library name is the package name, character by character, with every `-` replaced by `_`, and it contains no `-` |
| Completion.SrcEntries | src/lib.rs:232-235 | listing `src` fails exactly when the listing fails for a reason other than "not found", with that message; otherwise the entries are those of `src` (none when it is missing) |
| Completion.Completed | src/lib.rs:237-282 | completing a package changes only the package, lib, bin, example, test and bench sections, and the package only in its build script |
| Completion.CompleteSpec | src/lib.rs:227-285 | a manifest without `[package]` is returned unchanged and without error; completion fails exactly when there is a package and listing `src` fails for a reason other than "not found", with that I/O error; a missing `src` completes as an empty one |
| Completion.CompleteLib | src/lib.rs:242-252 | the library step computes the completed `[lib]` section |
| Completion.CompleteBins | src/lib.rs:254-265 | the binary step computes the completed `[[bin]]` section |
| Completion.CompleteSection | src/lib.rs:266-274 | the example, test and bench steps compute their completed sections |
| Completion.CompleteBuild | src/lib.rs:276-282 | the build-script step computes the completed package |
| Completion.LibRule | src/lib.rs:242-252 | a declared library keeps everything but its required features, which become empty; otherwise a library appears exactly when `src` lists `lib.rs`, named after the package with dashes replaced, at `src/lib.rs`, crate type `rlib`, with the local edition |
| Completion.SectionGuards | src/lib.rs:254-274 | a declared bin, example, test or bench section, or one whose auto flag is off, is kept as it is; otherwise the example, test and bench sections become the scans of `examples`, `tests` and `benches`, and the bin section becomes present (its contents are stated by `BinRule`) |
| Completion.BinRule | src/lib.rs:254-265 | inferred binaries are exactly the scan of `src/bin`, followed by one more if and only if `src` lists `main.rs`: the package binary named after the package at `src/main.rs`, with the local edition, no crate type and default otherwise |
| Completion.SynthesizedEdition | src/lib.rs:237-274 | every synthesized library and product carries the package's local edition (none when it is inherited or absent), and every scanned one has no crate type and is a default product apart from name, path and edition |
| Completion.BuildRule | src/lib.rs:276-282 | a declared build script is kept; otherwise it becomes `build.rs` exactly when the package root lists `build.rs` |
| Completion.CompletionIsIdempotent | src/lib.rs:227-285 | completing a completed manifest against the same filesystem changes nothing |
| Completion.Manifest.CompleteFromAbstractFilesystem | src/lib.rs:227-285 | on success the manifest's sections are those of the completed manifest; on failure the error is the one completion reports and the manifest is unchanged |
| Completion.Manifest.constructor | src/lib.rs:33-73 | a manifest object holds exactly the given sections |

## Left out

- Parsing and printing TOML (serde), the legacy `[project]` table and the
  `from_slice`/`from_path`/`complete_from_path` entry points are not modelled.
  Completion starts from an already parsed manifest.
- `src/afs.rs` is not part of this model. The real filesystem behind it, and
  the walk it does over a directory, are replaced by the map from directory
  to listing.
- The listing of a directory is a set in the source. The model lists it as a
  sequence, so the order of synthesized products follows the listing order
  of the map, whatever that order is.
- `src/error.rs` is not part of this model. Its parse and UTF-8 error kinds
  come only from parsing; completion reports only the I/O kind, which
  carries the listing's message.
- The `[profile]` section is not modelled. Completion never reads or changes
  it. The inner structure of workspace package inheritance and of the badge
  services is reduced to the fields listed in `manifest_types.dfy`.
- `Package`: `homepage`, `documentation`, `readme`, `keywords`,
  `categories`, `license-file`, `metadata`, `rust-version`, `exclude` and
  `include` are not modelled. Completion never reads or changes them.
- `Package.build` is modelled as an optional string, so the model cannot
  hold a non-string value (such as `build = false`). In the source any
  value present keeps the build script from being inferred, exactly as a
  string does here.
- ManifestTypes.InheritableFromRaw: a raw field is either a `{ workspace = … }`
  table or a plain value of the field's type, never both. So rejecting
  `workspace = false` assumes that the type `T` never reads such a table,
  which holds for every inheritable field of `Package` (strings, editions,
  string lists, `StringOrBool`, `Publish`). The rest of serde's untagged
  reading (trying each variant in turn) is not modelled.
- `MaybeInherited::inherited()` (src/lib.rs:567-569) is just the `Inherited`
  constructor.
- Completion.Manifest.CompleteFromAbstractFilesystem: on success the
  postcondition names only the six sections the method may write. Its
  `modifies` clause keeps every other section unchanged.
- The Publish comparison follows the code: an empty registry list equals
  `false`, since no registry may receive the package.

/**
 * The shared auto-scan rule: the products a conventional directory
 * (`src/bin`, `examples`, `tests`, `benches`) declares implicitly.
 */
module AutoScan {
  import opened Wrappers
  import opened Afs
  import opened ManifestTypes

  predicate EndsWith(s: string, suffix: string)
  {
    |suffix| <= |s| && s[|s| - |suffix|..] == suffix
  }

  /** `k` copies of `s` one after another. */
  function Repeat(s: string, k: nat): string
  {
    if k == 0 then [] else Repeat(s, k - 1) + s
  }

  /** The name with every trailing `.rs` removed, so `a.rs.rs` becomes `a`. */
  function TrimEndMatchesRs(s: string): (r: string)
    ensures |r| <= |s| && r == s[..|r|]
    ensures !EndsWith(r, ".rs")
    decreases |s|
  {
    if EndsWith(s, ".rs") then TrimEndMatchesRs(s[..|s| - 3]) else s
  }

  /** How many copies of `.rs` end the name. */
  function RsSuffixCount(s: string): nat
    decreases |s|
  {
    if EndsWith(s, ".rs") then 1 + RsSuffixCount(s[..|s| - 3]) else 0
  }

  /** The name is what trimming leaves followed by every copy of `.rs` that ended it. */
  lemma {:induction false} TrimEndMatchesRsSpec(s: string)
    ensures s == TrimEndMatchesRs(s) + Repeat(".rs", RsSuffixCount(s))
    decreases |s|
  {
    if EndsWith(s, ".rs") {
      var shorter := s[..|s| - 3];
      TrimEndMatchesRsSpec(shorter);
      var trimmed, k := TrimEndMatchesRs(shorter), RsSuffixCount(shorter);
      assert s == shorter + ".rs";
      assert Repeat(".rs", k + 1) == Repeat(".rs", k) + ".rs";
      calc {
        s;
        (trimmed + Repeat(".rs", k)) + ".rs";
        trimmed + (Repeat(".rs", k) + ".rs");
      }
    }
  }

  /** A product found by scanning: the default product with a name, a path and the package's local edition. */
  function AutoProduct(name: string, path: string, edition: Option<Edition>): Product
  {
    DefaultProduct().(name := Some(name), path := Some(path), edition := edition)
  }

  /**
   * What one entry `name` of `dir` declares: a source file `name.rs` is a
   * product named after the file; any other entry whose own listing succeeds
   * and holds `main.rs` is a product named after the entry; anything else,
   * including an entry whose listing fails, declares nothing.
   */
  function ScanEntry(fs: Filesystem, dir: string, name: string, edition: Option<Edition>): Option<Product>
  {
    if EndsWith(name, ".rs") then Some(SourceFileProduct(dir, name, edition))
    else SubdirProduct(fs, dir, name, edition)
  }

  /** The product of the source file `dir/name`. */
  function SourceFileProduct(dir: string, name: string, edition: Option<Edition>): Product
  {
    AutoProduct(TrimEndMatchesRs(name), dir + "/" + name, edition)
  }

  /** The product of the sub-directory `dir/name`, when it holds `main.rs`. */
  function SubdirProduct(fs: Filesystem, dir: string, name: string, edition: Option<Edition>): Option<Product>
  {
    var relPath := dir + "/" + name;
    if ListingContains(fs, relPath, "main.rs") then Some(AutoProduct(name, relPath + "/main.rs", edition)) else None
  }

  /** The products declared by the entries `names` of `dir`, in listing order. */
  function ScanEntries(fs: Filesystem, dir: string, names: seq<string>, edition: Option<Edition>): (out: seq<Product>)
    ensures |out| <= |names|
    decreases |names|
  {
    if names == [] then []
    else
      var last := ScanEntry(fs, dir, names[|names| - 1], edition);
      ScanEntries(fs, dir, names[..|names| - 1], edition) + (if last.Some? then [last.value] else [])
  }

  /** The products `dir` declares; a directory whose listing fails, for any reason, declares none. */
  function AutoSetOf(fs: Filesystem, dir: string, edition: Option<Edition>): (out: seq<Product>)
    ensures !FileNamesIn(fs, dir).Entries? ==> out == []
    ensures FileNamesIn(fs, dir).Entries? ==> |out| <= |FileNamesIn(fs, dir).names|
  {
    match FileNamesIn(fs, dir)
    case Entries(names) => ScanEntries(fs, dir, names, edition)
    case _ => []
  }

  /** The positions of the entries of `names` that declare a product, in increasing order. */
  function Producing(fs: Filesystem, dir: string, names: seq<string>, edition: Option<Edition>): seq<nat>
    decreases |names|
  {
    if names == [] then []
    else
      Producing(fs, dir, names[..|names| - 1], edition)
        + (if ScanEntry(fs, dir, names[|names| - 1], edition).Some? then [|names| - 1] else [])
  }

  /**
   * Scanning is an order-preserving filter over the listing: the k-th
   * product comes from the entry at a strictly increasing position, is what
   * that entry declares, and every entry that declares something is used.
   */
  lemma {:induction false} ScanEntriesIsOrderedFilter(fs: Filesystem, dir: string, names: seq<string>, edition: Option<Edition>)
    ensures var out, idx := ScanEntries(fs, dir, names, edition), Producing(fs, dir, names, edition);
      && |idx| == |out|
      && (forall k :: 0 <= k < |idx| ==> idx[k] < |names|)
      && (forall j, k :: 0 <= j < k < |idx| ==> idx[j] < idx[k])
      && (forall k :: 0 <= k < |idx| ==> ScanEntry(fs, dir, names[idx[k]], edition) == Some(out[k]))
      && (forall i :: 0 <= i < |names| && ScanEntry(fs, dir, names[i], edition).Some? ==> i in idx)
    decreases |names|
  {
    if names != [] {
      var front := names[..|names| - 1];
      ScanEntriesIsOrderedFilter(fs, dir, front, edition);
      forall i | 0 <= i < |names| - 1
        ensures names[i] == front[i]
      {
      }
    }
  }

  /**
   * Every scanned product is the default product with a name and a path,
   * stamped with the given edition (never the default's own edition unless
   * that is what was given).
   */
  lemma {:induction false} ScanEntriesAreAutoProducts(fs: Filesystem, dir: string, names: seq<string>, edition: Option<Edition>)
    ensures forall p :: p in ScanEntries(fs, dir, names, edition) ==>
      p.name.Some? && p.path.Some? && p.edition == edition && p.crateType.None? && DefaultsElsewhere(p)
    decreases |names|
  {
    if names != [] {
      ScanEntriesAreAutoProducts(fs, dir, names[..|names| - 1], edition);
    }
  }

  /**
   * Every product scanned from `dir` is the default product with a name
   * and a path, stamped with the given edition.
   */
  lemma AutoSetProducts(fs: Filesystem, dir: string, edition: Option<Edition>)
    ensures forall p :: p in AutoSetOf(fs, dir, edition) ==>
      p.name.Some? && p.path.Some? && p.edition == edition && p.crateType.None? && DefaultsElsewhere(p)
  {
    if FileNamesIn(fs, dir).Entries? {
      ScanEntriesAreAutoProducts(fs, dir, FileNamesIn(fs, dir).names, edition);
    }
  }

  /**
   * The two ways an entry `e` of `dir` declares a product: a file ending in
   * `.rs` gives path `dir/e` and the name `e` without its trailing `.rs`
   * copies; otherwise a sub-listing holding `main.rs` gives path
   * `dir/e/main.rs` and name `e`.
   */
  lemma ScanEntryRule(fs: Filesystem, dir: string, e: string, edition: Option<Edition>)
    ensures EndsWith(e, ".rs") ==>
      var p := ScanEntry(fs, dir, e, edition).value;
      && p.path == Some(dir + "/" + e)
      && !EndsWith(p.name.value, ".rs")
      && e == p.name.value + Repeat(".rs", RsSuffixCount(e))
    ensures !EndsWith(e, ".rs") ==>
      (ScanEntry(fs, dir, e, edition).Some? <==> ListingContains(fs, dir + "/" + e, "main.rs"))
    ensures !EndsWith(e, ".rs") && ScanEntry(fs, dir, e, edition).Some? ==>
      ScanEntry(fs, dir, e, edition).value.name == Some(e)
      && ScanEntry(fs, dir, e, edition).value.path == Some(dir + "/" + e + "/main.rs")
  {
    if EndsWith(e, ".rs") {
      TrimEndMatchesRsSpec(e);
    }
  }

  /**
   * A worked case: `src/bin` lists `tool.rs` and `helper`, and `helper`
   * holds `main.rs`; scanning yields `tool` at `src/bin/tool.rs`, then
   * `helper` at `src/bin/helper/main.rs`.
   */
  lemma ScanExample()
    ensures var fs := map["src/bin" := Entries(["tool.rs", "helper"]), "src/bin/helper" := Entries(["main.rs"])];
      AutoSetOf(fs, "src/bin", None)
      == [AutoProduct("tool", "src/bin/tool.rs", None), AutoProduct("helper", "src/bin/helper/main.rs", None)]
  {
    var fs := map["src/bin" := Entries(["tool.rs", "helper"]), "src/bin/helper" := Entries(["main.rs"])];
    assert EndsWith("tool.rs", ".rs");
    assert !EndsWith("tool", ".rs");
    assert TrimEndMatchesRs("tool.rs") == "tool";
    assert !EndsWith("helper", ".rs");
    assert "src/bin" + "/" + "tool.rs" == "src/bin/tool.rs";
    assert "src/bin" + "/" + "helper" == "src/bin/helper";
    assert "src/bin/helper" + "/main.rs" == "src/bin/helper/main.rs";
    assert ListingContains(fs, "src/bin/helper", "main.rs");
    var names := ["tool.rs", "helper"];
    assert names[..1] == ["tool.rs"];
    assert names[..1][..0] == [];
    assert ScanEntry(fs, "src/bin", "tool.rs", None) == Some(AutoProduct("tool", "src/bin/tool.rs", None));
    assert ScanEntry(fs, "src/bin", "helper", None) == Some(AutoProduct("helper", "src/bin/helper/main.rs", None));
    assert ScanEntries(fs, "src/bin", names[..1], None) == [AutoProduct("tool", "src/bin/tool.rs", None)];
  }

  /** Scanning `dir` of the filesystem, as the completion steps for bins, examples, tests and benches do. */
  method Autoset(package: Package, dir: string, fs: Filesystem) returns (out: seq<Product>)
    ensures out == AutoSetOf(fs, dir, LocalEdition(package))
  {
    out := [];
    var edition := LocalEdition(package);
    var listing := FileNamesIn(fs, dir);
    if listing.Entries? {
      var bins := listing.names;
      for i := 0 to |bins|
        invariant out == ScanEntries(fs, dir, bins[..i], edition)
      {
        var name := bins[i];
        var relPath := dir + "/" + name;
        if EndsWith(name, ".rs") {
          out := out + [AutoProduct(TrimEndMatchesRs(name), relPath, edition)];
        } else {
          var sub := FileNamesIn(fs, relPath);
          if sub.Entries? && "main.rs" in sub.names {
            out := out + [AutoProduct(name, relPath + "/main.rs", edition)];
          }
        }
        assert bins[..i + 1][..i] == bins[..i];
      }
      assert bins[..|bins|] == bins;
    }
  }
}

/**
 * The per-material table both versions build from a folder listing
 * (`texture_list` in v1.3, the global `textList` in v1.2): material name ->
 * fragment key -> list of files, plus the `UDIM`, `Size` and `path` entries.
 * The sentinel entries are typed fields here; no fragment is spelled `UDIM`,
 * `Size` or `path`, so they can never collide with a fragment key.
 */
module TextureSets {
  import opened Options
  import opened Seqs

  /** One entry of a folder listing: its name and whether it is a regular file. */
  datatype Entry = Entry(name: string, isFile: bool)

  /** What the classifier learns from one file name. */
  datatype Classified = Classified(material: string, key: string, file: string, udim: bool, size: Option<string>)

  /**
   * One material's entry: the fragment keys in the order the dictionary
   * received them, the files under each key, and the `UDIM`, `Size` and
   * `path` entries (`size` is `None` while no `Size` entry exists).
   */
  datatype TextureSet = TextureSet(keys: seq<string>, files: map<string, seq<string>>, udim: bool, size: Option<string>, path: string)

  type Table = map<string, TextureSet>

  /** Keys listed once each, exactly the keys of `files`, each with at least one file. */
  predicate WellFormed(e: TextureSet) {
    && (forall k :: k in e.files ==> k in e.keys)
    && (forall k :: k in e.keys ==> k in e.files)
    && Distinct(e.keys)
    && (forall k :: k in e.files ==> |e.files[k]| > 0)
  }

  predicate TableWellFormed(t: Table) {
    forall m :: m in t ==> WellFormed(t[m])
  }

  /** The entry `defaultdict` creates on first use. */
  function NewSet(path: string): TextureSet {
    TextureSet([], map[], false, None, path)
  }

  /**
   * Recording one classified file: `path` is (re)set, the file is appended
   * under its key, `UDIM` is overwritten and `Size` is written only when the
   * name carries a size tag.
   */
  function Insert(t: Table, c: Classified, path: string): (r: Table)
    ensures r.Keys == t.Keys + {c.material}
    ensures forall m :: m in t && m != c.material ==> r[m] == t[m]
  {
    var e := if c.material in t then t[c.material] else NewSet(path);
    var prev := if c.key in e.files then e.files[c.key] else [];
    var keys := if c.key in e.files then e.keys else e.keys + [c.key];
    t[c.material := TextureSet(keys, e.files[c.key := prev + [c.file]], c.udim,
                               if c.size.Some? then c.size else e.size, path)]
  }

  /** The table built from a folder's classified files, in listing order. */
  function Collect(cs: seq<Classified>, path: string): Table
    decreases |cs|
  {
    if cs == [] then map[] else Insert(Collect(cs[..|cs| - 1], path), cs[|cs| - 1], path)
  }

  /** Files of material `m` under key `k`, in listing order (a reference definition). */
  function FilesOf(cs: seq<Classified>, m: string, k: string): seq<string>
    decreases |cs|
  {
    if cs == [] then []
    else
      var c := cs[|cs| - 1];
      FilesOf(cs[..|cs| - 1], m, k) + (if c.material == m && c.key == k then [c.file] else [])
  }

  /** The last classified file of material `m`. */
  function LastOf(cs: seq<Classified>, m: string): Option<Classified>
    decreases |cs|
  {
    if cs == [] then None
    else if cs[|cs| - 1].material == m then Some(cs[|cs| - 1])
    else LastOf(cs[..|cs| - 1], m)
  }

  /** The size tag of the last file of material `m` that carries one. */
  function LastSize(cs: seq<Classified>, m: string): Option<string>
    decreases |cs|
  {
    if cs == [] then None
    else if cs[|cs| - 1].material == m && cs[|cs| - 1].size.Some? then cs[|cs| - 1].size
    else LastSize(cs[..|cs| - 1], m)
  }

  predicate HasMaterial(cs: seq<Classified>, m: string) {
    exists i :: 0 <= i < |cs| && cs[i].material == m
  }

  predicate HasKey(cs: seq<Classified>, m: string, k: string) {
    exists i :: 0 <= i < |cs| && cs[i].material == m && cs[i].key == k
  }

  /** An entry exists exactly for the materials that occur in the listing. */
  lemma {:induction false} CollectMaterials(cs: seq<Classified>, path: string, m: string)
    ensures m in Collect(cs, path) <==> HasMaterial(cs, m)
    decreases |cs|
  {
    if cs != [] {
      var n := |cs| - 1;
      var pre := cs[..n];
      var t := Collect(pre, path);
      assert Collect(cs, path) == Insert(t, cs[n], path);
      assert Insert(t, cs[n], path).Keys == t.Keys + {cs[n].material};
      CollectMaterials(pre, path, m);
      HasMaterialNext(cs, m);
    }
  }

  /** One more file in the listing: its material is the only new one. */
  lemma HasMaterialNext(cs: seq<Classified>, m: string)
    requires cs != []
    ensures HasMaterial(cs, m) <==> HasMaterial(cs[..|cs| - 1], m) || cs[|cs| - 1].material == m
  {
    var n := |cs| - 1;
    var pre := cs[..n];
    if HasMaterial(pre, m) {
      var i :| 0 <= i < |pre| && pre[i].material == m;
      assert cs[i] == pre[i];
    }
    if cs[n].material == m {
      assert HasMaterial(cs, m);
    } else if HasMaterial(cs, m) {
      var i :| 0 <= i < |cs| && cs[i].material == m;
      assert pre[i] == cs[i];
    }
  }

  /** A material's keys are exactly the fragments its files were classified under. */
  lemma {:induction false} CollectKeys(cs: seq<Classified>, path: string, m: string, k: string)
    requires m in Collect(cs, path)
    ensures k in Collect(cs, path)[m].files <==> HasKey(cs, m, k)
    decreases |cs|
  {
    var n := |cs| - 1;
    var pre := cs[..n];
    assert Collect(cs, path) == Insert(Collect(pre, path), cs[n], path);
    InsertKeys(Collect(pre, path), cs[n], path, m, k);
    HasKeyNext(cs, m, k);
    if m in Collect(pre, path) {
      CollectKeys(pre, path, m, k);
    } else {
      CollectMaterials(pre, path, m);
      KeyHasMaterial(pre, m, k);
    }
  }

  lemma KeyHasMaterial(cs: seq<Classified>, m: string, k: string)
    ensures HasKey(cs, m, k) ==> HasMaterial(cs, m)
  {
    if HasKey(cs, m, k) {
      var i :| 0 <= i < |cs| && cs[i].material == m && cs[i].key == k;
      assert cs[i].material == m;
    }
  }

  /** One more file in the listing: its material and key are the only new pair. */
  lemma HasKeyNext(cs: seq<Classified>, m: string, k: string)
    requires cs != []
    ensures HasKey(cs, m, k) <==> HasKey(cs[..|cs| - 1], m, k) || (cs[|cs| - 1].material == m && cs[|cs| - 1].key == k)
  {
    var n := |cs| - 1;
    var pre := cs[..n];
    if HasKey(pre, m, k) {
      var i :| 0 <= i < |pre| && pre[i].material == m && pre[i].key == k;
      assert cs[i] == pre[i];
    }
    if cs[n].material == m && cs[n].key == k {
      assert HasKey(cs, m, k);
    } else if HasKey(cs, m, k) {
      var i :| 0 <= i < |cs| && cs[i].material == m && cs[i].key == k;
      assert pre[i] == cs[i];
    }
  }

  lemma InsertKeys(t: Table, c: Classified, path: string, m: string, k: string)
    requires m in Insert(t, c, path)
    ensures k in Insert(t, c, path)[m].files <==> (m in t && k in t[m].files) || (c.material == m && c.key == k)
  {
  }

  /** The files under a key are the material's files with that key, in listing order. */
  lemma {:induction false} CollectFiles(cs: seq<Classified>, path: string, m: string, k: string)
    requires m in Collect(cs, path) && k in Collect(cs, path)[m].files
    ensures Collect(cs, path)[m].files[k] == FilesOf(cs, m, k)
    decreases |cs|
  {
    var n := |cs| - 1;
    var pre := cs[..n];
    if m in Collect(pre, path) && k in Collect(pre, path)[m].files {
      CollectFiles(pre, path, m, k);
    } else {
      CollectFilesEmpty(pre, path, m, k);
    }
  }

  lemma {:induction false} CollectFilesEmpty(cs: seq<Classified>, path: string, m: string, k: string)
    requires !(m in Collect(cs, path) && k in Collect(cs, path)[m].files)
    ensures FilesOf(cs, m, k) == []
    decreases |cs|
  {
    if cs != [] {
      CollectFilesEmpty(cs[..|cs| - 1], path, m, k);
    }
  }

  /**
   * `UDIM` is the flag of the material's last file, `Size` the tag of the
   * last file that had one, and `path` the folder.
   */
  lemma {:induction false} CollectFlags(cs: seq<Classified>, path: string, m: string)
    requires m in Collect(cs, path)
    ensures LastOf(cs, m).Some? && Collect(cs, path)[m].udim == LastOf(cs, m).value.udim
    ensures Collect(cs, path)[m].size == LastSize(cs, m)
    ensures Collect(cs, path)[m].path == path
    decreases |cs|
  {
    var n := |cs| - 1;
    var pre := cs[..n];
    if m in Collect(pre, path) {
      CollectFlags(pre, path, m);
    } else {
      CollectSizeNone(pre, path, m);
    }
  }

  lemma {:induction false} CollectSizeNone(cs: seq<Classified>, path: string, m: string)
    requires m !in Collect(cs, path)
    ensures LastSize(cs, m) == None
    decreases |cs|
  {
    if cs != [] {
      CollectSizeNone(cs[..|cs| - 1], path, m);
    }
  }

  lemma {:induction false} CollectWellFormed(cs: seq<Classified>, path: string)
    ensures TableWellFormed(Collect(cs, path))
    decreases |cs|
  {
    if cs != [] {
      CollectWellFormed(cs[..|cs| - 1], path);
      InsertWellFormed(Collect(cs[..|cs| - 1], path), cs[|cs| - 1], path);
    }
  }

  /** Recording a file keeps every entry well formed. */
  lemma InsertWellFormed(t: Table, c: Classified, path: string)
    requires TableWellFormed(t)
    ensures TableWellFormed(Insert(t, c, path))
  {
  }

  /** Recording one more file is one more `Insert`. */
  lemma CollectSnoc(cs: seq<Classified>, c: Classified, path: string)
    ensures Collect(cs + [c], path) == Insert(Collect(cs, path), c, path)
    ensures Order(cs + [c]) == if c.material in Order(cs) then Order(cs) else Order(cs) + [c.material]
  {
    assert (cs + [c])[..|cs|] == cs;
  }

  /** Material names in the order the dictionary first received them. */
  function Order(cs: seq<Classified>): seq<string>
    decreases |cs|
  {
    if cs == [] then []
    else
      var prev := Order(cs[..|cs| - 1]);
      if cs[|cs| - 1].material in prev then prev else prev + [cs[|cs| - 1].material]
  }

  /** The order lists every material of the table once. */
  lemma {:induction false} OrderMatchesTable(cs: seq<Classified>, path: string)
    ensures Distinct(Order(cs))
    ensures forall m :: m in Order(cs) <==> m in Collect(cs, path)
    decreases |cs|
  {
    if cs != [] {
      OrderMatchesTable(cs[..|cs| - 1], path);
    }
  }

  /**
   * The table depends on the order of the listing: the same two files give a
   * UDIM material or a non-UDIM material depending on which comes last.
   */
  lemma UdimDependsOnOrder()
    ensures
      var a := Classified("tires", "alb", "tires_alb_1001.tif", true, None);
      var b := Classified("tires", "rough", "tires_rough.tif", false, None);
      Collect([a, b], "/tex/")["tires"].udim != Collect([b, a], "/tex/")["tires"].udim
  {
    var a := Classified("tires", "alb", "tires_alb_1001.tif", true, None);
    var b := Classified("tires", "rough", "tires_rough.tif", false, None);
    assert [a, b][..1] == [a];
    assert [b, a][..1] == [b];
    assert [a][..0] == [] && [b][..0] == [];
  }
}

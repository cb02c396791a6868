/**
 * v1.3 `TxToMtlx.get_texture_details`: which files of a folder enter the
 * texture table, which fragment each is filed under, and how the folder's
 * table is merged into the tool's table.
 */
module ClassifierV13 {
  import opened Options
  import opened Seqs
  import opened Strings
  import opened Patterns
  import opened Taxonomy
  import opened TextureSets

  /** A regular file whose lower-cased name ends with a `TEXTURE_EXT` entry and contains `_`. */
  predicate Admitted(e: Entry) {
    e.isFile && EndsWithAny(Lower(e.name), TextureExt13) && '_' in e.name
  }

  /**
   * `TEXTURE_EXT` spells `.jpge`, so a `.jpeg` file is never admitted, whatever
   * the case of its stem, while the v1.2 list does accept it.
   */
  lemma JpegRejected(stem: string)
    ensures !Admitted(Entry(stem + ".jpeg", true))
    ensures EndsWithAny(Lower(stem + ".jpeg"), TextureExt12)
  {
    var l := Lower(stem + ".jpeg");
    assert l[|l| - 5..] == ".jpeg";
    forall i | 0 <= i < |TextureExt13|
      ensures !EndsWith(l, TextureExt13[i])
    {
      EndingChars(l, TextureExt13[i]);
    }
    assert EndsWith(l, TextureExt12[1]);
  }

  /** A string ending with `x` (two or more characters long) ends with its last two characters. */
  lemma EndingChars(s: string, x: string)
    requires |x| >= 2
    ensures EndsWith(s, x) ==> s[|s| - 1] == x[|x| - 1] && s[|s| - 2] == x[|x| - 2]
  {
    if EndsWith(s, x) {
      assert s[|s| - |x|..][|x| - 1] == x[|x| - 1] && s[|s| - |x|..][|x| - 2] == x[|x| - 2];
    }
  }

  /** `fragment` occurs in the lower-cased form of one of the segments. */
  predicate InSomeSegment(fragment: string, segments: seq<string>) {
    exists j :: 0 <= j < |segments| && Contains(Lower(segments[j]), fragment)
  }

  /** The last fragment of `types`, in list order, that occurs in some segment. */
  function LastMatch(types: seq<string>, segments: seq<string>): (r: Option<string>)
    ensures r.Some? ==> r.value in types && InSomeSegment(r.value, segments)
    decreases |types|
  {
    if types == [] then None
    else if InSomeSegment(types[|types| - 1], segments) then Some(types[|types| - 1])
    else LastMatch(types[..|types| - 1], segments)
  }

  /** Scanning one more fragment: it wins if it occurs in some segment. */
  lemma LastMatchNext(types: seq<string>, segments: seq<string>, i: nat)
    requires i < |types|
    ensures LastMatch(types[..i + 1], segments)
         == if InSomeSegment(types[i], segments) then Some(types[i]) else LastMatch(types[..i], segments)
  {
    assert types[..i + 1][..i] == types[..i];
  }

  /** `types[i]` matches and no fragment after it does. */
  predicate LastMatchAt(types: seq<string>, segments: seq<string>, i: int) {
    && 0 <= i < |types|
    && InSomeSegment(types[i], segments)
    && forall j :: i < j < |types| ==> !InSomeSegment(types[j], segments)
  }

  /** No fragment matches exactly when the result is `None`; otherwise it is the last one that does. */
  lemma {:induction false} LastMatchIsLast(types: seq<string>, segments: seq<string>)
    ensures LastMatch(types, segments).None? <==> forall j :: 0 <= j < |types| ==> !InSomeSegment(types[j], segments)
    ensures LastMatch(types, segments).Some? ==>
      exists i :: LastMatchAt(types, segments, i) && types[i] == LastMatch(types, segments).value
    decreases |types|
  {
    if types != [] {
      var n := |types| - 1;
      LastMatchIsLast(types[..n], segments);
      assert forall j :: 0 <= j < n ==> types[..n][j] == types[j];
      if InSomeSegment(types[n], segments) {
        assert LastMatchAt(types, segments, n);
      } else if LastMatch(types, segments).Some? {
        var i :| LastMatchAt(types[..n], segments, i) && types[..n][i] == LastMatch(types, segments).value;
        assert LastMatchAt(types, segments, i);
      }
    }
  }

  /**
   * The fragment loop: for every fragment in list order, scan the segments
   * and stop the inner scan at the first hit. The outer loop never stops
   * early, so a later hit overwrites an earlier one.
   */
  method FindTextureType(types: seq<string>, segments: seq<string>) returns (texType: Option<string>)
    ensures texType == LastMatch(types, segments)
  {
    texType := None;
    var i := 0;
    while i < |types|
      invariant 0 <= i <= |types|
      invariant texType == LastMatch(types[..i], segments)
    {
      var fragment := types[i];
      LastMatchNext(types, segments, i);
      var before := texType;
      var j := 0;
      while j < |segments|
        invariant 0 <= j <= |segments|
        invariant texType == before
        invariant forall k :: 0 <= k < j ==> !Contains(Lower(segments[k]), fragment)
      {
        if Contains(Lower(segments[j]), fragment) {
          texType := Some(fragment);
          break;
        }
        j := j + 1;
      }
      i := i + 1;
    }
    assert types[..i] == types;
  }

  /**
   * What one admitted file contributes: the material is the first `_`
   * segment, the key is searched for only in the later segments, the UDIM
   * flag and the size tag are searched for in the whole name.
   */
  function Classify(name: string): Option<Classified> {
    var parts := Split(name, '_');
    match LastMatch(TextureTypes, parts[1..])
    case None => None
    case Some(t) => Some(Classified(parts[0], t, name, HasFourDigits(name), SizeTag13(name)))
  }

  /**
   * A file is dropped exactly when no fragment occurs in its later segments;
   * otherwise the material is the first segment, the key is the last fragment
   * that occurs, the UDIM flag says whether four digits stand anywhere in the
   * name, and the size is the v1.3 size scan of the name.
   */
  lemma ClassifySpec(name: string)
    ensures var parts := Split(name, '_');
      && (Classify(name).None? <==> forall j :: 0 <= j < |TextureTypes| ==> !InSomeSegment(TextureTypes[j], parts[1..]))
      && (Classify(name).Some? ==>
            var c := Classify(name).value;
            && c.material == parts[0] && c.file == name
            && (exists i :: LastMatchAt(TextureTypes, parts[1..], i) && TextureTypes[i] == c.key)
            && (c.udim <==> exists i :: DigitsAt(name, i, 4))
            && c.size == SizeTag13(name))
  {
    LastMatchIsLast(TextureTypes, Split(name, '_')[1..]);
    HasFourDigitsIff(name);
  }

  /** The admitted entries of a listing, in listing order. */
  function AdmittedNames(listing: seq<Entry>): (r: seq<string>)
    ensures forall f :: f in r <==> exists e :: e in listing && Admitted(e) && e.name == f
    decreases |listing|
  {
    if listing == [] then []
    else
      var e := listing[|listing| - 1];
      assert forall x :: x in listing <==> x in listing[..|listing| - 1] || x == e;
      AdmittedNames(listing[..|listing| - 1]) + (if Admitted(e) then [e.name] else [])
  }

  /** The classified files among `files`, in order; files without a fragment are dropped. */
  function ClassifyAll(files: seq<string>): (r: seq<Classified>)
    ensures |r| <= |files|
    decreases |files|
  {
    if files == [] then []
    else
      var c := Classify(files[|files| - 1]);
      ClassifyAll(files[..|files| - 1]) + (if c.Some? then [c.value] else [])
  }

  /** Membership in a prefix extended by an optional last entry. */
  lemma KeptStep(whole: seq<Classified>, prefix: seq<Classified>, last: Option<Classified>, c: Classified)
    requires whole == prefix + (if last.Some? then [last.value] else [])
    ensures c in whole <==> c in prefix || last == Some(c)
  {
  }

  /** An entry comes out of classifying `files` exactly when some file classifies to it. */
  lemma {:induction false} ClassifyAllMembers(files: seq<string>)
    ensures forall c :: c in ClassifyAll(files) <==> exists k :: 0 <= k < |files| && Classify(files[k]) == Some(c)
    decreases |files|
  {
    if files != [] {
      var n := |files| - 1;
      var last := Classify(files[n]);
      var prefix := ClassifyAll(files[..n]);
      ClassifyAllMembers(files[..n]);
      assert ClassifyAll(files) == prefix + (if last.Some? then [last.value] else []);
      forall c
        ensures c in ClassifyAll(files) <==> exists k :: 0 <= k < |files| && Classify(files[k]) == Some(c)
      {
        KeptStep(ClassifyAll(files), prefix, last, c);
        if c in prefix {
          var k :| 0 <= k < n && Classify(files[..n][k]) == Some(c);
          assert files[..n][k] == files[k];
        }
        if exists k :: 0 <= k < |files| && Classify(files[k]) == Some(c) {
          var k :| 0 <= k < |files| && Classify(files[k]) == Some(c);
          if k < n {
            assert files[..n][k] == files[k];
          } else {
            assert k == n;
          }
        }
      }
    }
  }

  lemma ClassifyOf(name: string, t: Option<string>)
    requires t == LastMatch(TextureTypes, Split(name, '_')[1..])
    ensures Classify(name) == if t.None? then None
      else Some(Classified(Split(name, '_')[0], t.value, name, HasFourDigits(name), SizeTag13(name)))
  {
  }

  /** One more file either leaves the table alone or is one more `Insert`. */
  lemma TableStep(files: seq<string>, k: int, path: string)
    requires 0 <= k < |files|
    ensures Collect(ClassifyAll(files[..k + 1]), path) ==
      match Classify(files[k])
      case None => Collect(ClassifyAll(files[..k]), path)
      case Some(c) => Insert(Collect(ClassifyAll(files[..k]), path), c, path)
    ensures Order(ClassifyAll(files[..k + 1])) ==
      match Classify(files[k])
      case None => Order(ClassifyAll(files[..k]))
      case Some(c) => if c.material in Order(ClassifyAll(files[..k])) then Order(ClassifyAll(files[..k]))
                      else Order(ClassifyAll(files[..k])) + [c.material]
  {
    ClassifyStep(files, k);
    if Classify(files[k]).Some? {
      CollectSnoc(ClassifyAll(files[..k]), Classify(files[k]).value, path);
    } else {
      assert ClassifyAll(files[..k + 1]) == ClassifyAll(files[..k]);
    }
  }

  lemma ClassifyStep(files: seq<string>, k: int)
    requires 0 <= k < |files|
    ensures ClassifyAll(files[..k + 1]) ==
      ClassifyAll(files[..k]) + (if Classify(files[k]).Some? then [Classify(files[k]).value] else [])
  {
    assert files[..k + 1][..k] == files[..k];
  }

  /** The table one folder yields, and the order its materials appear in. */
  function FolderTable(path: string, listing: seq<Entry>): Table {
    Collect(ClassifyAll(AdmittedNames(listing)), path)
  }

  function FolderOrder(listing: seq<Entry>): seq<string> {
    Order(ClassifyAll(AdmittedNames(listing)))
  }

  /** The first loop of `get_texture_details`: collect the admitted names. */
  method ValidFiles(listing: seq<Entry>) returns (valid: seq<string>)
    ensures valid == AdmittedNames(listing)
  {
    valid := [];
    var i := 0;
    while i < |listing|
      invariant 0 <= i <= |listing|
      invariant valid == AdmittedNames(listing[..i])
    {
      assert listing[..i + 1][..i] == listing[..i];
      var file := listing[i].name;
      var validExtension := EndsWithAny(Lower(file), TextureExt13);
      var checkUnderscore := '_' in file;
      if listing[i].isFile && validExtension && checkUnderscore {
        valid := valid + [file];
      }
      i := i + 1;
    }
    assert listing[..i] == listing;
  }

  /** The second loop: classify each admitted file and record it in a fresh table. */
  method BuildTable(path: string, valid: seq<string>) returns (table: Table, order: seq<string>)
    ensures table == Collect(ClassifyAll(valid), path)
    ensures order == Order(ClassifyAll(valid))
  {
    table := map[];
    order := [];
    var k := 0;
    while k < |valid|
      invariant 0 <= k <= |valid|
      invariant table == Collect(ClassifyAll(valid[..k]), path)
      invariant order == Order(ClassifyAll(valid[..k]))
    {
      assert valid[..k + 1][..k] == valid[..k];
      var file := valid[k];
      var splitText := Split(file, '_');
      var materialName := splitText[0];
      var textureType := FindTextureType(TextureTypes, splitText[1..]);
      TableStep(valid, k, path);
      ClassifyOf(file, textureType);
      if textureType.Some? {
        var c := Classified(materialName, textureType.value, file, HasFourDigits(file), SizeTag13(file));
        table := Insert(table, c, path);
        order := if materialName in order then order else order + [materialName];
      }
      k := k + 1;
    }
    assert valid[..k] == valid;
  }

  /** The tool's table (`self.texture_list`) and its key order, which the list view shows. */
  class TextureBrowser {
    var textureList: Table
    var materials: seq<string>

    /** The material list and the table hold the same materials, each listed once. */
    predicate Valid()
      reads this
    {
      && Distinct(materials)
      && (forall m :: m in materials ==> m in textureList)
      && (forall m :: m in textureList ==> m in materials)
    }

    /** `open_folder` starts from an empty table. */
    constructor ()
      ensures Valid() && textureList == map[] && materials == []
    {
      textureList := map[];
      materials := [];
    }

    /**
     * `get_texture_details(path)`. A missing folder is reported and leaves
     * the table as it was. Otherwise the folder's table is built file by
     * file and merged with `dict.update`: a material seen again replaces its
     * earlier entry wholesale, a new material is appended to the list.
     */
    method GetTextureDetails(path: string, pathExists: bool, listing: seq<Entry>) returns (ok: bool)
      requires Valid()
      modifies this
      ensures Valid()
      ensures ok == pathExists
      ensures ok ==> textureList == old(textureList) + FolderTable(path, listing)
      ensures ok ==> materials == AppendNew(old(materials), FolderOrder(listing))
      ensures !ok ==> textureList == old(textureList) && materials == old(materials)
    {
      if !pathExists {
        return false;
      }
      var valid := ValidFiles(listing);
      var table, order := BuildTable(path, valid);
      OrderMatchesTable(ClassifyAll(valid), path);
      AppendNewProps(materials, order);
      textureList := textureList + table;
      materials := AppendNew(materials, order);
      ok := true;
    }
  }
}

/**
 * v1.2 `mainWindowUI.retriveMtlName`: the same table as v1.3, built with a
 * different filter, a first-match classifier and underscore-anchored tags,
 * and stored afresh for every folder opened.
 */
module ClassifierV12 {
  import opened Options
  import opened Seqs
  import opened Strings
  import opened Patterns
  import opened Taxonomy
  import opened TextureSets

  /** A regular file whose lower-cased name ends with a `textureExt` entry. */
  predicate Listed(e: Entry) {
    e.isFile && EndsWithAny(Lower(e.name), TextureExt12)
  }

  /** `tType in part.lower() or tType.capitalize() in part` */
  predicate MatchesPart(fragment: string, part: string) {
    Contains(Lower(part), fragment) || Contains(part, Capitalize(fragment))
  }

  predicate InSomePart(fragment: string, parts: seq<string>) {
    exists j :: 0 <= j < |parts| && MatchesPart(fragment, parts[j])
  }

  /** For a lower-case fragment the capitalized test finds nothing the lower-case test misses. */
  lemma CapitalizedAddsNothing(fragment: string, part: string)
    requires IsLowerCase(fragment)
    ensures MatchesPart(fragment, part) <==> Contains(Lower(part), fragment)
  {
    if Contains(part, Capitalize(fragment)) {
      ContainsLower(part, Capitalize(fragment));
      LowerCapitalize(fragment);
    }
  }

  /** The first fragment of `types`, in list order, found in some part. */
  function FirstMatch(types: seq<string>, parts: seq<string>): (r: Option<string>)
    ensures r.Some? ==> r.value in types && InSomePart(r.value, parts)
    decreases |types|
  {
    if types == [] then None
    else if InSomePart(types[0], parts) then Some(types[0])
    else FirstMatch(types[1..], parts)
  }

  /** `types[i]` matches and no fragment before it does. */
  predicate FirstMatchAt(types: seq<string>, parts: seq<string>, i: int) {
    && 0 <= i < |types|
    && InSomePart(types[i], parts)
    && forall j :: 0 <= j < i ==> !InSomePart(types[j], parts)
  }

  lemma {:induction false} FirstMatchIsFirst(types: seq<string>, parts: seq<string>)
    ensures FirstMatch(types, parts).None? <==> forall j :: 0 <= j < |types| ==> !InSomePart(types[j], parts)
    ensures FirstMatch(types, parts).Some? ==>
      exists i :: FirstMatchAt(types, parts, i) && types[i] == FirstMatch(types, parts).value
    decreases |types|
  {
    if types != [] {
      FirstMatchIsFirst(types[1..], parts);
      assert forall j :: 1 <= j < |types| ==> types[1..][j - 1] == types[j];
      if InSomePart(types[0], parts) {
        assert FirstMatchAt(types, parts, 0);
      } else if FirstMatch(types, parts).Some? {
        var i :| FirstMatchAt(types[1..], parts, i) && types[1..][i] == FirstMatch(types, parts).value;
        assert FirstMatchAt(types, parts, i + 1);
      }
    }
  }

  /** `any(tType in part.lower() or tType.capitalize() in part for part in parts)`, stopping at the first hit. */
  method AnyPart(fragment: string, parts: seq<string>) returns (found: bool)
    ensures found == InSomePart(fragment, parts)
  {
    found := false;
    var j := 0;
    while j < |parts| && !found
      invariant 0 <= j <= |parts|
      invariant found == InSomePart(fragment, parts[..j])
    {
      found := PartMatches(fragment, parts[j]);
      InSomePartNext(fragment, parts, j);
      j := j + 1;
    }
    InSomePartPrefix(fragment, parts, j);
  }

  /** Looking at one more part. */
  lemma InSomePartNext(fragment: string, parts: seq<string>, j: nat)
    requires j < |parts|
    ensures InSomePart(fragment, parts[..j + 1]) <==> InSomePart(fragment, parts[..j]) || MatchesPart(fragment, parts[j])
  {
    var next, prev := parts[..j + 1], parts[..j];
    if InSomePart(fragment, next) {
      var k :| 0 <= k < j + 1 && MatchesPart(fragment, next[k]);
      if k < j {
        assert next[k] == prev[k];
      }
    }
    if InSomePart(fragment, prev) {
      var k :| 0 <= k < j && MatchesPart(fragment, prev[k]);
      assert next[k] == prev[k];
    }
    if MatchesPart(fragment, parts[j]) {
      assert next[j] == parts[j];
    }
  }

  /** A hit among the first parts is a hit; having looked at all parts is the whole answer. */
  lemma InSomePartPrefix(fragment: string, parts: seq<string>, j: nat)
    requires j <= |parts|
    ensures InSomePart(fragment, parts[..j]) ==> InSomePart(fragment, parts)
    ensures j == |parts| ==> parts[..j] == parts
  {
    if InSomePart(fragment, parts[..j]) {
      var k :| 0 <= k < j && MatchesPart(fragment, parts[..j][k]);
      assert parts[..j][k] == parts[k];
    }
  }

  /** One test of the generator: the lower-cased part or the part itself holds the fragment. */
  method PartMatches(fragment: string, part: string) returns (hit: bool)
    ensures hit == MatchesPart(fragment, part)
  {
    hit := Contains(Lower(part), fragment) || Contains(part, Capitalize(fragment));
  }

  /** The fragment loop over `types`: the first fragment for which `any(...)` holds ends the search. */
  method FindTextureType(types: seq<string>, parts: seq<string>) returns (texType: Option<string>)
    ensures texType == FirstMatch(types, parts)
  {
    texType := None;
    var i := 0;
    while i < |types|
      invariant 0 <= i <= |types|
      invariant FirstMatch(types[i..], parts) == FirstMatch(types, parts)
      invariant texType == None
    {
      var fragment := types[i];
      var found := AnyPart(fragment, parts);
      assert types[i..][0] == fragment && types[i..][1..] == types[i + 1..];
      if found {
        texType := Some(fragment);
        return;
      }
      i := i + 1;
    }
  }

  /**
   * What one listed file contributes. A name without `_` is skipped. The rest
   * of the name after the material is joined back with `_` and split again,
   * which gives the later segments back unchanged.
   */
  function Classify(name: string): Option<Classified> {
    if '_' !in name then None
    else
      var parts := Split(name, '_');
      var restSplit := Split(Join(parts[1..], '_'), '_');
      match FirstMatch(TextureTypes, restSplit)
      case None => None
      case Some(t) => Some(Classified(parts[0], t, name, HasUnderscoreFourDigits(name), SizeTag12(name)))
  }

  /** The re-split rest is exactly the segments after the material. */
  lemma RestSplit(name: string)
    requires '_' in name
    ensures Split(Join(Split(name, '_')[1..], '_'), '_') == Split(name, '_')[1..]
  {
    SplitMany(name, '_');
    SplitJoin(Split(name, '_')[1..], '_');
  }

  /**
   * A file is dropped when it has no `_` or no fragment occurs in its later
   * segments; otherwise the key is the first fragment that occurs, the UDIM
   * flag needs an underscore right before four digits, and the size is the
   * v1.2 size scan of the name.
   */
  lemma ClassifySpec(name: string)
    ensures var parts := Split(name, '_');
      && (Classify(name).None? <==>
            '_' !in name || forall j :: 0 <= j < |TextureTypes| ==> !InSomePart(TextureTypes[j], parts[1..]))
      && (Classify(name).Some? ==>
            var c := Classify(name).value;
            && c.material == parts[0] && c.file == name
            && (exists i :: FirstMatchAt(TextureTypes, parts[1..], i) && TextureTypes[i] == c.key)
            && c.udim == HasUnderscoreFourDigits(name)
            && c.size == SizeTag12(name))
  {
    if '_' in name {
      RestSplit(name);
      FirstMatchIsFirst(TextureTypes, Split(name, '_')[1..]);
    }
  }

  lemma ClassifyOf(name: string, t: Option<string>)
    requires '_' in name
    requires t == FirstMatch(TextureTypes, Split(name, '_')[1..])
    ensures Classify(name) == if t.None? then None
      else Some(Classified(Split(name, '_')[0], t.value, name, HasUnderscoreFourDigits(name), SizeTag12(name)))
  {
    RestSplit(name);
  }

  /** The listed entries of a folder, in listing order. */
  function ListedNames(listing: seq<Entry>): (r: seq<string>)
    ensures forall f :: f in r <==> exists e :: e in listing && Listed(e) && e.name == f
    decreases |listing|
  {
    if listing == [] then []
    else
      var e := listing[|listing| - 1];
      assert forall x :: x in listing <==> x in listing[..|listing| - 1] || x == e;
      ListedNames(listing[..|listing| - 1]) + (if Listed(e) then [e.name] else [])
  }

  function ClassifyAll(files: seq<string>): (r: seq<Classified>)
    ensures |r| <= |files|
    decreases |files|
  {
    if files == [] then []
    else
      var c := Classify(files[|files| - 1]);
      ClassifyAll(files[..|files| - 1]) + (if c.Some? then [c.value] else [])
  }

  /** Membership in a prefix extended by an optional last entry. */
  lemma KeptStep(whole: seq<Classified>, prefix: seq<Classified>, last: Option<Classified>, c: Classified)
    requires whole == prefix + (if last.Some? then [last.value] else [])
    ensures c in whole <==> c in prefix || last == Some(c)
  {
  }

  /** An entry comes out of classifying `files` exactly when some file classifies to it. */
  lemma {:induction false} ClassifyAllMembers(files: seq<string>)
    ensures forall c :: c in ClassifyAll(files) <==> exists k :: 0 <= k < |files| && Classify(files[k]) == Some(c)
    decreases |files|
  {
    if files != [] {
      var n := |files| - 1;
      var last := Classify(files[n]);
      var prefix := ClassifyAll(files[..n]);
      ClassifyAllMembers(files[..n]);
      assert ClassifyAll(files) == prefix + (if last.Some? then [last.value] else []);
      forall c
        ensures c in ClassifyAll(files) <==> exists k :: 0 <= k < |files| && Classify(files[k]) == Some(c)
      {
        KeptStep(ClassifyAll(files), prefix, last, c);
        if c in prefix {
          var k :| 0 <= k < n && Classify(files[..n][k]) == Some(c);
          assert files[..n][k] == files[k];
        }
        if exists k :: 0 <= k < |files| && Classify(files[k]) == Some(c) {
          var k :| 0 <= k < |files| && Classify(files[k]) == Some(c);
          if k < n {
            assert files[..n][k] == files[k];
          } else {
            assert k == n;
          }
        }
      }
    }
  }

  lemma ClassifyStep(files: seq<string>, k: int)
    requires 0 <= k < |files|
    ensures ClassifyAll(files[..k + 1]) ==
      ClassifyAll(files[..k]) + (if Classify(files[k]).Some? then [Classify(files[k]).value] else [])
  {
    assert files[..k + 1][..k] == files[..k];
  }

  /** One more file either leaves the table alone or is one more `Insert`. */
  lemma TableStep(files: seq<string>, k: int, path: string)
    requires 0 <= k < |files|
    ensures Collect(ClassifyAll(files[..k + 1]), path) ==
      match Classify(files[k])
      case None => Collect(ClassifyAll(files[..k]), path)
      case Some(c) => Insert(Collect(ClassifyAll(files[..k]), path), c, path)
    ensures Order(ClassifyAll(files[..k + 1])) ==
      match Classify(files[k])
      case None => Order(ClassifyAll(files[..k]))
      case Some(c) => if c.material in Order(ClassifyAll(files[..k])) then Order(ClassifyAll(files[..k]))
                      else Order(ClassifyAll(files[..k])) + [c.material]
  {
    ClassifyStep(files, k);
    if Classify(files[k]).Some? {
      CollectSnoc(ClassifyAll(files[..k]), Classify(files[k]).value, path);
    } else {
      assert ClassifyAll(files[..k + 1]) == ClassifyAll(files[..k]);
    }
  }

  /**
   * v1.2 writes no `path` entry into a material's dictionary (`myfunc` reads
   * the global `folderPath` instead), so the entry's `path` field stays empty.
   */
  const NoPath: string := ""

  /** The table one folder yields. */
  function FolderTable(listing: seq<Entry>): Table {
    Collect(ClassifyAll(ListedNames(listing)), NoPath)
  }

  function FolderOrder(listing: seq<Entry>): seq<string> {
    Order(ClassifyAll(ListedNames(listing)))
  }

  /** The first loop of `retriveMtlName`: the listed names. */
  method ListTextures(listing: seq<Entry>) returns (textures: seq<string>)
    ensures textures == ListedNames(listing)
  {
    textures := [];
    var i := 0;
    while i < |listing|
      invariant 0 <= i <= |listing|
      invariant textures == ListedNames(listing[..i])
    {
      assert listing[..i + 1][..i] == listing[..i];
      var file := listing[i].name;
      if listing[i].isFile && EndsWithAny(Lower(file), TextureExt12) {
        textures := textures + [file];
      }
      i := i + 1;
    }
    assert listing[..i] == listing;
  }

  /** The second loop: skip names without `_`, classify the rest into a fresh table. */
  method BuildTable(textures: seq<string>) returns (table: Table, order: seq<string>)
    ensures table == Collect(ClassifyAll(textures), NoPath)
    ensures order == Order(ClassifyAll(textures))
  {
    table := map[];
    order := [];
    var k := 0;
    while k < |textures|
      invariant 0 <= k <= |textures|
      invariant table == Collect(ClassifyAll(textures[..k]), NoPath)
      invariant order == Order(ClassifyAll(textures[..k]))
    {
      var texture := textures[k];
      TableStep(textures, k, NoPath);
      if '_' in texture {
        var texParts := Split(texture, '_');
        var mtlName := texParts[0];
        var mtlRest := Join(texParts[1..], '_');
        var mtlRestSplit := Split(mtlRest, '_');
        RestSplit(texture);
        var texType := FindTextureType(TextureTypes, mtlRestSplit);
        ClassifyOf(texture, texType);
        if texType.Some? {
          var c := Classified(mtlName, texType.value, texture, HasUnderscoreFourDigits(texture), SizeTag12(texture));
          table := Insert(table, c, NoPath);
          order := if mtlName in order then order else order + [mtlName];
        }
      }
      k := k + 1;
    }
    assert textures[..k] == textures;
  }

  /** The global `textList` and the order the list view shows it in. */
  class TextureBrowser {
    var textList: Table
    var materials: seq<string>

    predicate Valid()
      reads this
    {
      && Distinct(materials)
      && (forall m :: m in materials ==> m in textList)
      && (forall m :: m in textList ==> m in materials)
    }

    /**
     * The model starts from an empty table. The source's global `textList` has
     * no binding until the first `retriveMtlName`; nothing reads it before then.
     */
    constructor ()
      ensures Valid() && textList == map[] && materials == []
    {
      textList := map[];
      materials := [];
    }

    /**
     * `retriveMtlName(path)`, given the listing of `path`: `textList` is
     * rebound to the new folder's table, so materials of a previously opened
     * folder are gone.
     */
    method RetriveMtlName(listing: seq<Entry>)
      modifies this
      ensures Valid()
      ensures textList == FolderTable(listing)
      ensures materials == FolderOrder(listing)
    {
      var textures := ListTextures(listing);
      var table, order := BuildTable(textures);
      OrderMatchesTable(ClassifyAll(textures), NoPath);
      textList := table;
      materials := order;
    }
  }
}

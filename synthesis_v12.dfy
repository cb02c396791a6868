/**
 * v1.2 `material.myfunc`: one long procedure that builds a MaterialX subnet
 * from a material's texture set. Its decisions (which items the nested
 * key/role loop visits, which nodes it creates, how it parameterises and
 * wires them, and how the bump and normal maps are joined at the end) are
 * spelled out here as functions on a `Net`; `BuilderV12` drives a `Network`
 * through the same calls and is proved to reach these states.
 */
module SynthesisV12 {
  import opened Options
  import opened Strings
  import opened Taxonomy
  import opened TextureSets
  import opened Graph
  import opened TexturePaths
  import V13 = SynthesisV13

  type Pair = V13.Pair

  // ---------------------------------------------------------------------
  // The nested loop over keys and roles
  // ---------------------------------------------------------------------

  /** The items one key produces: each role, in dictionary order, whose list holds the key itself. */
  function KeyItems(key: string, file: string, roles: seq<Role>): seq<Pair> {
    if roles == [] then []
    else
      var last := roles[|roles| - 1];
      KeyItems(key, file, roles[..|roles| - 1]) + (if key in Variants(last) then [V13.Pair(last, key, file)] else [])
  }

  /** A key produces an item for each listed role whose list holds it, and nothing else. */
  lemma {:induction false} KeyItemsSpec(key: string, file: string, roles: seq<Role>, p: Pair)
    ensures p in KeyItems(key, file, roles) <==> p.role in roles && key in Variants(p.role) && p.key == key && p.file == file
  {
    if roles != [] {
      var last := roles[|roles| - 1];
      assert roles == roles[..|roles| - 1] + [last];
      KeyItemsSpec(key, file, roles[..|roles| - 1], p);
    }
  }

  /** The items `for texture in getMat: for textureKey, textureValue in …: if texture in textureValue` visits. */
  function Items(keys: seq<string>, files: map<string, seq<string>>): seq<Pair>
    requires V13.Stocked(keys, files)
  {
    if keys == [] then []
    else
      var key := keys[|keys| - 1];
      Items(keys[..|keys| - 1], files) + KeyItems(key, files[key][0], Roles)
  }

  /** One more key visits that key's items after the earlier ones'. */
  lemma ItemsNext(keys: seq<string>, files: map<string, seq<string>>, i: nat)
    requires V13.Stocked(keys, files) && i < |keys|
    ensures V13.Stocked(keys[..i], files) && V13.Stocked(keys[..i + 1], files)
    ensures Items(keys[..i + 1], files) == Items(keys[..i], files) + KeyItems(keys[i], files[keys[i]][0], Roles)
  {
    assert keys[..i + 1][..i] == keys[..i];
    assert forall k :: k in keys[..i + 1] ==> k in keys;
  }

  /**
   * An item is visited exactly for a key of the set and a role whose list
   * contains that key verbatim; its file is the key's first.
   */
  lemma {:induction false} ItemsSpec(keys: seq<string>, files: map<string, seq<string>>, p: Pair)
    requires V13.Stocked(keys, files)
    ensures p in Items(keys, files) <==> p.key in keys && p.key in Variants(p.role) && p.file == files[p.key][0]
  {
    AllRoles();
    if keys != [] {
      var pre, key := keys[..|keys| - 1], keys[|keys| - 1];
      assert keys == pre + [key];
      ItemsSpec(pre, files, p);
      KeyItemsSpec(key, files[key][0], Roles, p);
    }
  }

  lemma TranslucencyListed(r: Role)
    ensures "translucency" in Variants(r) <==> r == SSS
  {
    assert "translucency"[5] == 'l' && "translucency"[0] == 't';
  }

  /** `translucency` is visited once, as SSS (v1.3 also routes it to transmission). */
  lemma TranslucencyOnlySss(files: map<string, seq<string>>)
    requires "translucency" in files && |files["translucency"]| > 0
    ensures forall p :: p in Items(["translucency"], files) <==> p == V13.Pair(SSS, "translucency", files["translucency"][0])
  {
    forall p
      ensures p in Items(["translucency"], files) <==> p == V13.Pair(SSS, "translucency", files["translucency"][0])
    {
      ItemsSpec(["translucency"], files, p);
      TranslucencyListed(p.role);
    }
  }

  lemma CavityListed(r: Role)
    ensures "cavity" !in Variants(r)
  {
    assert "cavity"[0] == 'c' && "cavity"[1] == 'a';
  }

  /** `cavity` is in no role's list: it produces no node at all. */
  lemma CavityNothing(files: map<string, seq<string>>)
    requires "cavity" in files && |files["cavity"]| > 0
    ensures Items(["cavity"], files) == []
  {
    var ps := Items(["cavity"], files);
    if ps != [] {
      ItemsSpec(["cavity"], files, ps[0]);
      CavityListed(ps[0].role);
    }
  }

  lemma HeightmapListed(r: Role)
    ensures "heightmap" in Variants(r) <==> r == Disp
  {
    assert "heightmap"[0] == 'h' && "heightmap"[6] == 'm';
  }

  /** `heightmap` is visited once, as displacement (v1.3 also treats it as a bump). */
  lemma HeightmapOnlyDisp(files: map<string, seq<string>>)
    requires "heightmap" in files && |files["heightmap"]| > 0
    ensures forall p :: p in Items(["heightmap"], files) <==> p == V13.Pair(Disp, "heightmap", files["heightmap"][0])
  {
    forall p
      ensures p in Items(["heightmap"], files) <==> p == V13.Pair(Disp, "heightmap", files["heightmap"][0])
    {
      ItemsSpec(["heightmap"], files, p);
      HeightmapListed(p.role);
    }
  }

  // ---------------------------------------------------------------------
  // One visited item, as the network calls of the loop body
  // ---------------------------------------------------------------------

  /**
   * What the loop body refers to: the shader and displacement nodes, the
   * place2d node (only created, and only used, when the set is not UDIM),
   * and the settings that shape file paths.
   */
  datatype Ctx = Ctx(surf: nat, disp: nat, place2d: nat, udim: bool, tx: bool, job: string, folder: string)

  /** The repeated `if getMat['UDIM'] == False: texMain.setInput(2, textPlace2D)`. */
  function Hook(g: Net, c: Ctx, img: nat): Net {
    if c.udim then g else Connect(g, img, Index(2), c.place2d)
  }

  function Colorspace(g: Net, img: nat, signature: string, colorspace: string): Net {
    WithParm(WithParm(g, img, "signature", Str(signature)), img, "filecolorspace", Str(colorspace))
  }

  /** The `texturesColor` block: a range `<key>_CC` reads the image and feeds `base_color`. */
  function ColorSection(g: Net, c: Ctx, key: string, img: nat): Net {
    var range := g.next;
    var g1 := Connect(Create(g, "mtlxrange", key + "_CC"), range, Index(0), img);
    var g2 := Connect(g1, c.surf, Named("base_color"), range);
    Hook(WithParm(g2, img, "filecolorspace", Str("srgb_texture")), c, img)
  }

  /** The `texturesExtra` block: colour data and a `separateUser` node reading the image. */
  function ExtraSection(g: Net, c: Ctx, img: nat): Net {
    var g1 := Colorspace(g, img, "color3", "srgb_texture");
    var sep := g1.next;
    Hook(Connect(Create(g1, "mtlxseparate3c", "separateUser"), sep, Index(0), img), c, img)
  }

  /**
   * The first chain of `if textureKey == …` blocks: the image's data type
   * and colour space, the place2d hook, and the Color and Extra side nodes.
   * A Bump image passes both the float block and its own block.
   */
  function Prepare(g: Net, c: Ctx, p: Pair, img: nat): Net {
    match p.role
    case Color => ColorSection(g, c, p.key, img)
    case SSS => Hook(Colorspace(g, img, "color3", "srgb_texture"), c, img)
    case Extra => ExtraSection(g, c, img)
    case Normal => Hook(Colorspace(g, img, "vector3", "Raw"), c, img)
    case Bump => Hook(Colorspace(Hook(Colorspace(g, img, "float", "Raw"), c, img), img, "float", "Raw"), c, img)
    case _ => Hook(Colorspace(g, img, "float", "Raw"), c, img)
  }

  /** A range `<key>_CC` reading the image and feeding `specular_roughness`; inverted for Gloss. */
  function RoughSection(g: Net, c: Ctx, key: string, img: nat, invert: bool): Net {
    var range := g.next;
    var g1 := Connect(Create(g, "mtlxrange", key + "_CC"), range, Index(0), img);
    var g2 := if invert then WithParm(WithParm(g1, range, "outlow", Num(1)), range, "outhigh", Num(0)) else g1;
    Connect(g2, c.surf, Named("specular_roughness"), range)
  }

  /** The second chain of `if textureKey == …` blocks: where the texture is plugged in. */
  function Route(g: Net, c: Ctx, p: Pair, img: nat): Net {
    match p.role
    case Metal => Connect(g, c.surf, Named("metalness"), img)
    case Specular => Connect(g, c.surf, Named("specular"), img)
    case Rough => RoughSection(g, c, p.key, img, false)
    case Gloss => RoughSection(g, c, p.key, img, true)
    case Trans => Connect(g, c.surf, Named("transmission"), img)
    case Emm => Connect(g, c.surf, Named("emission"), img)
    case Alpha => Connect(g, c.surf, Named("opacity"), img)
    case AO =>
      var mix := g.next;
      Connect(Create(g, "mtlxmix", p.key + "_AO"), mix, Index(2), img)
    case Disp => Connect(g, c.disp, Index(0), img)
    case SSS => WithParm(Connect(g, c.surf, Named("subsurface_color"), img), c.surf, "subsurface", Num(1))
    case _ => g
  }

  /** The path the loop body writes into the image's `file` parameter. */
  function ItemPath(c: Ctx, p: Pair): string {
    TexturePath12(c.folder, p.file, c.udim, c.tx, c.job)
  }

  /** One pass of the loop body: the image (first typed `color3`), both chains, then its file. */
  function ImageStep(g: Net, c: Ctx, p: Pair): Net {
    var img := g.next;
    var g1 := WithParm(Create(g, V13.ImageKind(c.udim), p.key), img, "signature", Str("color3"));
    var g2 := Route(Prepare(g1, c, p, img), c, p, img);
    WithParm(g2, img, "file", Str(ItemPath(c, p)))
  }

  /** The network so far, with the image last recorded in `bumpNormal['bump']` and `['normal']`. */
  datatype Build = Build(net: Net, bump: Option<nat>, normal: Option<nat>)

  function Step(b: Build, c: Ctx, p: Pair): Build {
    Build(ImageStep(b.net, c, p),
          if p.role == Bump then Some(b.net.next) else b.bump,
          if p.role == Normal then Some(b.net.next) else b.normal)
  }

  /** The whole main loop over the visited items. */
  function Steps(b: Build, c: Ctx, ps: seq<Pair>): Build {
    if ps == [] then b else Step(Steps(b, c, ps[..|ps| - 1]), c, ps[|ps| - 1])
  }

  /** The loop over one more item is one more step. */
  lemma StepsSnoc(b: Build, c: Ctx, ps: seq<Pair>, p: Pair)
    ensures Steps(b, c, ps + [p]) == Step(Steps(b, c, ps), c, p)
  {
    assert (ps + [p])[..|ps|] == ps;
  }

  /** The inner loop's body for one role: a step exactly when the role's list holds the key. */
  function Visit(b: Build, c: Ctx, key: string, file: string, role: Role): Build {
    if key in Variants(role) then Step(b, c, V13.Pair(role, key, file)) else b
  }

  /** One more role of the inner loop is one more visit. */
  lemma VisitRoleStep(b: Build, c: Ctx, key: string, file: string, j: nat)
    requires j < |Roles|
    ensures Steps(b, c, KeyItems(key, file, Roles[..j + 1])) == Visit(Steps(b, c, KeyItems(key, file, Roles[..j])), c, key, file, Roles[j])
  {
    KeyItemsSnoc(key, file, j);
    VisitSteps(b, c, KeyItems(key, file, Roles[..j]), KeyItems(key, file, Roles[..j + 1]), key, file, Roles[j]);
  }

  lemma VisitSteps(b: Build, c: Ctx, ks: seq<Pair>, ks1: seq<Pair>, key: string, file: string, role: Role)
    requires ks1 == ks + (if key in Variants(role) then [V13.Pair(role, key, file)] else [])
    ensures Steps(b, c, ks1) == Visit(Steps(b, c, ks), c, key, file, role)
  {
    if key in Variants(role) {
      StepsSnoc(b, c, ks, V13.Pair(role, key, file));
    } else {
      assert ks1 == ks;
    }
  }

  lemma KeyItemsSnoc(key: string, file: string, j: nat)
    requires j < |Roles|
    ensures KeyItems(key, file, Roles[..j + 1]) ==
      KeyItems(key, file, Roles[..j]) + (if key in Variants(Roles[j]) then [V13.Pair(Roles[j], key, file)] else [])
  {
    assert Roles[..j + 1][..j] == Roles[..j];
  }

  /** Running the loop over two stretches of items, one after the other. */
  lemma {:induction false} StepsConcat(b: Build, c: Ctx, xs: seq<Pair>, ys: seq<Pair>)
    ensures Steps(b, c, xs + ys) == Steps(Steps(b, c, xs), c, ys)
  {
    if ys == [] {
      assert xs + ys == xs;
    } else {
      var init := ys[..|ys| - 1];
      assert (xs + ys)[..|xs + ys| - 1] == xs + init;
      StepsConcat(b, c, xs, init);
    }
  }

  // ---------------------------------------------------------------------
  // The bump and normal maps
  // ---------------------------------------------------------------------

  /** The image file written again for a bump or normal image, without the `$JOB` step. */
  function MapPath(c: Ctx, files: map<string, seq<string>>, key: string): string
    requires key in files && |files[key]| > 0
  {
    BumpNormalPath12(c.folder, files[key][0], c.udim, c.tx)
  }

  /**
   * The tail of `myfunc`: `bumpName` and `normalName` are the last keys in
   * the Bump and Normal lists; `mtlxBump` reads the bump image and takes the
   * shader's `normal` input, `mtxlNormal` reads the normal image and feeds
   * input 3 of `mtlxBump` when both exist, and the images' files are set
   * again.
   */
  function BumpNormal(b: Build, c: Ctx, keys: seq<string>, files: map<string, seq<string>>): Net
    requires V13.Stocked(keys, files)
    requires V13.LastListed(keys, Variants(Bump)).Some? ==> b.bump.Some?
    requires V13.LastListed(keys, Variants(Normal)).Some? ==> b.normal.Some?
  {
    var bumpName, normalName := V13.LastListed(keys, Variants(Bump)), V13.LastListed(keys, Variants(Normal));
    if bumpName.Some? && normalName.Some? then
      BothMaps(b.net, c, b.bump.value, b.normal.value, MapPath(c, files, bumpName.value), MapPath(c, files, normalName.value))
    else if bumpName.Some? then
      OneMap(b.net, c, "mtlxbump", "mtlxBump", b.bump.value, MapPath(c, files, bumpName.value))
    else if normalName.Some? then
      OneMap(b.net, c, "mtlxnormalmap", "mtxlNormal", b.normal.value, MapPath(c, files, normalName.value))
    else b.net
  }

  /** Lines 619-640: a bump node fed by the bump image drives the shader's normal, with a normal map on its input 3. */
  function BothMaps(g: Net, c: Ctx, bump: nat, normal: nat, bumpPath: string, normalPath: string): Net {
    WithParm(WithParm(BothNodes(g, c, bump, normal), bump, "file", Str(bumpPath)), normal, "file", Str(normalPath))
  }

  /** The two nodes of the two-map branch and their four connections, before the files are set. */
  function BothNodes(g: Net, c: Ctx, bump: nat, normal: nat): Net {
    var n := g.next;
    var g1 := Connect(Create(g, "mtlxbump", "mtlxBump"), n, Index(0), bump);
    var g2 := Connect(g1, c.surf, Named("normal"), n);
    var g3 := Connect(Create(g2, "mtlxnormalmap", "mtxlNormal"), n + 1, Index(0), normal);
    Connect(g3, n, Index(3), n + 1)
  }

  /** Lines 642-670: a single bump or normal-map node, fed by its image, drives the shader's normal. */
  function OneMap(g: Net, c: Ctx, kind: string, name: string, img: nat, path: string): Net {
    var n := g.next;
    var g1 := Connect(Create(g, kind, name), n, Index(0), img);
    var g2 := Connect(g1, c.surf, Named("normal"), n);
    WithParm(g2, img, "file", Str(path))
  }

  // ---------------------------------------------------------------------
  // The skeleton: outputs, shader, displacement and the place2d chain
  // ---------------------------------------------------------------------

  /** A subnet connector exporting a `parmname` output. */
  function Connector(name: string, parmname: string, caption: string): Node {
    Node("subnetconnector", name,
         map["connectorkind" := Str("output"), "parmname" := Str(parmname),
             "parmlabel" := Str(caption), "parmtype" := Str(parmname)])
  }

  function CreateConnector(g: Net, name: string, parmname: string, caption: string): Net {
    var id := g.next;
    var g1 := WithParm(Create(g, "subnetconnector", name), id, "connectorkind", Str("output"));
    var g2 := WithParm(WithParm(g1, id, "parmname", Str(parmname)), id, "parmlabel", Str(caption));
    WithParm(g2, id, "parmtype", Str(parmname))
  }

  /** The two connectors (the first spelled `surface_ouput`), the shader and the displacement node. */
  function MainNodes(g: Net): Net {
    var n := g.next;
    var g1 := CreateConnector(CreateConnector(g, "surface_ouput", "surface", "Surface"), "displacement_output", "displacement", "Displacement");
    var g2 := Create(Create(g1, "mtlxstandard_surface", "mtlxSurface"), "mtlxdisplacement", "mtlxDisp");
    Connect(Connect(g2, n, Index(0), n + 2), n + 1, Index(0), n + 3)
  }

  /** The place2d chain built when `UDIM` is false. */
  function Place2d(g: Net, material: string): Net {
    var coord := g.next;
    var place := coord + 4;
    var g3 := WithParm(Place2dNodes(g, material), coord + 1, "value", Num(1));
    var g4 := Connect(Connect(g3, place, Index(0), coord), place, Index(2), coord + 1);
    Connect(Connect(g4, place, Index(3), coord + 2), place, Index(4), coord + 3)
  }

  /** The five nodes of the place2d chain, created in this order. */
  function Place2dNodes(g: Net, material: string): Net {
    var g1 := Create(Create(g, "mtlxtexcoord", material + "_texcoord"), "mtlxconstant", material + "_scale");
    Create(Create(Create(g1, "mtlxconstant", material + "_rotate"), "mtlxconstant", material + "_offset"), "mtlxplace2d", material + "_place2d")
  }

  function Skeleton(g: Net, material: string, udim: bool): Net {
    var g1 := MainNodes(g);
    if udim then g1 else Place2d(g1, material)
  }

  /** Shader third, displacement fourth, place2d (if any) last of the skeleton. */
  function MaterialCtx(g: Net, e: TextureSet, tx: bool, job: string, folder: string): Ctx {
    Ctx(g.next + 2, g.next + 3, g.next + 8, e.udim, tx, job, folder)
  }

  // ---------------------------------------------------------------------
  // What one pass of the loop body leaves behind
  // ---------------------------------------------------------------------

  /**
   * The data type and colour space an image ends up with: colour data in
   * `srgb_texture` for Color, SSS and Extra, `vector3` for Normal, and
   * `float` in `Raw` for every other role.
   */
  function ImageSettings12(role: Role): (r: (string, string))
    ensures r.0 == "color3" <==> role == Color || role == SSS || role == Extra
    ensures r.0 == "vector3" <==> role == Normal
    ensures r.0 == "float" <==> !(role == Color || role == SSS || role == Extra || role == Normal)
    ensures r.1 == (if r.0 == "color3" then "srgb_texture" else "Raw")
  {
    match role
    case Color => ("color3", "srgb_texture")
    case SSS => ("color3", "srgb_texture")
    case Extra => ("color3", "srgb_texture")
    case Normal => ("vector3", "Raw")
    case _ => ("float", "Raw")
  }

  /** The image node the loop body leaves for an item. */
  function ImageNode(c: Ctx, p: Pair): Node {
    var settings := ImageSettings12(p.role);
    Node(V13.ImageKind(c.udim), p.key,
         map["signature" := Str(settings.0), "filecolorspace" := Str(settings.1), "file" := Str(ItemPath(c, p))])
  }

  /** The nodes the context refers to were created before. */
  predicate Before(c: Ctx, g: Net) {
    c.surf < g.next && c.disp < g.next && (!c.udim ==> c.place2d < g.next)
  }

  /**
   * Each pass creates its image under the next identifier, typed by the
   * role as `ImageSettings12` says and pointed at the item's file, whatever
   * `signature` and `filecolorspace` values the two chains wrote in between.
   */
  lemma ImageStepNode(g: Net, c: Ctx, p: Pair)
    requires Before(c, g)
    ensures var r := ImageStep(g, c, p); g.next in r.nodes && r.nodes[g.next] == ImageNode(c, p)
  {
    var img := g.next;
    var g1 := WithParm(Create(g, V13.ImageKind(c.udim), p.key), img, "signature", Str("color3"));
    var g2 := Prepare(g1, c, p, img);
    PrepareNode(g1, c, p, img);
    RouteNode(g2, c, p, img);
  }

  /** The first chain leaves the image typed as `ImageSettings12` says, and nothing else of it changed. */
  lemma PrepareNode(g: Net, c: Ctx, p: Pair, img: nat)
    requires img in g.nodes && img < g.next && img != c.surf && g.nodes[img].parms == map["signature" := Str("color3")]
    ensures var r := Prepare(g, c, p, img); var s := ImageSettings12(p.role);
      && img in r.nodes && r.nodes[img].kind == g.nodes[img].kind && r.nodes[img].name == g.nodes[img].name
      && r.nodes[img].parms == map["signature" := Str(s.0), "filecolorspace" := Str(s.1)]
  {
    var s := ImageSettings12(p.role);
    if p.role == Color {
      assert map["signature" := Str("color3")]["filecolorspace" := Str("srgb_texture")]
          == map["signature" := Str("color3"), "filecolorspace" := Str("srgb_texture")];
    } else {
      Retyped(s.0, s.1);
    }
  }

  /** Writing both settings over an image created as `color3`. */
  lemma Retyped(signature: string, colorspace: string)
    ensures var m := map["signature" := Str(signature), "filecolorspace" := Str(colorspace)];
      && map["signature" := Str("color3")]["signature" := Str(signature)]["filecolorspace" := Str(colorspace)] == m
      && m["signature" := Str(signature)]["filecolorspace" := Str(colorspace)] == m
  {
  }

  /** The second chain never touches the image's own node. */
  lemma RouteNode(g: Net, c: Ctx, p: Pair, img: nat)
    requires img in g.nodes && img != c.surf && img < g.next
    ensures var r := Route(g, c, p, img); img in r.nodes && r.nodes[img] == g.nodes[img]
  {
  }

  /**
   * `h` extends `g`: old nodes keep type and name, and their parameters
   * unless they are the shader or an image; identifiers stay below `next`;
   * connections into old nodes change only at `ports`.
   */
  predicate Extends(g: Net, h: Net, c: Ctx, ports: set<(nat, Slot)>) {
    && h.next >= g.next
    && V13.Numbered(h)
    && (forall id :: id in g.nodes ==> id in h.nodes && h.nodes[id].kind == g.nodes[id].kind && h.nodes[id].name == g.nodes[id].name)
    && (forall id :: id in g.nodes && id != c.surf && g.nodes[id].kind != V13.ImageKind(c.udim) ==> h.nodes[id].parms == g.nodes[id].parms)
    && V13.OldWiresKept(g, h, ports)
  }

  lemma ExtendsTrans(g: Net, h: Net, k: Net, c: Ctx, p: set<(nat, Slot)>, q: set<(nat, Slot)>)
    requires Extends(g, h, c, p) && Extends(h, k, c, q)
    ensures Extends(g, k, c, p + q)
  {
  }

  /** Ports on nodes created since `g` can be forgotten. */
  lemma ExtendsDrop(g: Net, h: Net, c: Ctx, p: set<(nat, Slot)>, q: set<(nat, Slot)>)
    requires V13.Numbered(g) && Extends(g, h, c, p)
    requires forall w :: w in p ==> w in q || w.0 >= g.next
    ensures Extends(g, h, c, q)
  {
  }

  lemma ExtendsSame(g: Net, c: Ctx)
    requires V13.Numbered(g)
    ensures Extends(g, g, c, {})
  {
  }

  /** An image (or the shader) changing a parameter. */
  predicate IsImage(g: Net, c: Ctx, img: nat) {
    img in g.nodes && g.nodes[img].kind == V13.ImageKind(c.udim)
  }

  lemma HookExtends(g: Net, c: Ctx, img: nat)
    requires V13.Numbered(g) && img < g.next
    ensures Extends(g, Hook(g, c, img), c, {(img, Index(2))})
  {
  }

  lemma ColorspaceExtends(g: Net, c: Ctx, img: nat, signature: string, colorspace: string)
    requires V13.Numbered(g) && IsImage(g, c, img)
    ensures Extends(g, Colorspace(g, img, signature, colorspace), c, {})
    ensures IsImage(Colorspace(g, img, signature, colorspace), c, img)
  {
  }

  /** The colour space, then the place2d hook. */
  lemma TypedExtends(g: Net, c: Ctx, img: nat, signature: string, colorspace: string)
    requires V13.Numbered(g) && IsImage(g, c, img)
    ensures Extends(g, Hook(Colorspace(g, img, signature, colorspace), c, img), c, {(img, Index(2))})
    ensures IsImage(Hook(Colorspace(g, img, signature, colorspace), c, img), c, img)
  {
    var g1 := Colorspace(g, img, signature, colorspace);
    ColorspaceExtends(g, c, img, signature, colorspace);
    HookExtends(g1, c, img);
    ExtendsTrans(g, g1, Hook(g1, c, img), c, {}, {(img, Index(2))});
    assert {} + {(img, Index(2))} == {(img, Index(2))};
  }

  /** A new node reading an image (a range, a separate) only extends the network. */
  lemma ReaderExtends(g: Net, c: Ctx, kind: string, name: string, img: nat)
    requires V13.Numbered(g) && IsImage(g, c, img)
    ensures Extends(g, Connect(Create(g, kind, name), g.next, Index(0), img), c, {})
    ensures IsImage(Connect(Create(g, kind, name), g.next, Index(0), img), c, img)
  {
  }

  lemma ColorSectionExtends(g: Net, c: Ctx, key: string, img: nat)
    requires V13.Numbered(g) && IsImage(g, c, img) && Before(c, g)
    ensures Extends(g, ColorSection(g, c, key, img), c, {(img, Index(2)), (c.surf, Named("base_color"))})
    ensures IsImage(ColorSection(g, c, key, img), c, img)
  {
    var g1 := Connect(Create(g, "mtlxrange", key + "_CC"), g.next, Index(0), img);
    var g2 := Connect(g1, c.surf, Named("base_color"), g.next);
    ReaderExtends(g, c, "mtlxrange", key + "_CC", img);
    ConnectExtends(g1, c, c.surf, Named("base_color"), g.next);
    ParmExtends(g2, c, img, "filecolorspace", Str("srgb_texture"));
    HookExtends(WithParm(g2, img, "filecolorspace", Str("srgb_texture")), c, img);
  }

  lemma ExtraSectionExtends(g: Net, c: Ctx, img: nat)
    requires V13.Numbered(g) && IsImage(g, c, img)
    ensures Extends(g, ExtraSection(g, c, img), c, {(img, Index(2))})
    ensures IsImage(ExtraSection(g, c, img), c, img)
  {
    var g1 := Colorspace(g, img, "color3", "srgb_texture");
    ColorspaceExtends(g, c, img, "color3", "srgb_texture");
    ReaderExtends(g1, c, "mtlxseparate3c", "separateUser", img);
    HookExtends(Connect(Create(g1, "mtlxseparate3c", "separateUser"), g1.next, Index(0), img), c, img);
  }

  /** The connections into old nodes the first chain may change. */
  function PreparePorts(c: Ctx, p: Pair, img: nat): set<(nat, Slot)> {
    if p.role == Color then {(img, Index(2)), (c.surf, Named("base_color"))} else {(img, Index(2))}
  }

  lemma PrepareExtends(g: Net, c: Ctx, p: Pair, img: nat)
    requires V13.Numbered(g) && IsImage(g, c, img) && Before(c, g)
    ensures Extends(g, Prepare(g, c, p, img), c, PreparePorts(c, p, img))
    ensures IsImage(Prepare(g, c, p, img), c, img)
  {
    if p.role == Color {
      assert Prepare(g, c, p, img) == ColorSection(g, c, p.key, img);
      ColorSectionExtends(g, c, p.key, img);
    } else {
      assert PreparePorts(c, p, img) == {(img, Index(2))};
      if p.role == Extra {
        assert Prepare(g, c, p, img) == ExtraSection(g, c, img);
        ExtraSectionExtends(g, c, img);
      } else if p.role == Bump {
        assert Prepare(g, c, p, img) == Hook(Colorspace(Hook(Colorspace(g, img, "float", "Raw"), c, img), img, "float", "Raw"), c, img);
        TwiceTypedExtends(g, c, img);
      } else {
        TypedPrepareExtends(g, c, p, img);
      }
    }
  }

  /** The roles whose image the first chain only types and hooks up, once. */
  lemma TypedPrepareExtends(g: Net, c: Ctx, p: Pair, img: nat)
    requires V13.Numbered(g) && IsImage(g, c, img) && Before(c, g) && p.role !in {Color, Extra, Bump}
    ensures Extends(g, Prepare(g, c, p, img), c, {(img, Index(2))})
    ensures IsImage(Prepare(g, c, p, img), c, img)
  {
    var (sig, space) := PrepareTyping(p.role);
    assert Prepare(g, c, p, img) == Hook(Colorspace(g, img, sig, space), c, img);
    TypedExtends(g, c, img, sig, space);
  }

  /** The signature and colour space the first chain gives a role's image when it is only typed and hooked up. */
  function PrepareTyping(role: Role): (string, string) {
    if role == SSS then ("color3", "srgb_texture")
    else if role == Normal then ("vector3", "Raw")
    else ("float", "Raw")
  }

  /** The bump image is typed and hooked up twice. */
  lemma TwiceTypedExtends(g: Net, c: Ctx, img: nat)
    requires V13.Numbered(g) && IsImage(g, c, img) && Before(c, g)
    ensures Extends(g, Hook(Colorspace(Hook(Colorspace(g, img, "float", "Raw"), c, img), img, "float", "Raw"), c, img), c, {(img, Index(2))})
    ensures IsImage(Hook(Colorspace(Hook(Colorspace(g, img, "float", "Raw"), c, img), img, "float", "Raw"), c, img), c, img)
  {
    var g1 := Hook(Colorspace(g, img, "float", "Raw"), c, img);
    TypedExtends(g, c, img, "float", "Raw");
    TypedExtends(g1, c, img, "float", "Raw");
    ExtendsTrans(g, g1, Hook(Colorspace(g1, img, "float", "Raw"), c, img), c, {(img, Index(2))}, {(img, Index(2))});
  }

  /** Where a role's texture ends up: the same shader input (or displacement input) as in v1.3. */
  function PortKey(c: Ctx, port: V13.Port): (nat, Slot) {
    match port
    case Surface(input) => (c.surf, Named(input))
    case Displacement => (c.disp, Index(0))
  }

  function PortsOf(c: Ctx, p: Pair): set<(nat, Slot)> {
    match V13.Feeds(p.role)
    case None => {}
    case Some(port) => {PortKey(c, port)}
  }

  /** The connections into old nodes the second chain may change. */
  function RoutePorts(c: Ctx, p: Pair): set<(nat, Slot)> {
    match p.role
    case Metal => {(c.surf, Named("metalness"))}
    case Specular => {(c.surf, Named("specular"))}
    case Rough => {(c.surf, Named("specular_roughness"))}
    case Gloss => {(c.surf, Named("specular_roughness"))}
    case Trans => {(c.surf, Named("transmission"))}
    case Emm => {(c.surf, Named("emission"))}
    case Alpha => {(c.surf, Named("opacity"))}
    case Disp => {(c.disp, Index(0))}
    case SSS => {(c.surf, Named("subsurface_color"))}
    case _ => {}
  }

  /** Both chains together change exactly the item's port, apart from the image's own hook. */
  lemma StepPortsDrop(c: Ctx, p: Pair, img: nat)
    ensures forall w :: w in PreparePorts(c, p, img) + RoutePorts(c, p) ==> w in PortsOf(c, p) || w.0 == img
  {
  }

  lemma RoughSectionExtends(g: Net, c: Ctx, key: string, img: nat, invert: bool)
    requires V13.Numbered(g) && Before(c, g)
    ensures Extends(g, RoughSection(g, c, key, img, invert), c, {(c.surf, Named("specular_roughness"))})
  {
  }

  lemma RouteExtends(g: Net, c: Ctx, p: Pair, img: nat)
    requires V13.Numbered(g) && IsImage(g, c, img) && Before(c, g)
    ensures Extends(g, Route(g, c, p, img), c, RoutePorts(c, p))
    ensures IsImage(Route(g, c, p, img), c, img)
  {
    match p.role
    case Metal => ConnectExtends(g, c, c.surf, Named("metalness"), img);
    case Specular => ConnectExtends(g, c, c.surf, Named("specular"), img);
    case Rough => RoughSectionExtends(g, c, p.key, img, false);
    case Gloss => RoughSectionExtends(g, c, p.key, img, true);
    case Trans => ConnectExtends(g, c, c.surf, Named("transmission"), img);
    case Emm => ConnectExtends(g, c, c.surf, Named("emission"), img);
    case Alpha => ConnectExtends(g, c, c.surf, Named("opacity"), img);
    case AO => MixExtends(g, c, p.key, img);
    case Disp => ConnectExtends(g, c, c.disp, Index(0), img);
    case SSS => SubsurfaceExtends(g, c, img);
    case _ => ExtendsSame(g, c);
  }

  lemma ConnectExtends(g: Net, c: Ctx, consumer: nat, slot: Slot, producer: nat)
    requires V13.Numbered(g) && consumer < g.next
    ensures Extends(g, Connect(g, consumer, slot, producer), c, {(consumer, slot)})
    ensures forall id :: IsImage(g, c, id) ==> IsImage(Connect(g, consumer, slot, producer), c, id)
  {
  }

  lemma MixExtends(g: Net, c: Ctx, key: string, img: nat)
    requires V13.Numbered(g)
    ensures Extends(g, Connect(Create(g, "mtlxmix", key + "_AO"), g.next, Index(2), img), c, {})
    ensures forall id :: IsImage(g, c, id) ==> IsImage(Connect(Create(g, "mtlxmix", key + "_AO"), g.next, Index(2), img), c, id)
  {
  }

  lemma SubsurfaceExtends(g: Net, c: Ctx, img: nat)
    requires V13.Numbered(g) && Before(c, g) && IsImage(g, c, img)
    ensures var r := WithParm(Connect(g, c.surf, Named("subsurface_color"), img), c.surf, "subsurface", Num(1));
      Extends(g, r, c, {(c.surf, Named("subsurface_color"))}) && IsImage(r, c, img)
  {
  }

  lemma ParmExtends(g: Net, c: Ctx, img: nat, key: string, v: Value)
    requires V13.Numbered(g) && IsImage(g, c, img)
    ensures Extends(g, WithParm(g, img, key, v), c, {})
  {
  }

  /**
   * One pass of the loop body only extends the network: old nodes keep
   * their type and name, and old connections change only on the item's port.
   */
  lemma StepExtends(g: Net, c: Ctx, p: Pair)
    requires V13.Numbered(g) && Before(c, g)
    ensures Extends(g, ImageStep(g, c, p), c, PortsOf(c, p))
  {
    var img := g.next;
    var g1 := WithParm(Create(g, V13.ImageKind(c.udim), p.key), img, "signature", Str("color3"));
    var g2 := Prepare(g1, c, p, img);
    var prep, route := PreparePorts(c, p, img), RoutePorts(c, p);
    PreparedExtends(g, c, p);
    RoutedExtends(g2, c, p, img, ItemPath(c, p));
    ExtendsTrans(g, g2, ImageStep(g, c, p), c, prep, route);
    StepPortsDrop(c, p, img);
    ExtendsDrop(g, ImageStep(g, c, p), c, prep + route, PortsOf(c, p));
  }

  /** The new image, typed and prepared by the first chain. */
  lemma PreparedExtends(g: Net, c: Ctx, p: Pair)
    requires V13.Numbered(g) && Before(c, g)
    ensures var img := g.next;
      var g2 := Prepare(WithParm(Create(g, V13.ImageKind(c.udim), p.key), img, "signature", Str("color3")), c, p, img);
      Extends(g, g2, c, PreparePorts(c, p, img)) && IsImage(g2, c, img) && Before(c, g2)
  {
    var img := g.next;
    var g1 := WithParm(Create(g, V13.ImageKind(c.udim), p.key), img, "signature", Str("color3"));
    NewImageExtends(g, c, p.key);
    PrepareExtends(g1, c, p, img);
    ExtendsTrans(g, g1, Prepare(g1, c, p, img), c, {}, PreparePorts(c, p, img));
    assert {} + PreparePorts(c, p, img) == PreparePorts(c, p, img);
  }

  /** The second chain, then the file name. */
  lemma RoutedExtends(g: Net, c: Ctx, p: Pair, img: nat, path: string)
    requires V13.Numbered(g) && IsImage(g, c, img) && Before(c, g)
    ensures Extends(g, WithParm(Route(g, c, p, img), img, "file", Str(path)), c, RoutePorts(c, p))
  {
    RouteExtends(g, c, p, img);
    ParmExtends(Route(g, c, p, img), c, img, "file", Str(path));
    ExtendsTrans(g, Route(g, c, p, img), WithParm(Route(g, c, p, img), img, "file", Str(path)), c, RoutePorts(c, p), {});
    assert RoutePorts(c, p) + {} == RoutePorts(c, p);
  }

  lemma NewImageExtends(g: Net, c: Ctx, key: string)
    requires V13.Numbered(g) && Before(c, g)
    ensures var g1 := WithParm(Create(g, V13.ImageKind(c.udim), key), g.next, "signature", Str("color3"));
      Extends(g, g1, c, {}) && IsImage(g1, c, g.next) && Before(c, g1)
  {
  }


  // ---------------------------------------------------------------------
  // Which node feeds an item's port
  // ---------------------------------------------------------------------

  /** Color, Rough and Gloss go through a range `<key>_CC`; every other routed role plugs its image in. */
  predicate Ranged(role: Role) {
    role == Color || role == Rough || role == Gloss
  }

  function FeedName(p: Pair): string {
    if Ranged(p.role) then p.key + "_CC" else p.key
  }

  function FeedKind(p: Pair, udim: bool): string {
    if Ranged(p.role) then "mtlxrange" else V13.ImageKind(udim)
  }

  /** A Gloss range maps onto [1, 0], inverting the texture; the other ranges keep their defaults. */
  function RangeParms(role: Role): map<string, Value> {
    if role == Gloss then map["outlow" := Num(1), "outhigh" := Num(0)] else map[]
  }

  /** Connection `k` comes from the node the item `p` feeds its port with. */
  predicate FedBy(r: Net, k: (nat, Slot), p: Pair, udim: bool) {
    && k in r.wires && r.wires[k] in r.nodes
    && r.nodes[r.wires[k]].name == FeedName(p) && r.nodes[r.wires[k]].kind == FeedKind(p, udim)
    && (Ranged(p.role) ==> r.nodes[r.wires[k]].parms == RangeParms(p.role))
  }

  lemma RangeNotImage(udim: bool)
    ensures "mtlxrange" != V13.ImageKind(udim)
  {
    assert "mtlxrange"[4] == 'r' && V13.ImageKind(udim)[4] != 'r';
  }

  /** A later extension that leaves `k` alone keeps it fed by the same node. */
  lemma KeepFed(h: Net, r: Net, c: Ctx, ports: set<(nat, Slot)>, k: (nat, Slot), p: Pair, lo: nat)
    requires FedBy(h, k, p, c.udim) && Extends(h, r, c, ports) && k !in ports && k.0 < h.next
    requires c.surf < lo <= h.wires[k] < h.next && V13.Numbered(h)
    ensures FedBy(r, k, p, c.udim) && lo <= r.wires[k] < r.next
  {
    RangeNotImage(c.udim);
  }

  lemma ColorFeeds(g: Net, c: Ctx, p: Pair, img: nat)
    requires Before(c, g) && p.role == Color && img < g.next
    ensures var r := ColorSection(g, c, p.key, img);
      && FedBy(r, (c.surf, Named("base_color")), p, c.udim)
      && r.wires[(c.surf, Named("base_color"))] == g.next
  {
  }

  lemma RoughFeeds(g: Net, c: Ctx, p: Pair, img: nat)
    requires Before(c, g) && (p.role == Rough || p.role == Gloss)
    ensures var r := RoughSection(g, c, p.key, img, p.role == Gloss);
      && FedBy(r, (c.surf, Named("specular_roughness")), p, c.udim)
      && r.wires[(c.surf, Named("specular_roughness"))] == g.next
  {
  }

  lemma DirectFeeds(g: Net, c: Ctx, p: Pair, img: nat)
    requires Before(c, g) && IsImage(g, c, img) && g.nodes[img].name == p.key
    requires V13.Feeds(p.role).Some? && !Ranged(p.role)
    ensures var r := Route(g, c, p, img); var k := PortKey(c, V13.Feeds(p.role).value);
      FedBy(r, k, p, c.udim) && r.wires[k] == img
  {
  }

  /**
   * After one pass, the item's port is fed by a node the pass created: the
   * range `<key>_CC` for Color, Rough and Gloss (inverted for Gloss), the
   * image itself for every other routed role.
   */
  lemma StepPort(g: Net, c: Ctx, p: Pair)
    requires V13.Numbered(g) && Before(c, g) && V13.Feeds(p.role).Some?
    ensures var r := ImageStep(g, c, p); var k := PortKey(c, V13.Feeds(p.role).value);
      FedBy(r, k, p, c.udim) && g.next <= r.wires[k] < r.next
  {
    if p.role == Color {
      StepPortColor(g, c, p);
    } else if p.role == Rough || p.role == Gloss {
      StepPortRough(g, c, p);
    } else {
      StepPortDirect(g, c, p);
    }
  }

  lemma StepPortColor(g: Net, c: Ctx, p: Pair)
    requires V13.Numbered(g) && Before(c, g) && p.role == Color
    ensures var r := ImageStep(g, c, p); var k := (c.surf, Named("base_color"));
      FedBy(r, k, p, c.udim) && g.next <= r.wires[k] < r.next
  {
    var img := g.next;
    var k := (c.surf, Named("base_color"));
    var g1 := WithParm(Create(g, V13.ImageKind(c.udim), p.key), img, "signature", Str("color3"));
    var g2 := Prepare(g1, c, p, img);
    var g4 := WithParm(g2, img, "file", Str(ItemPath(c, p)));
    NewImageExtends(g, c, p.key);
    PrepareExtends(g1, c, p, img);
    ParmExtends(g2, c, img, "file", Str(ItemPath(c, p)));
    ColorFeeds(g1, c, p, img);
    KeepFed(g2, g4, c, {}, k, p, g.next);
  }

  lemma StepPortRough(g: Net, c: Ctx, p: Pair)
    requires V13.Numbered(g) && Before(c, g) && (p.role == Rough || p.role == Gloss)
    ensures var r := ImageStep(g, c, p); var k := (c.surf, Named("specular_roughness"));
      FedBy(r, k, p, c.udim) && g.next <= r.wires[k] < r.next
  {
    var img := g.next;
    var k := (c.surf, Named("specular_roughness"));
    var g1 := WithParm(Create(g, V13.ImageKind(c.udim), p.key), img, "signature", Str("color3"));
    var g2 := Prepare(g1, c, p, img);
    var g3 := Route(g2, c, p, img);
    NewImageExtends(g, c, p.key);
    PrepareExtends(g1, c, p, img);
    RouteExtends(g2, c, p, img);
    ParmExtends(g3, c, img, "file", Str(ItemPath(c, p)));
    RoughFeeds(g2, c, p, img);
    KeepFed(g3, WithParm(g3, img, "file", Str(ItemPath(c, p))), c, {}, k, p, g.next);
  }

  lemma StepPortDirect(g: Net, c: Ctx, p: Pair)
    requires V13.Numbered(g) && Before(c, g) && V13.Feeds(p.role).Some? && !Ranged(p.role)
    ensures var r := ImageStep(g, c, p); var k := PortKey(c, V13.Feeds(p.role).value);
      FedBy(r, k, p, c.udim) && g.next <= r.wires[k] < r.next
  {
    var img := g.next;
    var k := PortKey(c, V13.Feeds(p.role).value);
    var g1 := WithParm(Create(g, V13.ImageKind(c.udim), p.key), img, "signature", Str("color3"));
    var g2 := Prepare(g1, c, p, img);
    var g3 := Route(g2, c, p, img);
    NewImageExtends(g, c, p.key);
    PrepareExtends(g1, c, p, img);
    PrepareNode(g1, c, p, img);
    RouteExtends(g2, c, p, img);
    ParmExtends(g3, c, img, "file", Str(ItemPath(c, p)));
    DirectFeeds(g2, c, p, img);
    KeepFed(g3, WithParm(g3, img, "file", Str(ItemPath(c, p))), c, {}, k, p, g.next);
  }

  // ---------------------------------------------------------------------
  // What the whole main loop does
  // ---------------------------------------------------------------------

  function AllPorts(c: Ctx, ps: seq<Pair>): set<(nat, Slot)> {
    if ps == [] then {} else AllPorts(c, ps[..|ps| - 1]) + PortsOf(c, ps[|ps| - 1])
  }

  lemma {:induction false} FoldExtends(b: Build, c: Ctx, ps: seq<Pair>)
    requires V13.Numbered(b.net) && Before(c, b.net)
    ensures Extends(b.net, Steps(b, c, ps).net, c, AllPorts(c, ps))
  {
    if ps == [] {
      ExtendsSame(b.net, c);
    } else {
      var init, p := ps[..|ps| - 1], ps[|ps| - 1];
      FoldExtends(b, c, init);
      var h := Steps(b, c, init);
      StepExtends(h.net, c, p);
      ExtendsTrans(b.net, h.net, ImageStep(h.net, c, p), c, AllPorts(c, init), PortsOf(c, p));
    }
  }

  /** A port no item is routed to keeps its connection, or its lack of one. */
  lemma {:induction false} FoldPortUnrouted(b: Build, c: Ctx, ps: seq<Pair>, port: V13.Port)
    requires V13.Numbered(b.net) && Before(c, b.net) && V13.LastFeeding(ps, port).None?
    ensures var r := Steps(b, c, ps).net; var k := PortKey(c, port);
      (k in r.wires <==> k in b.net.wires) && (k in b.net.wires ==> r.wires[k] == b.net.wires[k])
  {
    if ps != [] {
      var init, p := ps[..|ps| - 1], ps[|ps| - 1];
      FoldPortUnrouted(b, c, init, port);
      FoldExtends(b, c, init);
      var h := Steps(b, c, init);
      StepExtends(h.net, c, p);
      UnroutedKept(h.net, ImageStep(h.net, c, p), c, p, port);
    }
  }

  lemma UnroutedKept(h: Net, r: Net, c: Ctx, p: Pair, port: V13.Port)
    requires Extends(h, r, c, PortsOf(c, p)) && V13.Feeds(p.role) != Some(port) && Before(c, h)
    ensures var k := PortKey(c, port);
      (k in r.wires <==> k in h.wires) && (k in h.wires ==> r.wires[k] == h.wires[k])
  {
    assert PortKey(c, port) !in PortsOf(c, p);
  }

  /** After the loop a port holds what the last pair feeding it left there, or what it held before. */
  lemma FoldPort(b: Build, c: Ctx, ps: seq<Pair>, port: V13.Port)
    requires V13.Numbered(b.net) && Before(c, b.net)
    ensures var r := Steps(b, c, ps).net; var k := PortKey(c, port);
      && (V13.LastFeeding(ps, port).None? ==> (k in r.wires <==> k in b.net.wires))
      && (V13.LastFeeding(ps, port).Some? ==> FedBy(r, k, ps[V13.LastFeeding(ps, port).value], c.udim) && b.net.next <= r.wires[k] < r.next)
  {
    if V13.LastFeeding(ps, port).Some? {
      FoldPortRouted(b, c, ps, port);
    } else {
      FoldPortUnrouted(b, c, ps, port);
    }
  }

  /**
   * A port some item is routed to is fed, after the loop, by a node the
   * loop created for the LAST such item.
   */
  lemma {:induction false} FoldPortRouted(b: Build, c: Ctx, ps: seq<Pair>, port: V13.Port)
    requires V13.Numbered(b.net) && Before(c, b.net) && V13.LastFeeding(ps, port).Some?
    ensures var r := Steps(b, c, ps).net; var k := PortKey(c, port);
      FedBy(r, k, ps[V13.LastFeeding(ps, port).value], c.udim) && b.net.next <= r.wires[k] < r.next
  {
    var init, p := ps[..|ps| - 1], ps[|ps| - 1];
    FoldExtends(b, c, init);
    var h := Steps(b, c, init);
    var r := ImageStep(h.net, c, p);
    assert Steps(b, c, ps).net == r;
    if V13.Feeds(p.role) == Some(port) {
      assert V13.LastFeeding(ps, port) == Some(|ps| - 1);
      StepPort(h.net, c, p);
    } else {
      var last := V13.LastFeeding(init, port).value;
      assert V13.LastFeeding(ps, port) == Some(last);
      assert ps[last] == init[last];
      FoldPortRouted(b, c, init, port);
      StepExtends(h.net, c, p);
      OtherPort(c, p, port);
      KeepFed(h.net, r, c, PortsOf(c, p), PortKey(c, port), init[last], b.net.next);
    }
  }

  /** An item that feeds another port leaves this one alone: ports are told apart by node and slot. */
  lemma OtherPort(c: Ctx, p: Pair, port: V13.Port)
    requires V13.Feeds(p.role) != Some(port)
    ensures PortKey(c, port) !in PortsOf(c, p)
  {
    match V13.Feeds(p.role)
    case None =>
    case Some(q) =>
      assert PortsOf(c, p) == {PortKey(c, q)};
      match q
      case Surface(input) =>
      case Displacement =>
  }

  // ---------------------------------------------------------------------
  // The images recorded for the bump and normal maps
  // ---------------------------------------------------------------------

  /** The image recorded for role `m` (Bump or Normal). */
  function Tracked(b: Build, m: Role): Option<nat> {
    if m == Bump then b.bump else b.normal
  }

  /** Index of the last item with role `m`. */
  function LastRole(ps: seq<Pair>, m: Role): (r: Option<nat>)
    ensures r.Some? ==> r.value < |ps| && ps[r.value].role == m
    ensures r.Some? ==> forall i :: r.value < i < |ps| ==> ps[i].role != m
    ensures r.None? ==> forall i :: 0 <= i < |ps| ==> ps[i].role != m
  {
    if ps == [] then None
    else if ps[|ps| - 1].role == m then Some(|ps| - 1)
    else LastRole(ps[..|ps| - 1], m)
  }

  /** An image is recorded for Bump (Normal) once some Bump (Normal) item has been visited. */
  lemma {:induction false} TrackedSome(b: Build, c: Ctx, ps: seq<Pair>, m: Role)
    requires m == Bump || m == Normal
    ensures Tracked(Steps(b, c, ps), m).Some? <==> LastRole(ps, m).Some? || Tracked(b, m).Some?
  {
    if ps != [] {
      TrackedSome(b, c, ps[..|ps| - 1], m);
    }
  }

  /**
   * The image recorded for Bump (Normal) is the one the loop created for the
   * last Bump (Normal) item: an image node named after that item's key.
   */
  lemma {:induction false} FoldTracks(b: Build, c: Ctx, ps: seq<Pair>, m: Role)
    requires V13.Numbered(b.net) && Before(c, b.net) && (m == Bump || m == Normal) && LastRole(ps, m).Some?
    ensures var r := Steps(b, c, ps); var id := Tracked(r, m);
      && id.Some? && b.net.next <= id.value < r.net.next && IsImage(r.net, c, id.value)
      && r.net.nodes[id.value].name == ps[LastRole(ps, m).value].key
  {
    var init, p := ps[..|ps| - 1], ps[|ps| - 1];
    FoldExtends(b, c, init);
    var h := Steps(b, c, init);
    assert Steps(b, c, ps) == Step(h, c, p);
    StepExtends(h.net, c, p);
    if p.role == m {
      assert Tracked(Step(h, c, p), m) == Some(h.net.next);
      ImageStepNode(h.net, c, p);
    } else {
      assert Tracked(Step(h, c, p), m) == Tracked(h, m);
      assert LastRole(ps, m) == LastRole(init, m);
      FoldTracks(b, c, init, m);
    }
  }

  lemma {:induction false} LastRoleConcat(xs: seq<Pair>, ys: seq<Pair>, m: Role)
    ensures LastRole(xs + ys, m) == if LastRole(ys, m).Some? then Some(|xs| + LastRole(ys, m).value) else LastRole(xs, m)
  {
    if ys == [] {
      assert xs + ys == xs;
    } else {
      var init := ys[..|ys| - 1];
      assert (xs + ys)[..|xs + ys| - 1] == xs + init;
      LastRoleConcat(xs, init, m);
    }
  }

  lemma KeyItemsRole(key: string, file: string, m: Role)
    ensures var ks := KeyItems(key, file, Roles);
      && (LastRole(ks, m).Some? <==> key in Variants(m))
      && (LastRole(ks, m).Some? ==> ks[LastRole(ks, m).value].key == key)
  {
    var ks := KeyItems(key, file, Roles);
    AllRoles();
    if key in Variants(m) {
      KeyItemsSpec(key, file, Roles, V13.Pair(m, key, file));
      assert V13.Pair(m, key, file) in ks;
    }
    if LastRole(ks, m).Some? {
      assert ks[LastRole(ks, m).value] in ks;
      KeyItemsSpec(key, file, Roles, ks[LastRole(ks, m).value]);
    }
  }

  /**
   * The last Bump (Normal) item belongs to the last key that is listed
   * verbatim under Bump (Normal): the loop that records images and the
   * later scan for `bumpName` (`normalName`) agree.
   */
  lemma {:induction false} ItemsLastRole(keys: seq<string>, files: map<string, seq<string>>, m: Role)
    requires V13.Stocked(keys, files)
    ensures var ps := Items(keys, files);
      && (LastRole(ps, m).Some? <==> V13.LastListed(keys, Variants(m)).Some?)
      && (LastRole(ps, m).Some? ==> ps[LastRole(ps, m).value].key == V13.LastListed(keys, Variants(m)).value)
  {
    if keys != [] {
      var pre, key := keys[..|keys| - 1], keys[|keys| - 1];
      var ks := KeyItems(key, files[key][0], Roles);
      ItemsLastRole(pre, files, m);
      KeyItemsRole(key, files[key][0], m);
      var listed := key in Variants(m);
      var prev := V13.LastListed(pre, Variants(m));
      assert Items(keys, files) == Items(pre, files) + ks;
      LastListedSnoc(keys, Variants(m));
      ConcatLast(Items(pre, files), ks, m, listed, key, prev);
    }
  }

  lemma LastListedSnoc(keys: seq<string>, names: seq<string>)
    requires keys != []
    ensures V13.LastListed(keys, names) ==
      if keys[|keys| - 1] in names then Some(keys[|keys| - 1]) else V13.LastListed(keys[..|keys| - 1], names)
  {
  }

  lemma ConcatLast(xs: seq<Pair>, ks: seq<Pair>, m: Role, listed: bool, key: string, prev: Option<string>)
    requires (LastRole(xs, m).Some? <==> prev.Some?) && (LastRole(xs, m).Some? ==> xs[LastRole(xs, m).value].key == prev.value)
    requires (LastRole(ks, m).Some? <==> listed) && (LastRole(ks, m).Some? ==> ks[LastRole(ks, m).value].key == key)
    ensures var now := if listed then Some(key) else prev; var ps := xs + ks;
      && (LastRole(ps, m).Some? <==> now.Some?)
      && (LastRole(ps, m).Some? ==> ps[LastRole(ps, m).value].key == now.value)
  {
    LastRoleConcat(xs, ks, m);
    var ps := xs + ks;
    if LastRole(ks, m).Some? {
      assert ps[|xs| + LastRole(ks, m).value] == ks[LastRole(ks, m).value];
    } else if LastRole(ps, m).Some? {
      assert ps[LastRole(ps, m).value] == xs[LastRole(ps, m).value];
    }
  }

  // ---------------------------------------------------------------------
  // The bump and normal maps, proved
  // ---------------------------------------------------------------------

  /** No key is listed under both Bump and Normal. */
  lemma MapListsDisjoint(key: string)
    ensures !(key in Variants(Bump) && key in Variants(Normal))
  {
  }

  /** The lists the bump/normal scan matches against are those of v1.3's `_find_bump_normal_textures`. */
  lemma SameMapKeys()
    ensures Variants(Bump) == V13.BumpKeys && Variants(Normal) == V13.NormalKeys
  {
  }

  /** Node `id` is an image named `key` whose file is `path`. */
  predicate Shows(r: Net, id: nat, c: Ctx, key: string, path: string) {
    && id in r.nodes && r.nodes[id].kind == V13.ImageKind(c.udim) && r.nodes[id].name == key
    && "file" in r.nodes[id].parms && r.nodes[id].parms["file"] == Str(path)
  }

  /** The images recorded for the maps exist and are named after the last listed keys. */
  predicate Recorded(b: Build, c: Ctx, keys: seq<string>) {
    var bumpName, normalName := V13.LastListed(keys, Variants(Bump)), V13.LastListed(keys, Variants(Normal));
    && (b.bump.Some? ==> IsImage(b.net, c, b.bump.value) && b.bump.value < b.net.next)
    && (b.normal.Some? ==> IsImage(b.net, c, b.normal.value) && b.normal.value < b.net.next)
    && (bumpName.Some? ==> b.bump.Some? && b.net.nodes[b.bump.value].name == bumpName.value)
    && (normalName.Some? ==> b.normal.Some? && b.net.nodes[b.normal.value].name == normalName.value)
  }

  /** A new node fed on its first input by `src`. */
  lemma MapNodeShape(g: Net, c: Ctx, kind: string, name: string, src: nat)
    requires V13.Numbered(g)
    ensures var r := Connect(Create(g, kind, name), g.next, Index(0), src);
      && r.next == g.next + 1 && r.nodes == g.nodes[g.next := Node(kind, name, map[])]
      && r.wires == g.wires[(g.next, Index(0)) := src]
      && Extends(g, r, c, {})
      && (forall id :: IsImage(g, c, id) ==> IsImage(r, c, id))
  {
  }

  /** Setting the file of an image named `key`. */
  lemma FileShows(g: Net, c: Ctx, id: nat, key: string, path: string)
    requires IsImage(g, c, id) && g.nodes[id].name == key
    ensures Shows(WithParm(g, id, "file", Str(path)), id, c, key, path)
  {
  }

  /** Setting a parameter of another node keeps what a node shows. */
  lemma OtherParmShows(g: Net, c: Ctx, id: nat, other: nat, key: string, path: string, p: string, v: Value)
    requires Shows(g, id, c, key, path) && other != id
    ensures Shows(WithParm(g, other, p, v), id, c, key, path)
  {
  }

  lemma OneMapShape(g: Net, c: Ctx, kind: string, name: string, img: nat, key: string, path: string)
    requires V13.Numbered(g) && Before(c, g) && IsImage(g, c, img) && img < g.next && g.nodes[img].name == key
    ensures var r := OneMap(g, c, kind, name, img, path); var n := g.next;
      && (c.surf, Named("normal")) in r.wires && r.wires[(c.surf, Named("normal"))] == n
      && n in r.nodes && r.nodes[n] == Node(kind, name, map[])
      && (n, Index(0)) in r.wires && r.wires[(n, Index(0))] == img && Shows(r, img, c, key, path)
      && Extends(g, r, c, {(c.surf, Named("normal"))})
  {
    var n := g.next;
    var g1 := Connect(Create(g, kind, name), n, Index(0), img);
    var g2 := Connect(g1, c.surf, Named("normal"), n);
    MapNodeShape(g, c, kind, name, img);
    ConnectExtends(g1, c, c.surf, Named("normal"), n);
    ParmExtends(g2, c, img, "file", Str(path));
    FileShows(g2, c, img, key, path);
    ExtendsTrans(g, g1, g2, c, {}, {(c.surf, Named("normal"))});
    ExtendsTrans(g, g2, OneMap(g, c, kind, name, img, path), c, {} + {(c.surf, Named("normal"))}, {});
    assert {} + {(c.surf, Named("normal"))} + {} == {(c.surf, Named("normal"))};
  }

  /** Setting a parameter changes no connection and no other node. */
  lemma ParmKeeps(g: Net, id: nat, key: string, v: Value)
    ensures var r := WithParm(g, id, key, v);
      && r.wires == g.wires && r.next == g.next && r.nodes.Keys == g.nodes.Keys
      && (forall i :: i in g.nodes && i != id ==> r.nodes[i] == g.nodes[i])
  {
  }

  lemma BothMapsWires(g: Net, c: Ctx, bump: nat, normal: nat, bumpPath: string, normalPath: string)
    requires bump < g.next && normal < g.next
    ensures var r := BothMaps(g, c, bump, normal, bumpPath, normalPath); var n := g.next;
      && (c.surf, Named("normal")) in r.wires && r.wires[(c.surf, Named("normal"))] == n
      && n in r.nodes && r.nodes[n] == Node("mtlxbump", "mtlxBump", map[])
      && (n, Index(0)) in r.wires && r.wires[(n, Index(0))] == bump
      && (n, Index(3)) in r.wires && r.wires[(n, Index(3))] == n + 1
      && n + 1 in r.nodes && r.nodes[n + 1] == Node("mtlxnormalmap", "mtxlNormal", map[])
      && (n + 1, Index(0)) in r.wires && r.wires[(n + 1, Index(0))] == normal
  {
    var g4 := BothNodes(g, c, bump, normal);
    var g5 := WithParm(g4, bump, "file", Str(bumpPath));
    BothNodesShape(g, c, bump, normal);
    ParmKeeps(g4, bump, "file", Str(bumpPath));
    ParmKeeps(g5, normal, "file", Str(normalPath));
  }

  /** The two-map branch before the files are set: two new nodes and four new connections. */
  lemma BothNodesShape(g: Net, c: Ctx, bump: nat, normal: nat)
    ensures var g4, n := BothNodes(g, c, bump, normal), g.next;
      && g4.nodes == g.nodes[n := Node("mtlxbump", "mtlxBump", map[])][n + 1 := Node("mtlxnormalmap", "mtxlNormal", map[])]
      && g4.wires == g.wires[(n, Index(0)) := bump][(c.surf, Named("normal")) := n][(n + 1, Index(0)) := normal][(n, Index(3)) := n + 1]
  {
  }

  lemma BothMapsShows(g: Net, c: Ctx, bump: nat, normal: nat, bumpKey: string, normalKey: string, bumpPath: string, normalPath: string)
    requires bump < g.next && normal < g.next && bump != normal
    requires IsImage(g, c, bump) && g.nodes[bump].name == bumpKey && IsImage(g, c, normal) && g.nodes[normal].name == normalKey
    ensures var r := BothMaps(g, c, bump, normal, bumpPath, normalPath);
      Shows(r, bump, c, bumpKey, bumpPath) && Shows(r, normal, c, normalKey, normalPath)
  {
    var n := g.next;
    var g1 := Connect(Create(g, "mtlxbump", "mtlxBump"), n, Index(0), bump);
    var g2 := Connect(g1, c.surf, Named("normal"), n);
    var g3 := Connect(Create(g2, "mtlxnormalmap", "mtxlNormal"), n + 1, Index(0), normal);
    var g4 := Connect(g3, n, Index(3), n + 1);
    var g5 := WithParm(g4, bump, "file", Str(bumpPath));
    assert g4.nodes == g.nodes[n := Node("mtlxbump", "mtlxBump", map[])][n + 1 := Node("mtlxnormalmap", "mtxlNormal", map[])];
    FileShows(g4, c, bump, bumpKey, bumpPath);
    ParmKeeps(g4, bump, "file", Str(bumpPath));
    FileShows(g5, c, normal, normalKey, normalPath);
    OtherParmShows(g5, c, bump, normal, bumpKey, bumpPath, "file", Str(normalPath));
  }

  lemma BothMapsExtends(g: Net, c: Ctx, bump: nat, normal: nat, bumpPath: string, normalPath: string)
    requires V13.Numbered(g) && Before(c, g) && IsImage(g, c, bump) && IsImage(g, c, normal)
    ensures Extends(g, BothMaps(g, c, bump, normal, bumpPath, normalPath), c, {(c.surf, Named("normal"))})
  {
    var g4 := BothNodes(g, c, bump, normal);
    BothNodesExtends(g, c, bump, normal);
    FilesExtends(g, g4, c, bump, normal, bumpPath, normalPath);
  }

  /** Re-setting the files of two images keeps what `g4` extends. */
  lemma FilesExtends(g: Net, g4: Net, c: Ctx, bump: nat, normal: nat, bumpPath: string, normalPath: string)
    requires Extends(g, g4, c, {(c.surf, Named("normal"))}) && V13.Numbered(g4) && IsImage(g4, c, bump) && IsImage(g4, c, normal)
    ensures Extends(g, WithParm(WithParm(g4, bump, "file", Str(bumpPath)), normal, "file", Str(normalPath)), c, {(c.surf, Named("normal"))})
  {
    var g5 := WithParm(g4, bump, "file", Str(bumpPath));
    ParmExtends(g4, c, bump, "file", Str(bumpPath));
    ParmExtends(g5, c, normal, "file", Str(normalPath));
    ExtendsTrans(g, g4, g5, c, {(c.surf, Named("normal"))}, {});
    ExtendsTrans(g, g5, WithParm(g5, normal, "file", Str(normalPath)), c, {(c.surf, Named("normal"))} + {}, {});
    assert {(c.surf, Named("normal"))} + {} + {} == {(c.surf, Named("normal"))};
  }

  /** The four new connections of the two-map branch, before the files are set. */
  lemma BothNodesExtends(g: Net, c: Ctx, bump: nat, normal: nat)
    requires V13.Numbered(g) && Before(c, g) && IsImage(g, c, bump) && IsImage(g, c, normal)
    ensures var g4 := BothNodes(g, c, bump, normal);
      Extends(g, g4, c, {(c.surf, Named("normal"))}) && V13.Numbered(g4) && IsImage(g4, c, bump) && IsImage(g4, c, normal)
  {
    var n, k := g.next, (c.surf, Named("normal"));
    var g2 := Connect(Connect(Create(g, "mtlxbump", "mtlxBump"), n, Index(0), bump), c.surf, Named("normal"), n);
    var g4 := BothNodes(g, c, bump, normal);
    BumpHalfExtends(g, c, bump, normal);
    NormalHalfExtends(g2, c, bump, normal, n);
    ExtendsTrans(g, g2, g4, c, {k}, {(n, Index(3))});
    ExtendsDrop(g, g4, c, {k} + {(n, Index(3))}, {k});
  }

  /** The bump node reading the bump image, driving the shader's normal. */
  lemma BumpHalfExtends(g: Net, c: Ctx, bump: nat, normal: nat)
    requires V13.Numbered(g) && Before(c, g) && IsImage(g, c, bump) && IsImage(g, c, normal)
    ensures var n := g.next;
      var g2 := Connect(Connect(Create(g, "mtlxbump", "mtlxBump"), n, Index(0), bump), c.surf, Named("normal"), n);
      Extends(g, g2, c, {(c.surf, Named("normal"))}) && g2.next == n + 1 && IsImage(g2, c, bump) && IsImage(g2, c, normal)
  {
    var n, k := g.next, (c.surf, Named("normal"));
    var g1 := Connect(Create(g, "mtlxbump", "mtlxBump"), n, Index(0), bump);
    MapNodeShape(g, c, "mtlxbump", "mtlxBump", bump);
    ConnectExtends(g1, c, c.surf, Named("normal"), n);
    ExtendsTrans(g, g1, Connect(g1, c.surf, Named("normal"), n), c, {}, {k});
    assert {} + {k} == {k};
  }

  /** The normal map reading the normal image, plugged into the bump node's input 3. */
  lemma NormalHalfExtends(g: Net, c: Ctx, bump: nat, normal: nat, n: nat)
    requires V13.Numbered(g) && n < g.next && IsImage(g, c, bump) && IsImage(g, c, normal)
    ensures var m := g.next;
      var g4 := Connect(Connect(Create(g, "mtlxnormalmap", "mtxlNormal"), m, Index(0), normal), n, Index(3), m);
      Extends(g, g4, c, {(n, Index(3))}) && IsImage(g4, c, bump) && IsImage(g4, c, normal)
  {
    var m := g.next;
    var g3 := Connect(Create(g, "mtlxnormalmap", "mtxlNormal"), m, Index(0), normal);
    MapNodeShape(g, c, "mtlxnormalmap", "mtxlNormal", normal);
    ConnectExtends(g3, c, n, Index(3), m);
    ExtendsTrans(g, g3, Connect(g3, n, Index(3), m), c, {}, {(n, Index(3))});
    assert {} + {(n, Index(3))} == {(n, Index(3))};
  }

  /** Only a bump key: the bump node drives the shader's normal. */
  lemma BumpNormalBumpOnly(b: Build, c: Ctx, keys: seq<string>, files: map<string, seq<string>>, bumpName: string)
    requires V13.Stocked(keys, files) && Recorded(b, c, keys) && V13.Numbered(b.net) && Before(c, b.net)
    requires V13.LastListed(keys, Variants(Bump)) == Some(bumpName) && V13.LastListed(keys, Variants(Normal)).None?
    requires bumpName in files && |files[bumpName]| > 0
    ensures var r := BumpNormal(b, c, keys, files); var n := b.net.next; var k := (c.surf, Named("normal"));
      && Extends(b.net, r, c, {k})
      && k in r.wires && r.wires[k] == n && n in r.nodes && r.nodes[n] == Node("mtlxbump", "mtlxBump", map[])
      && (n, Index(0)) in r.wires && Shows(r, r.wires[(n, Index(0))], c, bumpName, MapPath(c, files, bumpName))
  {
    OneMapShape(b.net, c, "mtlxbump", "mtlxBump", b.bump.value, bumpName, MapPath(c, files, bumpName));
  }

  /** Only a normal key: the normal-map node drives the shader's normal. */
  lemma BumpNormalNormalOnly(b: Build, c: Ctx, keys: seq<string>, files: map<string, seq<string>>, normalName: string)
    requires V13.Stocked(keys, files) && Recorded(b, c, keys) && V13.Numbered(b.net) && Before(c, b.net)
    requires V13.LastListed(keys, Variants(Bump)).None? && V13.LastListed(keys, Variants(Normal)) == Some(normalName)
    requires normalName in files && |files[normalName]| > 0
    ensures var r := BumpNormal(b, c, keys, files); var n := b.net.next; var k := (c.surf, Named("normal"));
      && Extends(b.net, r, c, {k})
      && k in r.wires && r.wires[k] == n && n in r.nodes && r.nodes[n] == Node("mtlxnormalmap", "mtxlNormal", map[])
      && (n, Index(0)) in r.wires && Shows(r, r.wires[(n, Index(0))], c, normalName, MapPath(c, files, normalName))
  {
    OneMapShape(b.net, c, "mtlxnormalmap", "mtxlNormal", b.normal.value, normalName, MapPath(c, files, normalName));
  }

  /**
   * The closing branches: with a bump key the shader's normal is driven by a
   * bump node reading the last bump image; with only a normal key a
   * normal-map node reading the last normal image drives it; with neither
   * nothing changes. The images' files are re-set to the map path.
   */
  lemma BumpNormalSpec(b: Build, c: Ctx, keys: seq<string>, files: map<string, seq<string>>)
    requires V13.Stocked(keys, files) && Recorded(b, c, keys) && V13.Numbered(b.net) && Before(c, b.net)
    ensures var r := BumpNormal(b, c, keys, files); var n := b.net.next; var k := (c.surf, Named("normal"));
      var bumpName, normalName := V13.LastListed(keys, Variants(Bump)), V13.LastListed(keys, Variants(Normal));
      && (bumpName.None? && normalName.None? ==> r == b.net)
      && (bumpName.Some? ==>
            && k in r.wires && r.wires[k] == n && n in r.nodes && r.nodes[n] == Node("mtlxbump", "mtlxBump", map[])
            && (n, Index(0)) in r.wires && Shows(r, r.wires[(n, Index(0))], c, bumpName.value, MapPath(c, files, bumpName.value)))
      && (bumpName.None? && normalName.Some? ==>
            && k in r.wires && r.wires[k] == n && n in r.nodes && r.nodes[n] == Node("mtlxnormalmap", "mtxlNormal", map[])
            && (n, Index(0)) in r.wires && Shows(r, r.wires[(n, Index(0))], c, normalName.value, MapPath(c, files, normalName.value)))
  {
    var bumpName, normalName := V13.LastListed(keys, Variants(Bump)), V13.LastListed(keys, Variants(Normal));
    if bumpName.Some? && normalName.Some? {
      var bump, normal := b.bump.value, b.normal.value;
      var bp, np := MapPath(c, files, bumpName.value), MapPath(c, files, normalName.value);
      MapListsDisjoint(bumpName.value);
      BothMapsWires(b.net, c, bump, normal, bp, np);
      BothMapsShows(b.net, c, bump, normal, bumpName.value, normalName.value, bp, np);
    } else if bumpName.Some? {
      BumpNormalBumpOnly(b, c, keys, files, bumpName.value);
    } else if normalName.Some? {
      BumpNormalNormalOnly(b, c, keys, files, normalName.value);
    }
  }

  /** The closing branches only extend the network: the one old connection they may change is the shader's normal. */
  lemma BumpNormalExtends(b: Build, c: Ctx, keys: seq<string>, files: map<string, seq<string>>)
    requires V13.Stocked(keys, files) && Recorded(b, c, keys) && V13.Numbered(b.net) && Before(c, b.net)
    ensures Extends(b.net, BumpNormal(b, c, keys, files), c, {(c.surf, Named("normal"))})
  {
    var bumpName, normalName := V13.LastListed(keys, Variants(Bump)), V13.LastListed(keys, Variants(Normal));
    if bumpName.Some? && normalName.Some? {
      BothMapsExtends(b.net, c, b.bump.value, b.normal.value, MapPath(c, files, bumpName.value), MapPath(c, files, normalName.value));
    } else if bumpName.Some? {
      BumpNormalBumpOnly(b, c, keys, files, bumpName.value);
    } else if normalName.Some? {
      BumpNormalNormalOnly(b, c, keys, files, normalName.value);
    } else {
      ExtendsSame(b.net, c);
      ExtendsDrop(b.net, b.net, c, {}, {(c.surf, Named("normal"))});
    }
  }

  /**
   * With both a bump and a normal key, the bump node reads on its input 3 a
   * new normal-map node, which reads the last normal image re-set to its map
   * path.
   */
  lemma BumpNormalChain(b: Build, c: Ctx, keys: seq<string>, files: map<string, seq<string>>, bumpName: string, normalName: string, r: Net)
    requires V13.Stocked(keys, files) && Recorded(b, c, keys) && V13.Numbered(b.net)
    requires V13.LastListed(keys, Variants(Bump)) == Some(bumpName) && V13.LastListed(keys, Variants(Normal)) == Some(normalName)
    requires bumpName in files && |files[bumpName]| > 0 && normalName in files && |files[normalName]| > 0
    requires r == BumpNormal(b, c, keys, files)
    ensures (b.net.next, Index(3)) in r.wires && r.wires[(b.net.next, Index(3))] == b.net.next + 1
    ensures b.net.next + 1 in r.nodes && r.nodes[b.net.next + 1] == Node("mtlxnormalmap", "mtxlNormal", map[])
    ensures (b.net.next + 1, Index(0)) in r.wires
    ensures Shows(r, r.wires[(b.net.next + 1, Index(0))], c, normalName, MapPath(c, files, normalName))
  {
    var bump, normal := b.bump.value, b.normal.value;
    var bp, np := MapPath(c, files, bumpName), MapPath(c, files, normalName);
    assert r == BothMaps(b.net, c, bump, normal, bp, np);
    MapListsDisjoint(bumpName);
    BothMapsChain(b.net, c, bump, normal, bumpName, normalName, bp, np, r);
  }

  lemma BothMapsChain(g: Net, c: Ctx, bump: nat, normal: nat, bumpName: string, normalName: string, bp: string, np: string, r: Net)
    requires bump < g.next && normal < g.next && bump != normal
    requires IsImage(g, c, bump) && g.nodes[bump].name == bumpName && IsImage(g, c, normal) && g.nodes[normal].name == normalName
    requires r == BothMaps(g, c, bump, normal, bp, np)
    ensures (g.next, Index(3)) in r.wires && r.wires[(g.next, Index(3))] == g.next + 1
    ensures g.next + 1 in r.nodes && r.nodes[g.next + 1] == Node("mtlxnormalmap", "mtxlNormal", map[])
    ensures (g.next + 1, Index(0)) in r.wires && Shows(r, r.wires[(g.next + 1, Index(0))], c, normalName, np)
  {
    BothMapsWires(g, c, bump, normal, bp, np);
    BothMapsShows(g, c, bump, normal, bumpName, normalName, bp, np);
  }

  // ---------------------------------------------------------------------
  // The skeleton, proved
  // ---------------------------------------------------------------------

  lemma CreateConnectorShape(g: Net, name: string, parmname: string, caption: string)
    ensures var r := CreateConnector(g, name, parmname, caption);
      r.next == g.next + 1 && r.wires == g.wires && r.nodes == g.nodes[g.next := Connector(name, parmname, caption)]
  {
  }

  /**
   * Lines 376-395: the `surface_ouput` and `displacement_output` connectors
   * come first and read the shader `mtlxSurface` and the displacement node
   * `mtlxDisp` on input 0.
   */
  lemma MainNodesShape(g: Net)
    ensures var r := MainNodes(g); var n := g.next;
      && r.next == n + 4
      && r.nodes == g.nodes[n := Connector("surface_ouput", "surface", "Surface")]
                           [n + 1 := Connector("displacement_output", "displacement", "Displacement")]
                           [n + 2 := Node("mtlxstandard_surface", "mtlxSurface", map[])]
                           [n + 3 := Node("mtlxdisplacement", "mtlxDisp", map[])]
      && r.wires == g.wires[(n, Index(0)) := n + 2][(n + 1, Index(0)) := n + 3]
  {
    CreateConnectorShape(g, "surface_ouput", "surface", "Surface");
    CreateConnectorShape(CreateConnector(g, "surface_ouput", "surface", "Surface"), "displacement_output", "displacement", "Displacement");
  }

  /**
   * Lines 438-453: the place2d node (created last) reads the texcoord on
   * input 0, the scale constant (value 1) on input 2, rotate on 3 and offset on 4.
   */
  lemma Place2dShape(g: Net, material: string)
    ensures var r := Place2d(g, material); var n := g.next;
      && r.next == n + 5
      && r.nodes == g.nodes[n := Node("mtlxtexcoord", material + "_texcoord", map[])]
                           [n + 1 := Node("mtlxconstant", material + "_scale", map["value" := Num(1)])]
                           [n + 2 := Node("mtlxconstant", material + "_rotate", map[])]
                           [n + 3 := Node("mtlxconstant", material + "_offset", map[])]
                           [n + 4 := Node("mtlxplace2d", material + "_place2d", map[])]
      && r.wires == g.wires[(n + 4, Index(0)) := n][(n + 4, Index(2)) := n + 1][(n + 4, Index(3)) := n + 2][(n + 4, Index(4)) := n + 3]
  {
    var n := g.next;
    var g3 := Place2dNodes(g, material);
    var coord, rotate, offset, place := Node("mtlxtexcoord", material + "_texcoord", map[]), Node("mtlxconstant", material + "_rotate", map[]),
                                        Node("mtlxconstant", material + "_offset", map[]), Node("mtlxplace2d", material + "_place2d", map[]);
    var scale := Node("mtlxconstant", material + "_scale", map[]);
    assert g3.next == n + 5 && g3.wires == g.wires;
    assert g3.nodes == g.nodes[n := coord][n + 1 := scale][n + 2 := rotate][n + 3 := offset][n + 4 := place];
    ReplaceSecond(g.nodes, n, coord, scale, rotate, offset, place, scale.(parms := scale.parms["value" := Num(1)]));
  }

  /** What the skeleton offers the texture loop. */
  predicate SkeletonFacts(g: Net, s: Net, material: string, udim: bool) {
    var n := g.next;
    && V13.Numbered(s)
    && s.next == n + (if udim then 4 else 9)
    && n + 2 in s.nodes && s.nodes[n + 2] == Node("mtlxstandard_surface", "mtlxSurface", map[])
    && n + 3 in s.nodes && s.nodes[n + 3] == Node("mtlxdisplacement", "mtlxDisp", map[])
    && (!udim ==> n + 8 in s.nodes && s.nodes[n + 8] == Node("mtlxplace2d", material + "_place2d", map[]))
    && (forall w :: w in s.wires ==> w in g.wires || (w.0 != n + 2 && w.0 != n + 3))
  }

  predicate MainFactsHold(g: Net, r: Net) {
    var n := g.next;
    && V13.Numbered(r) && r.next == n + 4
    && n + 2 in r.nodes && r.nodes[n + 2] == Node("mtlxstandard_surface", "mtlxSurface", map[])
    && n + 3 in r.nodes && r.nodes[n + 3] == Node("mtlxdisplacement", "mtlxDisp", map[])
    && (forall w :: w in r.wires ==> w in g.wires || w.0 == n || w.0 == n + 1)
  }

  predicate Place2dFactsHold(g: Net, r: Net, material: string) {
    var n := g.next;
    && V13.Numbered(r) && r.next == n + 5
    && (forall id :: id in g.nodes ==> id in r.nodes && r.nodes[id] == g.nodes[id])
    && n + 4 in r.nodes && r.nodes[n + 4] == Node("mtlxplace2d", material + "_place2d", map[])
    && (forall w :: w in r.wires ==> w in g.wires || w.0 == n + 4)
  }

  lemma MainFromShape(g: Net, r: Net)
    requires V13.Numbered(g)
    requires var n := g.next;
      && r.next == n + 4
      && r.nodes == g.nodes[n := Connector("surface_ouput", "surface", "Surface")]
                           [n + 1 := Connector("displacement_output", "displacement", "Displacement")]
                           [n + 2 := Node("mtlxstandard_surface", "mtlxSurface", map[])]
                           [n + 3 := Node("mtlxdisplacement", "mtlxDisp", map[])]
      && r.wires == g.wires[(n, Index(0)) := n + 2][(n + 1, Index(0)) := n + 3]
    ensures MainFactsHold(g, r)
  {
  }

  lemma Place2dFromShape(g: Net, r: Net, material: string)
    requires V13.Numbered(g)
    requires var n := g.next;
      && r.next == n + 5
      && r.nodes == g.nodes[n := Node("mtlxtexcoord", material + "_texcoord", map[])]
                           [n + 1 := Node("mtlxconstant", material + "_scale", map["value" := Num(1)])]
                           [n + 2 := Node("mtlxconstant", material + "_rotate", map[])]
                           [n + 3 := Node("mtlxconstant", material + "_offset", map[])]
                           [n + 4 := Node("mtlxplace2d", material + "_place2d", map[])]
      && r.wires == g.wires[(n + 4, Index(0)) := n][(n + 4, Index(2)) := n + 1][(n + 4, Index(3)) := n + 2][(n + 4, Index(4)) := n + 3]
    ensures Place2dFactsHold(g, r, material)
  {
  }

  lemma MainOnly(g: Net, g1: Net, material: string)
    requires V13.Numbered(g) && MainFactsHold(g, g1)
    ensures SkeletonFacts(g, g1, material, true)
  {
  }

  lemma MainThenPlace2d(g: Net, g1: Net, s: Net, material: string)
    requires V13.Numbered(g) && MainFactsHold(g, g1) && Place2dFactsHold(g1, s, material)
    ensures SkeletonFacts(g, s, material, false)
  {
  }

  /** The skeleton holds the shader, the displacement node and (without UDIM) the place2d node where the context expects them. */
  lemma SkeletonShape(g: Net, material: string, e: TextureSet, tx: bool, job: string, folder: string)
    requires V13.Numbered(g)
    ensures SkeletonFacts(g, Skeleton(g, material, e.udim), material, e.udim)
    ensures Before(MaterialCtx(g, e, tx, job, folder), Skeleton(g, material, e.udim))
  {
    var g1 := MainNodes(g);
    MainNodesShape(g);
    MainFromShape(g, g1);
    if e.udim {
      MainOnly(g, g1, material);
    } else {
      Place2dShape(g1, material);
      Place2dFromShape(g1, Place2d(g1, material), material);
      MainThenPlace2d(g, g1, Place2d(g1, material), material);
    }
  }

  // ---------------------------------------------------------------------
  // The whole material
  // ---------------------------------------------------------------------

  /** After the loop, the recorded images are the ones for the last listed bump and normal keys. */
  lemma LoopRecords(s: Net, c: Ctx, keys: seq<string>, files: map<string, seq<string>>)
    requires V13.Numbered(s) && Before(c, s) && V13.Stocked(keys, files)
    ensures var b := Steps(Build(s, None, None), c, Items(keys, files));
      Recorded(b, c, keys) && V13.Numbered(b.net) && Before(c, b.net) && b.net.next >= s.next
  {
    var b0 := Build(s, None, None);
    var ps := Items(keys, files);
    var b := Steps(b0, c, ps);
    FoldExtends(b0, c, ps);
    RecordsRole(b0, c, keys, files, Bump);
    RecordsRole(b0, c, keys, files, Normal);
  }

  lemma RecordsRole(b0: Build, c: Ctx, keys: seq<string>, files: map<string, seq<string>>, m: Role)
    requires V13.Numbered(b0.net) && Before(c, b0.net) && V13.Stocked(keys, files) && (m == Bump || m == Normal)
    requires b0.bump.None? && b0.normal.None?
    ensures var b := Steps(b0, c, Items(keys, files)); var name := V13.LastListed(keys, Variants(m));
      && (Tracked(b, m).Some? ==> IsImage(b.net, c, Tracked(b, m).value) && Tracked(b, m).value < b.net.next)
      && (name.Some? ==> Tracked(b, m).Some? && b.net.nodes[Tracked(b, m).value].name == name.value)
  {
    var ps := Items(keys, files);
    TrackedSome(b0, c, ps, m);
    ItemsLastRole(keys, files, m);
    if LastRole(ps, m).Some? {
      FoldTracks(b0, c, ps, m);
    }
  }

  /** A listed bump (normal) key means an image was recorded for it. */
  lemma MapsTracked(b0: Build, c: Ctx, keys: seq<string>, files: map<string, seq<string>>, m: Role)
    requires V13.Stocked(keys, files) && (m == Bump || m == Normal)
    ensures V13.LastListed(keys, Variants(m)).Some? ==> Tracked(Steps(b0, c, Items(keys, files)), m).Some?
  {
    TrackedSome(b0, c, Items(keys, files), m);
    ItemsLastRole(keys, files, m);
  }

  /** Lines 307-673: everything `myfunc` builds inside the new subnet, given the set, the TX flag, `$JOB` and the folder. */
  function Material(g: Net, material: string, e: TextureSet, tx: bool, job: string, folder: string): Net
    requires WellFormed(e)
  {
    V13.WellFormedStocked(e);
    var c := MaterialCtx(g, e, tx, job, folder);
    var s := Skeleton(g, material, e.udim);
    MapsTracked(Build(s, None, None), c, e.keys, e.files, Bump);
    MapsTracked(Build(s, None, None), c, e.keys, e.files, Normal);
    BumpNormal(Steps(Build(s, None, None), c, Items(e.keys, e.files)), c, e.keys, e.files)
  }

  /** The loop and the closing branches, unfolded from `Material`. */
  lemma MaterialUnfold(g: Net, material: string, e: TextureSet, tx: bool, job: string, folder: string)
    requires V13.Numbered(g) && WellFormed(e)
    ensures V13.Stocked(e.keys, e.files)
    ensures var c := MaterialCtx(g, e, tx, job, folder); var s := Skeleton(g, material, e.udim);
      var b := Steps(Build(s, None, None), c, Items(e.keys, e.files));
      && SkeletonFacts(g, s, material, e.udim) && Before(c, s)
      && Recorded(b, c, e.keys) && V13.Numbered(b.net) && Before(c, b.net) && b.net.next >= s.next
      && Material(g, material, e, tx, job, folder) == BumpNormal(b, c, e.keys, e.files)
  {
    V13.WellFormedStocked(e);
    var c := MaterialCtx(g, e, tx, job, folder);
    var s := Skeleton(g, material, e.udim);
    SkeletonShape(g, material, e, tx, job, folder);
    LoopRecords(s, c, e.keys, e.files);
  }

  /** The closing branches as facts about their result `r`. */
  predicate MapsWired(b: Build, r: Net, c: Ctx, keys: seq<string>, files: map<string, seq<string>>)
    requires V13.Stocked(keys, files)
  {
    var n := b.net.next; var k := (c.surf, Named("normal"));
    var bumpName, normalName := V13.LastListed(keys, Variants(Bump)), V13.LastListed(keys, Variants(Normal));
    && (bumpName.None? && normalName.None? ==> r == b.net)
    && (bumpName.Some? ==>
          && k in r.wires && r.wires[k] == n && n in r.nodes && r.nodes[n] == Node("mtlxbump", "mtlxBump", map[])
          && (n, Index(0)) in r.wires && Shows(r, r.wires[(n, Index(0))], c, bumpName.value, MapPath(c, files, bumpName.value)))
    && (bumpName.Some? && normalName.Some? ==>
          && (n, Index(3)) in r.wires && r.wires[(n, Index(3))] == n + 1
          && n + 1 in r.nodes && r.nodes[n + 1] == Node("mtlxnormalmap", "mtxlNormal", map[])
          && (n + 1, Index(0)) in r.wires && Shows(r, r.wires[(n + 1, Index(0))], c, normalName.value, MapPath(c, files, normalName.value)))
    && (bumpName.None? && normalName.Some? ==>
          && k in r.wires && r.wires[k] == n && n in r.nodes && r.nodes[n] == Node("mtlxnormalmap", "mtxlNormal", map[])
          && (n, Index(0)) in r.wires && Shows(r, r.wires[(n, Index(0))], c, normalName.value, MapPath(c, files, normalName.value)))
  }

  lemma BumpNormalWired(b: Build, c: Ctx, keys: seq<string>, files: map<string, seq<string>>)
    requires V13.Stocked(keys, files) && Recorded(b, c, keys) && V13.Numbered(b.net) && Before(c, b.net)
    ensures var r := BumpNormal(b, c, keys, files);
      MapsWired(b, r, c, keys, files) && Extends(b.net, r, c, {(c.surf, Named("normal"))})
  {
    BumpNormalSpec(b, c, keys, files);
    BumpNormalExtends(b, c, keys, files);
    var bumpName, normalName := V13.LastListed(keys, Variants(Bump)), V13.LastListed(keys, Variants(Normal));
    if bumpName.Some? && normalName.Some? {
      BumpNormalChain(b, c, keys, files, bumpName.value, normalName.value, BumpNormal(b, c, keys, files));
    }
  }

  /** A port other than the shader's normal keeps what the loop left on it. */
  lemma PortsAfterMaps(g: Net, s: Net, b: Build, r: Net, c: Ctx, material: string, udim: bool, ps: seq<Pair>, port: V13.Port)
    requires V13.Numbered(g) && SkeletonFacts(g, s, material, udim) && c.surf == g.next + 2 && c.disp == g.next + 3 && c.udim == udim
    requires V13.Numbered(b.net) && b.net.next >= s.next && Extends(b.net, r, c, {(c.surf, Named("normal"))}) && V13.Textured(port)
    requires V13.LastFeeding(ps, port).None? ==> (PortKey(c, port) in b.net.wires <==> PortKey(c, port) in s.wires)
    requires V13.LastFeeding(ps, port).Some? ==>
      FedBy(b.net, PortKey(c, port), ps[V13.LastFeeding(ps, port).value], udim) && s.next <= b.net.wires[PortKey(c, port)] < b.net.next
    ensures var k := PortKey(c, port);
      && (k in r.wires <==> V13.LastFeeding(ps, port).Some?)
      && (V13.LastFeeding(ps, port).Some? ==> FedBy(r, k, ps[V13.LastFeeding(ps, port).value], udim))
  {
    var k := PortKey(c, port);
    assert k != (c.surf, Named("normal"));
    if V13.LastFeeding(ps, port).Some? {
      KeepFed(b.net, r, c, {(c.surf, Named("normal"))}, k, ps[V13.LastFeeding(ps, port).value], s.next);
    } else {
      assert k !in s.wires;
    }
  }

  /**
   * Every input the texture loop routes to (all but the shader's `normal`)
   * is connected exactly when some item of the material is routed to it, and
   * then from the node made for the LAST such item: its `_CC` range (with
   * the inverted output range for a gloss map) or its image.
   */
  lemma MaterialPorts(g: Net, material: string, e: TextureSet, tx: bool, job: string, folder: string, port: V13.Port)
    requires V13.Numbered(g) && WellFormed(e) && V13.Textured(port)
    ensures V13.Stocked(e.keys, e.files)
    ensures var c := MaterialCtx(g, e, tx, job, folder); var r := Material(g, material, e, tx, job, folder);
      var k := PortKey(c, port); var ps := Items(e.keys, e.files);
      && (k in r.wires <==> V13.LastFeeding(ps, port).Some?)
      && (V13.LastFeeding(ps, port).Some? ==> FedBy(r, k, ps[V13.LastFeeding(ps, port).value], e.udim))
  {
    MaterialUnfold(g, material, e, tx, job, folder);
    var c := MaterialCtx(g, e, tx, job, folder);
    var s := Skeleton(g, material, e.udim);
    var ps := Items(e.keys, e.files);
    var b0 := Build(s, None, None);
    var b := Steps(b0, c, ps);
    BumpNormalWired(b, c, e.keys, e.files);
    FoldPort(b0, c, ps, port);
    PortsAfterMaps(g, s, b, Material(g, material, e, tx, job, folder), c, material, e.udim, ps, port);
  }

  /**
   * The shader's `normal` input is connected exactly when some key names a
   * bump or a normal map; it is a bump node when there is a bump key, a
   * normal-map node otherwise.
   */
  lemma MaterialNormal(g: Net, material: string, e: TextureSet, tx: bool, job: string, folder: string)
    requires V13.Numbered(g) && WellFormed(e)
    ensures var r := Material(g, material, e, tx, job, folder); var k := (MaterialCtx(g, e, tx, job, folder).surf, Named("normal"));
      && (k in r.wires <==> V13.HasMapKey(e.keys))
      && (k in r.wires ==>
            r.wires[k] in r.nodes && r.nodes[r.wires[k]].kind == (if V13.LastListed(e.keys, V13.BumpKeys).Some? then "mtlxbump" else "mtlxnormalmap"))
  {
    MaterialUnfold(g, material, e, tx, job, folder);
    var c := MaterialCtx(g, e, tx, job, folder);
    var s := Skeleton(g, material, e.udim);
    var ps := Items(e.keys, e.files);
    var b0 := Build(s, None, None);
    var b := Steps(b0, c, ps);
    BumpNormalSpec(b, c, e.keys, e.files);
    V13.NothingFeedsNormal(ps);
    FoldPortUnrouted(b0, c, ps, V13.Surface("normal"));
    assert (c.surf, Named("normal")) !in s.wires;
    SameMapKeys();
    V13.MapKeyListed(e.keys);
  }

  /** `MapsWired` seen from the shader's normal input. */
  predicate MapsFromNormal(r: Net, c: Ctx, keys: seq<string>, files: map<string, seq<string>>)
    requires V13.Stocked(keys, files)
  {
    var k := (c.surf, Named("normal"));
    var bumpName, normalName := V13.LastListed(keys, Variants(Bump)), V13.LastListed(keys, Variants(Normal));
    && (bumpName.Some? ==>
          && k in r.wires && r.wires[k] in r.nodes && r.nodes[r.wires[k]] == Node("mtlxbump", "mtlxBump", map[])
          && (r.wires[k], Index(0)) in r.wires
          && Shows(r, r.wires[(r.wires[k], Index(0))], c, bumpName.value, MapPath(c, files, bumpName.value)))
    && (bumpName.Some? && normalName.Some? ==>
          && (r.wires[k], Index(3)) in r.wires
          && var m := r.wires[(r.wires[k], Index(3))];
          && m in r.nodes && r.nodes[m] == Node("mtlxnormalmap", "mtxlNormal", map[])
          && (m, Index(0)) in r.wires && Shows(r, r.wires[(m, Index(0))], c, normalName.value, MapPath(c, files, normalName.value)))
    && (bumpName.None? && normalName.Some? ==>
          && k in r.wires && r.wires[k] in r.nodes && r.nodes[r.wires[k]] == Node("mtlxnormalmap", "mtxlNormal", map[])
          && (r.wires[k], Index(0)) in r.wires
          && Shows(r, r.wires[(r.wires[k], Index(0))], c, normalName.value, MapPath(c, files, normalName.value)))
  }

  lemma WiredFromNormal(b: Build, r: Net, c: Ctx, keys: seq<string>, files: map<string, seq<string>>)
    requires V13.Stocked(keys, files) && MapsWired(b, r, c, keys, files)
    ensures MapsFromNormal(r, c, keys, files)
  {
  }

  /**
   * With a bump key the shader's normal is a bump node reading, on input 0,
   * the image of the last bump key, its file re-set to the map path; with a
   * normal key as well, the bump node's input 3 is a normal-map node reading
   * the image of the last normal key. With only a normal key the normal-map
   * node drives the shader's normal itself.
   */
  lemma MaterialMaps(g: Net, material: string, e: TextureSet, tx: bool, job: string, folder: string)
    requires V13.Numbered(g) && WellFormed(e)
    ensures V13.Stocked(e.keys, e.files)
    ensures MapsFromNormal(Material(g, material, e, tx, job, folder), MaterialCtx(g, e, tx, job, folder), e.keys, e.files)
  {
    MaterialUnfold(g, material, e, tx, job, folder);
    var c := MaterialCtx(g, e, tx, job, folder);
    var s := Skeleton(g, material, e.udim);
    var b := Steps(Build(s, None, None), c, Items(e.keys, e.files));
    BumpNormalWired(b, c, e.keys, e.files);
    WiredFromNormal(b, Material(g, material, e, tx, job, folder), c, e.keys, e.files);
  }
}

/**
 * v1.3 `MtlxMaterial`: builds one MaterialX material subnet from a
 * material's texture set. The choices it makes (which pairs the texture
 * iterator yields, which nodes are created, how they are parameterised and
 * wired) are spelled out as functions on a `Net`; the class methods drive a
 * `Network` step by step and are proved to produce exactly those states.
 */
module SynthesisV13 {
  import opened Options
  import opened Strings
  import opened Taxonomy
  import opened TextureSets
  import opened Graph
  import opened TexturePaths
  import opened Library

  // ---------------------------------------------------------------------
  // _iterate_textures
  // ---------------------------------------------------------------------

  /** One item yielded by `_iterate_textures`: the role, the key and the key's first file. */
  datatype Pair = Pair(role: Role, key: string, file: string)

  /** `skip_keys`: the sentinel entries and the exact bump/normal keys. */
  const SkipKeys: seq<string> := ["UDIM", "Size", "normal", "nor", "nrm", "nrml", "norm", "bump", "bmp"]

  /** Some fragment listed under `role` is a substring of the lower-cased key. */
  predicate RoleMatches(role: Role, key: string) {
    exists i :: 0 <= i < |Variants(role)| && Contains(Lower(key), Variants(role)[i])
  }

  /** The pairs one key yields, walking `roles` in order. */
  function KeyPairs(key: string, file: string, roles: seq<Role>): (r: seq<Pair>)
    ensures forall p :: p in r <==> p.role in roles && RoleMatches(p.role, key) && p.key == key && p.file == file
  {
    if roles == [] then []
    else
      (if RoleMatches(roles[0], key) then [Pair(roles[0], key, file)] else [])
      + KeyPairs(key, file, roles[1..])
  }

  /** Every key has at least one file. */
  predicate Stocked(keys: seq<string>, files: map<string, seq<string>>) {
    forall k :: k in keys ==> k in files && |files[k]| > 0
  }

  /** The sequence `_iterate_textures` yields for a material whose keys come in this order. */
  function Pairs(keys: seq<string>, files: map<string, seq<string>>): seq<Pair>
    requires Stocked(keys, files)
  {
    if keys == [] then []
    else
      (if keys[0] in SkipKeys then [] else KeyPairs(keys[0], files[keys[0]][0], Roles))
      + Pairs(keys[1..], files)
  }

  /**
   * A pair is yielded exactly for a key that is not skipped and a role one of
   * whose fragments occurs in the lower-cased key; its file is the key's first.
   */
  lemma {:induction false} PairsSpec(keys: seq<string>, files: map<string, seq<string>>, p: Pair)
    requires Stocked(keys, files)
    ensures p in Pairs(keys, files) <==>
      p.key in keys && p.key !in SkipKeys && RoleMatches(p.role, p.key) && p.file == files[p.key][0]
  {
    AllRoles();
    if keys != [] {
      PairsSpec(keys[1..], files, p);
    }
  }

  /** A fragment of two or more characters occurs only where its first two characters stand side by side. */
  lemma ContainsLeadingPair(s: string, t: string)
    requires |t| >= 2
    ensures Contains(s, t) ==> exists i :: 0 <= i < |s| - 1 && PairAt(s, i) == t[..2]
  {
    ContainsIff(s, t);
    if Contains(s, t) {
      var i :| OccursAt(s, t, i);
      assert PairAt(s, i) == t[..2];
    }
  }

  /** The first two characters of every fragment of every role. */
  const Openings: set<string> := {"di", "al", "ba", "co", "me", "mt", "sp", "ro", "rg", "gl", "tr", "em", "op",
                                  "ao", "am", "oc", "bu", "bm", "he", "ds", "us", "ma", "no", "nr"}

  /** The two characters of `s` from position `j`. */
  function PairAt(s: string, j: int): string
    requires 0 <= j < |s| - 1
  {
    s[j..j + 2]
  }

  /** Every fragment has at least two characters, and its first two are among `Openings`. */
  lemma VariantOpening(r: Role, i: nat)
    requires i < |Variants(r)|
    ensures |Variants(r)[i]| >= 2 && Variants(r)[i][..2] in Openings
  {
    if r in {Color, Metal, Specular, Rough, Gloss} {
      SurfaceOpenings(r, i);
    } else if r in {Trans, Emm, Alpha, AO, Bump} {
      LayerOpenings(r, i);
    } else {
      DetailOpenings(r, i);
    }
  }

  /** `VariantOpening` for the colour, metal, specular, roughness and gloss fragments. */
  lemma SurfaceOpenings(r: Role, i: nat)
    requires r in {Color, Metal, Specular, Rough, Gloss} && i < |Variants(r)|
    ensures |Variants(r)[i]| >= 2 && Variants(r)[i][..2] in Openings
  {
    match r
    case Color => assert "diffuse"[..2] == "di" && "diff"[..2] == "di" && "albedo"[..2] == "al" && "alb"[..2] == "al" && "base"[..2] == "ba" && "col"[..2] == "co" && "color"[..2] == "co" && "basecolor"[..2] == "ba";
    case Metal => assert "metallic"[..2] == "me" && "metalness"[..2] == "me" && "metal"[..2] == "me" && "mtl"[..2] == "mt" && "met"[..2] == "me";
    case Specular => assert "specularity"[..2] == "sp" && "specular"[..2] == "sp" && "spec"[..2] == "sp" && "spc"[..2] == "sp";
    case Rough => assert "roughness"[..2] == "ro" && "rough"[..2] == "ro" && "rgh"[..2] == "rg";
    case Gloss => assert "gloss"[..2] == "gl" && "glossy"[..2] == "gl" && "glossiness"[..2] == "gl";
  }

  /** `VariantOpening` for the transmission, emission, alpha, occlusion and bump fragments. */
  lemma LayerOpenings(r: Role, i: nat)
    requires r in {Trans, Emm, Alpha, AO, Bump} && i < |Variants(r)|
    ensures |Variants(r)[i]| >= 2 && Variants(r)[i][..2] in Openings
  {
    match r
    case Trans => assert "transmission"[..2] == "tr" && "transparency"[..2] == "tr" && "trans"[..2] == "tr";
    case Emm => assert "emission"[..2] == "em" && "emissive"[..2] == "em" && "emit"[..2] == "em" && "emm"[..2] == "em";
    case Alpha => assert "alpha"[..2] == "al" && "opacity"[..2] == "op" && "opac"[..2] == "op";
    case AO => assert "ao"[..2] == "ao" && "ambient_occlusion"[..2] == "am" && "occlusion"[..2] == "oc";
    case Bump => assert "bump"[..2] == "bu" && "bmp"[..2] == "bm" && "height"[..2] == "he";
  }

  /** `VariantOpening` for the displacement, extra, normal and subsurface fragments. */
  lemma DetailOpenings(r: Role, i: nat)
    requires r in {Disp, Extra, Normal, SSS} && i < |Variants(r)|
    ensures |Variants(r)[i]| >= 2 && Variants(r)[i][..2] in Openings
  {
    match r
    case Disp => assert "displacement"[..2] == "di" && "displace"[..2] == "di" && "disp"[..2] == "di" && "dsp"[..2] == "ds" && "heightmap"[..2] == "he";
    case Extra => assert "user"[..2] == "us" && "mask"[..2] == "ma";
    case Normal => assert "normal"[..2] == "no" && "nor"[..2] == "no" && "nrm"[..2] == "nr" && "nrml"[..2] == "nr" && "norm"[..2] == "no";
    case SSS => assert "translucency"[..2] == "tr";
  }

  /**
   * A lower-case key in which no two neighbouring characters form the opening
   * of a fragment matches no role.
   */
  lemma NoRoleMatches(key: string)
    requires IsLowerCase(key)
    requires forall j :: 0 <= j < |key| - 1 ==> PairAt(key, j) !in Openings
    ensures forall r: Role :: !RoleMatches(r, key)
  {
    LowerOfLowerCase(key);
    forall r: Role, i | 0 <= i < |Variants(r)|
      ensures !Contains(key, Variants(r)[i])
    {
      var v := Variants(r)[i];
      VariantOpening(r, i);
      ContainsLeadingPair(key, v);
    }
  }

  /** A key that matches no role yields no pair. */
  lemma NoPairs(key: string, file: string)
    requires forall r: Role :: !RoleMatches(r, key)
    ensures KeyPairs(key, file, Roles) == []
  {
    if KeyPairs(key, file, Roles) != [] {
      assert KeyPairs(key, file, Roles)[0] in KeyPairs(key, file, Roles);
    }
  }

  /**
   * The `path` entry is not in `skip_keys`, yet no role's fragment occurs in
   * it, so walking the material's dictionary yields nothing for it.
   */
  lemma PathYieldsNothing(file: string)
    ensures KeyPairs("path", file, Roles) == []
  {
    assert PairAt("path", 0) == "pa" && PairAt("path", 1) == "at" && PairAt("path", 2) == "th";
    NoRoleMatches("path");
    NoPairs("path", file);
  }

  /** `cavity` is listed in `TEXTURE_TYPES` but under no role: its textures never reach the network. */
  lemma CavityYieldsNothing(files: map<string, seq<string>>)
    requires "cavity" in files && |files["cavity"]| > 0
    ensures Pairs(["cavity"], files) == []
  {
    assert PairAt("cavity", 0) == "ca" && PairAt("cavity", 1) == "av" && PairAt("cavity", 2) == "vi";
    assert PairAt("cavity", 3) == "it" && PairAt("cavity", 4) == "ty";
    NoRoleMatches("cavity");
    NoPairs("cavity", files["cavity"][0]);
    assert "cavity" !in SkipKeys;
  }

  /** `heightmap` yields a Bump pair (through `height`) and a Disp pair. */
  lemma HeightmapYieldsTwo(files: map<string, seq<string>>)
    requires "heightmap" in files && |files["heightmap"]| > 0
    ensures var f := files["heightmap"][0];
      Pair(Bump, "heightmap", f) in Pairs(["heightmap"], files)
      && Pair(Disp, "heightmap", f) in Pairs(["heightmap"], files)
  {
    var f := files["heightmap"][0];
    LowerOfLowerCase("heightmap");
    assert StartsWith("heightmap", "height") && Variants(Bump)[2] == "height";
    assert StartsWith("heightmap", "heightmap") && Variants(Disp)[4] == "heightmap";
    PairsSpec(["heightmap"], files, Pair(Bump, "heightmap", f));
    PairsSpec(["heightmap"], files, Pair(Disp, "heightmap", f));
  }

  lemma TranslucencyMatches()
    ensures RoleMatches(Trans, "translucency") && RoleMatches(SSS, "translucency")
  {
    LowerOfLowerCase("translucency");
    assert StartsWith("translucency", "trans") && Variants(Trans)[2] == "trans";
    assert StartsWith("translucency", "translucency") && Variants(SSS)[0] == "translucency";
  }

  /** `translucency` yields a Trans pair and an SSS pair. */
  lemma TranslucencyYieldsTwo(files: map<string, seq<string>>)
    requires "translucency" in files && |files["translucency"]| > 0
    ensures var f := files["translucency"][0];
      Pair(Trans, "translucency", f) in Pairs(["translucency"], files)
      && Pair(SSS, "translucency", f) in Pairs(["translucency"], files)
  {
    var f := files["translucency"][0];
    TranslucencyMatches();
    PairsSpec(["translucency"], files, Pair(Trans, "translucency", f));
    PairsSpec(["translucency"], files, Pair(SSS, "translucency", f));
  }

  // ---------------------------------------------------------------------
  // Node creation and wiring, as functions on the network
  // ---------------------------------------------------------------------

  /** What `_process_textures` and `_setup_bump_normal` share. */
  datatype Ctx = Ctx(surf: nat, disp: nat, place2d: Option<nat>, udim: bool, tx: bool, job: string, folder: string)

  /** Image node type: `mtlximage` for UDIM sets, `mtlxtiledimage` otherwise. */
  function ImageKind(udim: bool): string {
    if udim then "mtlximage" else "mtlxtiledimage"
  }

  /** The `_setup_*` helper a role is routed through. */
  datatype Setup = Colour | Direct | Roughness | Subsurface

  datatype Connection = Connection(input: string, setup: Setup)

  /** `connection_map` of `_connect_texture`. */
  function ConnectionMap(role: Role): Option<Connection> {
    match role
    case Color => Some(Connection("base_color", Colour))
    case Metal => Some(Connection("metalness", Direct))
    case Specular => Some(Connection("specular", Direct))
    case Rough => Some(Connection("specular_roughness", Roughness))
    case Gloss => Some(Connection("specular_roughness", Roughness))
    case Trans => Some(Connection("transmission", Direct))
    case Emm => Some(Connection("emission", Direct))
    case Alpha => Some(Connection("opacity", Direct))
    case SSS => Some(Connection("subsurface_color", Subsurface))
    case _ => None
  }

  /** The image node `_create_texture_node` leaves behind for a pair. */
  function ImageNode(ctx: Ctx, p: Pair): Node {
    var settings := ImageSettings13(p.role, ctx.tx);
    Node(ImageKind(ctx.udim), p.key,
         map["file" := Str(TexturePath13(ctx.folder, p.file, ctx.udim, ctx.tx, ctx.job)),
             "signature" := Str(settings.0), "filecolorspace" := Str(settings.1)])
  }

  /** `_create_texture_node`: the image node, its file, then `_configure_texture_node`. */
  function CreateImage(g: Net, ctx: Ctx, p: Pair): Net {
    var id := g.next;
    var settings := ImageSettings13(p.role, ctx.tx);
    var g1 := Create(g, ImageKind(ctx.udim), p.key);
    var g2 := WithParm(g1, id, "file", Str(TexturePath13(ctx.folder, p.file, ctx.udim, ctx.tx, ctx.job)));
    WithParm(WithParm(g2, id, "signature", Str(settings.0)), id, "filecolorspace", Str(settings.1))
  }

  /** `_create_texture_node` followed by the place2d hook-up of `_process_textures`. */
  function TextureNode(g: Net, ctx: Ctx, p: Pair): Net {
    var g3 := CreateImage(g, ctx, p);
    if ctx.place2d.Some? && !ctx.udim then Connect(g3, g.next, Index(2), ctx.place2d.value) else g3
  }

  /** `_setup_colour_texture`: a colour range node `<key>_CC` between image and shader. */
  function SetupColour(g: Net, img: nat, key: string, surf: nat, input: string): Net {
    var range := g.next;
    var g1 := Connect(Create(g, "mtlxrange", key + "_CC"), range, Index(0), img);
    Connect(WithParm(g1, range, "signature", Str("color3")), surf, Named(input), range)
  }

  /** `_setup_roughness_texture`: a range node `<key>_ADJ` with its default (identity) ranges. */
  function SetupRoughness(g: Net, img: nat, key: string, surf: nat, input: string): Net {
    var range := g.next;
    Connect(Connect(Create(g, "mtlxrange", key + "_ADJ"), range, Index(0), img), surf, Named(input), range)
  }

  /** `_setup_glossiness_texture`: like the roughness setup, with the output range inverted. */
  function SetupGlossiness(g: Net, img: nat, key: string, surf: nat, input: string): Net {
    var range := g.next;
    var g1 := Connect(Create(g, "mtlxrange", key + "_ADJ"), range, Index(0), img);
    var g2 := WithParm(WithParm(g1, range, "outlow", Num(1)), range, "outhigh", Num(0));
    Connect(g2, surf, Named(input), range)
  }

  /** `_setup_sss_texture`: the colour setup, then `subsurface` set to 1 on the shader. */
  function SetupSubsurface(g: Net, img: nat, key: string, surf: nat, input: string): Net {
    WithParm(SetupColour(g, img, key, surf, input), surf, "subsurface", Num(1))
  }

  /** `_setup_direct_texture` */
  function SetupDirect(g: Net, img: nat, surf: nat, input: string): Net {
    Connect(g, surf, Named(input), img)
  }

  /** `_setup_displacement_texture` */
  function SetupDisplacement(g: Net, img: nat, disp: nat): Net {
    Connect(g, disp, Index(0), img)
  }

  /** `_setup_mask_texture`: a `mtlxseparate3c` node `<key>_SPLIT` reading the image. */
  function SetupMask(g: Net, img: nat, key: string): Net {
    var sep := g.next;
    Connect(Create(g, "mtlxseparate3c", key + "_SPLIT"), sep, Index(0), img)
  }

  /** `_connect_texture` */
  function ConnectTexture(g: Net, ctx: Ctx, img: nat, p: Pair): Net {
    var g1 :=
      match ConnectionMap(p.role)
      case None => g
      case Some(c) =>
        match c.setup
        case Colour => SetupColour(g, img, p.key, ctx.surf, c.input)
        case Direct => SetupDirect(g, img, ctx.surf, c.input)
        case Roughness => SetupRoughness(g, img, p.key, ctx.surf, c.input)
        case Subsurface => SetupSubsurface(g, img, p.key, ctx.surf, c.input);
    var g2 := if p.role == Disp then SetupDisplacement(g1, img, ctx.disp) else g1;
    if p.role == Extra then SetupMask(g2, img, p.key) else g2
  }

  /** One iteration of the `_process_textures` loop. */
  function ApplyPair(g: Net, ctx: Ctx, p: Pair): Net {
    ConnectTexture(TextureNode(g, ctx, p), ctx, g.next, p)
  }

  /** The whole `_process_textures` loop. */
  function ApplyPairs(g: Net, ctx: Ctx, ps: seq<Pair>): Net {
    if ps == [] then g else ApplyPair(ApplyPairs(g, ctx, ps[..|ps| - 1]), ctx, ps[|ps| - 1])
  }

  // ---------------------------------------------------------------------
  // What one texture does to the network
  // ---------------------------------------------------------------------

  /** Where a role's texture ends up: a shader input, or the displacement node. */
  datatype Port = Surface(input: string) | Displacement

  function Feeds(role: Role): Option<Port> {
    if role == Disp then Some(Displacement)
    else match ConnectionMap(role)
      case None => None
      case Some(c) => Some(Surface(c.input))
  }

  function PortKey(ctx: Ctx, port: Port): (nat, Slot) {
    match port
    case Surface(input) => (ctx.surf, Named(input))
    case Displacement => (ctx.disp, Index(0))
  }

  /** Name of the node that ends up on a pair's port: its range node, or the image itself. */
  function FeedName(p: Pair): string {
    match ConnectionMap(p.role)
    case Some(Connection(_, Colour)) => p.key + "_CC"
    case Some(Connection(_, Subsurface)) => p.key + "_CC"
    case Some(Connection(_, Roughness)) => p.key + "_ADJ"
    case _ => p.key
  }

  function FeedKind(p: Pair, udim: bool): string {
    match ConnectionMap(p.role)
    case Some(Connection(_, Direct)) => ImageKind(udim)
    case Some(_) => "mtlxrange"
    case None => ImageKind(udim)
  }

  /** The connection a pair's texture lands on, if any. */
  function PortsOf(ctx: Ctx, p: Pair): set<(nat, Slot)> {
    match Feeds(p.role)
    case None => {}
    case Some(port) => {PortKey(ctx, port)}
  }

  /** Every identifier in use, by a node or as the consumer of a connection, is below `next`. */
  predicate Numbered(g: Net) {
    && (forall id :: id in g.nodes ==> id < g.next)
    && (forall w :: w in g.wires ==> w.0 < g.next)
  }

  /** The nodes the context refers to were created before. */
  predicate Before(ctx: Ctx, g: Net) {
    ctx.surf < g.next && ctx.disp < g.next && (ctx.place2d.Some? ==> ctx.place2d.value < g.next)
  }

  /** Every connection of `h` into a node older than `g.next` is one of `g`'s, or lands on a port in `ports`. */
  predicate OldWiresKept(g: Net, h: Net, ports: set<(nat, Slot)>) {
    && (forall w :: w in g.wires && w !in ports ==> w in h.wires && h.wires[w] == g.wires[w])
    && (forall w :: w in h.wires && w.0 < g.next ==> w in g.wires || w in ports)
  }

  /** No node carries an `outlow` parameter: no range output is inverted. */
  predicate NoOutlow(g: Net) {
    forall id :: id in g.nodes ==> "outlow" !in g.nodes[id].parms
  }

  /**
   * `h` extends `g`: the nodes of `g` keep their type and name (and their
   * parameters, the shader's aside), the nodes added are not image nodes,
   * identifiers stay below `next`, connections into old nodes change only
   * at `ports`, and no inverted range appears.
   */
  predicate Grows(g: Net, h: Net, ctx: Ctx, ports: set<(nat, Slot)>) {
    KeepsNodes(g, h, ctx) && NewImagesHooked(g, h, ctx) && OldWiresKept(g, h, ports)
  }

  predicate KeepsNodes(g: Net, h: Net, ctx: Ctx) {
    && h.next >= g.next
    && Numbered(h)
    && (forall id :: id in g.nodes ==> id in h.nodes && h.nodes[id].kind == g.nodes[id].kind && h.nodes[id].name == g.nodes[id].name)
    && (forall id :: id in g.nodes && id != ctx.surf ==> h.nodes[id].parms == g.nodes[id].parms)
    && (NoOutlow(g) ==> NoOutlow(h))
  }

  predicate NewImagesHooked(g: Net, h: Net, ctx: Ctx) {
    forall id :: g.next <= id < h.next ==> id in h.nodes && (h.nodes[id].kind == ImageKind(ctx.udim) ==> Hooked(h, ctx, id))
  }

  /** An image node reads the place2d output on input 2 exactly when place2d exists and the set is not UDIM. */
  predicate Hooked(h: Net, ctx: Ctx, id: nat) {
    && ((id, Index(2)) in h.wires <==> ctx.place2d.Some? && !ctx.udim)
    && (ctx.place2d.Some? && !ctx.udim ==> h.wires[(id, Index(2))] == ctx.place2d.value)
  }

  lemma GrowsTrans(g: Net, h: Net, k: Net, ctx: Ctx, p: set<(nat, Slot)>, q: set<(nat, Slot)>)
    requires Grows(g, h, ctx, p) && Grows(h, k, ctx, q)
    requires forall w :: w in q ==> w.0 < g.next
    ensures Grows(g, k, ctx, p + q)
    ensures p == {} ==> Grows(g, k, ctx, q)
  {
    if p == {} {
      assert p + q == q;
    }
  }

  lemma GrowsTexture(g: Net, ctx: Ctx, p: Pair)
    requires Numbered(g) && Before(ctx, g)
    ensures Grows(g, TextureNode(g, ctx, p), ctx, {})
  {
    CreateImageFacts(g, ctx, p);
    GrowsByImage(g, TextureNode(g, ctx, p), ctx, ImageNode(ctx, p));
  }

  /** One image node added, hooked to place2d as `Hooked` says, and nothing else changed. */
  lemma GrowsByImage(g: Net, t: Net, ctx: Ctx, image: Node)
    requires Numbered(g) && Before(ctx, g)
    requires image.kind == ImageKind(ctx.udim) && "outlow" !in image.parms
    requires t.next == g.next + 1 && t.nodes == g.nodes[g.next := image]
    requires t.wires == if ctx.place2d.Some? && !ctx.udim then g.wires[(g.next, Index(2)) := ctx.place2d.value] else g.wires
    ensures Grows(g, t, ctx, {})
  {
    assert Hooked(t, ctx, g.next);
  }

  lemma GrowsConnect(t: Net, ctx: Ctx, img: nat, p: Pair)
    requires Numbered(t) && Before(ctx, t)
    ensures Grows(t, ConnectTexture(t, ctx, img, p), ctx, PortsOf(ctx, p))
  {
    var r := ConnectTexture(t, ctx, img, p);
    if p.role == Disp {
      assert r == SetupDisplacement(t, img, ctx.disp) && PortsOf(ctx, p) == {(ctx.disp, Index(0))};
      GrowsDisplacement(t, img, ctx);
    } else if p.role == Extra {
      assert r == SetupMask(t, img, p.key) && PortsOf(ctx, p) == {};
      GrowsMask(t, img, p.key, ctx);
    } else {
      match ConnectionMap(p.role)
      case None =>
        assert r == t && PortsOf(ctx, p) == {};
        GrowsNothing(t, ctx);
      case Some(c) =>
        assert PortsOf(ctx, p) == {(ctx.surf, Named(c.input))};
        match c.setup
        case Colour =>
          assert r == SetupColour(t, img, p.key, ctx.surf, c.input);
          GrowsColour(t, img, p.key, ctx, c.input);
        case Direct =>
          assert r == SetupDirect(t, img, ctx.surf, c.input);
          GrowsDirect(t, img, ctx, c.input);
        case Roughness =>
          assert r == SetupRoughness(t, img, p.key, ctx.surf, c.input);
          GrowsRoughness(t, img, p.key, ctx, c.input);
        case Subsurface =>
          assert r == SetupSubsurface(t, img, p.key, ctx.surf, c.input);
          GrowsSubsurface(t, img, p.key, ctx, c.input);
    }
  }

  /** One pass of the `_process_textures` loop only extends the network. */
  lemma GrowsStep(g: Net, ctx: Ctx, p: Pair)
    requires Numbered(g) && Before(ctx, g)
    ensures Grows(g, ApplyPair(g, ctx, p), ctx, PortsOf(ctx, p))
  {
    var t := TextureNode(g, ctx, p);
    var c := ConnectTexture(t, ctx, g.next, p);
    assert c == ApplyPair(g, ctx, p);
    GrowsTexture(g, ctx, p);
    GrowsConnect(t, ctx, g.next, p);
    PortsBelow(ctx, p, g);
    GrowsTrans(g, t, c, ctx, {}, PortsOf(ctx, p));
  }

  lemma PortsBelow(ctx: Ctx, p: Pair, g: Net)
    requires Before(ctx, g)
    ensures forall w :: w in PortsOf(ctx, p) ==> w.0 < g.next
  {
  }

  lemma GrowsNothing(g: Net, ctx: Ctx)
    requires Numbered(g)
    ensures Grows(g, g, ctx, {})
  {
  }

  lemma TextureNodeFacts(g: Net, ctx: Ctx, p: Pair)
    requires Numbered(g) && Before(ctx, g)
    ensures var t := TextureNode(g, ctx, p);
      && t.next == g.next + 1 && Numbered(t) && Before(ctx, t)
      && t.nodes.Keys == g.nodes.Keys + {g.next}
      && (forall id :: id in g.nodes ==> t.nodes[id] == g.nodes[id])
      && t.nodes[g.next] == ImageNode(ctx, p)
      && t.wires == if ctx.place2d.Some? && !ctx.udim then g.wires[(g.next, Index(2)) := ctx.place2d.value] else g.wires
  {
    CreateImageFacts(g, ctx, p);
  }

  /** The image node is the one new node, and no connection is made. */
  lemma CreateImageFacts(g: Net, ctx: Ctx, p: Pair)
    ensures var t := CreateImage(g, ctx, p);
      && t.next == g.next + 1 && t.wires == g.wires
      && t.nodes == g.nodes[g.next := ImageNode(ctx, p)]
  {
    var settings := ImageSettings13(p.role, ctx.tx);
    var file := Str(TexturePath13(ctx.folder, p.file, ctx.udim, ctx.tx, ctx.job));
    var n := Node(ImageKind(ctx.udim), p.key, map[]);
    assert CreateImage(g, ctx, p).nodes
        == g.nodes[g.next := n][g.next := n.(parms := n.parms["file" := file])]
                  [g.next := n.(parms := n.parms["file" := file]["signature" := Str(settings.0)])]
                  [g.next := ImageNode(ctx, p)];
  }

  lemma GrowsColour(g: Net, img: nat, key: string, ctx: Ctx, input: string)
    requires Numbered(g) && Before(ctx, g)
    ensures Grows(g, SetupColour(g, img, key, ctx.surf, input), ctx, {(ctx.surf, Named(input))})
  {
    var range := Node("mtlxrange", key + "_CC", map[]);
    var h := SetupColour(g, img, key, ctx.surf, input);
    assert h.nodes == g.nodes[g.next := range][g.next := range.(parms := map["signature" := Str("color3")])];
    GrowsByRange(g, h, ctx, range.(parms := map["signature" := Str("color3")]), img, input);
  }

  lemma GrowsRoughness(g: Net, img: nat, key: string, ctx: Ctx, input: string)
    requires Numbered(g) && Before(ctx, g)
    ensures Grows(g, SetupRoughness(g, img, key, ctx.surf, input), ctx, {(ctx.surf, Named(input))})
  {
    GrowsByRange(g, SetupRoughness(g, img, key, ctx.surf, input), ctx, Node("mtlxrange", key + "_ADJ", map[]), img, input);
  }

  /** One range node added between an image and a shader input, and nothing else changed. */
  lemma GrowsByRange(g: Net, h: Net, ctx: Ctx, range: Node, img: nat, input: string)
    requires Numbered(g) && Before(ctx, g)
    requires range.kind == "mtlxrange" && "outlow" !in range.parms
    requires h.next == g.next + 1 && h.nodes == g.nodes[g.next := range]
    requires h.wires == g.wires[(g.next, Index(0)) := img][(ctx.surf, Named(input)) := g.next]
    ensures Grows(g, h, ctx, {(ctx.surf, Named(input))})
  {
  }

  lemma GrowsSubsurface(g: Net, img: nat, key: string, ctx: Ctx, input: string)
    requires Numbered(g) && Before(ctx, g)
    ensures Grows(g, SetupSubsurface(g, img, key, ctx.surf, input), ctx, {(ctx.surf, Named(input))})
  {
    var h := SetupColour(g, img, key, ctx.surf, input);
    GrowsColour(g, img, key, ctx, input);
    GrowsSurfaceParm(h, ctx, "subsurface", Num(1));
    GrowsTrans(g, h, WithParm(h, ctx.surf, "subsurface", Num(1)), ctx, {(ctx.surf, Named(input))}, {});
    assert {(ctx.surf, Named(input))} + {} == {(ctx.surf, Named(input))};
  }

  /** Setting a parameter (other than `outlow`) on the shader changes no connection and no other node. */
  lemma GrowsSurfaceParm(h: Net, ctx: Ctx, key: string, v: Value)
    requires Numbered(h) && key != "outlow"
    ensures Grows(h, WithParm(h, ctx.surf, key, v), ctx, {})
  {
  }

  lemma GrowsDirect(g: Net, img: nat, ctx: Ctx, input: string)
    requires Numbered(g) && Before(ctx, g)
    ensures Grows(g, SetupDirect(g, img, ctx.surf, input), ctx, {(ctx.surf, Named(input))})
  {
  }

  lemma GrowsDisplacement(g: Net, img: nat, ctx: Ctx)
    requires Numbered(g) && Before(ctx, g)
    ensures Grows(g, SetupDisplacement(g, img, ctx.disp), ctx, {(ctx.disp, Index(0))})
  {
  }

  lemma GrowsMask(g: Net, img: nat, key: string, ctx: Ctx)
    requires Numbered(g) && Before(ctx, g)
    ensures Grows(g, SetupMask(g, img, key), ctx, {})
  {
  }

  /** After `_connect_texture`, a pair's port is fed by its range node or by the image itself. */
  lemma ConnectPort(t: Net, ctx: Ctx, img: nat, p: Pair)
    requires Numbered(t) && Before(ctx, t) && Feeds(p.role).Some?
    requires img in t.nodes && t.nodes[img].kind == ImageKind(ctx.udim) && t.nodes[img].name == p.key
    ensures var c := ConnectTexture(t, ctx, img, p); var k := PortKey(ctx, Feeds(p.role).value);
      && k in c.wires && c.wires[k] in c.nodes && (c.wires[k] == img || t.next <= c.wires[k] < c.next)
      && c.nodes[c.wires[k]].name == FeedName(p) && c.nodes[c.wires[k]].kind == FeedKind(p, ctx.udim)
  {
    match ConnectionMap(p.role)
    case None =>
      assert ConnectTexture(t, ctx, img, p) == SetupDisplacement(t, img, ctx.disp);
    case Some(c) =>
      match c.setup
      case Colour =>
        assert ConnectTexture(t, ctx, img, p) == SetupColour(t, img, p.key, ctx.surf, c.input);
        assert FeedName(p) == p.key + "_CC";
      case Direct =>
        assert ConnectTexture(t, ctx, img, p) == SetupDirect(t, img, ctx.surf, c.input);
      case Roughness =>
        assert ConnectTexture(t, ctx, img, p) == SetupRoughness(t, img, p.key, ctx.surf, c.input);
      case Subsurface =>
        assert ConnectTexture(t, ctx, img, p) == SetupSubsurface(t, img, p.key, ctx.surf, c.input);
        assert FeedName(p) == p.key + "_CC";
  }

  /** `_connect_texture` never gives back identifiers. */
  lemma ConnectNext(t: Net, ctx: Ctx, img: nat, p: Pair)
    ensures ConnectTexture(t, ctx, img, p).next >= t.next
  {
  }

  lemma StepPort(g: Net, ctx: Ctx, p: Pair)
    requires Numbered(g) && Before(ctx, g) && Feeds(p.role).Some?
    ensures var r := ApplyPair(g, ctx, p); var k := PortKey(ctx, Feeds(p.role).value);
      && k in r.wires && g.next <= r.wires[k] < r.next && r.wires[k] in r.nodes
      && r.nodes[r.wires[k]].name == FeedName(p) && r.nodes[r.wires[k]].kind == FeedKind(p, ctx.udim)
  {
    var t := TextureNode(g, ctx, p);
    TextureNodeFacts(g, ctx, p);
    ConnectPort(t, ctx, g.next, p);
    ConnectNext(t, ctx, g.next, p);
  }

  // ---------------------------------------------------------------------
  // What the whole texture loop does
  // ---------------------------------------------------------------------

  /** Every connection some pair of `ps` lands on. */
  function AllPorts(ctx: Ctx, ps: seq<Pair>): set<(nat, Slot)> {
    if ps == [] then {} else AllPorts(ctx, ps[..|ps| - 1]) + PortsOf(ctx, ps[|ps| - 1])
  }

  /** Index of the last pair routed to `port`. */
  function LastFeeding(ps: seq<Pair>, port: Port): (r: Option<nat>)
    ensures r.Some? ==> r.value < |ps| && Feeds(ps[r.value].role) == Some(port)
    ensures r.Some? ==> forall i :: r.value < i < |ps| ==> Feeds(ps[i].role) != Some(port)
    ensures r.None? ==> forall i :: 0 <= i < |ps| ==> Feeds(ps[i].role) != Some(port)
  {
    if ps == [] then None
    else if Feeds(ps[|ps| - 1].role) == Some(port) then Some(|ps| - 1)
    else LastFeeding(ps[..|ps| - 1], port)
  }

  /**
   * The loop only extends the network: old nodes keep type, name and (the
   * shader aside) parameters, every image it creates reads place2d exactly
   * when the set is not UDIM, old connections change only on the ports the
   * pairs are routed to, and no inverted range is created.
   */
  lemma {:induction false} FoldGrows(g: Net, ctx: Ctx, ps: seq<Pair>)
    requires Numbered(g) && Before(ctx, g)
    ensures Grows(g, ApplyPairs(g, ctx, ps), ctx, AllPorts(ctx, ps))
  {
    if ps == [] {
      GrowsNothing(g, ctx);
    } else {
      var init, p := ps[..|ps| - 1], ps[|ps| - 1];
      FoldGrows(g, ctx, init);
      var h := ApplyPairs(g, ctx, init);
      GrowsStep(h, ctx, p);
      PortsBelow(ctx, p, g);
      GrowsTrans(g, h, ApplyPair(h, ctx, p), ctx, AllPorts(ctx, init), PortsOf(ctx, p));
    }
  }

  /** A port no pair is routed to keeps its connection, or its lack of one. */
  lemma {:induction false} FoldPortUnrouted(g: Net, ctx: Ctx, ps: seq<Pair>, port: Port)
    requires Numbered(g) && Before(ctx, g) && LastFeeding(ps, port).None?
    ensures var r := ApplyPairs(g, ctx, ps); var k := PortKey(ctx, port);
      (k in r.wires <==> k in g.wires) && (k in g.wires ==> r.wires[k] == g.wires[k])
  {
    if ps != [] {
      var init, p := ps[..|ps| - 1], ps[|ps| - 1];
      FoldPortUnrouted(g, ctx, init, port);
      FoldGrows(g, ctx, init);
      var h := ApplyPairs(g, ctx, init);
      GrowsStep(h, ctx, p);
      KeepsPort(h, ApplyPair(h, ctx, p), ctx, PortsOf(ctx, p), PortKey(ctx, port));
    }
  }

  /**
   * A port some pair is routed to is fed, after the loop, by a node the loop
   * created and named after the LAST such pair (so a later Gloss texture
   * replaces an earlier Rough one on `specular_roughness`).
   */
  lemma {:induction false} FoldPortRouted(g: Net, ctx: Ctx, ps: seq<Pair>, port: Port)
    requires Numbered(g) && Before(ctx, g) && LastFeeding(ps, port).Some?
    ensures var r := ApplyPairs(g, ctx, ps); var k := PortKey(ctx, port); var j := LastFeeding(ps, port).value;
      && k in r.wires && g.next <= r.wires[k] < r.next && r.wires[k] in r.nodes
      && r.nodes[r.wires[k]].name == FeedName(ps[j]) && r.nodes[r.wires[k]].kind == FeedKind(ps[j], ctx.udim)
  {
    var init, p := ps[..|ps| - 1], ps[|ps| - 1];
    FoldGrows(g, ctx, init);
    var h := ApplyPairs(g, ctx, init);
    assert ApplyPairs(g, ctx, ps) == ApplyPair(h, ctx, p);
    if Feeds(p.role) == Some(port) {
      StepPort(h, ctx, p);
    } else {
      assert LastFeeding(ps, port) == LastFeeding(init, port);
      FoldPortRouted(g, ctx, init, port);
      RoutedKept(g, h, ApplyPair(h, ctx, p), ctx, p, port);
    }
  }

  lemma RoutedKept(g: Net, h: Net, r: Net, ctx: Ctx, p: Pair, port: Port)
    requires Numbered(h) && Before(ctx, h) && r == ApplyPair(h, ctx, p) && Feeds(p.role) != Some(port)
    requires var k := PortKey(ctx, port); k in h.wires && g.next <= h.wires[k] < h.next && h.wires[k] in h.nodes
    ensures var k := PortKey(ctx, port);
      && k in r.wires && r.wires[k] == h.wires[k] && h.wires[k] < r.next && r.wires[k] in r.nodes
      && r.nodes[r.wires[k]].name == h.nodes[h.wires[k]].name && r.nodes[r.wires[k]].kind == h.nodes[h.wires[k]].kind
  {
    GrowsStep(h, ctx, p);
    KeepsPort(h, r, ctx, PortsOf(ctx, p), PortKey(ctx, port));
  }

  /** A connection into an old node that is not one of the ports stays as it was, producer included. */
  lemma KeepsPort(h: Net, r: Net, ctx: Ctx, ports: set<(nat, Slot)>, k: (nat, Slot))
    requires Grows(h, r, ctx, ports) && k !in ports && k.0 < h.next && Numbered(h)
    ensures k in r.wires <==> k in h.wires
    ensures k in h.wires ==> r.wires[k] == h.wires[k]
    ensures k in h.wires && h.wires[k] in h.nodes ==>
      r.wires[k] in r.nodes && r.nodes[r.wires[k]].name == h.nodes[h.wires[k]].name
      && r.nodes[r.wires[k]].kind == h.nodes[h.wires[k]].kind
  {
  }

  lemma FoldNumbered(g: Net, ctx: Ctx, ps: seq<Pair>)
    requires Numbered(g) && Before(ctx, g)
    ensures var r := ApplyPairs(g, ctx, ps); Numbered(r) && g.next <= r.next
  {
    FoldGrows(g, ctx, ps);
  }

  /** For every pair of `ps`, `r` holds its image node among the nodes numbered from `g.next`. */
  predicate HasImages(g: Net, r: Net, ctx: Ctx, ps: seq<Pair>) {
    forall i :: 0 <= i < |ps| ==> exists id :: g.next <= id < r.next && id in r.nodes && r.nodes[id] == ImageNode(ctx, ps[i])
  }

  /** Every pair leaves its image node behind, with the role's settings and file. */
  lemma {:induction false} FoldImages(g: Net, ctx: Ctx, ps: seq<Pair>)
    requires Numbered(g) && Before(ctx, g)
    ensures HasImages(g, ApplyPairs(g, ctx, ps), ctx, ps)
  {
    if ps != [] {
      var init, p := ps[..|ps| - 1], ps[|ps| - 1];
      FoldImages(g, ctx, init);
      FoldNumbered(g, ctx, init);
      var h := ApplyPairs(g, ctx, init);
      var r := ApplyPair(h, ctx, p);
      StepImageKept(g, h, ctx, p);
      CarryImages(g, h, r, ctx, init, p, ps);
      assert r == ApplyPairs(g, ctx, ps);
    }
  }

  lemma CarryImages(g: Net, h: Net, r: Net, ctx: Ctx, init: seq<Pair>, p: Pair, ps: seq<Pair>)
    requires |ps| == |init| + 1 && ps[|init|] == p && forall i :: 0 <= i < |init| ==> ps[i] == init[i]
    requires HasImages(g, h, ctx, init)
    requires g.next <= h.next < r.next && h.next in r.nodes && r.nodes[h.next] == ImageNode(ctx, p)
    requires forall id :: g.next <= id && id in h.nodes ==> id in r.nodes && r.nodes[id] == h.nodes[id]
    ensures HasImages(g, r, ctx, ps)
  {
    forall i | 0 <= i < |ps|
      ensures exists id :: g.next <= id < r.next && id in r.nodes && r.nodes[id] == ImageNode(ctx, ps[i])
    {
      if i < |init| {
        assert ps[i] == init[i];
        var id :| g.next <= id < h.next && id in h.nodes && h.nodes[id] == ImageNode(ctx, init[i]);
        assert r.nodes[id] == h.nodes[id];
      } else {
        assert r.nodes[h.next] == ImageNode(ctx, ps[i]);
      }
    }
  }

  /** A step keeps the nodes created before it, and adds the pair's image under `h.next`. */
  lemma StepImageKept(g: Net, h: Net, ctx: Ctx, p: Pair)
    requires Numbered(h) && Before(ctx, g) && g.next <= h.next
    ensures var r := ApplyPair(h, ctx, p);
      && h.next < r.next && h.next in r.nodes && r.nodes[h.next] == ImageNode(ctx, p)
      && (forall id :: g.next <= id && id in h.nodes ==> id in r.nodes && r.nodes[id] == h.nodes[id])
  {
    GrowsStep(h, ctx, p);
    var t := TextureNode(h, ctx, p);
    TextureNodeFacts(h, ctx, p);
    GrowsConnect(t, ctx, h.next, p);
  }

  // ---------------------------------------------------------------------
  // _create_main_nodes, _create_output_nodes, _setup_place2d
  // ---------------------------------------------------------------------

  /** `_create_output_nodes`: a subnet connector `<type>_output` exporting `type`. */
  function OutputNode(g: Net, outputType: string): Net {
    var id := g.next;
    var g1 := WithParm(Create(g, "subnetconnector", outputType + "_output"), id, "connectorkind", Str("output"));
    var g2 := WithParm(WithParm(g1, id, "parmname", Str(outputType)), id, "parmlabel", Str(Capitalize(outputType)));
    WithParm(g2, id, "parmtype", Str(outputType))
  }

  /** `_create_main_nodes`: the shader, the displacement node and the two outputs reading them. */
  function MainNodes(g: Net, material: string): Net {
    var surf, disp := g.next, g.next + 1;
    var g1 := Create(Create(g, "mtlxstandard_surface", material + "_mtlxSurface"), "mtlxdisplacement", material + "_mtlxDisp");
    var g2 := OutputNode(OutputNode(g1, "surface"), "displacement");
    Connect(Connect(g2, g.next + 2, Index(0), surf), g.next + 3, Index(0), disp)
  }

  function Connector(outputType: string, caption: string): Node {
    Node("subnetconnector", outputType + "_output",
         map["connectorkind" := Str("output"), "parmname" := Str(outputType),
             "parmlabel" := Str(caption), "parmtype" := Str(outputType)])
  }

  /** `capitalize()` of a word whose tail is already lower case only raises its first letter. */
  lemma CapitalizeWord(s: string)
    requires s != [] && IsLowerCase(s[1..])
    ensures Capitalize(s) == [UpperChar(s[0])] + s[1..]
  {
    LowerOfLowerCase(s[1..]);
  }

  lemma CapitalizedLabels()
    ensures Capitalize("surface") == "Surface" && Capitalize("displacement") == "Displacement"
  {
    assert "surface"[1..] == "urface" && IsLowerCase("urface");
    assert "displacement"[1..] == "isplacement" && IsLowerCase("isplacement");
    CapitalizeWord("surface");
    CapitalizeWord("displacement");
  }

  lemma OutputNodeShape(g: Net, outputType: string)
    ensures var r := OutputNode(g, outputType);
      && r.next == g.next + 1 && r.wires == g.wires
      && r.nodes == g.nodes[g.next := Connector(outputType, Capitalize(outputType))]
  {
  }

  /**
   * The shader and displacement node come first, named after the material;
   * `surface_output` and `displacement_output` read them on input 0 and
   * export parameters labelled `Surface` and `Displacement`.
   */
  lemma MainNodesShape(g: Net, material: string)
    ensures var r := MainNodes(g, material); var n := g.next;
      && r.next == n + 4
      && r.nodes == g.nodes[n := Node("mtlxstandard_surface", material + "_mtlxSurface", map[])]
                           [n + 1 := Node("mtlxdisplacement", material + "_mtlxDisp", map[])]
                           [n + 2 := Connector("surface", "Surface")]
                           [n + 3 := Connector("displacement", "Displacement")]
      && r.wires == g.wires[(n + 2, Index(0)) := n][(n + 3, Index(0)) := n + 1]
  {
    var g1 := Create(Create(g, "mtlxstandard_surface", material + "_mtlxSurface"), "mtlxdisplacement", material + "_mtlxDisp");
    OutputsShape(g1);
    ShadersThenOutputs(g, material, g1, OutputNode(OutputNode(g1, "surface"), "displacement"));
  }

  /** The two shader nodes, then the two connectors reading them on input 0. */
  lemma ShadersThenOutputs(g: Net, material: string, g1: Net, g3: Net)
    requires g1 == Create(Create(g, "mtlxstandard_surface", material + "_mtlxSurface"), "mtlxdisplacement", material + "_mtlxDisp")
    requires g3.next == g1.next + 2 && g3.wires == g1.wires
    requires g3.nodes == g1.nodes[g1.next := Connector("surface", "Surface")][g1.next + 1 := Connector("displacement", "Displacement")]
    ensures var r := Connect(Connect(g3, g.next + 2, Index(0), g.next), g.next + 3, Index(0), g.next + 1); var n := g.next;
      && r.next == n + 4
      && r.nodes == g.nodes[n := Node("mtlxstandard_surface", material + "_mtlxSurface", map[])]
                           [n + 1 := Node("mtlxdisplacement", material + "_mtlxDisp", map[])]
                           [n + 2 := Connector("surface", "Surface")]
                           [n + 3 := Connector("displacement", "Displacement")]
      && r.wires == g.wires[(n + 2, Index(0)) := n][(n + 3, Index(0)) := n + 1]
  {
  }

  /** The two output connectors, in this order, and nothing else. */
  lemma OutputsShape(g: Net)
    ensures var r := OutputNode(OutputNode(g, "surface"), "displacement");
      && r.next == g.next + 2 && r.wires == g.wires
      && r.nodes == g.nodes[g.next := Connector("surface", "Surface")][g.next + 1 := Connector("displacement", "Displacement")]
  {
    OutputNodeShape(g, "surface");
    OutputNodeShape(OutputNode(g, "surface"), "displacement");
    CapitalizedLabels();
  }

  lemma MainNodesNumbered(g: Net, material: string)
    requires Numbered(g)
    ensures Numbered(MainNodes(g, material))
  {
    MainNodesShape(g, material);
  }

  /** `_setup_place2d` when the set is not UDIM: texcoord, three constants and the place2d node. */
  function Place2d(g: Net, material: string): Net {
    var coord := g.next;
    var place := coord + 4;
    var g3 := WithParm(Place2dNodes(g, material), coord + 1, "value", Num(1));
    var g4 := Connect(Connect(g3, place, Index(0), coord), place, Index(2), coord + 1);
    Connect(Connect(g4, place, Index(3), coord + 2), place, Index(4), coord + 3)
  }

  /** The five nodes of the place2d chain, created in this order. */
  function Place2dNodes(g: Net, material: string): Net {
    var g1 := Create(Create(g, "mtlxtexcoord", material + "_textcoord"), "mtlxconstant", material + "_scale");
    Create(Create(Create(g1, "mtlxconstant", material + "_rotation"), "mtlxconstant", material + "_offset"), "mtlxplace2d", material + "_place2d")
  }

  /**
   * The place2d node (created last) reads the texcoord on input 0, the scale
   * constant (value 1) on input 2, rotation on 3 and offset on 4.
   */
  lemma Place2dShape(g: Net, material: string)
    ensures var r := Place2d(g, material); var n := g.next;
      && r.next == n + 5
      && r.nodes == g.nodes[n := Node("mtlxtexcoord", material + "_textcoord", map[])]
                           [n + 1 := Node("mtlxconstant", material + "_scale", map["value" := Num(1)])]
                           [n + 2 := Node("mtlxconstant", material + "_rotation", map[])]
                           [n + 3 := Node("mtlxconstant", material + "_offset", map[])]
                           [n + 4 := Node("mtlxplace2d", material + "_place2d", map[])]
      && r.wires == g.wires[(n + 4, Index(0)) := n][(n + 4, Index(2)) := n + 1][(n + 4, Index(3)) := n + 2][(n + 4, Index(4)) := n + 3]
  {
    var n := g.next;
    var g3 := Place2dNodes(g, material);
    var coord, rotation, offset, place := Node("mtlxtexcoord", material + "_textcoord", map[]), Node("mtlxconstant", material + "_rotation", map[]),
                                          Node("mtlxconstant", material + "_offset", map[]), Node("mtlxplace2d", material + "_place2d", map[]);
    var scale := Node("mtlxconstant", material + "_scale", map[]);
    assert g3.next == n + 5 && g3.wires == g.wires;
    assert g3.nodes == g.nodes[n := coord][n + 1 := scale][n + 2 := rotation][n + 3 := offset][n + 4 := place];
    ReplaceSecond(g.nodes, n, coord, scale, rotation, offset, place, scale.(parms := scale.parms["value" := Num(1)]));
  }

  lemma Place2dNumbered(g: Net, material: string)
    requires Numbered(g)
    ensures Numbered(Place2d(g, material))
  {
    Place2dShape(g, material);
  }

  // ---------------------------------------------------------------------
  // _find_bump_normal_textures and _setup_bump_normal
  // ---------------------------------------------------------------------

  /** The lists `_find_bump_normal_textures` matches keys against, exactly. */
  const BumpKeys: seq<string> := ["bump", "bmp", "height"]
  const NormalKeys: seq<string> := ["normal", "nor", "nrm", "nrml", "norm"]

  /** Position of the last key of `keys` that is listed in `names`. */
  function LastListedAt(keys: seq<string>, names: seq<string>): (r: Option<nat>)
    ensures r.Some? ==> r.value < |keys| && keys[r.value] in names
    ensures r.Some? ==> forall j :: r.value < j < |keys| ==> keys[j] !in names
    ensures r.None? ==> forall j :: 0 <= j < |keys| ==> keys[j] !in names
  {
    if keys == [] then None
    else if keys[|keys| - 1] in names then Some(|keys| - 1)
    else LastListedAt(keys[..|keys| - 1], names)
  }

  /** The key `_find_bump_normal_textures` reports: later keys overwrite earlier ones. */
  function LastListed(keys: seq<string>, names: seq<string>): (r: Option<string>)
    ensures r.Some? ==> r.value in keys && r.value in names
  {
    match LastListedAt(keys, names)
    case None => None
    case Some(i) => Some(keys[i])
  }

  /** One more key scanned: a listed key replaces the previous one. */
  lemma LastListedStep(keys: seq<string>, i: nat, names: seq<string>)
    requires i < |keys|
    ensures LastListed(keys[..i + 1], names) == if keys[i] in names then Some(keys[i]) else LastListed(keys[..i], names)
  {
    assert keys[..i + 1][..i] == keys[..i];
  }

  function BumpImage(ctx: Ctx, file: string): Node {
    Node(ImageKind(ctx.udim), "bump",
         map["signature" := Str("float"), "filecolorspace" := Str("raw"),
             "file" := Str(TexturePath13(ctx.folder, file, ctx.udim, ctx.tx, ctx.job))])
  }

  function NormalImage(ctx: Ctx, file: string): Node {
    Node(ImageKind(ctx.udim), "normal",
         map["signature" := Str("vector3"), "filecolorspace" := Str("raw"),
             "file" := Str(TexturePath13(ctx.folder, file, ctx.udim, ctx.tx, ctx.job))])
  }

  /** The image node of `_create_bump` / `_create_normal`, hooked to place2d like the others. */
  function MapImage(g: Net, ctx: Ctx, name: string, signature: string, file: string): Net {
    var img := g.next;
    var g1 := Create(g, ImageKind(ctx.udim), name);
    var g2 := WithParm(WithParm(g1, img, "signature", Str(signature)), img, "filecolorspace", Str("raw"));
    var g3 := WithParm(g2, img, "file", Str(TexturePath13(ctx.folder, file, ctx.udim, ctx.tx, ctx.job)));
    if ctx.place2d.Some? && !ctx.udim then Connect(g3, img, Index(2), ctx.place2d.value) else g3
  }

  /** `_create_bump`: `mtlxBump` reading a float image named `bump` on input 0. */
  function CreateBump(g: Net, ctx: Ctx, file: string): Net {
    var g1 := Create(g, "mtlxbump", "mtlxBump");
    Connect(MapImage(g1, ctx, "bump", "float", file), g.next, Index(0), g.next + 1)
  }

  /** `_create_normal`: `mtlxNormal` reading a vector3 image named `normal` on input 0. */
  function CreateNormal(g: Net, ctx: Ctx, file: string): Net {
    var g1 := Create(g, "mtlxnormalmap", "mtlxNormal");
    Connect(MapImage(g1, ctx, "normal", "vector3", file), g.next, Index(0), g.next + 1)
  }

  /** `_setup_bump_normal` */
  function BumpNormal(g: Net, ctx: Ctx, keys: seq<string>, files: map<string, seq<string>>): Net
    requires Stocked(keys, files)
  {
    var bump, normal := LastListed(keys, BumpKeys), LastListed(keys, NormalKeys);
    if bump.None? && normal.None? then g
    else if bump.Some? && normal.Some? then
      var g1 := CreateBump(g, ctx, files[bump.value][0]);
      var g2 := CreateNormal(g1, ctx, files[normal.value][0]);
      Connect(Connect(g2, g.next, Index(2), g1.next), ctx.surf, Named("normal"), g.next)
    else if bump.Some? then
      Connect(CreateBump(g, ctx, files[bump.value][0]), ctx.surf, Named("normal"), g.next)
    else
      Connect(CreateNormal(g, ctx, files[normal.value][0]), ctx.surf, Named("normal"), g.next)
  }

  /** `_create_bump` adds the bump node and its image, and nothing else. */
  lemma CreateBumpShape(g: Net, ctx: Ctx, file: string)
    ensures var r := CreateBump(g, ctx, file); var n := g.next;
      && r.next == n + 2
      && r.nodes == g.nodes[n := Node("mtlxbump", "mtlxBump", map[])][n + 1 := BumpImage(ctx, file)]
      && r.wires == (if ctx.place2d.Some? && !ctx.udim then g.wires[(n + 1, Index(2)) := ctx.place2d.value] else g.wires)[(n, Index(0)) := n + 1]
  {
  }

  /** `_create_normal` adds the normal-map node and its image, and nothing else. */
  lemma CreateNormalShape(g: Net, ctx: Ctx, file: string)
    ensures var r := CreateNormal(g, ctx, file); var n := g.next;
      && r.next == n + 2
      && r.nodes == g.nodes[n := Node("mtlxnormalmap", "mtlxNormal", map[])][n + 1 := NormalImage(ctx, file)]
      && r.wires == (if ctx.place2d.Some? && !ctx.udim then g.wires[(n + 1, Index(2)) := ctx.place2d.value] else g.wires)[(n, Index(0)) := n + 1]
  {
  }

  lemma NotImages(udim: bool)
    ensures "mtlxbump" != ImageKind(udim) && "mtlxnormalmap" != ImageKind(udim)
  {
    assert "mtlxbump"[4] == 'b' && "mtlxnormalmap"[4] == 'n';
    assert ImageKind(udim)[4] in {'i', 't'};
  }

  /** `r` adds a node that is not an image, then an image reading place2d as usual, the first reading the second. */
  predicate AddsTwo(g: Net, r: Net, ctx: Ctx, a: Node, b: Node) {
    && r.next == g.next + 2 && r.nodes == g.nodes[g.next := a][g.next + 1 := b]
    && a.kind != ImageKind(ctx.udim) && b.kind == ImageKind(ctx.udim)
    && "outlow" !in a.parms && "outlow" !in b.parms
    && r.wires == (if ctx.place2d.Some? && !ctx.udim then g.wires[(g.next + 1, Index(2)) := ctx.place2d.value] else g.wires)[(g.next, Index(0)) := g.next + 1]
  }

  lemma GrowsAddTwo(g: Net, r: Net, ctx: Ctx, a: Node, b: Node)
    requires Numbered(g) && Before(ctx, g) && AddsTwo(g, r, ctx, a, b)
    ensures Grows(g, r, ctx, {})
  {
    AddTwoKeeps(g, r, ctx, a, b);
    AddTwoHooked(g, r, ctx, a, b);
    AddTwoWires(g, r, ctx, a, b);
  }

  lemma AddTwoKeeps(g: Net, r: Net, ctx: Ctx, a: Node, b: Node)
    requires Numbered(g) && Before(ctx, g) && AddsTwo(g, r, ctx, a, b)
    ensures KeepsNodes(g, r, ctx)
  {
  }

  lemma AddTwoHooked(g: Net, r: Net, ctx: Ctx, a: Node, b: Node)
    requires Numbered(g) && Before(ctx, g) && AddsTwo(g, r, ctx, a, b)
    ensures NewImagesHooked(g, r, ctx)
  {
    assert Hooked(r, ctx, g.next + 1);
  }

  lemma AddTwoWires(g: Net, r: Net, ctx: Ctx, a: Node, b: Node)
    requires Numbered(g) && Before(ctx, g) && AddsTwo(g, r, ctx, a, b)
    ensures OldWiresKept(g, r, {})
  {
  }

  lemma MapImagesPlain(ctx: Ctx, file: string)
    ensures "outlow" !in BumpImage(ctx, file).parms && "outlow" !in NormalImage(ctx, file).parms
  {
    assert "outlow"[0] == 'o';
    assert "signature"[0] == 's' && "filecolorspace"[0] == 'f' && "file"[0] == 'f';
  }

  lemma GrowsBump(g: Net, ctx: Ctx, file: string)
    requires Numbered(g) && Before(ctx, g)
    ensures Grows(g, CreateBump(g, ctx, file), ctx, {})
  {
    CreateBumpShape(g, ctx, file);
    NotImages(ctx.udim);
    MapImagesPlain(ctx, file);
    GrowsAddTwo(g, CreateBump(g, ctx, file), ctx, Node("mtlxbump", "mtlxBump", map[]), BumpImage(ctx, file));
  }

  lemma GrowsNormal(g: Net, ctx: Ctx, file: string)
    requires Numbered(g) && Before(ctx, g)
    ensures Grows(g, CreateNormal(g, ctx, file), ctx, {})
  {
    CreateNormalShape(g, ctx, file);
    NotImages(ctx.udim);
    MapImagesPlain(ctx, file);
    GrowsAddTwo(g, CreateNormal(g, ctx, file), ctx, Node("mtlxnormalmap", "mtlxNormal", map[]), NormalImage(ctx, file));
  }

  /** Two maps: bump, its image, the normal map and its image, joined through bump input 2. */
  lemma GrowsBoth(g: Net, ctx: Ctx, bumpFile: string, normalFile: string)
    requires Numbered(g) && Before(ctx, g)
    ensures var g1 := CreateBump(g, ctx, bumpFile);
      Grows(g, Connect(CreateNormal(g1, ctx, normalFile), g.next, Index(2), g1.next), ctx, {})
  {
    var g1 := CreateBump(g, ctx, bumpFile);
    var g2 := CreateNormal(g1, ctx, normalFile);
    GrowsBump(g, ctx, bumpFile);
    GrowsNormal(g1, ctx, normalFile);
    GrowsTrans(g, g1, g2, ctx, {}, {});
    BumpNodeAt(g, ctx, bumpFile);
    NotImages(ctx.udim);
    GrowsInnerWire(g, g2, ctx, g.next, Index(2), g1.next);
  }

  lemma BumpNodeAt(g: Net, ctx: Ctx, file: string)
    ensures var r := CreateBump(g, ctx, file);
      r.next == g.next + 2 && g.next in r.nodes && r.nodes[g.next].kind == "mtlxbump"
  {
    CreateBumpShape(g, ctx, file);
  }

  /** Connecting an input of a node created since `g` that is not an image keeps `Grows`. */
  lemma GrowsInnerWire(g: Net, h: Net, ctx: Ctx, consumer: nat, slot: Slot, producer: nat)
    requires Numbered(g) && Grows(g, h, ctx, {}) && g.next <= consumer && consumer in h.nodes
    requires h.nodes[consumer].kind != ImageKind(ctx.udim)
    ensures Grows(g, Connect(h, consumer, slot, producer), ctx, {})
  {
    var r := Connect(h, consumer, slot, producer);
    assert KeepsNodes(g, r, ctx);
    assert NewImagesHooked(g, r, ctx);
  }

  lemma GrowsNormalInput(g: Net, h: Net, ctx: Ctx, producer: nat)
    requires Grows(g, h, ctx, {}) && Before(ctx, g)
    ensures Grows(g, Connect(h, ctx.surf, Named("normal"), producer), ctx, {(ctx.surf, Named("normal"))})
  {
  }

  /**
   * `_setup_bump_normal` only extends the network: its images read place2d
   * like the others, and the only old connection it can change is the
   * shader's `normal` input.
   */
  lemma BumpNormalGrows(g: Net, ctx: Ctx, keys: seq<string>, files: map<string, seq<string>>)
    requires Numbered(g) && Before(ctx, g) && Stocked(keys, files)
    ensures Grows(g, BumpNormal(g, ctx, keys, files), ctx, {(ctx.surf, Named("normal"))})
  {
    var bump, normal := LastListed(keys, BumpKeys), LastListed(keys, NormalKeys);
    if bump.None? && normal.None? {
      GrowsNothing(g, ctx);
      assert Grows(g, g, ctx, {} + {(ctx.surf, Named("normal"))});
    } else if bump.Some? && normal.Some? {
      var g1 := CreateBump(g, ctx, files[bump.value][0]);
      GrowsBoth(g, ctx, files[bump.value][0], files[normal.value][0]);
      GrowsNormalInput(g, Connect(CreateNormal(g1, ctx, files[normal.value][0]), g.next, Index(2), g1.next), ctx, g.next);
    } else if bump.Some? {
      GrowsBump(g, ctx, files[bump.value][0]);
      GrowsNormalInput(g, CreateBump(g, ctx, files[bump.value][0]), ctx, g.next);
    } else {
      GrowsNormal(g, ctx, files[normal.value][0]);
      GrowsNormalInput(g, CreateNormal(g, ctx, files[normal.value][0]), ctx, g.next);
    }
  }

  /** Neither a bump nor a normal key: `_setup_bump_normal` returns without touching the network. */
  lemma NoMapsUnchanged(g: Net, ctx: Ctx, keys: seq<string>, files: map<string, seq<string>>)
    requires Stocked(keys, files)
    requires forall k :: k in keys ==> k !in BumpKeys && k !in NormalKeys
    ensures BumpNormal(g, ctx, keys, files) == g
  {
  }

  /** Bump key only: `mtlxBump` reads the bump image and feeds the shader's `normal` input. */
  lemma BumpOnly(g: Net, ctx: Ctx, keys: seq<string>, files: map<string, seq<string>>)
    requires Stocked(keys, files)
    requires LastListed(keys, BumpKeys).Some? && LastListed(keys, NormalKeys).None?
    ensures var r := BumpNormal(g, ctx, keys, files); var n := g.next;
      var file := files[LastListed(keys, BumpKeys).value][0];
      && r.next == n + 2
      && r.nodes == g.nodes[n := Node("mtlxbump", "mtlxBump", map[])][n + 1 := BumpImage(ctx, file)]
      && (n, Index(0)) in r.wires && r.wires[(n, Index(0))] == n + 1
      && (ctx.surf, Named("normal")) in r.wires && r.wires[(ctx.surf, Named("normal"))] == n
  {
    CreateBumpShape(g, ctx, files[LastListed(keys, BumpKeys).value][0]);
  }

  /** Normal key only: `mtlxNormal` reads the normal image and feeds the shader's `normal` input. */
  lemma NormalOnly(g: Net, ctx: Ctx, keys: seq<string>, files: map<string, seq<string>>)
    requires Stocked(keys, files)
    requires LastListed(keys, BumpKeys).None? && LastListed(keys, NormalKeys).Some?
    ensures var r := BumpNormal(g, ctx, keys, files); var n := g.next;
      var file := files[LastListed(keys, NormalKeys).value][0];
      && r.next == n + 2
      && r.nodes == g.nodes[n := Node("mtlxnormalmap", "mtlxNormal", map[])][n + 1 := NormalImage(ctx, file)]
      && (n, Index(0)) in r.wires && r.wires[(n, Index(0))] == n + 1
      && (ctx.surf, Named("normal")) in r.wires && r.wires[(ctx.surf, Named("normal"))] == n
  {
    CreateNormalShape(g, ctx, files[LastListed(keys, NormalKeys).value][0]);
  }

  /**
   * Both keys: the normal map feeds input 2 of `mtlxBump`, and only
   * `mtlxBump` is on the shader's `normal` input.
   */
  lemma BothMaps(g: Net, ctx: Ctx, keys: seq<string>, files: map<string, seq<string>>, r: Net)
    requires Stocked(keys, files)
    requires LastListed(keys, BumpKeys).Some? && LastListed(keys, NormalKeys).Some?
    requires r == BumpNormal(g, ctx, keys, files)
    ensures var n := g.next;
      var bumpFile := files[LastListed(keys, BumpKeys).value][0];
      var normalFile := files[LastListed(keys, NormalKeys).value][0];
      && r.next == n + 4
      && Wired(r, n, Index(0), n + 1) && Wired(r, n + 2, Index(0), n + 3)
      && Wired(r, n, Index(2), n + 2) && Wired(r, ctx.surf, Named("normal"), n)
      && r.nodes == g.nodes[n := Node("mtlxbump", "mtlxBump", map[])][n + 1 := BumpImage(ctx, bumpFile)]
                           [n + 2 := Node("mtlxnormalmap", "mtlxNormal", map[])][n + 3 := NormalImage(ctx, normalFile)]
  {
    var bumpFile := files[LastListed(keys, BumpKeys).value][0];
    var normalFile := files[LastListed(keys, NormalKeys).value][0];
    var g1 := CreateBump(g, ctx, bumpFile);
    assert r == Connect(Connect(CreateNormal(g1, ctx, normalFile), g.next, Index(2), g1.next), ctx.surf, Named("normal"), g.next);
    BothShape(g, ctx, bumpFile, normalFile, r);
  }

  lemma BothShape(g: Net, ctx: Ctx, bumpFile: string, normalFile: string, r: Net)
    requires var g1 := CreateBump(g, ctx, bumpFile);
      r == Connect(Connect(CreateNormal(g1, ctx, normalFile), g.next, Index(2), g1.next), ctx.surf, Named("normal"), g.next)
    ensures var n := g.next;
      && r.next == n + 4
      && Wired(r, n, Index(0), n + 1) && Wired(r, n + 2, Index(0), n + 3)
      && Wired(r, n, Index(2), n + 2) && Wired(r, ctx.surf, Named("normal"), n)
      && r.nodes == g.nodes[n := Node("mtlxbump", "mtlxBump", map[])][n + 1 := BumpImage(ctx, bumpFile)]
                           [n + 2 := Node("mtlxnormalmap", "mtlxNormal", map[])][n + 3 := NormalImage(ctx, normalFile)]
  {
    var g1 := CreateBump(g, ctx, bumpFile);
    CreateBumpShape(g, ctx, bumpFile);
    CreateNormalShape(g1, ctx, normalFile);
    BumpThenNormal(g, ctx, bumpFile, normalFile, g1, CreateNormal(g1, ctx, normalFile), r);
  }

  /** The bump pair, then the normal pair, then the two connections `_setup_bump_normal` adds. */
  lemma BumpThenNormal(g: Net, ctx: Ctx, bumpFile: string, normalFile: string, g1: Net, g2: Net, r: Net)
    requires g1.next == g.next + 2 && Wired(g1, g.next, Index(0), g.next + 1)
    requires g1.nodes == g.nodes[g.next := Node("mtlxbump", "mtlxBump", map[])][g.next + 1 := BumpImage(ctx, bumpFile)]
    requires g2.next == g1.next + 2
    requires g2.nodes == g1.nodes[g1.next := Node("mtlxnormalmap", "mtlxNormal", map[])][g1.next + 1 := NormalImage(ctx, normalFile)]
    requires g2.wires == (if ctx.place2d.Some? && !ctx.udim then g1.wires[(g1.next + 1, Index(2)) := ctx.place2d.value] else g1.wires)
                           [(g1.next, Index(0)) := g1.next + 1]
    requires r == Connect(Connect(g2, g.next, Index(2), g1.next), ctx.surf, Named("normal"), g.next)
    ensures var n := g.next;
      && r.next == n + 4
      && Wired(r, n, Index(0), n + 1) && Wired(r, n + 2, Index(0), n + 3)
      && Wired(r, n, Index(2), n + 2) && Wired(r, ctx.surf, Named("normal"), n)
      && r.nodes == g.nodes[n := Node("mtlxbump", "mtlxBump", map[])][n + 1 := BumpImage(ctx, bumpFile)]
                           [n + 2 := Node("mtlxnormalmap", "mtlxNormal", map[])][n + 3 := NormalImage(ctx, normalFile)]
  {
  }

  // ---------------------------------------------------------------------
  // create_materialx, inside the emptied subnet
  // ---------------------------------------------------------------------

  /** The shader and the outputs, then (for a set that is not UDIM) the place2d chain. */
  function Skeleton(g: Net, material: string, udim: bool): Net {
    var g1 := MainNodes(g, material);
    if udim then g1 else Place2d(g1, material)
  }

  /** Shader at `g.next`, displacement next to it, place2d (if any) last of the skeleton. */
  function MaterialCtx(g: Net, e: TextureSet, tx: bool, job: string): Ctx {
    Ctx(g.next, g.next + 1, if e.udim then None else Some(g.next + 8), e.udim, tx, job, e.path)
  }

  lemma WellFormedStocked(e: TextureSet)
    requires WellFormed(e)
    ensures Stocked(e.keys, e.files)
  {
  }

  /** Everything `create_materialx` builds inside the subnet, given the set and the TX and `$JOB` settings. */
  function Material(g: Net, material: string, e: TextureSet, tx: bool, job: string): Net
    requires WellFormed(e)
  {
    WellFormedStocked(e);
    var ctx := MaterialCtx(g, e, tx, job);
    var g3 := ApplyPairs(Skeleton(g, material, e.udim), ctx, Pairs(e.keys, e.files));
    BumpNormal(g3, ctx, e.keys, e.files)
  }

  /** What the skeleton offers the texture loop: the shader, the displacement node and the place2d node. */
  predicate SkeletonFacts(g: Net, s: Net, material: string, udim: bool) {
    var n := g.next;
    && Numbered(s)
    && s.next == n + (if udim then 4 else 9)
    && n in s.nodes && s.nodes[n] == Node("mtlxstandard_surface", material + "_mtlxSurface", map[])
    && n + 1 in s.nodes && s.nodes[n + 1] == Node("mtlxdisplacement", material + "_mtlxDisp", map[])
    && (!udim ==> n + 8 in s.nodes && s.nodes[n + 8] == Node("mtlxplace2d", material + "_place2d", map[]))
    && (forall w :: w in s.wires ==> w in g.wires || w.0 >= n + 2)
  }

  lemma SkeletonShape(g: Net, material: string, e: TextureSet, tx: bool, job: string)
    requires Numbered(g)
    ensures SkeletonFacts(g, Skeleton(g, material, e.udim), material, e.udim)
    ensures Before(MaterialCtx(g, e, tx, job), Skeleton(g, material, e.udim))
  {
    var g1 := MainNodes(g, material);
    MainFacts(g, material);
    if e.udim {
      MainOnly(g, g1, material);
    } else {
      Place2dFacts(g1, material);
      MainThenPlace2d(g, g1, Place2d(g1, material), material);
    }
  }

  lemma MainOnly(g: Net, g1: Net, material: string)
    requires MainFactsHold(g, g1, material)
    ensures SkeletonFacts(g, g1, material, true)
  {
  }

  lemma MainThenPlace2d(g: Net, g1: Net, s: Net, material: string)
    requires MainFactsHold(g, g1, material)
    requires Place2dFactsHold(g1, s, material)
    ensures SkeletonFacts(g, s, material, false)
  {
  }

  predicate MainFactsHold(g: Net, r: Net, material: string) {
    var n := g.next;
    && Numbered(r) && r.next == n + 4
    && n in r.nodes && r.nodes[n] == Node("mtlxstandard_surface", material + "_mtlxSurface", map[])
    && n + 1 in r.nodes && r.nodes[n + 1] == Node("mtlxdisplacement", material + "_mtlxDisp", map[])
    && (forall w :: w in r.wires ==> w in g.wires || w.0 >= n + 2)
  }

  predicate Place2dFactsHold(g: Net, r: Net, material: string) {
    var n := g.next;
    && Numbered(r) && r.next == n + 5
    && (forall id :: id in g.nodes ==> id in r.nodes && r.nodes[id] == g.nodes[id])
    && n + 4 in r.nodes && r.nodes[n + 4] == Node("mtlxplace2d", material + "_place2d", map[])
    && (forall w :: w in r.wires ==> w in g.wires || w.0 == n + 4)
  }

  lemma MainFacts(g: Net, material: string)
    requires Numbered(g)
    ensures MainFactsHold(g, MainNodes(g, material), material)
  {
    MainNodesShape(g, material);
    MainNodesNumbered(g, material);
    MainFromShape(g, MainNodes(g, material), material);
  }

  lemma MainFromShape(g: Net, r: Net, material: string)
    requires Numbered(g) && Numbered(r)
    requires var n := g.next;
      && r.next == n + 4
      && r.nodes == g.nodes[n := Node("mtlxstandard_surface", material + "_mtlxSurface", map[])]
                           [n + 1 := Node("mtlxdisplacement", material + "_mtlxDisp", map[])]
                           [n + 2 := Connector("surface", "Surface")]
                           [n + 3 := Connector("displacement", "Displacement")]
      && r.wires == g.wires[(n + 2, Index(0)) := n][(n + 3, Index(0)) := n + 1]
    ensures MainFactsHold(g, r, material)
  {
  }

  lemma Place2dFacts(g: Net, material: string)
    requires Numbered(g)
    ensures Place2dFactsHold(g, Place2d(g, material), material)
  {
    Place2dShape(g, material);
    Place2dNumbered(g, material);
    Place2dFromShape(g, Place2d(g, material), material);
  }

  lemma Place2dFromShape(g: Net, r: Net, material: string)
    requires Numbered(g) && Numbered(r)
    requires var n := g.next;
      && r.next == n + 5
      && r.nodes == g.nodes[n := Node("mtlxtexcoord", material + "_textcoord", map[])]
                           [n + 1 := Node("mtlxconstant", material + "_scale", map["value" := Num(1)])]
                           [n + 2 := Node("mtlxconstant", material + "_rotation", map[])]
                           [n + 3 := Node("mtlxconstant", material + "_offset", map[])]
                           [n + 4 := Node("mtlxplace2d", material + "_place2d", map[])]
      && r.wires == g.wires[(n + 4, Index(0)) := n][(n + 4, Index(2)) := n + 1][(n + 4, Index(3)) := n + 2][(n + 4, Index(4)) := n + 3]
    ensures Place2dFactsHold(g, r, material)
  {
  }

  /** The shader input (or displacement input) a port denotes is not the shader's `normal` input. */
  predicate Textured(port: Port) {
    port != Surface("normal")
  }

  /**
   * Connection `k` (the key of `port`) is present exactly when some pair of
   * `ps` is routed to `port`, and then it comes from a node named and typed
   * as the LAST such pair's feeding node.
   */
  predicate PortFed(r: Net, k: (nat, Slot), ps: seq<Pair>, port: Port, udim: bool) {
    && (k in r.wires <==> LastFeeding(ps, port).Some?)
    && (LastFeeding(ps, port).Some? ==>
          r.wires[k] in r.nodes
          && r.nodes[r.wires[k]].name == FeedName(ps[LastFeeding(ps, port).value])
          && r.nodes[r.wires[k]].kind == FeedKind(ps[LastFeeding(ps, port).value], udim))
  }

  /**
   * In the finished material, a shader input other than `normal` (or the
   * displacement input) is connected exactly when some yielded pair is routed
   * to it, and then it is fed by the node of the LAST such pair: its range
   * node for Color, SSS, Rough and Gloss, the image itself otherwise.
   */
  lemma MaterialPorts(g: Net, material: string, e: TextureSet, tx: bool, job: string, port: Port)
    requires Numbered(g) && WellFormed(e) && Textured(port)
    ensures PortFed(Material(g, material, e, tx, job), PortKey(MaterialCtx(g, e, tx, job), port),
                    Pairs(e.keys, e.files), port, e.udim)
  {
    WellFormedStocked(e);
    var ctx := MaterialCtx(g, e, tx, job);
    var ps := Pairs(e.keys, e.files);
    var s := Skeleton(g, material, e.udim);
    LoopPorts(g, material, e, tx, job, port);
    SkeletonShape(g, material, e, tx, job);
    FoldNumbered(s, ctx, ps);
    BumpNormalKeeps(ApplyPairs(s, ctx, ps), ctx, e.keys, e.files, ps, port, e.udim);
  }

  /** `_setup_bump_normal` leaves every port but the shader's `normal` input as it found it. */
  lemma BumpNormalKeeps(g: Net, ctx: Ctx, keys: seq<string>, files: map<string, seq<string>>, ps: seq<Pair>, port: Port, udim: bool)
    requires Numbered(g) && Before(ctx, g) && Stocked(keys, files) && Textured(port)
    requires PortFed(g, PortKey(ctx, port), ps, port, udim)
    ensures PortFed(BumpNormal(g, ctx, keys, files), PortKey(ctx, port), ps, port, udim)
  {
    BumpNormalGrows(g, ctx, keys, files);
    KeepsPort(g, BumpNormal(g, ctx, keys, files), ctx, {(ctx.surf, Named("normal"))}, PortKey(ctx, port));
  }

  /** The port theorem right after the texture loop. */
  lemma LoopPorts(g: Net, material: string, e: TextureSet, tx: bool, job: string, port: Port)
    requires Numbered(g) && Stocked(e.keys, e.files)
    ensures var ctx := MaterialCtx(g, e, tx, job);
      PortFed(ApplyPairs(Skeleton(g, material, e.udim), ctx, Pairs(e.keys, e.files)), PortKey(ctx, port),
              Pairs(e.keys, e.files), port, e.udim)
  {
    var ctx := MaterialCtx(g, e, tx, job);
    var ps := Pairs(e.keys, e.files);
    var s := Skeleton(g, material, e.udim);
    SkeletonShape(g, material, e, tx, job);
    assert PortKey(ctx, port) !in s.wires;
    if LastFeeding(ps, port).Some? {
      FoldPortRouted(s, ctx, ps, port);
    } else {
      FoldPortUnrouted(s, ctx, ps, port);
    }
  }

  /** No role is routed to the shader's `normal` input by the texture loop. */
  lemma NothingFeedsNormal(ps: seq<Pair>)
    ensures LastFeeding(ps, Surface("normal")).None?
  {
  }

  /** Whether some key names a bump or a normal map, as `_find_bump_normal_textures` matches them. */
  predicate HasMapKey(keys: seq<string>) {
    exists key :: key in keys && (key in BumpKeys || key in NormalKeys)
  }

  lemma MapKeyListed(keys: seq<string>)
    ensures HasMapKey(keys) <==> LastListed(keys, BumpKeys).Some? || LastListed(keys, NormalKeys).Some?
  {
    if LastListed(keys, BumpKeys).None? && LastListed(keys, NormalKeys).None? {
      forall key | key in keys
        ensures key !in BumpKeys && key !in NormalKeys
      {
        var j :| 0 <= j < |keys| && keys[j] == key;
      }
    }
  }

  /**
   * Starting from a network whose shader `normal` input is free, `_setup_bump_normal`
   * connects it exactly when a bump or normal key exists, to `mtlxBump` whenever
   * there is a bump map and to `mtlxNormal` otherwise.
   */
  lemma NormalInputSet(g: Net, ctx: Ctx, keys: seq<string>, files: map<string, seq<string>>)
    requires Stocked(keys, files) && (ctx.surf, Named("normal")) !in g.wires
    ensures var r := BumpNormal(g, ctx, keys, files); var k := (ctx.surf, Named("normal"));
      && (k in r.wires <==> HasMapKey(keys))
      && (k in r.wires ==>
            r.wires[k] in r.nodes && r.nodes[r.wires[k]].kind == (if LastListed(keys, BumpKeys).Some? then "mtlxbump" else "mtlxnormalmap"))
  {
    MapKeyListed(keys);
    var bump, normal := LastListed(keys, BumpKeys), LastListed(keys, NormalKeys);
    if bump.Some? && normal.Some? {
      BothMaps(g, ctx, keys, files, BumpNormal(g, ctx, keys, files));
    } else if bump.Some? {
      BumpOnly(g, ctx, keys, files);
    } else if normal.Some? {
      NormalOnly(g, ctx, keys, files);
    }
  }

  /**
   * In the finished material the shader's `normal` input is connected exactly
   * when the set has a bump or normal key: to `mtlxBump` when there is a bump
   * map (the normal map, if any, then hangs below it), else to `mtlxNormal`.
   */
  lemma MaterialNormal(g: Net, material: string, e: TextureSet, tx: bool, job: string)
    requires Numbered(g) && WellFormed(e)
    ensures var r := Material(g, material, e, tx, job); var k := (g.next, Named("normal"));
      && (k in r.wires <==> HasMapKey(e.keys))
      && (k in r.wires ==>
            r.wires[k] in r.nodes && r.nodes[r.wires[k]].kind == (if LastListed(e.keys, BumpKeys).Some? then "mtlxbump" else "mtlxnormalmap"))
  {
    WellFormedStocked(e);
    var ctx := MaterialCtx(g, e, tx, job);
    var ps := Pairs(e.keys, e.files);
    LoopPorts(g, material, e, tx, job, Surface("normal"));
    NothingFeedsNormal(ps);
    NormalInputSet(ApplyPairs(Skeleton(g, material, e.udim), ctx, ps), ctx, e.keys, e.files);
  }
}

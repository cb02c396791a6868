/**
 * v1.3 `MtlxMaterial` as a class: each method drives the Houdini network
 * (`Network`) call by call, as the Python method does, and is proved to
 * leave the network in the state the corresponding function of
 * `SynthesisV13` describes. What those states mean is proved there.
 */
module BuilderV13 {
  import opened Options
  import opened Strings
  import opened TextureSets
  import opened Graph
  import opened TexturePaths
  import opened Library
  import opened SynthesisV13
  import opened Conversion

  class MtlxMaterial {
    /** `material_to_create` */
    const material: string
    const mtlTX: bool
    /** The expansion of `$JOB`. */
    const job: string
    const textureList: Table
    /** `WORKER_LIMIT` */
    const workerLimit: nat

    /** `__init__` and `init_constants`, given the CPU count. */
    constructor (material: string, mtlTX: bool, job: string, textureList: Table, cpus: nat)
      ensures this.material == material && this.mtlTX == mtlTX && this.job == job
      ensures this.textureList == textureList && workerLimit == WorkerLimit(cpus)
    {
      this.material := material;
      this.mtlTX := mtlTX;
      this.job := job;
      this.textureList := textureList;
      workerLimit := WorkerLimit(cpus);
    }

    /**
     * `_prepare_material_info`: the material's entry, after handing every
     * listed file to the converter when TX is on (its result is dropped).
     */
    method PrepareMaterialInfo(outcomes: seq<bool>) returns (e: TextureSet)
      requires material in textureList && WellFormed(textureList[material])
      requires mtlTX ==> |outcomes| == |AllTextures(textureList[material].keys, textureList[material].files)|
      ensures e == textureList[material]
    {
      e := textureList[material];
      if mtlTX {
        var all := CollectTextures(e);
        var _, _, _ := ConvertToTx(mtlTX, all, outcomes);
      }
    }

    /**
     * `_create_material_subnet`: the library's child of that name is
     * replaced by a new subnet, whose default items are all destroyed.
     */
    method CreateMaterialSubnet(lib: MaterialLibrary, e: TextureSet, defaults: seq<Node>) returns (net: Network)
      modifies lib
      ensures fresh(net)
      ensures lib.children == RemoveFirst(old(lib.children), MaterialName(material, e.size)) + [MaterialName(material, e.size)]
      ensures net.State() == Net(map[], map[], |defaults|)
    {
      lib.CreateSubnet13(MaterialName(material, e.size));
      ghost var children := lib.children;
      net := new Network(defaults);
      var index := 0;
      while index < |defaults|
        invariant 0 <= index <= |defaults|
        invariant lib.children == children
        invariant net.State() == Net(map i | index <= i < |defaults| :: defaults[i], map[], |defaults|)
      {
        net.DestroyNode(index);
        index := index + 1;
      }
    }

    /** `_create_output_nodes` */
    method CreateOutputNode(net: Network, outputType: string) returns (id: nat)
      modifies net
      ensures id == old(net.next) && net.next == id + 1
      ensures net.State() == OutputNode(old(net.State()), outputType)
    {
      id := net.CreateNode("subnetconnector", outputType + "_output");
      net.SetParm(id, "connectorkind", Str("output"));
      net.SetParm(id, "parmname", Str(outputType));
      net.SetParm(id, "parmlabel", Str(Capitalize(outputType)));
      net.SetParm(id, "parmtype", Str(outputType));
    }

    /** `_create_main_nodes` */
    method CreateMainNodes(net: Network) returns (surf: nat, disp: nat)
      modifies net
      ensures surf == old(net.next) && disp == surf + 1
      ensures net.State() == MainNodes(old(net.State()), material)
      ensures net.next == old(net.next) + 4
    {
      ghost var g := net.State();
      surf := net.CreateNode("mtlxstandard_surface", material + "_mtlxSurface");
      disp := net.CreateNode("mtlxdisplacement", material + "_mtlxDisp");
      var surfaceOut := CreateOutputNode(net, "surface");
      var displacementOut := CreateOutputNode(net, "displacement");
      ghost var g2 := net.State();
      net.SetInput(surfaceOut, Index(0), surf);
      net.SetInput(displacementOut, Index(0), disp);
      assert MainNodes(g, material) == Connect(Connect(g2, surfaceOut, Index(0), surf), displacementOut, Index(0), disp);
    }

    /** `_setup_place2d`: the chain and its place2d node for a set that is not UDIM, nothing otherwise. */
    method SetupPlace2d(net: Network, udim: bool) returns (place2d: Option<nat>)
      modifies net
      ensures udim ==> place2d == None && net.State() == old(net.State())
      ensures !udim ==> place2d == Some(old(net.next) + 4) && net.State() == Place2d(old(net.State()), material)
    {
      if udim {
        return None;
      }
      var coord := CreatePlace2dNodes(net);
      net.SetParm(coord + 1, "value", Num(1));
      WirePlace2d(net, coord);
      place2d := Some(coord + 4);
    }

    /** The place2d node's inputs 0, 2, 3 and 4 take the texcoord, scale, rotation and offset nodes. */
    method WirePlace2d(net: Network, coord: nat)
      modifies net
      ensures var g4 := Connect(Connect(old(net.State()), coord + 4, Index(0), coord), coord + 4, Index(2), coord + 1);
              net.State() == Connect(Connect(g4, coord + 4, Index(3), coord + 2), coord + 4, Index(4), coord + 3)
    {
      net.SetInput(coord + 4, Index(0), coord);
      net.SetInput(coord + 4, Index(2), coord + 1);
      net.SetInput(coord + 4, Index(3), coord + 2);
      net.SetInput(coord + 4, Index(4), coord + 3);
    }

    /** The texcoord, the scale, rotation and offset constants and the place2d node, in this order. */
    method CreatePlace2dNodes(net: Network) returns (coord: nat)
      modifies net
      ensures coord == old(net.next) && net.State() == Place2dNodes(old(net.State()), material)
    {
      coord := net.CreateNode("mtlxtexcoord", material + "_textcoord");
      var scale := net.CreateNode("mtlxconstant", material + "_scale");
      var rotate := net.CreateNode("mtlxconstant", material + "_rotation");
      var offset := net.CreateNode("mtlxconstant", material + "_offset");
      var place := net.CreateNode("mtlxplace2d", material + "_place2d");
    }

    /** `_configure_texture_node` */
    method ConfigureTextureNode(net: Network, id: nat, p: Pair)
      modifies net
      ensures net.State() == WithParm(WithParm(old(net.State()), id, "signature", Str(ImageSettings13(p.role, mtlTX).0)),
                                      id, "filecolorspace", Str(ImageSettings13(p.role, mtlTX).1))
    {
      var signature, colorspace := "float", "raw";
      if p.role == Taxonomy.Color || p.role == Taxonomy.SSS {
        signature := "color3";
        if mtlTX {
          colorspace := "srg_tx";
        } else {
          colorspace := "srg_texture";
        }
      }
      net.SetParm(id, "signature", Str(signature));
      net.SetParm(id, "filecolorspace", Str(colorspace));
    }

    /** `_create_texture_node` */
    method CreateTextureNode(net: Network, ctx: Ctx, p: Pair) returns (id: nat)
      requires ctx.tx == mtlTX
      modifies net
      ensures id == old(net.next)
      ensures net.State() == CreateImage(old(net.State()), ctx, p)
    {
      id := net.CreateNode(ImageKind(ctx.udim), p.key);
      net.SetParm(id, "file", Str(TexturePath13(ctx.folder, p.file, ctx.udim, ctx.tx, ctx.job)));
      ConfigureTextureNode(net, id, p);
    }

    /** `_setup_colour_texture` */
    method SetupColourTexture(net: Network, img: nat, key: string, surf: nat, input: string)
      modifies net
      ensures net.State() == SetupColour(old(net.State()), img, key, surf, input)
    {
      var range := net.CreateNode("mtlxrange", key + "_CC");
      net.SetInput(range, Index(0), img);
      net.SetParm(range, "signature", Str("color3"));
      net.SetInput(surf, Named(input), range);
    }

    /** `_setup_roughness_texture` */
    method SetupRoughnessTexture(net: Network, img: nat, key: string, surf: nat, input: string)
      modifies net
      ensures net.State() == SetupRoughness(old(net.State()), img, key, surf, input)
    {
      var range := net.CreateNode("mtlxrange", key + "_ADJ");
      net.SetInput(range, Index(0), img);
      net.SetInput(surf, Named(input), range);
    }

    /** `_setup_glossiness_texture` (defined in the class, called from nowhere). */
    method SetupGlossinessTexture(net: Network, img: nat, key: string, surf: nat, input: string)
      modifies net
      ensures net.State() == SetupGlossiness(old(net.State()), img, key, surf, input)
    {
      var range := net.CreateNode("mtlxrange", key + "_ADJ");
      net.SetInput(range, Index(0), img);
      net.SetParm(range, "outlow", Num(1));
      net.SetParm(range, "outhigh", Num(0));
      net.SetInput(surf, Named(input), range);
    }

    /** `_setup_sss_texture` */
    method SetupSssTexture(net: Network, img: nat, key: string, surf: nat, input: string)
      modifies net
      ensures net.State() == SetupSubsurface(old(net.State()), img, key, surf, input)
    {
      SetupColourTexture(net, img, key, surf, input);
      net.SetParm(surf, "subsurface", Num(1));
    }

    /** `_setup_direct_texture` */
    method SetupDirectTexture(net: Network, img: nat, surf: nat, input: string)
      modifies net
      ensures net.State() == SetupDirect(old(net.State()), img, surf, input)
    {
      net.SetInput(surf, Named(input), img);
    }

    /** `_setup_displacement_texture` */
    method SetupDisplacementTexture(net: Network, img: nat, disp: nat)
      modifies net
      ensures net.State() == SetupDisplacement(old(net.State()), img, disp)
    {
      net.SetInput(disp, Index(0), img);
    }

    /** `_setup_mask_texture` */
    method SetupMaskTexture(net: Network, img: nat, key: string)
      modifies net
      ensures net.State() == SetupMask(old(net.State()), img, key)
    {
      var separate := net.CreateNode("mtlxseparate3c", key + "_SPLIT");
      net.SetInput(separate, Index(0), img);
    }

    /** `_connect_texture` */
    method ConnectTexture(net: Network, ctx: Ctx, img: nat, p: Pair)
      modifies net
      ensures net.State() == SynthesisV13.ConnectTexture(old(net.State()), ctx, img, p)
    {
      match ConnectionMap(p.role) {
        case None =>
        case Some(c) =>
          match c.setup {
            case Colour => SetupColourTexture(net, img, p.key, ctx.surf, c.input);
            case Direct => SetupDirectTexture(net, img, ctx.surf, c.input);
            case Roughness => SetupRoughnessTexture(net, img, p.key, ctx.surf, c.input);
            case Subsurface => SetupSssTexture(net, img, p.key, ctx.surf, c.input);
          }
      }
      if p.role == Taxonomy.Disp {
        SetupDisplacementTexture(net, img, ctx.disp);
      }
      if p.role == Taxonomy.Extra {
        SetupMaskTexture(net, img, p.key);
      }
    }

    /** One pass of the `_process_textures` loop: the image, its place2d hook, then `_connect_texture`. */
    method ProcessPair(net: Network, ctx: Ctx, p: Pair)
      requires ctx.tx == mtlTX
      modifies net
      ensures net.State() == ApplyPair(old(net.State()), ctx, p)
    {
      var id := CreateTextureNode(net, ctx, p);
      if ctx.place2d.Some? && !ctx.udim {
        net.SetInput(id, Index(2), ctx.place2d.value);
      }
      ConnectTexture(net, ctx, id, p);
    }

    /** `_process_textures`: every pair `_iterate_textures` yields, in order. */
    method ProcessTextures(net: Network, ctx: Ctx, e: TextureSet)
      requires Stocked(e.keys, e.files) && ctx.tx == mtlTX
      modifies net
      ensures net.State() == ApplyPairs(old(net.State()), ctx, Pairs(e.keys, e.files))
    {
      var ps := Pairs(e.keys, e.files);
      ghost var g0 := net.State();
      var i := 0;
      while i < |ps|
        invariant 0 <= i <= |ps|
        invariant net.State() == ApplyPairs(g0, ctx, ps[..i])
      {
        assert ps[..i + 1][..i] == ps[..i];
        ProcessPair(net, ctx, ps[i]);
        i := i + 1;
      }
      assert ps[..|ps|] == ps;
    }

    /**
     * `_find_bump_normal_textures`: the scan over the keys, each listed key
     * overwriting the previous bump (or normal) entry.
     */
    method FindBumpNormalTextures(keys: seq<string>) returns (bump: Option<string>, normal: Option<string>)
      ensures bump == LastListed(keys, BumpKeys) && normal == LastListed(keys, NormalKeys)
      ensures bump.Some? ==> bump.value in keys && bump.value in BumpKeys
      ensures normal.Some? ==> normal.value in keys && normal.value in NormalKeys
    {
      bump, normal := None, None;
      var i := 0;
      while i < |keys|
        invariant 0 <= i <= |keys|
        invariant bump == LastListed(keys[..i], BumpKeys) && normal == LastListed(keys[..i], NormalKeys)
      {
        LastListedStep(keys, i, BumpKeys);
        LastListedStep(keys, i, NormalKeys);
        if keys[i] in BumpKeys {
          bump := Some(keys[i]);
        }
        if keys[i] in NormalKeys {
          normal := Some(keys[i]);
        }
        i := i + 1;
      }
      assert keys[..|keys|] == keys;
    }

    /** The image node `_create_bump` and `_create_normal` make. */
    method CreateMapImage(net: Network, ctx: Ctx, name: string, signature: string, file: string) returns (img: nat)
      modifies net
      ensures img == old(net.next)
      ensures net.State() == MapImage(old(net.State()), ctx, name, signature, file)
    {
      img := net.CreateNode(ImageKind(ctx.udim), name);
      net.SetParm(img, "signature", Str(signature));
      net.SetParm(img, "filecolorspace", Str("raw"));
      net.SetParm(img, "file", Str(TexturePath13(ctx.folder, file, ctx.udim, ctx.tx, ctx.job)));
      if ctx.place2d.Some? && !ctx.udim {
        net.SetInput(img, Index(2), ctx.place2d.value);
      }
    }

    /** `_create_bump` */
    method CreateBumpNode(net: Network, ctx: Ctx, file: string) returns (id: nat)
      modifies net
      ensures id == old(net.next)
      ensures net.State() == CreateBump(old(net.State()), ctx, file)
    {
      id := net.CreateNode("mtlxbump", "mtlxBump");
      var img := CreateMapImage(net, ctx, "bump", "float", file);
      net.SetInput(id, Index(0), img);
    }

    /** `_create_normal` */
    method CreateNormalNode(net: Network, ctx: Ctx, file: string) returns (id: nat)
      modifies net
      ensures id == old(net.next)
      ensures net.State() == CreateNormal(old(net.State()), ctx, file)
    {
      id := net.CreateNode("mtlxnormalmap", "mtlxNormal");
      var img := CreateMapImage(net, ctx, "normal", "vector3", file);
      net.SetInput(id, Index(0), img);
    }

    /** `_setup_bump_normal` */
    method SetupBumpNormal(net: Network, ctx: Ctx, e: TextureSet)
      requires Stocked(e.keys, e.files)
      modifies net
      ensures net.State() == BumpNormal(old(net.State()), ctx, e.keys, e.files)
    {
      var bump, normal := FindBumpNormalTextures(e.keys);
      if bump.None? && normal.None? {
        return;
      }
      if bump.Some? && normal.Some? {
        var bumpNode := CreateBumpNode(net, ctx, e.files[bump.value][0]);
        var normalNode := CreateNormalNode(net, ctx, e.files[normal.value][0]);
        net.SetInput(bumpNode, Index(2), normalNode);
        net.SetInput(ctx.surf, Named("normal"), bumpNode);
      } else if bump.Some? {
        var bumpNode := CreateBumpNode(net, ctx, e.files[bump.value][0]);
        net.SetInput(ctx.surf, Named("normal"), bumpNode);
      } else {
        var normalNode := CreateNormalNode(net, ctx, e.files[normal.value][0]);
        net.SetInput(ctx.surf, Named("normal"), normalNode);
      }
    }

    /**
     * `create_materialx`. A material missing from the table raises inside the
     * `try` before anything is created, so nothing happens; otherwise the
     * library gains the subnet and the subnet holds exactly `Material`.
     */
    method CreateMaterialX(lib: MaterialLibrary, defaults: seq<Node>, outcomes: seq<bool>) returns (net: Network?)
      requires TableWellFormed(textureList)
      requires material in textureList && mtlTX ==>
        |outcomes| == |AllTextures(textureList[material].keys, textureList[material].files)|
      modifies lib
      ensures material !in textureList ==> net == null && lib.children == old(lib.children)
      ensures material in textureList ==> net != null && fresh(net)
      ensures material in textureList ==>
        var e := textureList[material];
        var name := MaterialName(material, e.size);
        && lib.children == RemoveFirst(old(lib.children), name) + [name]
        && net.State() == Material(Net(map[], map[], |defaults|), material, e, mtlTX, job)
    {
      if material !in textureList {
        return null;
      }
      var e := PrepareMaterialInfo(outcomes);
      net := CreateMaterialSubnet(lib, e, defaults);
      BuildMaterial(net, e);
    }

    /** The main nodes, then the place2d chain unless the set is UDIM. */
    method SetupSkeleton(net: Network, e: TextureSet) returns (ctx: Ctx)
      modifies net
      ensures ctx == MaterialCtx(old(net.State()), e, mtlTX, job)
      ensures net.State() == Skeleton(old(net.State()), material, e.udim)
    {
      var surf, disp := CreateMainNodes(net);
      var place2d := SetupPlace2d(net, e.udim);
      ctx := Ctx(surf, disp, place2d, e.udim, mtlTX, job, e.path);
    }

    /** The body of `create_materialx` once the subnet is empty: nodes, place2d, textures, bump and normal. */
    method BuildMaterial(net: Network, e: TextureSet)
      requires WellFormed(e)
      modifies net
      ensures net.State() == Material(old(net.State()), material, e, mtlTX, job)
    {
      var ctx := SetupSkeleton(net, e);
      WellFormedStocked(e);
      ProcessTextures(net, ctx, e);
      SetupBumpNormal(net, ctx, e);
    }
  }
}

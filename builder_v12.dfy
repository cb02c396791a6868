/**
 * v1.2 `material` as a class: `myfunc` drives the Houdini network
 * (`Network`) call by call, in the order of the Python procedure, and is
 * proved to leave the subnet in the state `SynthesisV12.Material`
 * describes. What that state means is proved in `SynthesisV12`.
 */
module BuilderV12 {
  import opened Options
  import opened Taxonomy
  import opened TextureSets
  import opened Graph
  import opened TexturePaths
  import opened Library
  import V13 = SynthesisV13
  import opened SynthesisV12

  /** Only the first default item of a new subnet is destroyed (`allItems()[0]`); the others stay. */
  lemma FirstItemDestroyed(defaults: seq<Node>)
    requires |defaults| > 0
    ensures var g := Destroy(Fresh(defaults), 0);
      && g.nodes == (map i | 1 <= i < |defaults| :: defaults[i])
      && g.wires == map[] && g.next == |defaults|
  {
  }

  /** The subnet left by the first item's removal: its ids are below `next`, it has no connection. */
  lemma FirstItemDestroyedNumbered(defaults: seq<Node>)
    ensures V13.Numbered(Destroy(Fresh(defaults), 0))
  {
  }

  /** A found flag and name hold exactly what the scan so far determines. */
  predicate Found(found: bool, name: string, last: Option<string>) {
    (found <==> last.Some?) && (found ==> name == last.value)
  }

  class Material {
    /** `self.mat` */
    const mat: string
    /** `self.mtlTX` */
    const mtlTX: bool

    constructor (mat: string, mtlTX: bool)
      ensures this.mat == mat && this.mtlTX == mtlTX
    {
      this.mat := mat;
      this.mtlTX := mtlTX;
    }

    /** One `subnetconnector` exporting `parmname`. */
    method CreateConnectorNode(net: Network, name: string, parmname: string, caption: string) returns (id: nat)
      modifies net
      ensures id == old(net.next) && net.next == id + 1
      ensures net.State() == CreateConnector(old(net.State()), name, parmname, caption)
    {
      id := net.CreateNode("subnetconnector", name);
      net.SetParm(id, "connectorkind", Str("output"));
      net.SetParm(id, "parmname", Str(parmname));
      net.SetParm(id, "parmlabel", Str(caption));
      net.SetParm(id, "parmtype", Str(parmname));
    }

    /** The two output connectors, the shader and the displacement node. */
    method CreateMainNodes(net: Network) returns (surf: nat, disp: nat)
      modifies net
      ensures surf == old(net.next) + 2 && disp == old(net.next) + 3
      ensures net.State() == MainNodes(old(net.State()))
      ensures net.next == old(net.next) + 4
    {
      ghost var g := net.State();
      var surfaceOut := CreateConnectorNode(net, "surface_ouput", "surface", "Surface");
      var displacementOut := CreateConnectorNode(net, "displacement_output", "displacement", "Displacement");
      surf, disp := CreateShaderNodes(net);
      ghost var g2 := net.State();
      net.SetInput(surfaceOut, Index(0), surf);
      net.SetInput(displacementOut, Index(0), disp);
      assert MainNodes(g) == Connect(Connect(g2, surfaceOut, Index(0), surf), displacementOut, Index(0), disp);
    }

    /** The standard surface shader, then the displacement node. */
    method CreateShaderNodes(net: Network) returns (surf: nat, disp: nat)
      modifies net
      ensures surf == old(net.next) && disp == surf + 1
      ensures net.State() == Create(Create(old(net.State()), "mtlxstandard_surface", "mtlxSurface"), "mtlxdisplacement", "mtlxDisp")
    {
      surf := net.CreateNode("mtlxstandard_surface", "mtlxSurface");
      disp := net.CreateNode("mtlxdisplacement", "mtlxDisp");
    }

    /**
     * The place2d chain, built only when `UDIM` is false. The id returned is
     * the one the place2d node gets; with UDIM on it is never used.
     */
    method SetupPlace2d(net: Network, udim: bool) returns (place: nat)
      modifies net
      ensures place == old(net.next) + 4
      ensures udim ==> net.State() == old(net.State())
      ensures !udim ==> net.State() == Place2d(old(net.State()), mat)
    {
      if udim {
        return net.next + 4;
      }
      var coord := CreatePlace2dNodes(net);
      place := coord + 4;
      net.SetParm(coord + 1, "value", Num(1));
      net.SetInput(place, Index(0), coord);
      net.SetInput(place, Index(2), coord + 1);
      net.SetInput(place, Index(3), coord + 2);
      net.SetInput(place, Index(4), coord + 3);
    }

    /** The texcoord, the scale, rotate and offset constants and the place2d node, in this order. */
    method CreatePlace2dNodes(net: Network) returns (coord: nat)
      modifies net
      ensures coord == old(net.next) && net.State() == Place2dNodes(old(net.State()), mat)
    {
      coord := net.CreateNode("mtlxtexcoord", mat + "_texcoord");
      var scale := net.CreateNode("mtlxconstant", mat + "_scale");
      var rotate := net.CreateNode("mtlxconstant", mat + "_rotate");
      var offset := net.CreateNode("mtlxconstant", mat + "_offset");
      var place := net.CreateNode("mtlxplace2d", mat + "_place2d");
    }

    /** `texMain.setInput(2, textPlace2D)` unless the set is UDIM. */
    method HookPlace2d(net: Network, c: Ctx, img: nat)
      modifies net
      ensures net.State() == Hook(old(net.State()), c, img)
    {
      if !c.udim {
        net.SetInput(img, Index(2), c.place2d);
      }
    }

    method SetColorspace(net: Network, img: nat, signature: string, colorspace: string)
      modifies net
      ensures net.State() == Colorspace(old(net.State()), img, signature, colorspace)
    {
      net.SetParm(img, "signature", Str(signature));
      net.SetParm(img, "filecolorspace", Str(colorspace));
    }

    /** The `texturesColor` block of the first chain. */
    method ColorBlock(net: Network, c: Ctx, key: string, img: nat)
      modifies net
      ensures net.State() == ColorSection(old(net.State()), c, key, img)
    {
      var range := net.CreateNode("mtlxrange", key + "_CC");
      net.SetInput(range, Index(0), img);
      net.SetInput(c.surf, Named("base_color"), range);
      net.SetParm(img, "filecolorspace", Str("srgb_texture"));
      HookPlace2d(net, c, img);
    }

    /** The `texturesExtra` block of the first chain. */
    method ExtraBlock(net: Network, c: Ctx, img: nat)
      modifies net
      ensures net.State() == ExtraSection(old(net.State()), c, img)
    {
      SetColorspace(net, img, "color3", "srgb_texture");
      var separate := net.CreateNode("mtlxseparate3c", "separateUser");
      net.SetInput(separate, Index(0), img);
      HookPlace2d(net, c, img);
    }

    /** The first chain of `if textureKey == …` blocks, each tested in turn. */
    method PrepareImage(net: Network, c: Ctx, p: Pair, img: nat)
      modifies net
      ensures net.State() == Prepare(old(net.State()), c, p, img)
    {
      var role := p.role;
      if role == Color {
        ColorBlock(net, c, p.key, img);
      }
      if role == SSS {
        SetColorspace(net, img, "color3", "srgb_texture");
        HookPlace2d(net, c, img);
      }
      if role in {Metal, Specular, Rough, Gloss, Trans, Emm, Alpha, AO, Bump, Disp} {
        SetColorspace(net, img, "float", "Raw");
        HookPlace2d(net, c, img);
      }
      if role == Extra {
        ExtraBlock(net, c, img);
      }
      if role == Normal {
        SetColorspace(net, img, "vector3", "Raw");
        HookPlace2d(net, c, img);
      }
      if role == Bump {
        SetColorspace(net, img, "float", "Raw");
        HookPlace2d(net, c, img);
      }
    }

    /** The roles the first half of the second chain handles. */
    static const ShaderRoutes := {Metal, Specular, Rough, Gloss, Trans, Emm, Alpha}

    /** The `texturesRough` and `texturesGloss` blocks of the second chain. */
    method RoughBlock(net: Network, c: Ctx, key: string, img: nat, invert: bool)
      modifies net
      ensures net.State() == RoughSection(old(net.State()), c, key, img, invert)
    {
      var range := net.CreateNode("mtlxrange", key + "_CC");
      net.SetInput(range, Index(0), img);
      if invert {
        net.SetParm(range, "outlow", Num(1));
        net.SetParm(range, "outhigh", Num(0));
      }
      net.SetInput(c.surf, Named("specular_roughness"), range);
    }

    /** The second chain of `if textureKey == …` blocks, each tested in turn. */
    method RouteImage(net: Network, c: Ctx, p: Pair, img: nat)
      modifies net
      ensures net.State() == Route(old(net.State()), c, p, img)
    {
      RouteShaderInputs(net, c, p, img);
      RouteOthers(net, c, p, img);
    }

    /** The blocks of the second chain that plug the image straight into the shader or a range node. */
    method RouteShaderInputs(net: Network, c: Ctx, p: Pair, img: nat)
      modifies net
      ensures net.State() == if p.role in ShaderRoutes then Route(old(net.State()), c, p, img) else old(net.State())
    {
      var role := p.role;
      if role == Metal {
        net.SetInput(c.surf, Named("metalness"), img);
      }
      if role == Specular {
        net.SetInput(c.surf, Named("specular"), img);
      }
      if role == Rough {
        RoughBlock(net, c, p.key, img, false);
      }
      if role == Gloss {
        RoughBlock(net, c, p.key, img, true);
      }
      if role == Trans {
        net.SetInput(c.surf, Named("transmission"), img);
      }
      if role == Emm {
        net.SetInput(c.surf, Named("emission"), img);
      }
      if role == Alpha {
        net.SetInput(c.surf, Named("opacity"), img);
      }
    }

    /** The ambient-occlusion, displacement and subsurface blocks of the second chain. */
    method RouteOthers(net: Network, c: Ctx, p: Pair, img: nat)
      modifies net
      ensures net.State() == if p.role in ShaderRoutes then old(net.State()) else Route(old(net.State()), c, p, img)
    {
      var role := p.role;
      if role == AO {
        var mix := net.CreateNode("mtlxmix", p.key + "_AO");
        net.SetInput(mix, Index(2), img);
      }
      if role == Disp {
        net.SetInput(c.disp, Index(0), img);
      }
      if role == SSS {
        net.SetInput(c.surf, Named("subsurface_color"), img);
        net.SetParm(c.surf, "subsurface", Num(1));
      }
    }

    /** One pass of the loop body: the image, both chains, then its file. */
    method ProcessItem(net: Network, c: Ctx, p: Pair) returns (img: nat)
      modifies net
      ensures img == old(net.next)
      ensures net.State() == ImageStep(old(net.State()), c, p)
    {
      img := net.CreateNode(V13.ImageKind(c.udim), p.key);
      net.SetParm(img, "signature", Str("color3"));
      PrepareImage(net, c, p, img);
      RouteImage(net, c, p, img);
      net.SetParm(img, "file", Str(ItemPath(c, p)));
    }

    /** The loop body for one key and one role: an item exactly when the role's list holds the key. */
    method VisitRole(net: Network, c: Ctx, key: string, file: string, role: Role, bump0: Option<nat>, normal0: Option<nat>)
      returns (bump: Option<nat>, normal: Option<nat>)
      modifies net
      ensures Build(net.State(), bump, normal) == Visit(Build(old(net.State()), bump0, normal0), c, key, file, role)
    {
      bump, normal := bump0, normal0;
      if key in Variants(role) {
        var img := ProcessItem(net, c, V13.Pair(role, key, file));
        if role == Bump {
          bump := Some(img);
        }
        if role == Normal {
          normal := Some(img);
        }
      }
    }

    /** The inner loop for one key: every role whose list holds the key, in dictionary order. */
    method ProcessKey(net: Network, c: Ctx, key: string, file: string, bump0: Option<nat>, normal0: Option<nat>)
      returns (bump: Option<nat>, normal: Option<nat>)
      modifies net
      ensures Build(net.State(), bump, normal) == Steps(Build(old(net.State()), bump0, normal0), c, KeyItems(key, file, Roles))
    {
      ghost var b1 := Build(net.State(), bump0, normal0);
      bump, normal := bump0, normal0;
      var j := 0;
      while j < |Roles|
        invariant 0 <= j <= |Roles|
        invariant Build(net.State(), bump, normal) == Steps(b1, c, KeyItems(key, file, Roles[..j]))
      {
        VisitRoleStep(b1, c, key, file, j);
        bump, normal := VisitRole(net, c, key, file, Roles[j], bump, normal);
        j := j + 1;
      }
      assert Roles[..|Roles|] == Roles;
    }

    /**
     * The main loop: every key of the set, and for each key every role whose
     * list holds it, in dictionary order; the last Bump and Normal images
     * are remembered.
     */
    method ProcessTextures(net: Network, c: Ctx, e: TextureSet) returns (bump: Option<nat>, normal: Option<nat>)
      requires V13.Stocked(e.keys, e.files)
      modifies net
      ensures Build(net.State(), bump, normal) == Steps(Build(old(net.State()), None, None), c, Items(e.keys, e.files))
    {
      ghost var b0 := Build(net.State(), None, None);
      bump, normal := None, None;
      var i := 0;
      while i < |e.keys|
        invariant 0 <= i <= |e.keys|
        invariant Build(net.State(), bump, normal) == Steps(b0, c, Items(e.keys[..i], e.files))
      {
        var key := e.keys[i];
        var file := e.files[key][0];
        ItemsNext(e.keys, e.files, i);
        ghost var done := Items(e.keys[..i], e.files);
        bump, normal := ProcessKey(net, c, key, file, bump, normal);
        StepsConcat(b0, c, done, KeyItems(key, file, Roles));
        i := i + 1;
      }
      assert e.keys[..|e.keys|] == e.keys;
    }

    /** The inner loop over the roles for one key: a key listed for Bump (Normal) becomes the bump (normal) name. */
    static method VisitRoles(key: string, bf: bool, bn: string, nf: bool, nn: string)
      returns (bumpFound: bool, bumpName: string, normalFound: bool, normalName: string)
      ensures (bumpFound, bumpName) == if key in Variants(Bump) then (true, key) else (bf, bn)
      ensures (normalFound, normalName) == if key in Variants(Normal) then (true, key) else (nf, nn)
    {
      bumpFound, bumpName, normalFound, normalName := bf, bn, nf, nn;
      var j := 0;
      while j < |Roles|
        invariant 0 <= j <= |Roles|
        invariant (bumpFound, bumpName) == if Bump in Roles[..j] && key in Variants(Bump) then (true, key) else (bf, bn)
        invariant (normalFound, normalName) == if Normal in Roles[..j] && key in Variants(Normal) then (true, key) else (nf, nn)
      {
        var role := Roles[j];
        assert Roles[..j + 1] == Roles[..j] + [role];
        if key in Variants(role) {
          if role == Bump {
            bumpFound, bumpName := true, key;
          }
          if role == Normal {
            normalFound, normalName := true, key;
          }
        }
        j := j + 1;
      }
      assert Roles[..|Roles|] == Roles;
      AllRoles();
    }

    /** The scan that sets `bumpFound`/`bumpName` and `normalFound`/`normalName`, again over keys and roles. */
    method FindBumpNormal(keys: seq<string>) returns (bumpFound: bool, bumpName: string, normalFound: bool, normalName: string)
      ensures bumpFound <==> V13.LastListed(keys, Variants(Bump)).Some?
      ensures bumpFound ==> bumpName == V13.LastListed(keys, Variants(Bump)).value
      ensures normalFound <==> V13.LastListed(keys, Variants(Normal)).Some?
      ensures normalFound ==> normalName == V13.LastListed(keys, Variants(Normal)).value
    {
      bumpFound, bumpName, normalFound, normalName := false, "", false, "";
      var i := 0;
      while i < |keys|
        invariant 0 <= i <= |keys|
        invariant Found(bumpFound, bumpName, V13.LastListed(keys[..i], Variants(Bump)))
        invariant Found(normalFound, normalName, V13.LastListed(keys[..i], Variants(Normal)))
      {
        V13.LastListedStep(keys, i, Variants(Bump));
        V13.LastListedStep(keys, i, Variants(Normal));
        bumpFound, bumpName, normalFound, normalName := VisitRoles(keys[i], bumpFound, bumpName, normalFound, normalName);
        i := i + 1;
      }
      assert keys[..|keys|] == keys;
    }

    /** Both maps: `mtlxBump` reads the bump image and drives the normal, `mtxlNormal` feeds its input 3. */
    method JoinBoth(net: Network, c: Ctx, bump: nat, normal: nat, bumpPath: string, normalPath: string)
      modifies net
      ensures net.State() == BothMaps(old(net.State()), c, bump, normal, bumpPath, normalPath)
    {
      var mtlxBump := net.CreateNode("mtlxbump", "mtlxBump");
      net.SetInput(mtlxBump, Index(0), bump);
      net.SetInput(c.surf, Named("normal"), mtlxBump);
      var mtlxNormal := net.CreateNode("mtlxnormalmap", "mtxlNormal");
      net.SetInput(mtlxNormal, Index(0), normal);
      net.SetInput(mtlxBump, Index(3), mtlxNormal);
      net.SetParm(bump, "file", Str(bumpPath));
      net.SetParm(normal, "file", Str(normalPath));
    }

    /** A single map: its node reads the image and drives the normal. */
    method JoinOne(net: Network, c: Ctx, kind: string, name: string, img: nat, path: string)
      modifies net
      ensures net.State() == OneMap(old(net.State()), c, kind, name, img, path)
    {
      var node := net.CreateNode(kind, name);
      net.SetInput(node, Index(0), img);
      net.SetInput(c.surf, Named("normal"), node);
      net.SetParm(img, "file", Str(path));
    }

    /** The closing `if bumpFound or normalFound` block. */
    method JoinBumpNormal(net: Network, c: Ctx, e: TextureSet, bump: Option<nat>, normal: Option<nat>)
      requires V13.Stocked(e.keys, e.files)
      requires V13.LastListed(e.keys, Variants(Bump)).Some? ==> bump.Some?
      requires V13.LastListed(e.keys, Variants(Normal)).Some? ==> normal.Some?
      modifies net
      ensures net.State() == BumpNormal(Build(old(net.State()), bump, normal), c, e.keys, e.files)
    {
      var bumpFound, bumpName, normalFound, normalName := FindBumpNormal(e.keys);
      if bumpFound || normalFound {
        if bumpFound && normalFound {
          var bumpPath := BumpNormalPath12(c.folder, e.files[bumpName][0], c.udim, c.tx);
          var normalPath := BumpNormalPath12(c.folder, e.files[normalName][0], c.udim, c.tx);
          JoinBoth(net, c, bump.value, normal.value, bumpPath, normalPath);
        } else if bumpFound {
          var bumpPath := BumpNormalPath12(c.folder, e.files[bumpName][0], c.udim, c.tx);
          JoinOne(net, c, "mtlxbump", "mtlxBump", bump.value, bumpPath);
        } else {
          var normalPath := BumpNormalPath12(c.folder, e.files[normalName][0], c.udim, c.tx);
          JoinOne(net, c, "mtlxnormalmap", "mtxlNormal", normal.value, normalPath);
        }
      }
    }

    /** The body of `myfunc` once the subnet's first item is gone. */
    method BuildMaterial(net: Network, e: TextureSet, job: string, folder: string)
      requires WellFormed(e)
      modifies net
      ensures net.State() == SynthesisV12.Material(old(net.State()), mat, e, mtlTX, job, folder)
    {
      ghost var g0 := net.State();
      V13.WellFormedStocked(e);
      var c := SetupSkeleton(net, e, job, folder);
      var bump, normal := ProcessTextures(net, c, e);
      MapsTracked(Build(Skeleton(g0, mat, e.udim), None, None), c, e.keys, e.files, Bump);
      MapsTracked(Build(Skeleton(g0, mat, e.udim), None, None), c, e.keys, e.files, Normal);
      JoinBumpNormal(net, c, e, bump, normal);
    }

    /** The output connectors, the shader and displacement nodes, then the place2d chain unless UDIM. */
    method SetupSkeleton(net: Network, e: TextureSet, job: string, folder: string) returns (c: Ctx)
      modifies net
      ensures c == MaterialCtx(old(net.State()), e, mtlTX, job, folder)
      ensures net.State() == Skeleton(old(net.State()), mat, e.udim)
    {
      var surf, disp := CreateMainNodes(net);
      var place := SetupPlace2d(net, e.udim);
      c := Ctx(surf, disp, place, e.udim, mtlTX, job, folder);
    }

    /**
     * `myfunc`. A material missing from the table raises `KeyError` before
     * anything changes. Otherwise every library child of the new name is
     * destroyed and the subnet created; a subnet without default items makes
     * `allItems()[0]` raise, so nothing is built; else the first item is
     * destroyed and the subnet holds exactly `SynthesisV12.Material`.
     */
    method MyFunc(lib: MaterialLibrary, textList: Table, job: string, folder: string, defaults: seq<Node>) returns (net: Network?)
      requires TableWellFormed(textList)
      modifies lib
      ensures mat !in textList ==> net == null && lib.children == old(lib.children)
      ensures mat in textList ==>
        var name := MaterialName(mat, textList[mat].size);
        lib.children == RemoveAll(old(lib.children), name) + [name]
      ensures mat in textList && |defaults| == 0 ==> net == null
      ensures mat in textList && |defaults| > 0 ==> net != null && fresh(net)
      ensures mat in textList && |defaults| > 0 ==>
        net.State() == SynthesisV12.Material(Destroy(Fresh(defaults), 0), mat, textList[mat], mtlTX, job, folder)
    {
      if mat !in textList {
        return null;
      }
      var getMat := textList[mat];
      var newMaterialName := MaterialName(mat, getMat.size);
      lib.CreateSubnet12(newMaterialName);
      net := BuildSubnet(getMat, job, folder, defaults);
    }

    /** The new subnet's network, emptied of its first default item and filled with the material. */
    method BuildSubnet(e: TextureSet, job: string, folder: string, defaults: seq<Node>) returns (net: Network?)
      requires WellFormed(e)
      ensures |defaults| == 0 <==> net == null
      ensures net != null ==> fresh(net) && net.State() == SynthesisV12.Material(Destroy(Fresh(defaults), 0), mat, e, mtlTX, job, folder)
    {
      net := NewSubnet(defaults);
      if net != null {
        BuildMaterial(net, e, job, folder);
      }
    }

    /**
     * The new subnet's network, holding Houdini's default items, with the
     * first of them destroyed; `allItems()[0]` raises when there is none.
     */
    static method NewSubnet(defaults: seq<Node>) returns (net: Network?)
      ensures |defaults| == 0 <==> net == null
      ensures net != null ==> fresh(net) && net.State() == Destroy(Fresh(defaults), 0)
    {
      net := new Network(defaults);
      if |defaults| == 0 {
        return null;
      }
      net.DestroyNode(0);
    }
  }
}

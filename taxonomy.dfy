/**
 * The constant tables shared by both versions of TexToMtlX: the ordered list
 * of name fragments that classify a file, the image extensions, and the
 * grouping of fragments into texture roles (`TEXTURE_TYPE_SORTED`,
 * `textureTypesSorted`).
 */
module Taxonomy {
  import opened Strings

  /** `TEXTURE_TYPES` (v1.3) and `texturesTypes` (v1.2): the same list, in this order. */
  const TextureTypes: seq<string> := [
    "diffuse", "diff", "albedo", "alb", "base", "col", "color", "basecolor",
    "metallic", "metalness", "metal", "mtl", "met",
    "specularity", "specular", "spec", "spc",
    "roughness", "rough", "rgh",
    "gloss", "glossy", "glossiness", "translucency",
    "transmission", "transparency", "trans",
    "emission", "emissive", "emit", "emm", "alpha", "opacity", "opac",
    "ao", "ambient_occlusion", "occlusion", "cavity",
    "bump", "bmp", "height", "displacement", "displace", "disp", "dsp", "heightmap", "user", "mask",
    "normal", "nor", "nrm", "nrml", "norm"
  ]

  /** v1.3 `TEXTURE_EXT`, including its `.jpge` spelling. */
  const TextureExt13: seq<string> := [".jpg", ".jpge", ".png", ".bmp", ".tif", ".tiff", ".exr", ".targa"]

  /** v1.2 `textureExt` (`.bmp` is listed twice). */
  const TextureExt12: seq<string> := [".jpg", ".jpeg", ".png", ".bmp", ".tif", ".tiff", ".exr", ".bmp"]

  /** The keys of `TEXTURE_TYPE_SORTED`, in dictionary order. */
  datatype Role = Color | Metal | Specular | Rough | Gloss | Trans | Emm | Alpha | AO | Bump | Disp | Extra | Normal | SSS

  const Roles: seq<Role> := [Color, Metal, Specular, Rough, Gloss, Trans, Emm, Alpha, AO, Bump, Disp, Extra, Normal, SSS]

  /** `Roles` lists every role. */
  lemma AllRoles()
    ensures forall r: Role :: r in Roles
  {
    forall r: Role
      ensures r in Roles
    {
      match r
      case Color => assert Roles[0] == r;
      case _ =>
    }
  }

  /** The fragments listed under each role. */
  function Variants(r: Role): seq<string> {
    match r
    case Color => ["diffuse", "diff", "albedo", "alb", "base", "col", "color", "basecolor"]
    case Metal => ["metallic", "metalness", "metal", "mtl", "met"]
    case Specular => ["specularity", "specular", "spec", "spc"]
    case Rough => ["roughness", "rough", "rgh"]
    case Gloss => ["gloss", "glossy", "glossiness"]
    case Trans => ["transmission", "transparency", "trans"]
    case Emm => ["emission", "emissive", "emit", "emm"]
    case Alpha => ["alpha", "opacity", "opac"]
    case AO => ["ao", "ambient_occlusion", "occlusion"]
    case Bump => ["bump", "bmp", "height"]
    case Disp => ["displacement", "displace", "disp", "dsp", "heightmap"]
    case Extra => ["user", "mask"]
    case Normal => ["normal", "nor", "nrm", "nrml", "norm"]
    case SSS => ["translucency"]
  }
}

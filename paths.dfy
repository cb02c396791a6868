/**
 * The file path an image node reads, in both versions, and the v1.3 choice
 * of signature and colour space for an image node. `job` is the expansion of
 * `$JOB`, passed in as a plain string.
 */
module TexturePaths {
  import opened Strings
  import opened Patterns
  import opened Taxonomy

  /** The file name an image node refers to: the `.tx` name when conversion is on. */
  function FileValue(file: string, tx: bool): string {
    if tx then TxName(file) else file
  }

  /**
   * v1.3 `_get_texture_path`: a folder that starts with the `$JOB`
   * expansion has that text replaced by `$JOB`; the file name is appended
   * with no separator; with UDIM on, `re.sub(r'\d{4}', '<UDIM>', …)` rewrites
   * the whole path.
   */
  function TexturePath13(folder: string, file: string, udim: bool, tx: bool, job: string): string {
    var base := if StartsWith(folder, job) then Replace(folder, job, "$JOB") else folder;
    var path := base + FileValue(file, tx);
    if udim then ReplaceFourDigitGroups(path) else path
  }

  /** Without UDIM the path is the (rewritten) folder followed directly by the file value. */
  lemma Path13NoUdim(folder: string, file: string, tx: bool, job: string)
    ensures !StartsWith(folder, job) ==> TexturePath13(folder, file, false, tx, job) == folder + FileValue(file, tx)
    ensures EndsWith(TexturePath13(folder, file, false, tx, job), FileValue(file, tx))
  {
    var base := if StartsWith(folder, job) then Replace(folder, job, "$JOB") else folder;
    assert (base + FileValue(file, tx))[|base|..] == FileValue(file, tx);
  }

  /** With UDIM on no group of four digits is left anywhere in the path, folder included. */
  lemma Path13UdimRewritesAll(folder: string, file: string, tx: bool, job: string)
    ensures !HasFourDigits(TexturePath13(folder, file, true, tx, job))
  {
    var base := if StartsWith(folder, job) then Replace(folder, job, "$JOB") else folder;
    ReplaceLeavesNoGroup(base + FileValue(file, tx));
  }

  /** A folder under a non-empty `$JOB` expansion yields a path that starts with `$JOB`, UDIM or not. */
  lemma Path13Job(folder: string, file: string, udim: bool, tx: bool, job: string)
    requires job != [] && StartsWith(folder, job)
    ensures StartsWith(TexturePath13(folder, file, udim, tx, job), "$JOB")
  {
    var base := Replace(folder, job, "$JOB");
    ReplacePrefix(folder, job, "$JOB");
    var rest := base[4..] + FileValue(file, tx);
    assert base + FileValue(file, tx) == "$JOB" + rest;
    if udim {
      ReplaceAfterPlainPrefix("$JOB", rest);
    }
  }

  /** With conversion on the path ends in `.tx`, UDIM or not. */
  lemma Path13Tx(folder: string, file: string, udim: bool, job: string)
    ensures EndsWith(TexturePath13(folder, file, udim, true, job), ".tx")
  {
    var base := if StartsWith(folder, job) then Replace(folder, job, "$JOB") else folder;
    var stem := base + BeforeFirstDot(file);
    assert base + TxName(file) == stem + ".tx";
    if udim {
      ReplaceBeforePlainSuffix(stem, ".tx");
    }
  }

  /**
   * v1.2, inline in `myfunc`: folder and file joined with `/`; the `$JOB`
   * expansion replaced wherever it occurs; with UDIM on only the literal
   * text `1001` becomes `<UDIM>`.
   */
  function TexturePath12(folder: string, file: string, udim: bool, tx: bool, job: string): string {
    var value := folder + "/" + FileValue(file, tx);
    var rewritten := if Contains(value, job) then Replace(value, job, "$JOB") else value;
    if udim then Replace(rewritten, "1001", "<UDIM>") else rewritten
  }

  /** v1.2 path of the bump and normal images, rebuilt later without the `$JOB` step. */
  function BumpNormalPath12(folder: string, file: string, udim: bool, tx: bool): string {
    var value := folder + "/" + FileValue(file, tx);
    if udim then Replace(value, "1001", "<UDIM>") else value
  }

  /** With UDIM on, v1.2 leaves every tile number other than `1001` in place. */
  lemma Path12OnlyFirstTile(folder: string, file: string, tx: bool, job: string)
    requires var value := folder + "/" + FileValue(file, tx);
      !Contains(if Contains(value, job) then Replace(value, job, "$JOB") else value, "1001")
    ensures TexturePath12(folder, file, true, tx, job) == TexturePath12(folder, file, false, tx, job)
  {
    var value := folder + "/" + FileValue(file, tx);
    ReplaceAbsent(if Contains(value, job) then Replace(value, job, "$JOB") else value, "1001", "<UDIM>");
  }

  /**
   * The bump and normal paths skip the `$JOB` step: for a folder under a
   * non-empty `$JOB` expansion the image path starts with `$JOB`, the bump or
   * normal path with the expanded folder.
   */
  lemma BumpNormalPathSkipsJob(folder: string, file: string, tx: bool, job: string)
    requires job != [] && StartsWith(folder, job)
    ensures StartsWith(TexturePath12(folder, file, false, tx, job), "$JOB")
    ensures StartsWith(BumpNormalPath12(folder, file, false, tx), folder)
  {
    var value := folder + "/" + FileValue(file, tx);
    assert value[..|job|] == job;
    ContainsIff(value, job);
    assert OccursAt(value, job, 0);
    ReplacePrefix(value, job, "$JOB");
  }

  /** Both paths agree whenever the `$JOB` expansion does not occur. */
  lemma BumpNormalPathAgrees(folder: string, file: string, udim: bool, tx: bool, job: string)
    requires !Contains(folder + "/" + FileValue(file, tx), job)
    ensures BumpNormalPath12(folder, file, udim, tx) == TexturePath12(folder, file, udim, tx, job)
  {
  }

  /**
   * v1.3 `_configure_texture_node`: colour data (`color3`) for the Color and
   * SSS roles, with an sRGB colour space spelled `srg_tx` or `srg_texture`;
   * `float` and `raw` for every other role.
   */
  function ImageSettings13(role: Role, tx: bool): (r: (string, string))
    ensures r.0 == "color3" <==> role == Color || role == SSS
    ensures r.0 != "color3" ==> r == ("float", "raw")
    ensures r.0 == "color3" ==> r.1 == (if tx then "srg_tx" else "srg_texture")
  {
    var signature := if role == Color || role == SSS then "color3" else "float";
    var colorspace := if role == Color || role == SSS then (if tx then "srg_tx" else "srg_texture") else "raw";
    (signature, colorspace)
  }
}

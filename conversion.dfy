/**
 * v1.3 TX conversion bookkeeping: the worker-pool size, the list of files a
 * material hands to the converter, and the fold that counts conversion
 * outcomes into the value `_convert_to_tx` returns. The converter itself
 * (an `imaketx` process per file, run on a thread pool) is outside the
 * model: its per-file outcomes arrive as a sequence of booleans, in the
 * order the futures complete.
 */
module Conversion {
  import opened Options
  import opened Strings
  import opened TextureSets

  // ---------------------------------------------------------------------
  // init_constants: WORKER_LIMIT
  // ---------------------------------------------------------------------

  /** `max(1, int(cpu_count * 0.85))`, the factor written as 85/100. */
  function WorkerLimit(cpus: nat): (r: nat)
    ensures r >= 1
    ensures cpus >= 1 ==> r <= cpus
    ensures r == 1 || r * 100 <= cpus * 85 < (r + 1) * 100
    ensures cpus * 85 >= 100 ==> r * 100 <= cpus * 85 < (r + 1) * 100
  {
    var scaled := cpus * 85 / 100;
    if scaled < 1 then 1 else scaled
  }

  /** The clamp never lowers the pool below one worker and only matters for a single CPU (or none reported as 0). */
  lemma WorkerLimitSmall(cpus: nat)
    ensures WorkerLimit(cpus) == 1 <==> cpus <= 2
  {
  }

  // ---------------------------------------------------------------------
  // _prepare_material_info: the files handed to the converter
  // ---------------------------------------------------------------------

  /**
   * Every list-valued entry of the material's table, concatenated in key
   * order (`path` holds a string and `UDIM`/`Size` are skipped, so only the
   * fragment keys contribute).
   */
  function AllTextures(keys: seq<string>, files: map<string, seq<string>>): seq<string>
    requires forall k :: k in keys ==> k in files
  {
    if keys == [] then [] else AllTextures(keys[..|keys| - 1], files) + files[keys[|keys| - 1]]
  }

  /** A file is handed to the converter exactly when it is listed under one of the keys. */
  lemma {:induction false} AllTexturesSpec(keys: seq<string>, files: map<string, seq<string>>, x: string)
    requires forall k :: k in keys ==> k in files
    ensures x in AllTextures(keys, files) <==> exists k :: k in keys && x in files[k]
  {
    if keys != [] {
      var pre := keys[..|keys| - 1];
      AllTexturesSpec(pre, files, x);
      if x in AllTextures(pre, files) {
        var k :| k in pre && x in files[k];
        assert k in keys;
      }
      if exists k :: k in keys && x in files[k] {
        var k :| k in keys && x in files[k];
        if k != keys[|keys| - 1] {
          var i :| 0 <= i < |keys| && keys[i] == k;
          assert pre[i] == k;
        }
      }
    }
  }

  /** `_prepare_material_info`'s loop that extends `all_textures` entry by entry. */
  method CollectTextures(e: TextureSet) returns (all: seq<string>)
    requires WellFormed(e)
    ensures all == AllTextures(e.keys, e.files)
  {
    all := [];
    var i := 0;
    while i < |e.keys|
      invariant 0 <= i <= |e.keys|
      invariant all == AllTextures(e.keys[..i], e.files)
    {
      assert e.keys[..i + 1][..i] == e.keys[..i];
      all := all + e.files[e.keys[i]];
      i := i + 1;
    }
    assert e.keys[..|e.keys|] == e.keys;
  }

  // ---------------------------------------------------------------------
  // _convert_to_tx: counting outcomes
  // ---------------------------------------------------------------------

  /** Number of successful conversions. */
  function CountTrue(outcomes: seq<bool>): nat {
    if outcomes == [] then 0
    else CountTrue(outcomes[..|outcomes| - 1]) + (if outcomes[|outcomes| - 1] then 1 else 0)
  }

  /** At most one success per outcome; as many as outcomes exactly when none failed. */
  lemma {:induction false} CountTrueBounds(outcomes: seq<bool>)
    ensures CountTrue(outcomes) <= |outcomes|
    ensures CountTrue(outcomes) == |outcomes| <==> forall i :: 0 <= i < |outcomes| ==> outcomes[i]
  {
    if outcomes != [] {
      var pre := outcomes[..|outcomes| - 1];
      CountTrueBounds(pre);
      if forall i :: 0 <= i < |outcomes| ==> outcomes[i] {
        assert forall i :: 0 <= i < |pre| ==> pre[i] == outcomes[i];
      }
      if CountTrue(outcomes) == |outcomes| {
        forall i | 0 <= i < |outcomes|
          ensures outcomes[i]
        {
          if i < |pre| {
            assert pre[i] == outcomes[i];
          }
        }
      }
    }
  }

  /**
   * `_convert_to_tx` with TX off returns `None` without converting; with TX
   * on, every submitted texture is counted once, as completed or as failed,
   * and the result is "something completed and nothing failed".
   */
  method ConvertToTx(mtlTX: bool, textures: seq<string>, outcomes: seq<bool>) returns (r: Option<bool>, completed: nat, failed: nat)
    requires |outcomes| == |textures|
    ensures !mtlTX ==> r == None && completed == 0 && failed == 0
    ensures mtlTX ==> completed + failed == |textures|
    ensures mtlTX ==> completed == CountTrue(outcomes)
    ensures mtlTX ==> r == Some(completed > 0 && failed == 0)
  {
    completed, failed := 0, 0;
    if !mtlTX {
      return None, completed, failed;
    }
    var i := 0;
    while i < |outcomes|
      invariant 0 <= i <= |outcomes|
      invariant completed == CountTrue(outcomes[..i])
      invariant completed + failed == i
    {
      assert outcomes[..i + 1][..i] == outcomes[..i];
      if outcomes[i] {
        completed := completed + 1;
      } else {
        failed := failed + 1;
      }
      i := i + 1;
    }
    assert outcomes[..|outcomes|] == outcomes;
    r := Some(completed > 0 && failed == 0);
  }

  /** The returned flag, as a function of the outcomes alone. */
  function Converted(outcomes: seq<bool>): bool {
    CountTrue(outcomes) > 0 && |outcomes| - CountTrue(outcomes) == 0
  }

  /**
   * The batch counts as converted exactly when it is not empty and every
   * single conversion succeeded: an empty batch reports failure.
   */
  lemma ConvertedIff(outcomes: seq<bool>)
    ensures Converted(outcomes) <==> |outcomes| > 0 && forall i :: 0 <= i < |outcomes| ==> outcomes[i]
  {
    CountTrueBounds(outcomes);
    if |outcomes| > 0 && forall i :: 0 <= i < |outcomes| ==> outcomes[i] {
      assert CountTrue(outcomes) == |outcomes|;
    }
  }

  // ---------------------------------------------------------------------
  // Converted file names
  // ---------------------------------------------------------------------

  /** Position of the last `c` in `s`. */
  function LastIndex(s: string, c: char): (i: nat)
    requires c in s
    ensures i < |s| && s[i] == c && c !in s[i + 1..]
  {
    if s[|s| - 1] == c then |s| - 1
    else
      assert c in s[..|s| - 1];
      LastIndex(s[..|s| - 1], c)
  }

  /**
   * The name `imaketx` writes: `os.path.splitext(name)[0] + ".tx"`, for a
   * file name whose last `.` does not start it (every accepted texture name
   * has a character before its extension).
   */
  function WrittenTxName(name: string): (r: string)
    ensures EndsWith(r, ".tx")
  {
    if '.' in name && LastIndex(name, '.') > 0 then name[..LastIndex(name, '.')] + ".tx" else name + ".tx"
  }

  /**
   * The name an image node reads with TX on (`TxName`) and the name the
   * converter writes agree for a file name with a single `.` not at its start.
   */
  lemma TxNamesAgree(name: string)
    requires '.' in name && FirstIndex(name, '.') > 0 && '.' !in name[FirstIndex(name, '.') + 1..]
    ensures TxName(name) == WrittenTxName(name)
  {
    LastIndexIs(name, '.', FirstIndex(name, '.'));
  }

  /** The first-index function is pinned down by its contract. */
  lemma FirstIndexIs(s: string, c: char, i: nat)
    requires i < |s| && s[i] == c && c !in s[..i]
    ensures FirstIndex(s, c) == i
  {
    var j := FirstIndex(s, c);
    NoneBefore(s, c, i);
    NoneBefore(s, c, j);
  }

  lemma NoneBefore(s: string, c: char, i: nat)
    requires i <= |s| && c !in s[..i]
    ensures forall k :: 0 <= k < i ==> s[k] != c
  {
    forall k | 0 <= k < i
      ensures s[k] != c
    {
      assert s[..i][k] == s[k];
    }
  }

  lemma NoneAfter(s: string, c: char, i: nat)
    requires i < |s| && c !in s[i + 1..]
    ensures forall k :: i < k < |s| ==> s[k] != c
  {
    forall k | i < k < |s|
      ensures s[k] != c
    {
      assert s[i + 1..][k - i - 1] == s[k];
    }
  }

  lemma LastIndexIs(s: string, c: char, i: nat)
    requires i < |s| && s[i] == c && c !in s[i + 1..]
    ensures LastIndex(s, c) == i
  {
    var j := LastIndex(s, c);
    NoneAfter(s, c, i);
    NoneAfter(s, c, j);
  }

  /**
   * With a second `.` the two differ: a tile written `tires_col.1001.exr` is
   * converted to `tires_col.1001.tx`, while the image node is pointed at
   * `tires_col.tx`.
   */
  lemma TxNamesDiverge(stem: string, tile: string, ext: string)
    requires stem != [] && '.' !in stem && '.' !in tile && '.' !in ext
    ensures TxName(stem + "." + tile + "." + ext) == stem + ".tx"
    ensures WrittenTxName(stem + "." + tile + "." + ext) == stem + "." + tile + ".tx"
    ensures TxName(stem + "." + tile + "." + ext) != WrittenTxName(stem + "." + tile + "." + ext)
  {
    var name := stem + "." + tile + "." + ext;
    var i, j := |stem|, |stem| + 1 + |tile|;
    assert name[..i] == stem && name[i] == '.';
    FirstIndexIs(name, '.', i);
    assert name[j] == '.' && name[j + 1..] == ext && name[..j] == stem + "." + tile;
    LastIndexIs(name, '.', j);
    assert |stem + ".tx"| < |stem + "." + tile + ".tx"|;
  }
}

# TexToMtlX, modelled in Dafny

TexToMtlX is a pair of Houdini tools, v1.2 and v1.3. Each scans a folder of
texture files, groups them per material and builds one MaterialX subnet per
selected material inside a material library. This project models the logic of
both versions and proves properties about it:

- **Building the texture table.** v1.3 `TxToMtlx.get_texture_details` and v1.2
  `mainWindowUI.retriveMtlName` turn a folder listing into a table: material ->
  fragment key -> list of files, plus the `UDIM`, `Size` and `path` entries.
- **Paths and node settings.** The file path written into each image node
  covers the `$JOB` prefix, the `.tx` swap and the `<UDIM>` substitution. The
  data type and colour space of each image are modelled too.
- **Building the network.** The nodes each version creates inside the subnet,
  their parameters and their connections: the shader, the displacement node,
  the output connectors, the place2d chain, a node per texture with its range
  or separate node, and the closing bump/normal composition.
- **Conversion bookkeeping.** The files handed to the TX converter, the
  worker-pool size and the counting of conversion outcomes.

Module layout:

| module | file | what it holds |
|---|---|---|
| `Options`, `Seqs`, `Strings` | `options.dfy`, `seqs.dfy`, `strings.dfy` | `Option`, ordered key lists, and the Python string operations the tools use (`lower`, `capitalize`, `split`, `join`, `replace`, `in`, `endswith`) |
| `Patterns` | `patterns.dfy` | hand-written scanners for the UDIM and size regular expressions of both versions and for `re.sub(r'\d{4}', '<UDIM>', …)` |
| `Taxonomy` | `taxonomy.dfy` | the fragment list, both extension lists and the fourteen roles of `TEXTURE_TYPE_SORTED` / `textureTypesSorted` |
| `TextureSets` | `texture_sets.dfy` | one material's entry and the fold that builds a folder's table |
| `ClassifierV13`, `ClassifierV12` | `classifier_v13.dfy`, `classifier_v12.dfy` | the two classifiers, as loops proved against that fold, and the tool state that holds the table |
| `Graph` | `graph.dfy` | the Houdini node network as a value (`Net`) and as an object (`Network`) with `createNode`, `parm().set`, `setInput` and `destroy` |
| `TexturePaths`, `Library` | `paths.dfy`, `library.dfy` | image file paths and node settings; subnet naming and the removal of an existing subnet of the same name |
| `Conversion` | `conversion.dfy` | `WORKER_LIMIT`, the files handed to the converter, the outcome counting of `_convert_to_tx` |
| `SynthesisV13`, `SynthesisV12` | `synthesis_v13.dfy`, `synthesis_v12.dfy` | what each version builds, as functions on `Net`, and the theorems about the finished subnet |
| `BuilderV13`, `BuilderV12` | `builder_v13.dfy`, `builder_v12.dfy` | `MtlxMaterial` and `material` as classes whose methods drive a `Network` call by call; each is proved to reach the state the synthesis functions describe |

The network is a map from node identifiers to nodes and a map from
connections to producers. A node has a type, a name and parameters. A
connection is an input (an index, or a named shader input) of a consumer
node. `createNode` takes the next identifier, `setInput` overwrites one
connection and `destroy` removes a node and its connections. A shader input
is addressed by name instead of `inputNames().index(name)`.

Where the two versions differ, each is modelled as written. Examples:
- The v1.3 classifier keeps the last matching fragment; v1.2 keeps the first.
- v1.3 matches roles by substring; v1.2 needs the exact key.
- v1.3 rewrites every four-digit group of the path; v1.2 rewrites only `1001`.
- The v1.2 names are kept as written: `surface_ouput` and `mtxlNormal`.
- v1.2 joins the normal map to bump input 3; v1.3 uses input 2.

## Model

| member | source | states |
|---|---|---|
| `Seqs.AppendNewProps` | Houdini/TexToMtlX/TexToMtlx_v1_3.py:296-301 | the list view's material order after `dict.update`: old order kept as a prefix, old and new materials present, none repeated |
| `Strings.Split` | Houdini/TexToMtlX/TexToMtlx_v1_3.py:264-265 | `split("_")` yields at least one segment and no segment holds the separator |
| `Strings.SplitMany` | Houdini/TexToMtlX/TexToMtlx_v1_2.py:198-200 | a name splits into more than one segment exactly when it holds `_` |
| `Strings.JoinSplit` | Houdini/TexToMtlX/TexToMtlx_v1_2.py:203-205 | joining the segments of a split gives the name back |
| `Strings.SplitJoin` | Houdini/TexToMtlX/TexToMtlx_v1_2.py:205-206 | splitting a join of separator-free segments gives the segments back |
| `Strings.ContainsIff` | Houdini/TexToMtlX/TexToMtlx_v1_3.py:272 | the `in` scan finds a fragment exactly when it occurs at some position |
| `Strings.ReplaceAbsent` | Houdini/TexToMtlX/TexToMtlx_v1_2.py:470-471 | `replace` leaves a string without the pattern unchanged |
| `Strings.ReplacePrefix` | Houdini/TexToMtlX/TexToMtlx_v1_3.py:780-781 | a folder starting with the `$JOB` expansion starts with the replacement afterwards |
| `Strings.BeforeFirstDot` | Houdini/TexToMtlX/TexToMtlx_v1_3.py:784 | `split(".")[0]` is a dot-free prefix that ends at the first `.` or at the end |
| `Strings.TxName` | Houdini/TexToMtlX/TexToMtlx_v1_3.py:783-785 | the converted name is the part before the first `.` followed by `.tx` |
| `Patterns.HasFourDigitsIff` | Houdini/TexToMtlX/TexToMtlx_v1_3.py:74 | the v1.3 UDIM test holds exactly when four digits stand somewhere in the name |
| `Patterns.UnderscoreUdimIsUdim` | Houdini/TexToMtlX/TexToMtlx_v1_2.py:28 | every name v1.2 tags as UDIM (`_\d{4}`) is tagged by v1.3 too |
| `Patterns.NoUnderscoreNoUdim` | Houdini/TexToMtlX/TexToMtlx_v1_2.py:28 | a name without `_` never carries the v1.2 UDIM tag |
| `Patterns.UdimTagsDiffer` | Houdini/TexToMtlX/TexToMtlx_v1_3.py:74 | `tires1001.png` is UDIM for v1.3 and not for v1.2 |
| `Patterns.SizeTag13None` | Houdini/TexToMtlX/TexToMtlx_v1_3.py:75 | the v1.3 size search finds nothing exactly when no digit is followed by K or k |
| `Patterns.SizeTag13First` | Houdini/TexToMtlX/TexToMtlx_v1_3.py:75 | a v1.3 size tag is the leftmost run of digits followed by K, taken whole, with its K |
| `Patterns.SizeTag12Found` | Houdini/TexToMtlX/TexToMtlx_v1_2.py:224-225 | a v1.2 size tag is digits plus K standing right after an underscore, and it is the group of the leftmost `_\d+[Kk]` match (no match starts earlier) |
| `Patterns.SizeTag12None` | Houdini/TexToMtlX/TexToMtlx_v1_2.py:224-225 | the v1.2 size search finds nothing exactly when no `_\d+[Kk]` match exists anywhere in the name |
| `Patterns.SizeTagFoundByBoth` | Houdini/TexToMtlX/TexToMtlx_v1_2.py:29 | whenever v1.2 finds a size tag, v1.3 finds one too |
| `Patterns.ReplaceLeavesNoGroup` | Houdini/TexToMtlX/TexToMtlx_v1_3.py:789-790 | after the UDIM rewrite no four-digit group is left anywhere in the path |
| `Patterns.ReplaceWithoutGroup` | Houdini/TexToMtlX/TexToMtlx_v1_3.py:789-790 | a path without a four-digit group is left as it is |
| `Patterns.ReplaceIdempotent` | Houdini/TexToMtlX/TexToMtlx_v1_3.py:789-790 | the UDIM rewrite is idempotent |
| `Patterns.ReplaceAfterPlainPrefix` | Houdini/TexToMtlX/TexToMtlx_v1_3.py:787-790 | a digit-free folder is kept in front of the rewritten file name |
| `Patterns.ReplaceBeforePlainSuffix` | Houdini/TexToMtlX/TexToMtlx_v1_3.py:785-790 | a digit-free suffix such as `.tx` survives the rewrite |
| `Taxonomy.AllRoles` | Houdini/TexToMtlX/TexToMtlx_v1_3.py:405-420 | the role list names all fourteen roles of `TEXTURE_TYPE_SORTED` |
| `TextureSets.Insert` | Houdini/TexToMtlX/TexToMtlx_v1_3.py:292-298 | recording a file adds its material to the table and leaves every other material's entry alone |
| `TextureSets.CollectMaterials` | Houdini/TexToMtlX/TexToMtlx_v1_3.py:262-298 | the table has an entry exactly for the materials of the classified files |
| `TextureSets.CollectKeys` | Houdini/TexToMtlX/TexToMtlx_v1_3.py:262-298 | a material's keys are exactly the fragments its files were filed under |
| `TextureSets.CollectFiles` | Houdini/TexToMtlX/TexToMtlx_v1_3.py:293-294 | the files under a key are that material's files with that key, in listing order |
| `TextureSets.CollectFlags` | Houdini/TexToMtlX/TexToMtlx_v1_3.py:290-296 | `UDIM` is the flag of the material's last file, `Size` the tag of the last file that had one (never cleared), `path` the folder |
| `TextureSets.CollectWellFormed` | Houdini/TexToMtlX/TexToMtlx_v1_3.py:262-298 | every entry lists each key once, each with at least one file |
| `TextureSets.InsertWellFormed` | Houdini/TexToMtlX/TexToMtlx_v1_3.py:292-296 | recording a file keeps every entry well formed |
| `TextureSets.CollectSnoc` | Houdini/TexToMtlX/TexToMtlx_v1_3.py:262-296 | one more classified file is one more `Insert`; the order gains the material if it is new |
| `TextureSets.OrderMatchesTable` | Houdini/TexToMtlX/TexToMtlx_v1_3.py:299-301 | the material order lists every material of the table exactly once |
| `TextureSets.UdimDependsOnOrder` | Houdini/TexToMtlX/TexToMtlx_v1_3.py:294 | the same two files give a UDIM or a non-UDIM material depending on which is listed last |
| `ClassifierV13.JpegRejected` | Houdini/TexToMtlX/TexToMtlx_v1_3.py:61 | because of the `.jpge` spelling a `.jpeg` file is never admitted, whatever the case of its name (the name is lower-cased before the extension test), while v1.2's list accepts it |
| `ClassifierV13.LastMatch` | Houdini/TexToMtlX/TexToMtlx_v1_3.py:267-274 | a found key is a listed fragment that occurs in a later segment |
| `ClassifierV13.LastMatchIsLast` | Houdini/TexToMtlX/TexToMtlx_v1_3.py:267-276 | no key exactly when no fragment occurs; otherwise the key is the last fragment, in list order, that occurs |
| `ClassifierV13.FindTextureType` | Houdini/TexToMtlX/TexToMtlx_v1_3.py:267-274 | the nested fragment/segment loop, whose `break` only ends the inner scan, returns the last matching fragment |
| `ClassifierV13.ClassifySpec` | Houdini/TexToMtlX/TexToMtlx_v1_3.py:262-290 | a file is dropped exactly when no fragment occurs in its later segments; otherwise the material is the first segment, the key the last matching fragment, UDIM means four digits anywhere, and the size is the v1.3 size scan of the name |
| `ClassifierV13.AdmittedNames` | Houdini/TexToMtlX/TexToMtlx_v1_3.py:250-259 | a name is collected exactly when it is a regular file with a listed extension and a `_` |
| `ClassifierV13.ClassifyAllMembers` | Houdini/TexToMtlX/TexToMtlx_v1_3.py:262-276 | an entry comes out of classifying the admitted files exactly when some file classifies to it |
| `ClassifierV13.TableStep` | Houdini/TexToMtlX/TexToMtlx_v1_3.py:262-296 | one more file either leaves table and order alone or is one more `Insert` |
| `ClassifierV13.ValidFiles` | Houdini/TexToMtlX/TexToMtlx_v1_3.py:248-259 | the first loop collects exactly the admitted names, in listing order |
| `ClassifierV13.BuildTable` | Houdini/TexToMtlX/TexToMtlx_v1_3.py:262-290 | the second loop builds the folder's table and material order |
| `ClassifierV13.TextureBrowser.constructor` | Houdini/TexToMtlX/TexToMtlx_v1_3.py:212-215 | opening folders starts from an empty table |
| `ClassifierV13.TextureBrowser.GetTextureDetails` | Houdini/TexToMtlX/TexToMtlx_v1_3.py:237-309 | a missing folder leaves the table alone; otherwise the folder's table is merged by `dict.update`, replacing a repeated material wholesale and appending new materials to the list |
| `ClassifierV12.CapitalizedAddsNothing` | Houdini/TexToMtlX/TexToMtlx_v1_2.py:212 | for a lower-case fragment the `capitalize()` test finds nothing the lower-case test misses |
| `Strings.LowerCapitalize` | Houdini/TexToMtlX/TexToMtlx_v1_2.py:212 | lower-casing a capitalised lower-case fragment gives it back |
| `ClassifierV12.FirstMatch` | Houdini/TexToMtlX/TexToMtlx_v1_2.py:211-214 | a found key is a listed fragment that occurs in a later part |
| `ClassifierV12.FirstMatchIsFirst` | Houdini/TexToMtlX/TexToMtlx_v1_2.py:209-218 | no key exactly when no fragment occurs; otherwise the key is the first fragment, in list order, that occurs |
| `ClassifierV12.AnyPart` | Houdini/TexToMtlX/TexToMtlx_v1_2.py:212 | the `any(...)` scan holds exactly when the fragment occurs in some part |
| `ClassifierV12.FindTextureType` | Houdini/TexToMtlX/TexToMtlx_v1_2.py:209-214 | the fragment loop with its `break` returns the first matching fragment |
| `ClassifierV12.RestSplit` | Houdini/TexToMtlX/TexToMtlx_v1_2.py:203-206 | rejoining the later segments and splitting again gives them back unchanged |
| `ClassifierV12.ClassifySpec` | Houdini/TexToMtlX/TexToMtlx_v1_2.py:197-232 | a file is dropped when it has no `_` or no fragment occurs in its later segments; otherwise the key is the first matching fragment, UDIM needs `_` before four digits, and the size is the v1.2 size scan of the name |
| `ClassifierV12.ListedNames` | Houdini/TexToMtlX/TexToMtlx_v1_2.py:191-195 | a name is collected exactly when it is a regular file with a listed extension |
| `ClassifierV12.ClassifyAllMembers` | Houdini/TexToMtlX/TexToMtlx_v1_2.py:197-218 | an entry comes out of classifying the listed files exactly when some file classifies to it |
| `ClassifierV12.TableStep` | Houdini/TexToMtlX/TexToMtlx_v1_2.py:197-232 | one more file either leaves table and order alone or is one more `Insert` |
| `ClassifierV12.ListTextures` | Houdini/TexToMtlX/TexToMtlx_v1_2.py:191-195 | the first loop collects exactly the listed names, in listing order |
| `ClassifierV12.BuildTable` | Houdini/TexToMtlX/TexToMtlx_v1_2.py:197-232 | the second loop builds the folder's table (with no `path` entry) and material order |
| `ClassifierV12.TextureBrowser.constructor` | Houdini/TexToMtlX/TexToMtlx_v1_2.py:189-190 | the model starts from an empty table; in the source the global `textList` does not exist until the first `retriveMtlName` binds it |
| `ClassifierV12.TextureBrowser.RetriveMtlName` | Houdini/TexToMtlX/TexToMtlx_v1_2.py:186-234 | the table is rebound to the new folder's table, so earlier folders' materials are gone |
| `TexturePaths.Path13NoUdim` | Houdini/TexToMtlX/TexToMtlx_v1_3.py:776-792 | without UDIM the path is the folder directly followed by the file value, with no separator |
| `TexturePaths.Path13UdimRewritesAll` | Houdini/TexToMtlX/TexToMtlx_v1_3.py:787-790 | with UDIM no four-digit group is left anywhere in the path, folder included |
| `TexturePaths.Path13Job` | Houdini/TexToMtlX/TexToMtlx_v1_3.py:777-781 | a folder under the `$JOB` expansion yields a path starting with `$JOB` |
| `TexturePaths.Path13Tx` | Houdini/TexToMtlX/TexToMtlx_v1_3.py:783-790 | with TX on the path ends in `.tx` |
| `TexturePaths.Path12OnlyFirstTile` | Houdini/TexToMtlX/TexToMtlx_v1_2.py:570-577 | v1.2 rewrites only the literal `1001`: a path without it is the same with UDIM on or off |
| `TexturePaths.BumpNormalPathSkipsJob` | Houdini/TexToMtlX/TexToMtlx_v1_2.py:596-616 | the bump and normal files are set again without the `$JOB` step, so they keep the expanded folder |
| `TexturePaths.BumpNormalPathAgrees` | Houdini/TexToMtlX/TexToMtlx_v1_2.py:459-471 | where the `$JOB` expansion does not occur, both v1.2 path computations agree |
| `TexturePaths.ImageSettings13` | Houdini/TexToMtlX/TexToMtlx_v1_3.py:794-813 | only Color and SSS get `color3`, in `srg_tx` with TX on and `srg_texture` otherwise; every other role gets `float`/`raw` |
| `Library.MaterialName` | Houdini/TexToMtlX/TexToMtlx_v1_3.py:568-570 | the subnet name is the material, followed by `_` and the size tag when there is one |
| `Library.RemoveFirstCount` | Houdini/TexToMtlX/TexToMtlx_v1_3.py:573-575 | `node(name).destroy()` removes one child of that name, if any, and nothing else |
| `Library.RemoveAllCount` | Houdini/TexToMtlX/TexToMtlx_v1_2.py:317-322 | the v1.2 loop removes every child of that name and nothing else |
| `Library.RemoveFirstIsRemoveAll` | Houdini/TexToMtlX/TexToMtlx_v1_2.py:317-322 | while child names are unique the two removals agree |
| `Library.MaterialLibrary.CreateSubnet13` | Houdini/TexToMtlX/TexToMtlx_v1_3.py:572-578 | the library loses the first child of the name and gains the new subnet |
| `Library.MaterialLibrary.CreateSubnet12` | Houdini/TexToMtlX/TexToMtlx_v1_2.py:317-325 | the library loses every child of the name and gains the new subnet |
| `Library.NameOnce12` | Houdini/TexToMtlX/TexToMtlx_v1_2.py:317-325 | after v1.2 creates the subnet exactly one child carries its name |
| `Library.NameOnce13` | Houdini/TexToMtlX/TexToMtlx_v1_3.py:572-578 | after v1.3, exactly one child carries the name only when at most one did before |
| `Conversion.WorkerLimit` | Houdini/TexToMtlX/TexToMtlx_v1_3.py:423-424 | the pool has at least one worker and never more than the CPUs; when 85% of the CPUs is at least one, it is that share rounded down |
| `Conversion.WorkerLimitSmall` | Houdini/TexToMtlX/TexToMtlx_v1_3.py:424 | the pool is a single worker exactly when there are at most two CPUs |
| `Conversion.AllTexturesSpec` | Houdini/TexToMtlX/TexToMtlx_v1_3.py:544-551 | a file is handed to the converter exactly when it is listed under one of the keys |
| `Conversion.CollectTextures` | Houdini/TexToMtlX/TexToMtlx_v1_3.py:546-551 | the loop concatenates the file lists in key order |
| `Conversion.CountTrueBounds` | Houdini/TexToMtlX/TexToMtlx_v1_3.py:490-500 | successes never exceed the outcomes, and equal them exactly when none failed |
| `Conversion.ConvertToTx` | Houdini/TexToMtlX/TexToMtlx_v1_3.py:439-510 | with TX off nothing is counted and the result is `None`; with TX on each texture is counted once and the result is "something completed and nothing failed" |
| `Conversion.ConvertedIff` | Houdini/TexToMtlX/TexToMtlx_v1_3.py:510 | the batch reports success exactly when it is not empty and every conversion succeeded |
| `Conversion.WrittenTxName` | Houdini/TexToMtlX/TexToMtlx_v1_3.py:457 | the converter writes a name ending in `.tx` |
| `Conversion.TxNamesAgree` | Houdini/TexToMtlX/TexToMtlx_v1_3.py:457 | for a name with a single `.` the name written and the name read agree |
| `Conversion.TxNamesDiverge` | Houdini/TexToMtlX/TexToMtlx_v1_3.py:457 | with two dots they differ: `tires_col.1001.exr` is written as `tires_col.1001.tx` but read as `tires_col.tx` |
| `SynthesisV13.KeyPairs` | Houdini/TexToMtlX/TexToMtlx_v1_3.py:741-748 | a key yields a pair for each role one of whose fragments occurs in the lower-cased key, and nothing else |
| `SynthesisV13.PairsSpec` | Houdini/TexToMtlX/TexToMtlx_v1_3.py:733-748 | a pair is yielded exactly for an unskipped key and a matching role; its file is the key's first |
| `SynthesisV13.NoRoleMatches` | Houdini/TexToMtlX/TexToMtlx_v1_3.py:742 | a key containing no fragment's opening pair of letters matches no role |
| `SynthesisV13.PathYieldsNothing` | Houdini/TexToMtlX/TexToMtlx_v1_3.py:735-748 | the unskipped `path` entry yields no pair |
| `SynthesisV13.CavityYieldsNothing` | Houdini/TexToMtlX/TexToMtlx_v1_3.py:735-748 | a `cavity` key yields no pair, so its texture gets no node |
| `SynthesisV13.TranslucencyYieldsTwo` | Houdini/TexToMtlX/TexToMtlx_v1_3.py:741-748 | `translucency` yields both a Trans and an SSS pair |
| `SynthesisV13.HeightmapYieldsTwo` | Houdini/TexToMtlX/TexToMtlx_v1_3.py:741-748 | `heightmap` yields both a Bump and a Disp pair |
| `SynthesisV13.GrowsStep` | Houdini/TexToMtlX/TexToMtlx_v1_3.py:723-731 | one texture pass only adds nodes and rewires only the pair's own port |
| `SynthesisV13.FoldGrows` | Houdini/TexToMtlX/TexToMtlx_v1_3.py:711-731 | the texture loop keeps earlier nodes, hooks each new image to place2d as required and rewires only routed ports |
| `SynthesisV13.LastFeeding` | Houdini/TexToMtlX/TexToMtlx_v1_3.py:817-864 | finds the last pair routed to a port, or reports that none is |
| `SynthesisV13.StepPort` | Houdini/TexToMtlX/TexToMtlx_v1_3.py:815-864 | a pass routed to a port wires it to a node of that pass, named and typed as the role's setup helper makes it |
| `SynthesisV13.FoldPortUnrouted` | Houdini/TexToMtlX/TexToMtlx_v1_3.py:723-731 | a port no pair is routed to keeps its connection or its lack of one |
| `SynthesisV13.FoldPortRouted` | Houdini/TexToMtlX/TexToMtlx_v1_3.py:723-731 | a routed port is fed by the range or image node of the last pair routed to it (a later `setInput` overwrites) |
| `SynthesisV13.FoldImages` | Houdini/TexToMtlX/TexToMtlx_v1_3.py:750-765 | every pair leaves its image node with the role's signature, colour space and path |
| `SynthesisV13.OutputNodeShape` | Houdini/TexToMtlX/TexToMtlx_v1_3.py:660-679 | one output connector for the type, labelled with the capitalised type, is added under the next identifier and nothing is rewired |
| `SynthesisV13.CapitalizedLabels` | Houdini/TexToMtlX/TexToMtlx_v1_3.py:673 | `capitalize()` turns the two output types into the labels `Surface` and `Displacement` |
| `SynthesisV13.MainNodesShape` | Houdini/TexToMtlX/TexToMtlx_v1_3.py:636-658 | shader, displacement and the two connectors are created, each connector reading its node on input 0 |
| `SynthesisV13.Place2dShape` | Houdini/TexToMtlX/TexToMtlx_v1_3.py:691-707 | texcoord, scale (value 1), rotation, offset and place2d on inputs 0, 2, 3 and 4 |
| `SynthesisV13.LastListedAt` | Houdini/TexToMtlX/TexToMtlx_v1_3.py:986-990 | finds the last key listed verbatim under a map type, or reports that none is |
| `SynthesisV13.LastListedStep` | Houdini/TexToMtlX/TexToMtlx_v1_3.py:986-990 | a later listed key overwrites the earlier result |
| `SynthesisV13.MapKeyListed` | Houdini/TexToMtlX/TexToMtlx_v1_3.py:949-950 | some key is a bump or normal key exactly when one of the two searches finds one |
| `SynthesisV13.CreateBumpShape` | Houdini/TexToMtlX/TexToMtlx_v1_3.py:913-927 | `_create_bump` adds `mtlxBump` and a float image `bump` on its input 0, and nothing else |
| `SynthesisV13.CreateNormalShape` | Houdini/TexToMtlX/TexToMtlx_v1_3.py:929-943 | `_create_normal` adds `mtlxNormal` and a vector3 image `normal` on its input 0, and nothing else |
| `SynthesisV13.BumpNormalGrows` | Houdini/TexToMtlX/TexToMtlx_v1_3.py:908-968 | the bump/normal step only adds nodes and rewires only the shader's `normal` input |
| `SynthesisV13.NoMapsUnchanged` | Houdini/TexToMtlX/TexToMtlx_v1_3.py:949-950 | with neither map the network is unchanged |
| `SynthesisV13.BumpOnly` | Houdini/TexToMtlX/TexToMtlx_v1_3.py:960-963 | with only a bump key, `mtlxBump` reads the bump image and feeds the shader's `normal` |
| `SynthesisV13.NormalOnly` | Houdini/TexToMtlX/TexToMtlx_v1_3.py:965-968 | with only a normal key, `mtlxNormal` reads the normal image and feeds the shader's `normal` |
| `SynthesisV13.BothMaps` | Houdini/TexToMtlX/TexToMtlx_v1_3.py:952-958 | with both, the normal map feeds bump input 2 and only `mtlxBump` is on the shader's `normal` |
| `SynthesisV13.SkeletonShape` | Houdini/TexToMtlX/TexToMtlx_v1_3.py:518-524 | the shader, the displacement node and, without UDIM, the place2d node stand where the texture loop expects them |
| `SynthesisV13.NothingFeedsNormal` | Houdini/TexToMtlX/TexToMtlx_v1_3.py:817-864 | no texture pass is routed to the shader's `normal` input |
| `SynthesisV13.MaterialPorts` | Houdini/TexToMtlX/TexToMtlx_v1_3.py:512-536 | in the finished subnet each textured shader input is wired exactly when some pair is routed to it, and then from the last such pair's node |
| `SynthesisV13.MaterialNormal` | Houdini/TexToMtlX/TexToMtlx_v1_3.py:512-536 | the shader's `normal` is wired exactly when there is a bump or normal key, to a bump node when there is a bump key |
| `BuilderV13.MtlxMaterial.constructor` | Houdini/TexToMtlX/TexToMtlx_v1_3.py:393-424 | records the material, TX flag, `$JOB` and table, and the worker limit for the CPU count |
| `BuilderV13.MtlxMaterial.PrepareMaterialInfo` | Houdini/TexToMtlX/TexToMtlx_v1_3.py:538-556 | returns the material's entry; the conversion it triggers changes nothing in the table |
| `BuilderV13.MtlxMaterial.CreateMaterialSubnet` | Houdini/TexToMtlX/TexToMtlx_v1_3.py:558-588 | the library loses the first child of the name and gains the subnet, whose default items are all destroyed |
| `BuilderV13.MtlxMaterial.CreateOutputNode` | Houdini/TexToMtlX/TexToMtlx_v1_3.py:660-679 | leaves the network as `OutputNode` describes |
| `BuilderV13.MtlxMaterial.CreateMainNodes` | Houdini/TexToMtlX/TexToMtlx_v1_3.py:636-658 | returns the new shader and displacement nodes and leaves the network as `MainNodes` describes |
| `BuilderV13.MtlxMaterial.SetupPlace2d` | Houdini/TexToMtlX/TexToMtlx_v1_3.py:681-709 | UDIM: no node and `None`; otherwise the place2d chain and its place2d node |
| `BuilderV13.MtlxMaterial.CreatePlace2dNodes` | Houdini/TexToMtlX/TexToMtlx_v1_3.py:692-698 | returns the first of five new identifiers and adds texcoord, scale, rotation, offset and place2d in that order |
| `BuilderV13.MtlxMaterial.WirePlace2d` | Houdini/TexToMtlX/TexToMtlx_v1_3.py:701-705 | the place2d node reads texcoord, scale, rotation and offset on inputs 0, 2, 3 and 4 |
| `BuilderV13.MtlxMaterial.SetupSkeleton` | Houdini/TexToMtlX/TexToMtlx_v1_3.py:521-525 | returns the context `MaterialCtx` names (shader, displacement, place2d or none) and leaves the network as `Skeleton` describes |
| `BuilderV13.MtlxMaterial.ConfigureTextureNode` | Houdini/TexToMtlX/TexToMtlx_v1_3.py:794-813 | writes the role's signature and colour space |
| `BuilderV13.MtlxMaterial.CreateTextureNode` | Houdini/TexToMtlX/TexToMtlx_v1_3.py:750-765 | adds the image node with its path and settings under the next identifier |
| `BuilderV13.MtlxMaterial.SetupColourTexture` | Houdini/TexToMtlX/TexToMtlx_v1_3.py:866-871 | adds a color3 range `<name>_CC` between image and shader input |
| `BuilderV13.MtlxMaterial.SetupRoughnessTexture` | Houdini/TexToMtlX/TexToMtlx_v1_3.py:877-881 | adds an identity range `<name>_ADJ` between image and shader input |
| `BuilderV13.MtlxMaterial.SetupGlossinessTexture` | Houdini/TexToMtlX/TexToMtlx_v1_3.py:883-889 | adds a range inverted to [1, 0]; the method is never called |
| `BuilderV13.MtlxMaterial.SetupSssTexture` | Houdini/TexToMtlX/TexToMtlx_v1_3.py:891-897 | the colour setup plus `subsurface` set to 1 |
| `BuilderV13.MtlxMaterial.SetupDirectTexture` | Houdini/TexToMtlX/TexToMtlx_v1_3.py:899-901 | the image feeds the shader input directly |
| `BuilderV13.MtlxMaterial.SetupDisplacementTexture` | Houdini/TexToMtlX/TexToMtlx_v1_3.py:873-875 | the image feeds displacement input 0 |
| `BuilderV13.MtlxMaterial.SetupMaskTexture` | Houdini/TexToMtlX/TexToMtlx_v1_3.py:903-906 | adds `<name>_SPLIT` reading the image |
| `BuilderV13.MtlxMaterial.ConnectTexture` | Houdini/TexToMtlX/TexToMtlx_v1_3.py:815-864 | routes a role through `connection_map`, then Disp and Extra; Rough and Gloss both use the roughness setup; AO, Bump and Normal get nothing |
| `BuilderV13.MtlxMaterial.ProcessPair` | Houdini/TexToMtlX/TexToMtlx_v1_3.py:723-731 | one pass leaves the network as `ApplyPair` describes: image, place2d hook when not UDIM, then the role's connection |
| `BuilderV13.MtlxMaterial.ProcessTextures` | Houdini/TexToMtlX/TexToMtlx_v1_3.py:711-731 | the loop applies every yielded pair in order |
| `BuilderV13.MtlxMaterial.FindBumpNormalTextures` | Houdini/TexToMtlX/TexToMtlx_v1_3.py:970-992 | reports the last key listed verbatim under bump and under normal |
| `BuilderV13.MtlxMaterial.CreateMapImage` | Houdini/TexToMtlX/TexToMtlx_v1_3.py:916-923 | adds the map image with its settings and path, hooked to place2d without UDIM |
| `BuilderV13.MtlxMaterial.CreateBumpNode` | Houdini/TexToMtlX/TexToMtlx_v1_3.py:913-927 | leaves the network as `CreateBump` describes |
| `BuilderV13.MtlxMaterial.CreateNormalNode` | Houdini/TexToMtlX/TexToMtlx_v1_3.py:929-943 | leaves the network as `CreateNormal` describes |
| `BuilderV13.MtlxMaterial.SetupBumpNormal` | Houdini/TexToMtlX/TexToMtlx_v1_3.py:908-968 | leaves the network as `BumpNormal` describes |
| `BuilderV13.MtlxMaterial.CreateMaterialX` | Houdini/TexToMtlX/TexToMtlx_v1_3.py:512-536 | a missing material changes nothing; otherwise the library gains the subnet and the subnet holds exactly the synthesised material |
| `BuilderV13.MtlxMaterial.BuildMaterial` | Houdini/TexToMtlX/TexToMtlx_v1_3.py:520-531 | main nodes, place2d, textures and maps leave the subnet as `Material` describes |
| `SynthesisV12.KeyItemsSpec` | Houdini/TexToMtlX/TexToMtlx_v1_2.py:456-457 | a key is visited for a role exactly when the role's list holds the key itself |
| `SynthesisV12.ItemsSpec` | Houdini/TexToMtlX/TexToMtlx_v1_2.py:455-459 | an item is visited exactly for a key of the set and a role whose list holds it; its file is the key's first |
| `SynthesisV12.TranslucencyOnlySss` | Houdini/TexToMtlX/TexToMtlx_v1_2.py:455-457 | `translucency` is visited once, as SSS |
| `SynthesisV12.CavityNothing` | Houdini/TexToMtlX/TexToMtlx_v1_2.py:455-457 | `cavity` produces no node at all |
| `SynthesisV12.HeightmapOnlyDisp` | Houdini/TexToMtlX/TexToMtlx_v1_2.py:455-457 | `heightmap` is visited once, as displacement |
| `SynthesisV12.StepsConcat` | Houdini/TexToMtlX/TexToMtlx_v1_2.py:455-456 | the loop over two stretches of items runs the first, then the second |
| `SynthesisV12.ImageSettings12` | Houdini/TexToMtlX/TexToMtlx_v1_2.py:475-528 | Color, SSS and Extra are color3 in `srgb_texture`, Normal is vector3 in `Raw`, every other role float in `Raw` |
| `SynthesisV12.ImageStepNode` | Houdini/TexToMtlX/TexToMtlx_v1_2.py:473-577 | each pass leaves its image under the next identifier, typed as `ImageSettings12` says and pointed at the item's path |
| `SynthesisV12.StepExtends` | Houdini/TexToMtlX/TexToMtlx_v1_2.py:473-577 | a pass keeps earlier nodes and rewires only the item's own ports |
| `SynthesisV12.FoldExtends` | Houdini/TexToMtlX/TexToMtlx_v1_2.py:455-577 | the main loop keeps earlier nodes and rewires only routed ports |
| `SynthesisV12.FoldPortUnrouted` | Houdini/TexToMtlX/TexToMtlx_v1_2.py:531-567 | a port no item is routed to keeps its connection or its lack of one |
| `SynthesisV12.FoldPortRouted` | Houdini/TexToMtlX/TexToMtlx_v1_2.py:531-567 | a routed port is fed by the `_CC` range (inverted for Gloss) or the image of the last item routed to it |
| `SynthesisV12.LastRole` | Houdini/TexToMtlX/TexToMtlx_v1_2.py:515-525 | finds the last item of a role, or reports that none is |
| `SynthesisV12.TrackedSome` | Houdini/TexToMtlX/TexToMtlx_v1_2.py:515-525 | an image is recorded for bump (normal) exactly once a bump (normal) item has been visited |
| `SynthesisV12.FoldTracks` | Houdini/TexToMtlX/TexToMtlx_v1_2.py:515-525 | the recorded image is the one made for the last bump (normal) item |
| `SynthesisV12.ItemsLastRole` | Houdini/TexToMtlX/TexToMtlx_v1_2.py:583-590 | the last bump (normal) item belongs to the last bump (normal) key the later scan reports |
| `SynthesisV12.BumpNormalSpec` | Houdini/TexToMtlX/TexToMtlx_v1_2.py:595-673 | neither map: unchanged; a bump key: `mtlxBump` on the shader's `normal` input, reading the last bump image with its file re-set to the map path; only a normal key: `mtxlNormal` there, reading the last normal image likewise |
| `SynthesisV12.BumpNormalChain` | Houdini/TexToMtlX/TexToMtlx_v1_2.py:620-643 | with both keys, `mtxlNormal` sits on input 3 of `mtlxBump` and reads the last normal image, whose file is re-set to its map path |
| `SynthesisV12.BumpNormalExtends` | Houdini/TexToMtlX/TexToMtlx_v1_2.py:595-673 | the closing block keeps every node's type and name and the parameters of every node but the shader and the images; of the connections that existed, only the shader's `normal` input can change |
| `SynthesisV12.MainNodesShape` | Houdini/TexToMtlX/TexToMtlx_v1_2.py:376-398 | the two connectors (`surface_ouput`, `displacement_output`), shader and displacement, each connector reading its node |
| `SynthesisV12.Place2dShape` | Houdini/TexToMtlX/TexToMtlx_v1_2.py:438-453 | texcoord, scale (value 1), rotate, offset and place2d on inputs 0, 2, 3 and 4 |
| `SynthesisV12.SkeletonShape` | Houdini/TexToMtlX/TexToMtlx_v1_2.py:376-453 | the shader, displacement and, without UDIM, place2d nodes stand where the main loop expects them |
| `SynthesisV12.MaterialPorts` | Houdini/TexToMtlX/TexToMtlx_v1_2.py:307-673 | in the finished subnet each textured input is wired exactly when some item is routed to it, and then from the last such item's node |
| `SynthesisV12.MaterialNormal` | Houdini/TexToMtlX/TexToMtlx_v1_2.py:583-673 | the shader's `normal` is wired exactly when there is a bump or normal key, to a bump node when there is a bump key |
| `SynthesisV12.MaterialMaps` | Houdini/TexToMtlX/TexToMtlx_v1_2.py:583-673 | the bump node reads the last bump key's image, the normal map the last normal key's image, joined on bump input 3 when both exist |
| `BuilderV12.FirstItemDestroyed` | Houdini/TexToMtlX/TexToMtlx_v1_2.py:326-328 | only the subnet's first default item is destroyed |
| `BuilderV12.FirstItemDestroyedNumbered` | Houdini/TexToMtlX/TexToMtlx_v1_2.py:326-328 | after that removal every remaining identifier is below the next one, as the builders assume |
| `BuilderV12.Material.constructor` | Houdini/TexToMtlX/TexToMtlx_v1_2.py:303-305 | records the material and the TX flag |
| `BuilderV12.Material.CreateConnectorNode` | Houdini/TexToMtlX/TexToMtlx_v1_2.py:376-389 | adds one output connector with its four parameters |
| `BuilderV12.Material.CreateMainNodes` | Houdini/TexToMtlX/TexToMtlx_v1_2.py:376-398 | returns shader and displacement and leaves the network as `MainNodes` describes |
| `BuilderV12.Material.CreateShaderNodes` | Houdini/TexToMtlX/TexToMtlx_v1_2.py:395-396 | returns the two new identifiers, shader first, and adds `mtlxSurface` then `mtlxDisp` |
| `BuilderV12.Material.SetupPlace2d` | Houdini/TexToMtlX/TexToMtlx_v1_2.py:438-453 | UDIM: nothing; otherwise the place2d chain, returning its place2d node |
| `BuilderV12.Material.CreatePlace2dNodes` | Houdini/TexToMtlX/TexToMtlx_v1_2.py:443-447 | returns the first of five new identifiers and adds texcoord, scale, rotate, offset and place2d in that order |
| `BuilderV12.Material.HookPlace2d` | Houdini/TexToMtlX/TexToMtlx_v1_2.py:482-484 | hooks place2d to image input 2 exactly when the set is not UDIM |
| `BuilderV12.Material.SetColorspace` | Houdini/TexToMtlX/TexToMtlx_v1_2.py:496-497 | writes signature and colour space |
| `BuilderV12.Material.ColorBlock` | Houdini/TexToMtlX/TexToMtlx_v1_2.py:477-484 | range `<key>_CC` on `base_color`, image in `srgb_texture` |
| `BuilderV12.Material.ExtraBlock` | Houdini/TexToMtlX/TexToMtlx_v1_2.py:502-509 | colour data and a `separateUser` node reading the image |
| `BuilderV12.Material.PrepareImage` | Houdini/TexToMtlX/TexToMtlx_v1_2.py:477-528 | the first chain of blocks; a Bump image passes both the float block and its own |
| `BuilderV12.Material.RoughBlock` | Houdini/TexToMtlX/TexToMtlx_v1_2.py:537-547 | range `<key>_CC` on `specular_roughness`, inverted for Gloss |
| `BuilderV12.Material.RouteImage` | Houdini/TexToMtlX/TexToMtlx_v1_2.py:531-567 | the second chain of blocks, leaving the network as `Route` describes |
| `BuilderV12.Material.RouteShaderInputs` | Houdini/TexToMtlX/TexToMtlx_v1_2.py:531-556 | the metal, specular, rough, gloss, transmission, emission and alpha blocks: `Route` for those roles, no change for the others |
| `BuilderV12.Material.RouteOthers` | Houdini/TexToMtlX/TexToMtlx_v1_2.py:558-567 | the AO, displacement and SSS blocks: `Route` for the roles outside the first group, no change for the roles inside it |
| `BuilderV12.Material.ProcessItem` | Houdini/TexToMtlX/TexToMtlx_v1_2.py:458-577 | one pass: the image, both chains, then its file |
| `BuilderV12.Material.VisitRole` | Houdini/TexToMtlX/TexToMtlx_v1_2.py:456-457 | one role of the inner loop: a pass exactly when its list holds the key, recording bump and normal images |
| `BuilderV12.Material.ProcessKey` | Houdini/TexToMtlX/TexToMtlx_v1_2.py:456-577 | the inner loop over roles for one key |
| `BuilderV12.Material.ProcessTextures` | Houdini/TexToMtlX/TexToMtlx_v1_2.py:455-577 | the whole main loop over keys and roles |
| `BuilderV12.Material.FindBumpNormal` | Houdini/TexToMtlX/TexToMtlx_v1_2.py:580-590 | found flags and names are those of the last key listed under bump and under normal |
| `BuilderV12.Material.VisitRoles` | Houdini/TexToMtlX/TexToMtlx_v1_2.py:584-591 | for one key, the bump (normal) flag and name become `True` and the key exactly when the bump (normal) list holds it, and stay as they were otherwise |
| `BuilderV12.Material.JoinBoth` | Houdini/TexToMtlX/TexToMtlx_v1_2.py:620-640 | leaves the network as `BothMaps` describes |
| `BuilderV12.Material.JoinOne` | Houdini/TexToMtlX/TexToMtlx_v1_2.py:645-673 | leaves the network as `OneMap` describes |
| `BuilderV12.Material.JoinBumpNormal` | Houdini/TexToMtlX/TexToMtlx_v1_2.py:595-673 | the closing block leaves the network as `BumpNormal` describes |
| `BuilderV12.Material.BuildMaterial` | Houdini/TexToMtlX/TexToMtlx_v1_2.py:376-673 | main nodes, place2d, main loop and maps leave the subnet as `Material` describes |
| `BuilderV12.Material.SetupSkeleton` | Houdini/TexToMtlX/TexToMtlx_v1_2.py:376-453 | returns the context `MaterialCtx` names and leaves the network as `Skeleton` describes |
| `BuilderV12.Material.BuildSubnet` | Houdini/TexToMtlX/TexToMtlx_v1_2.py:326-673 | no default item: no network (`IndexError`); otherwise a fresh network, first item destroyed, holding exactly the synthesised material |
| `BuilderV12.Material.MyFunc` | Houdini/TexToMtlX/TexToMtlx_v1_2.py:307-673 | a missing material changes nothing (`KeyError`); otherwise every child of the name is destroyed and the subnet created; with no default item nothing is built (`IndexError`), else the subnet holds exactly the synthesised material |

## Left out

- The Qt user interface of both versions: list views, check boxes, buttons, the progress bar and dialogs.
- `hou.ParmTemplateGroup` construction, node colours, `setMaterialFlag` and `layoutChildren`: they do not affect what is created or how it is wired.
- File-system calls (`os.listdir`, `os.path.isfile`, `os.path.exists`): the folder listing and the existence test are inputs.
- `hou.text.expandString("$JOB")` and v1.2's global `folderPath`: both are string parameters.
- The `imaketx` subprocess, the thread pool, logging and timing of `_convert_to_tx`, the v1.2 debug output of `bumpName` and `normalName` (Houdini/TexToMtlX/TexToMtlx_v1_2.py:592-593), and the v1.2 conversion loop (Houdini/TexToMtlX/TexToMtlx_v1_2.py:426-435). Their effect on files is I/O. Only the per-texture outcomes enter the model, as a sequence of booleans in completion order.
- `_setup_imaketx`: it raises when `$HB` is set and `imaketx.exe` is missing, which depends on the file system.
- Conversion.WorkerLimit: takes the CPU count as a natural number. The `None` that `os.cpu_count()` can return is not modelled, and the 0.85 factor is written as 85/100.
- ClassifierV12.TextureBrowser.constructor: the model starts from an empty table. In the source the global `textList` is unbound until the first `retriveMtlName` (Houdini/TexToMtlX/TexToMtlx_v1_2.py:189-190); reading it earlier would raise `NameError`, which cannot happen because `btCreate` is enabled only after a folder loads (Houdini/TexToMtlX/TexToMtlx_v1_2.py:259-261).
- Houdini's renaming of a node whose name is already taken: node identity is the identifier, so names may repeat.
- Exceptions other than the ones the model states: the `KeyError` of a missing material and the `IndexError` of a subnet without default items. `try`/`except` reporting in v1.3 is a message only.
- BuilderV12.Material.SetupPlace2d: under UDIM it returns the unused identifier `next + 4`, where the source leaves `textPlace2D` unbound. The model never reads it, just as the source does not.
- `Size` is stored as the matched tag; v1.3 and v1.2 only ever compare or concatenate it.
- Lower-casing and the regular-expression digit class are ASCII only.
- Houdini/TextToTx_v01.py is not part of this model: it is a user interface around a subprocess and a thread pool.

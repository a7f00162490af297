# LIO target adapter and cgsnapshot views of Cinder, in Dafny

This project models two parts of the OpenStack block-storage service Cinder:

- `LioAdm` (`cinder/volume/targets/lio.py`) is the iSCSI target adapter for the Linux
  LIO target. It exports volumes by running the external `cinder-rtstool` program
  as root. The program can create and delete targets, list them, and add or
  remove initiators on a target's access list. The adapter also derives names
  from target names, CHAP strings and provider records, and checks after each
  create that the new target is listed.
- `ViewBuilder` (`cinder/api/views/cgsnapshots.py`) turns consistency-group
  snapshot records into the dictionaries the REST API returns, one at a time
  or as a list.

Layout:

- `common.dfy`: `Option`, `Result` and the exceptions the operations raise.
- `pystr.dfy`: Python's `str.split(sep)`, `str.split(sep, maxsplit)`,
  `sep.join` and the substring test `in`. Splitting keeps empty fields.
- `pyvalue.dfy`: the JSON-like values the views and the connection info are
  made of, read with `d[key]` (raises KeyError) or `d.get(key)` (None).
- `lio_names.dfy`: the pure string derivations of `lio.py` and the scan of the
  target listing.
- `lio.dfy`: the tool and the adapter.
  - The tool is an oracle (`Responder`). Its answer to a call may depend on
    every call made before it.
  - `Executor` runs the tool and keeps the trace of every call it has issued.
  - `LioAdm` is a class with one method per operation. Each method is proved
    against a specification function. That function gives the result and the
    calls issued, in order, and the method appends exactly those calls to the
    trace.
  - Every method keeps the invariant that every call in the trace runs the
    tool as root.
  - The methods are the imperative form of the specification functions: the
    same steps, with the tool called through the executor. The properties of
    each operation are proved once, about its function.
- `lio_properties.dfy`: what the adapter promises, proved about those
  specification functions.
- `cgsnapshots.dfy`: the view builder.

Behaviour of `lio.py` worth knowing, all of it modelled as the code has it:

- `ensure_export` does not skip a volume the database lacks. It raises.
- `check_exit_code=False` has no effect in `ensure_export`.
- `_get_target` returns the whole matching listing line, not a target id.
- The listing call also runs as root.
- `provider_auth.split(' ', 3)` unpacks only when the string has exactly two
  spaces.
- `show_target` refuses only a missing IQN. An empty IQN matches every line.
- The listing is split on `'\n'` only, so a `\r` stays part of its line.

## Model

| member | source | states |
|---|---|---|
| `PyStr.Split` | cinder/volume/targets/lio.py:86 | `s.split(sep)` has one field more than `s` has separators; no field holds the separator; joining the fields gives back `s` |
| `PyStr.SplitMax` | cinder/volume/targets/lio.py:60 | `s.split(sep, maxsplit)` has `min(separators, maxsplit) + 1` fields, every field but the last is free of the separator, and the fields join back to `s`; so the splits are at the first `maxsplit` separators |
| `PyStr.SplitMaxAgrees` | cinder/volume/targets/lio.py:58-60 | with no more separators than `maxsplit`, the bounded split equals the plain split |
| `PyStr.SplitJoin` | cinder/volume/targets/lio.py:97 | splitting a join of separator-free fields gives back those fields (the inverse of `Split`'s join property) |
| `PyStr.ContainsOccurs` | cinder/volume/targets/lio.py:88 | the substring test `iqn in line` holds exactly when `iqn` occurs at some index of the line |
| `LioNames.VolumeIdOf` | cinder/volume/targets/lio.py:97 | `name.split(':')[1]` succeeds exactly when the name has a colon, raises IndexError otherwise, and yields a colon-free id |
| `LioNames.VolumeIdIsSecondField` | cinder/volume/targets/lio.py:97 | the id cut out is the field between the first and the second colon of the name |
| `LioNames.SecondFieldIsVolumeId` | cinder/volume/targets/lio.py:97 | conversely, the field between the first two colons is the id that is cut out |
| `LioNames.IqnRoundTrip` | cinder/volume/targets/lio.py:93-128 | when the prefix ends in its only colon and the volume name has none, the id cut from prefix + name is the name, so the IQN looked up after create is the name created |
| `LioNames.IqnRoundTripNeedsOneColon` | cinder/volume/targets/lio.py:97-121 | with a second colon in the prefix, the id cut out is a piece of the prefix instead |
| `LioNames.ChapCredentials` | cinder/volume/targets/lio.py:101-104 | no CHAP string gives two empty strings; a CHAP string unpacks exactly when it has two spaces (ValueError otherwise), into its second and third fields |
| `LioNames.ChapCredentialsOfTriple` | cinder/volume/targets/lio.py:101-104 | "method user password" yields exactly that user and password |
| `LioNames.AuthFields` | cinder/volume/targets/lio.py:58-60 | `provider_auth.split(' ', 3)` unpacks into three exactly when it has two spaces (ValueError otherwise); None raises AttributeError; the three fields rebuild the string |
| `LioNames.AuthFieldsOfTriple` | cinder/volume/targets/lio.py:158-159 | "method user password" unpacks into exactly those three names |
| `LioNames.ProviderIqn` | cinder/volume/targets/lio.py:156 | `provider_location.split(' ')[1]` succeeds exactly when there is a space (IndexError otherwise); None raises AttributeError |
| `LioNames.ProviderIqnIsSecondField` | cinder/volume/targets/lio.py:156 | the IQN taken from a provider location is the field between its first and second space |
| `LioNames.SecondFieldIsProviderIqn` | cinder/volume/targets/lio.py:187 | conversely, the field after the first space, whether or not more fields follow, is the IQN taken |
| `LioNames.ProviderIqnOfLocation` | cinder/volume/targets/lio.py:187 | a location "portal iqn lun" yields its IQN |
| `LioNames.FirstContainingSpec` | cinder/volume/targets/lio.py:86-91 | the scan finds nothing exactly when no line contains the IQN, and otherwise returns the first line that does |
| `LioNames.EmptyIqnMatchesFirstLine` | cinder/volume/targets/lio.py:88-89 | an empty IQN matches the first line of any listing |
| `Lio.ScanLines` | cinder/volume/targets/lio.py:87-91 | the loop with its early return computes the first line containing the IQN, or None |
| `Lio.Executor.Execute` | cinder/volume/targets/lio.py:113 | a non-zero exit code raises ProcessExecutionError when checked; the call is appended to the trace |
| `Lio.LioAdm.constructor` | cinder/volume/targets/lio.py:26-33 | the configuration is stored and the trace starts empty |
| `Lio.LioAdm.GetTarget` | cinder/volume/targets/lio.py:82-91 | one root `get-targets` call; its failure propagates; otherwise the first listing line containing the IQN, or None |
| `Lio.LioAdm.CreateTarget` | cinder/volume/targets/lio.py:93-128 | the create operation, with the exit-code check of the create call as a parameter, against `CreateSpec` |
| `Lio.LioAdm.CreateIscsiTarget` | cinder/volume/targets/lio.py:93-128 | `tid` and `lun` are unused; the create call's exit code is checked; result and calls are those of `CreateSpec` |
| `Lio.LioAdm.RemoveIscsiTarget` | cinder/volume/targets/lio.py:130-144 | result and calls are those of `RemoveTargetSpec` |
| `Lio.LioAdm.RemoveExport` | cinder/volume/targets/lio.py:44-53 | result and calls are those of `RemoveExportSpec` |
| `Lio.LioAdm.ShowTarget` | cinder/volume/targets/lio.py:146-153 | result and calls are those of `ShowTargetSpec` |
| `Lio.LioAdm.EnsureExport` | cinder/volume/targets/lio.py:55-73 | `ensure_export` as written: result and calls are those of `EnsureExportSpec` |
| `Lio.LioAdm.EnsureExportCorrected` | cinder/volume/targets/lio.py:55-73 | `ensure_export` as intended: result and calls are those of `EnsureExportCorrectedSpec` |
| `Lio.LioAdm.InitializeConnection` | cinder/volume/targets/lio.py:155-184 | result and calls are those of `InitializeConnectionSpec` |
| `Lio.LioAdm.TerminateConnection` | cinder/volume/targets/lio.py:186-198 | result and calls are those of `TerminateConnectionSpec` |
| `LioProperties.CreateCommandWithChap` | cinder/volume/targets/lio.py:103-113 | with CHAP "method user password", the first call is `cinder-rtstool create path name user password`, run as root |
| `LioProperties.CreateCommandWithoutChap` | cinder/volume/targets/lio.py:101-113 | without CHAP, user and password are passed as empty strings |
| `LioProperties.CreateRejectsMalformedInput` | cinder/volume/targets/lio.py:97-104 | a name without a colon raises IndexError, and a CHAP string without two spaces raises ValueError, before any call |
| `LioProperties.CreateFailureSkipsLookup` | cinder/volume/targets/lio.py:114-119 | a failed create raises ISCSITargetCreateFailed for the volume id and does not list the targets |
| `LioProperties.CreateVerifiesAfterWrite` | cinder/volume/targets/lio.py:121-128 | after an accepted create, the targets are listed; a listing error propagates; NotFound exactly when no line contains prefix + id; success exactly when some line does, returning the first such line |
| `LioProperties.EnsureExportMissingVolumeRaises` | cinder/volume/targets/lio.py:56-65 | as written, a volume the database lacks raises UnboundLocalError for `volume_info` and calls nothing |
| `LioProperties.EnsureExportCreateExitRaises` | cinder/volume/targets/lio.py:72-119 | as written, the create call checks its exit code, so a refused create raises ISCSITargetCreateFailed |
| `LioProperties.EnsureExportFindsCreatedName` | cinder/volume/targets/lio.py:69-128 | a successful export creates prefix + volume name and finds that same name in the listing |
| `LioProperties.EnsureExportCorrectedSkipsMissingVolume` | cinder/volume/targets/lio.py:64-67 | corrected, a volume the database lacks is skipped without any call |
| `LioProperties.EnsureExportCorrectedToleratesExit` | cinder/volume/targets/lio.py:72-73 | corrected, the create call does not check its exit code, and the export succeeds exactly when the listing holds the target |
| `LioProperties.RemoveExportSkipsUnprovisioned` | cinder/volume/targets/lio.py:44-53 | no target number: return normally with no call; otherwise exactly `remove_iscsi_target(num, 0, id, name)` |
| `LioProperties.RemoveTargetCommand` | cinder/volume/targets/lio.py:132-144 | deletes exactly prefix + volume name as root; raises ISCSITargetRemoveFailed for the volume id exactly when the tool fails |
| `LioProperties.CreateAndRemoveAgree` | cinder/volume/targets/lio.py:121-133 | the IQN create looks up for an exported volume is the one remove deletes |
| `LioProperties.ShowTargetOutcomes` | cinder/volume/targets/lio.py:146-153 | no IQN raises InvalidParameterValue with no call; otherwise NotFound exactly when no listed line contains the IQN, success exactly when one does |
| `LioProperties.ShowTargetEmptyIqnFound` | cinder/volume/targets/lio.py:146-153 | only None is refused; an empty IQN is always found |
| `LioProperties.ConnectionInfoLunZero` | cinder/volume/targets/lio.py:175-184 | the info is `{driver_volume_type: "iscsi", data}`; data keeps every other property and sets `target_lun` to 0 |
| `LioProperties.InitializeConnectionAttaches` | cinder/volume/targets/lio.py:155-184 | adds the initiator to the IQN that is the second space field of the location (two, three or more fields) with the CHAP user and password; a tool failure raises ISCSITargetAttachFailed; success returns the connection info |
| `LioProperties.InitializeConnectionRejectsMalformedInput` | cinder/volume/targets/lio.py:156-167 | a missing location, auth or initiator raises before any call |
| `LioProperties.TerminateConnectionDetaches` | cinder/volume/targets/lio.py:186-198 | removes the initiator from the IQN that is the second space field of the location, whatever follows it; raises ISCSITargetDetachFailed exactly when the tool fails |
| `LioProperties.CreateThenRemove` | cinder/volume/targets/lio.py:93-144 | a created and listed target is returned as a line containing its IQN, and removing it deletes that same IQN |
| `CgsnapshotViews.Summary` | cinder/api/views/cgsnapshots.py:40-47 | succeeds exactly when the record has an id and a name, and raises KeyError for the first missing one; the result holds only "cgsnapshot", with exactly `id` and `name` copied from the record |
| `CgsnapshotViews.Detail` | cinder/api/views/cgsnapshots.py:49-60 | never raises; "cgsnapshot" holds exactly the six keys, each the record's value or None when the record lacks it |
| `CgsnapshotViews.ViewsIgnoreRequest` | cinder/api/views/cgsnapshots.py:40-60 | neither view depends on the request |
| `CgsnapshotViews.InnerViews` | cinder/api/views/cgsnapshots.py:64-65 | one inner view per record, in order; on failure, the error of the first record whose view fails |
| `CgsnapshotViews.ListView` | cinder/api/views/cgsnapshots.py:62-68 | succeeds exactly when every record's inner view does; the result's only key is "cgsnapshots", holding those views in the records' order |
| `CgsnapshotViews.SummaryList` | cinder/api/views/cgsnapshots.py:32-34 | raises exactly when some record lacks an id or a name; otherwise lists each record's id and name, in order |
| `CgsnapshotViews.DetailList` | cinder/api/views/cgsnapshots.py:36-38 | never raises; one six-field view per record, in order; an empty input gives an empty list |

## Left out

- The `context` parameters and the database's own logic are not modelled. The database is a `VolumeStore` of two maps, and a missing key is NotFound.
- Logging, translation of messages and the deprecation warning for `lio_initiator_iqns` are not modelled. The option is stored and has no effect.
- `_verify_rtstool` (lio.py:75-80) runs only at construction and only checks the tool's installation. It is not modelled.
- `_get_target_chap_auth` (lio.py:41-42) has an empty body and is not modelled.
- The base class's `_iscsi_authentication` and `_get_iscsi_properties` are opaque function parameters of the adapter. The `TgtAdm` base class is not part of this model.
- `utils.execute` is reduced to the exit code and standard output of the tool. OSError for a missing program, standard error and timeouts are not modelled.
- Dictionary key order is not modelled, because the views are maps.
- `Lio.LioAdm.GetTarget`, `Lio.LioAdm.CreateIscsiTarget` and the other `LioAdm` methods do not model Python exceptions other than those listed in `Common.Exception`, such as a `volume` that is not a dict.
- `CgsnapshotViews.InnerViews`: a view result that is not a dict raises TypeError in the model. Both modelled views always return dicts.

## Findings

| source | as written | input that shows it | evidently intended | confidence | as-written member | corrected member |
|---|---|---|---|---|---|---|
| cinder/volume/targets/lio.py:56-67 | when `volume_get` raises NotFound, the handler reads `volume_info`, which was never bound, and `chap_auth` stays unbound too | a volume id the database does not hold | log "Skipping ensure_export" and return without creating a target | high; not executed | `LioProperties.EnsureExportMissingVolumeRaises` | `LioProperties.EnsureExportCorrectedSkipsMissingVolume` |
| cinder/volume/targets/lio.py:72-73,93-94 | `check_exit_code=False` is absorbed by `**kwargs` of `create_iscsi_target`, so the create call still checks its exit code | a volume whose target already exists, so that `cinder-rtstool create` exits non-zero | a non-zero exit of the create call is tolerated and the target lookup decides the outcome | medium; not executed | `LioProperties.EnsureExportCreateExitRaises` | `LioProperties.EnsureExportCorrectedToleratesExit` |

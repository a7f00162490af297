/** The LIO iSCSI target adapter `LioAdm` (cinder/volume/targets/lio.py).
    Every change to target state goes through the external `cinder-rtstool`
    program; here that program is an oracle whose answer to a call may
    depend on all calls made before it, and the adapter's executor records
    every call it issues. Each operation is a method of `LioAdm`, specified
    by a function that gives its result and the calls it issues. */
module Lio {
  import opened Common
  import opened PyStr
  import opened PyValue
  import opened LioNames

  const Rtstool := "cinder-rtstool"

  /** One run of the tool: its argument vector, whether it runs as root,
      and whether a non-zero exit code is to raise. */
  datatype Invocation = Invocation(argv: seq<string>, runAsRoot: bool, checkExitCode: bool)

  /** What the finished process reports. */
  datatype Completion = Completion(exitCode: int, stdout: string)

  /** The tool as seen from outside: its answer to a call, given every call before it. */
  type Responder = (seq<Invocation>, Invocation) -> Completion

  /** `utils.execute`: the output of the call, or ProcessExecutionError for a
      non-zero exit code when the exit code is checked. */
  function Run(tool: Responder, history: seq<Invocation>, call: Invocation): Result<string>
  {
    var done := tool(history, call);
    if call.checkExitCode && done.exitCode != 0 then Err(ProcessExecutionError) else Ok(done.stdout)
  }

  const GetTargetsCall := Invocation([Rtstool, "get-targets"], true, true)

  function CreateCall(path: string, name: string, user: string, password: string,
                      checkExitCode: bool): Invocation
  {
    Invocation([Rtstool, "create", path, name, user, password], true, checkExitCode)
  }

  function DeleteCall(iqn: string): Invocation
  {
    Invocation([Rtstool, "delete", iqn], true, true)
  }

  function AddInitiatorCall(iqn: string, user: string, password: string, initiator: string): Invocation
  {
    Invocation([Rtstool, "add-initiator", iqn, user, password, initiator], true, true)
  }

  function DeleteInitiatorCall(iqn: string, initiator: string): Invocation
  {
    Invocation([Rtstool, "delete-initiator", iqn, initiator], true, true)
  }

  /** A call of the tool that runs with root privileges. */
  ghost predicate Elevated(call: Invocation)
  {
    call.runAsRoot && |call.argv| >= 2 && call.argv[0] == Rtstool
  }

  /** A volume as the adapter reads it. */
  datatype Volume = Volume(id: string, name: string,
                           providerLocation: Option<string>, providerAuth: Option<string>)

  /** The volume database: `volume_get` and `volume_get_iscsi_target_num`,
      each NotFound for an id it does not hold. */
  datatype VolumeStore = VolumeStore(volumes: map<string, Volume>, targetNums: map<string, int>)

  /** The result of an operation together with the tool calls it made, in order. */
  datatype Effect<T> = Effect(result: Result<T>, calls: seq<Invocation>)

  /** `_get_target(iqn)`: list the targets and take the first line containing `iqn`. */
  function GetTargetSpec(tool: Responder, history: seq<Invocation>, iqn: string): Effect<Option<string>>
  {
    var listing := Run(tool, history, GetTargetsCall);
    Effect(if listing.Err? then Err(listing.error)
           else Ok(FirstContaining(Split(listing.value, '\n'), iqn)),
           [GetTargetsCall])
  }

  /** The target a lookup must find: NotFound when it finds nothing. */
  function Found(lookup: Result<Option<string>>): Result<string>
  {
    match lookup
    case Err(e) => Err(e)
    case Ok(None) => Err(NotFound)
    case Ok(Some(line)) => Ok(line)
  }

  /** `create_iscsi_target`: create the target, then look it up again. */
  function CreateSpec(tool: Responder, history: seq<Invocation>, prefix: string, name: string,
                      path: string, chapAuth: Option<string>, checkExitCode: bool): Effect<string>
  {
    var volumeId := VolumeIdOf(name);
    var chap := ChapCredentials(chapAuth);
    if volumeId.Err? then Effect(Err(volumeId.error), [])
    else if chap.Err? then Effect(Err(chap.error), [])
    else
      var create := CreateCall(path, name, chap.value.0, chap.value.1, checkExitCode);
      if Run(tool, history, create).Err? then
        Effect(Err(ISCSITargetCreateFailed(volumeId.value)), [create])
      else
        var lookup := GetTargetSpec(tool, history + [create], Iqn(prefix, volumeId.value));
        Effect(Found(lookup.result), [create] + lookup.calls)
  }

  /** `remove_iscsi_target`: delete the target named by the prefix and the volume name. */
  function RemoveTargetSpec(tool: Responder, history: seq<Invocation>, prefix: string,
                            volumeId: string, volumeName: string): Effect<()>
  {
    var delete := DeleteCall(Iqn(prefix, volumeName));
    Effect(if Run(tool, history, delete).Err? then Err(ISCSITargetRemoveFailed(volumeId)) else Ok(()),
           [delete])
  }

  /** `remove_export`: nothing to do for a volume without a target number. */
  function RemoveExportSpec(tool: Responder, history: seq<Invocation>, prefix: string,
                            store: VolumeStore, volume: Volume): Effect<()>
  {
    if volume.id !in store.targetNums then Effect(Ok(()), [])
    else RemoveTargetSpec(tool, history, prefix, volume.id, volume.name)
  }

  /** `show_target`: the target must be listed. */
  function ShowTargetSpec(tool: Responder, history: seq<Invocation>, iqn: Option<string>): Effect<()>
  {
    if iqn.None? then Effect(Err(InvalidParameterValue), [])
    else
      var lookup := GetTargetSpec(tool, history, iqn.value);
      var found := Found(lookup.result);
      Effect(if found.Err? then Err(found.error) else Ok(()), lookup.calls)
  }

  /** The CHAP string `ensure_export` computes, as written: the lookup and the
      split of `provider_auth` sit in a `try` that catches only NotFound, and
      its handler reads `volume_info`, which the failed lookup never bound. */
  function ExportChapAuth(store: VolumeStore, authenticate: (string, string, string) -> string,
                          volumeId: string): Result<string>
  {
    if volumeId !in store.volumes then Err(UnboundLocalError("volume_info"))
    else
      var fields := AuthFields(store.volumes[volumeId].providerAuth);
      if fields.Err? then Err(fields.error)
      else Ok(authenticate(fields.value.0, fields.value.1, fields.value.2))
  }

  /** `ensure_export` as written: `check_exit_code=False` ends up in the
      `**kwargs` of `create_iscsi_target` and never reaches the tool call. */
  function EnsureExportSpec(tool: Responder, history: seq<Invocation>, prefix: string,
                            store: VolumeStore, authenticate: (string, string, string) -> string,
                            volume: Volume, volumePath: string): Effect<()>
  {
    var chap := ExportChapAuth(store, authenticate, volume.id);
    if chap.Err? then Effect(Err(chap.error), [])
    else
      var created := CreateSpec(tool, history, prefix, Iqn(prefix, volume.name), volumePath,
                                Some(chap.value), true);
      Effect(if created.result.Err? then Err(created.result.error) else Ok(()), created.calls)
  }

  /** `ensure_export` as its handler and its keyword argument intend: a
      volume the database does not hold is skipped, and the create call does
      not raise on a non-zero exit code. */
  function EnsureExportCorrectedSpec(tool: Responder, history: seq<Invocation>, prefix: string,
                                     store: VolumeStore,
                                     authenticate: (string, string, string) -> string,
                                     volume: Volume, volumePath: string): Effect<()>
  {
    if volume.id !in store.volumes then Effect(Ok(()), [])
    else
      var fields := AuthFields(store.volumes[volume.id].providerAuth);
      if fields.Err? then Effect(Err(fields.error), [])
      else
        var chap := authenticate(fields.value.0, fields.value.1, fields.value.2);
        var created := CreateSpec(tool, history, prefix, Iqn(prefix, volume.name), volumePath,
                                  Some(chap), false);
        Effect(if created.result.Err? then Err(created.result.error) else Ok(()), created.calls)
  }

  /** The answer of `initialize_connection`: the generic iSCSI properties
      with the LUN forced to 0. */
  function ConnectionInfo(properties: map<string, Value>): Value
  {
    Dict(map["driver_volume_type" := Str("iscsi"),
             "data" := Dict(properties["target_lun" := Int(0)])])
  }

  /** `initialize_connection`: add the connector's initiator to the target's ACL. */
  function InitializeConnectionSpec(tool: Responder, history: seq<Invocation>,
                                    iscsiProperties: Volume -> map<string, Value>,
                                    volume: Volume, connector: map<string, string>): Effect<Value>
  {
    var iqn := ProviderIqn(volume.providerLocation);
    var auth := AuthFields(volume.providerAuth);
    if iqn.Err? then Effect(Err(iqn.error), [])
    else if auth.Err? then Effect(Err(auth.error), [])
    else if "initiator" !in connector then Effect(Err(KeyError("initiator")), [])
    else
      var add := AddInitiatorCall(iqn.value, auth.value.1, auth.value.2, connector["initiator"]);
      if Run(tool, history, add).Err? then Effect(Err(ISCSITargetAttachFailed(volume.id)), [add])
      else Effect(Ok(ConnectionInfo(iscsiProperties(volume))), [add])
  }

  /** `terminate_connection`: remove the connector's initiator from the target's ACL. */
  function TerminateConnectionSpec(tool: Responder, history: seq<Invocation>,
                                   volume: Volume, connector: map<string, string>): Effect<()>
  {
    var iqn := ProviderIqn(volume.providerLocation);
    if iqn.Err? then Effect(Err(iqn.error), [])
    else if "initiator" !in connector then Effect(Err(KeyError("initiator")), [])
    else
      var delete := DeleteInitiatorCall(iqn.value, connector["initiator"]);
      Effect(if Run(tool, history, delete).Err? then Err(ISCSITargetDetachFailed(volume.id)) else Ok(()),
             [delete])
  }

  /** The loop of `_get_target` over the lines of the listing, with its early return. */
  method ScanLines(lines: seq<string>, iqn: string) returns (found: Option<string>)
    ensures found == FirstContaining(lines, iqn)
  {
    var i := 0;
    while i < |lines|
      invariant 0 <= i <= |lines|
      invariant FirstContaining(lines[i..], iqn) == FirstContaining(lines, iqn)
    {
      if Contains(lines[i], iqn) {
        return Some(lines[i]);
      }
      assert lines[i..][1..] == lines[i + 1..];
      i := i + 1;
    }
    return None;
  }

  /** `utils.execute`, seen from the adapter: it runs the tool and remembers
      every call, which is what the tool's answers may depend on. */
  class Executor {
    const tool: Responder
    var trace: seq<Invocation>

    constructor (tool: Responder)
      ensures this.tool == tool && trace == []
    {
      this.tool := tool;
      trace := [];
    }

    method Execute(call: Invocation) returns (r: Result<string>)
      modifies this
      ensures trace == old(trace) + [call]
      ensures r == Run(tool, old(trace), call)
    {
      r := Run(tool, trace, call);
      trace := trace + [call];
    }
  }

  /** The LIO target adapter. Its configuration is fixed at construction; the
      only thing that changes is the tool's record of calls. */
  class LioAdm {
    const prefix: string                                    // iscsi_target_prefix
    const initiatorIqns: Option<string>                     // lio_initiator_iqns: deprecated, no effect
    const store: VolumeStore                                // self.db
    const authenticate: (string, string, string) -> string  // the base class's _iscsi_authentication
    const iscsiProperties: Volume -> map<string, Value>     // the base class's _get_iscsi_properties
    const executor: Executor

    /** Every call this adapter has made runs the tool as root. */
    ghost predicate Valid()
      reads this, executor
    {
      forall call :: call in executor.trace ==> Elevated(call)
    }

    constructor (prefix: string, initiatorIqns: Option<string>, store: VolumeStore,
                 authenticate: (string, string, string) -> string,
                 iscsiProperties: Volume -> map<string, Value>, tool: Responder)
      ensures Valid() && fresh(executor)
      ensures this.prefix == prefix && this.initiatorIqns == initiatorIqns && this.store == store
      ensures this.authenticate == authenticate && this.iscsiProperties == iscsiProperties
      ensures executor.tool == tool && executor.trace == []
    {
      this.prefix := prefix;
      this.initiatorIqns := initiatorIqns;
      this.store := store;
      this.authenticate := authenticate;
      this.iscsiProperties := iscsiProperties;
      executor := new Executor(tool);
    }

    method GetTarget(iqn: string) returns (r: Result<Option<string>>)
      requires Valid()
      modifies executor
      ensures Valid()
      ensures var e := GetTargetSpec(executor.tool, old(executor.trace), iqn);
              r == e.result && executor.trace == old(executor.trace) + e.calls
    {
      var listing := executor.Execute(GetTargetsCall);
      if listing.Err? {
        return Err(listing.error);
      }
      var lines := Split(listing.value, '\n');
      var line := ScanLines(lines, iqn);
      return Ok(line);
    }

    /** The body of `create_iscsi_target`, with the exit-code check of the
        create call as a parameter. */
    method CreateTarget(name: string, path: string, chapAuth: Option<string>, checkExitCode: bool)
      returns (r: Result<string>)
      requires Valid()
      modifies executor
      ensures Valid()
      ensures var e := CreateSpec(executor.tool, old(executor.trace), prefix, name, path, chapAuth,
                                  checkExitCode);
              r == e.result && executor.trace == old(executor.trace) + e.calls
    {
      var volumeId := VolumeIdOf(name);
      var chap := ChapCredentials(chapAuth);
      if volumeId.Err? {
        return Err(volumeId.error);
      }
      if chap.Err? {
        return Err(chap.error);
      }
      var made := executor.Execute(CreateCall(path, name, chap.value.0, chap.value.1, checkExitCode));
      if made.Err? {
        return Err(ISCSITargetCreateFailed(volumeId.value));
      }
      var found := GetTarget(Iqn(prefix, volumeId.value));
      r := Found(found);
    }

    /** `create_iscsi_target(name, tid, lun, path, chap_auth)`: `tid` and
        `lun` are accepted and unused, and the create call's exit code is checked. */
    method CreateIscsiTarget(name: string, tid: int, lun: int, path: string, chapAuth: Option<string>)
      returns (r: Result<string>)
      requires Valid()
      modifies executor
      ensures Valid()
      ensures var e := CreateSpec(executor.tool, old(executor.trace), prefix, name, path, chapAuth, true);
              r == e.result && executor.trace == old(executor.trace) + e.calls
    {
      r := CreateTarget(name, path, chapAuth, true);
    }

    method RemoveIscsiTarget(tid: int, lun: int, volumeId: string, volumeName: string)
      returns (r: Result<()>)
      requires Valid()
      modifies executor
      ensures Valid()
      ensures var e := RemoveTargetSpec(executor.tool, old(executor.trace), prefix, volumeId, volumeName);
              r == e.result && executor.trace == old(executor.trace) + e.calls
    {
      var deleted := executor.Execute(DeleteCall(Iqn(prefix, volumeName)));
      if deleted.Err? {
        return Err(ISCSITargetRemoveFailed(volumeId));
      }
      return Ok(());
    }

    method RemoveExport(volume: Volume) returns (r: Result<()>)
      requires Valid()
      modifies executor
      ensures Valid()
      ensures var e := RemoveExportSpec(executor.tool, old(executor.trace), prefix, store, volume);
              r == e.result && executor.trace == old(executor.trace) + e.calls
    {
      if volume.id !in store.targetNums {
        return Ok(());
      }
      var target := store.targetNums[volume.id];
      r := RemoveIscsiTarget(target, 0, volume.id, volume.name);
    }

    method ShowTarget(tid: int, iqn: Option<string>) returns (r: Result<()>)
      requires Valid()
      modifies executor
      ensures Valid()
      ensures var e := ShowTargetSpec(executor.tool, old(executor.trace), iqn);
              r == e.result && executor.trace == old(executor.trace) + e.calls
    {
      if iqn.None? {
        return Err(InvalidParameterValue);
      }
      var lookup := GetTarget(iqn.value);
      var found := Found(lookup);
      if found.Err? {
        return Err(found.error);
      }
      return Ok(());
    }

    /** `ensure_export` as written. */
    method EnsureExport(volume: Volume, volumePath: string) returns (r: Result<()>)
      requires Valid()
      modifies executor
      ensures Valid()
      ensures var e := EnsureExportSpec(executor.tool, old(executor.trace), prefix, store, authenticate,
                                        volume, volumePath);
              r == e.result && executor.trace == old(executor.trace) + e.calls
    {
      var chap := ExportChapAuth(store, authenticate, volume.id);
      if chap.Err? {
        return Err(chap.error);
      }
      // the source passes check_exit_code=False, which **kwargs swallows
      var tid := CreateIscsiTarget(Iqn(prefix, volume.name), 1, 0, volumePath, Some(chap.value));
      if tid.Err? {
        return Err(tid.error);
      }
      return Ok(());
    }

    /** `ensure_export` with the skip and the exit-code tolerance it intends. */
    method EnsureExportCorrected(volume: Volume, volumePath: string) returns (r: Result<()>)
      requires Valid()
      modifies executor
      ensures Valid()
      ensures var e := EnsureExportCorrectedSpec(executor.tool, old(executor.trace), prefix, store,
                                                 authenticate, volume, volumePath);
              r == e.result && executor.trace == old(executor.trace) + e.calls
    {
      if volume.id !in store.volumes {
        return Ok(());
      }
      var fields := AuthFields(store.volumes[volume.id].providerAuth);
      if fields.Err? {
        return Err(fields.error);
      }
      var chap := authenticate(fields.value.0, fields.value.1, fields.value.2);
      var tid := CreateTarget(Iqn(prefix, volume.name), volumePath, Some(chap), false);
      if tid.Err? {
        return Err(tid.error);
      }
      return Ok(());
    }

    method InitializeConnection(volume: Volume, connector: map<string, string>) returns (r: Result<Value>)
      requires Valid()
      modifies executor
      ensures Valid()
      ensures var e := InitializeConnectionSpec(executor.tool, old(executor.trace), iscsiProperties,
                                                volume, connector);
              r == e.result && executor.trace == old(executor.trace) + e.calls
    {
      var iqn := ProviderIqn(volume.providerLocation);
      if iqn.Err? {
        return Err(iqn.error);
      }
      var auth := AuthFields(volume.providerAuth);
      if auth.Err? {
        return Err(auth.error);
      }
      if "initiator" !in connector {
        return Err(KeyError("initiator"));
      }
      var added := executor.Execute(AddInitiatorCall(iqn.value, auth.value.1, auth.value.2,
                                                     connector["initiator"]));
      if added.Err? {
        return Err(ISCSITargetAttachFailed(volume.id));
      }
      return Ok(ConnectionInfo(iscsiProperties(volume)));
    }

    method TerminateConnection(volume: Volume, connector: map<string, string>) returns (r: Result<()>)
      requires Valid()
      modifies executor
      ensures Valid()
      ensures var e := TerminateConnectionSpec(executor.tool, old(executor.trace), volume, connector);
              r == e.result && executor.trace == old(executor.trace) + e.calls
    {
      var iqn := ProviderIqn(volume.providerLocation);
      if iqn.Err? {
        return Err(iqn.error);
      }
      if "initiator" !in connector {
        return Err(KeyError("initiator"));
      }
      var removed := executor.Execute(DeleteInitiatorCall(iqn.value, connector["initiator"]));
      if removed.Err? {
        return Err(ISCSITargetDetachFailed(volume.id));
      }
      return Ok(());
    }
  }
}

/** What the LIO target adapter promises, stated over the functions that
    specify its operations: which tool calls each operation makes, with which
    arguments, and how the tool's answers become results and exceptions. */
module LioProperties {
  import opened Common
  import opened PyStr
  import opened PyValue
  import opened LioNames
  import opened Lio

  // ---- create_iscsi_target ----

  /** With a CHAP string "method user password", create passes exactly that
      user and password to the tool, after the path and the target name. */
  lemma CreateCommandWithChap(tool: Responder, history: seq<Invocation>, prefix: string, name: string,
                              path: string, authMethod: string, user: string, password: string,
                              checkExitCode: bool)
    requires ':' in name
    requires ' ' !in authMethod && ' ' !in user && ' ' !in password
    ensures var e := CreateSpec(tool, history, prefix, name, path,
                                Some(authMethod + " " + user + " " + password), checkExitCode);
            |e.calls| >= 1 &&
            e.calls[0] == Invocation([Rtstool, "create", path, name, user, password], true, checkExitCode)
  {
    ChapCredentialsOfTriple(authMethod, user, password);
  }

  /** Without a CHAP string, create passes two empty strings as user and password. */
  lemma CreateCommandWithoutChap(tool: Responder, history: seq<Invocation>, prefix: string, name: string,
                                 path: string, checkExitCode: bool)
    requires ':' in name
    ensures var e := CreateSpec(tool, history, prefix, name, path, None, checkExitCode);
            |e.calls| >= 1 &&
            e.calls[0] == Invocation([Rtstool, "create", path, name, "", ""], true, checkExitCode)
  {
  }

  /** A target name without a colon, or a CHAP string without exactly three
      space-separated fields, raises before the tool is called. */
  lemma CreateRejectsMalformedInput(tool: Responder, history: seq<Invocation>, prefix: string,
                                    name: string, path: string, chapAuth: Option<string>,
                                    checkExitCode: bool)
    requires ':' !in name || (chapAuth.Some? && Count(chapAuth.value, ' ') != 2)
    ensures var e := CreateSpec(tool, history, prefix, name, path, chapAuth, checkExitCode);
            e.calls == [] &&
            e.result == Err(if ':' !in name then IndexError else ValueError)
  {
  }

  /** A failed create raises ISCSITargetCreateFailed for the volume id in the
      name and does not list the targets. */
  lemma CreateFailureSkipsLookup(tool: Responder, history: seq<Invocation>, prefix: string, name: string,
                                 path: string, chapAuth: Option<string>, checkExitCode: bool)
    requires ':' in name && ChapCredentials(chapAuth).Ok?
    requires var chap := ChapCredentials(chapAuth).value;
             Run(tool, history, CreateCall(path, name, chap.0, chap.1, checkExitCode)).Err?
    ensures var e := CreateSpec(tool, history, prefix, name, path, chapAuth, checkExitCode);
            e.result == Err(ISCSITargetCreateFailed(VolumeIdOf(name).value)) &&
            |e.calls| == 1 && GetTargetsCall !in e.calls
  {
  }

  /** After a create the tool accepted, the targets are listed and the IQN
      prefix + volume id looked up: NotFound exactly when the listing answered
      and no line contains the IQN, and otherwise the first line that does. */
  lemma CreateVerifiesAfterWrite(tool: Responder, history: seq<Invocation>, prefix: string, name: string,
                                 path: string, chapAuth: Option<string>, checkExitCode: bool)
    requires ':' in name && ChapCredentials(chapAuth).Ok?
    requires var chap := ChapCredentials(chapAuth).value;
             Run(tool, history, CreateCall(path, name, chap.0, chap.1, checkExitCode)).Ok?
    ensures var chap := ChapCredentials(chapAuth).value;
            var create := CreateCall(path, name, chap.0, chap.1, checkExitCode);
            var e := CreateSpec(tool, history, prefix, name, path, chapAuth, checkExitCode);
            var listing := Run(tool, history + [create], GetTargetsCall);
            var iqn := Iqn(prefix, VolumeIdOf(name).value);
            && e.calls == [create, GetTargetsCall]
            && (listing.Err? ==> e.result == Err(listing.error))
            && (listing.Ok? ==>
                  var lines := Split(listing.value, '\n');
                  && (e.result == Err(NotFound) <==> !Listed(lines, iqn))
                  && (e.result.Ok? <==> Listed(lines, iqn))
                  && (e.result.Ok? ==> exists i :: FirstAt(lines, iqn, i) && lines[i] == e.result.value))
  {
    var chap := ChapCredentials(chapAuth).value;
    var create := CreateCall(path, name, chap.0, chap.1, checkExitCode);
    var listing := Run(tool, history + [create], GetTargetsCall);
    if listing.Ok? {
      FirstContainingSpec(Split(listing.value, '\n'), Iqn(prefix, VolumeIdOf(name).value));
    }
  }

  // ---- ensure_export, as written ----

  /** As written, ensure_export on a volume the database does not hold raises
      UnboundLocalError instead of skipping, and calls nothing. */
  lemma EnsureExportMissingVolumeRaises(tool: Responder, history: seq<Invocation>, prefix: string,
                                        store: VolumeStore,
                                        authenticate: (string, string, string) -> string,
                                        volume: Volume, volumePath: string)
    requires volume.id !in store.volumes
    ensures var e := EnsureExportSpec(tool, history, prefix, store, authenticate, volume, volumePath);
            e.result == Err(UnboundLocalError("volume_info")) && e.calls == []
  {
  }

  /** As written, ensure_export's create call checks the exit code, so a
      create the tool refuses still raises ISCSITargetCreateFailed. */
  lemma EnsureExportCreateExitRaises(tool: Responder, history: seq<Invocation>, prefix: string,
                                     store: VolumeStore,
                                     authenticate: (string, string, string) -> string,
                                     volume: Volume, volumePath: string)
    requires OneColonPrefix(prefix) && ':' !in volume.name
    requires ExportChapAuth(store, authenticate, volume.id).Ok?
    requires ChapCredentials(Some(ExportChapAuth(store, authenticate, volume.id).value)).Ok?
    requires var chap := ChapCredentials(Some(ExportChapAuth(store, authenticate, volume.id).value)).value;
             tool(history, CreateCall(volumePath, Iqn(prefix, volume.name), chap.0, chap.1, true)).exitCode != 0
    ensures var e := EnsureExportSpec(tool, history, prefix, store, authenticate, volume, volumePath);
            e.result == Err(ISCSITargetCreateFailed(volume.name)) && |e.calls| == 1 &&
            e.calls[0].checkExitCode
  {
    IqnRoundTrip(prefix, volume.name);
  }

  /** When ensure_export succeeds, the listing it read holds a line that
      contains the very name it asked the tool to create. */
  lemma EnsureExportFindsCreatedName(tool: Responder, history: seq<Invocation>, prefix: string,
                                     store: VolumeStore,
                                     authenticate: (string, string, string) -> string,
                                     volume: Volume, volumePath: string)
    requires OneColonPrefix(prefix) && ':' !in volume.name
    requires EnsureExportSpec(tool, history, prefix, store, authenticate, volume, volumePath).result.Ok?
    ensures var e := EnsureExportSpec(tool, history, prefix, store, authenticate, volume, volumePath);
            && |e.calls| == 2 && e.calls[0].argv[3] == Iqn(prefix, volume.name)
            && e.calls[1] == GetTargetsCall
            && var listing := Run(tool, history + [e.calls[0]], GetTargetsCall);
               listing.Ok? &&
               exists i :: FirstAt(Split(listing.value, '\n'), Iqn(prefix, volume.name), i)
  {
    IqnRoundTrip(prefix, volume.name);
    var chap := ExportChapAuth(store, authenticate, volume.id).value;
    var e := EnsureExportSpec(tool, history, prefix, store, authenticate, volume, volumePath);
    var listing := Run(tool, history + [e.calls[0]], GetTargetsCall);
    FirstContainingSpec(Split(listing.value, '\n'), Iqn(prefix, volume.name));
  }

  // ---- ensure_export, corrected ----

  /** Corrected, ensure_export skips a volume the database does not hold. */
  lemma EnsureExportCorrectedSkipsMissingVolume(tool: Responder, history: seq<Invocation>, prefix: string,
                                                store: VolumeStore,
                                                authenticate: (string, string, string) -> string,
                                                volume: Volume, volumePath: string)
    requires volume.id !in store.volumes
    ensures var e := EnsureExportCorrectedSpec(tool, history, prefix, store, authenticate, volume,
                                               volumePath);
            e.result == Ok(()) && e.calls == []
  {
  }

  /** Corrected, ensure_export is idempotent: whatever exit code the create
      call ends with, it succeeds exactly when the listing that follows holds
      the target it asked for. */
  lemma EnsureExportCorrectedToleratesExit(tool: Responder, history: seq<Invocation>, prefix: string,
                                           store: VolumeStore,
                                           authenticate: (string, string, string) -> string,
                                           volume: Volume, volumePath: string)
    requires OneColonPrefix(prefix) && ':' !in volume.name
    requires volume.id in store.volumes && AuthFields(store.volumes[volume.id].providerAuth).Ok?
    requires var f := AuthFields(store.volumes[volume.id].providerAuth).value;
             ChapCredentials(Some(authenticate(f.0, f.1, f.2))).Ok?
    ensures var e := EnsureExportCorrectedSpec(tool, history, prefix, store, authenticate, volume,
                                               volumePath);
            && |e.calls| == 2 && !e.calls[0].checkExitCode && e.calls[1] == GetTargetsCall
            && var listing := Run(tool, history + [e.calls[0]], GetTargetsCall);
               (e.result.Ok? <==> listing.Ok? && Listed(Split(listing.value, '\n'), Iqn(prefix, volume.name)))
  {
    IqnRoundTrip(prefix, volume.name);
    var e := EnsureExportCorrectedSpec(tool, history, prefix, store, authenticate, volume, volumePath);
    var listing := Run(tool, history + [e.calls[0]], GetTargetsCall);
    if listing.Ok? {
      FirstContainingSpec(Split(listing.value, '\n'), Iqn(prefix, volume.name));
    }
  }

  // ---- remove_export and remove_iscsi_target ----

  /** remove_export for a volume without a target number returns normally
      and calls nothing; otherwise it is remove_iscsi_target for the volume. */
  lemma RemoveExportSkipsUnprovisioned(tool: Responder, history: seq<Invocation>, prefix: string,
                                       store: VolumeStore, volume: Volume)
    ensures var e := RemoveExportSpec(tool, history, prefix, store, volume);
            && (volume.id !in store.targetNums ==> e.result == Ok(()) && e.calls == [])
            && (volume.id in store.targetNums ==>
                  e == RemoveTargetSpec(tool, history, prefix, volume.id, volume.name))
  {
  }

  /** remove_iscsi_target deletes exactly prefix + volume name, and raises
      ISCSITargetRemoveFailed for the volume id exactly when the tool fails. */
  lemma RemoveTargetCommand(tool: Responder, history: seq<Invocation>, prefix: string,
                            volumeId: string, volumeName: string)
    ensures var e := RemoveTargetSpec(tool, history, prefix, volumeId, volumeName);
            var call := Invocation([Rtstool, "delete", prefix + volumeName], true, true);
            && e.calls == [call]
            && (e.result.Err? <==> tool(history, call).exitCode != 0)
            && (e.result.Err? ==> e.result.error == ISCSITargetRemoveFailed(volumeId))
  {
  }

  /** The target a create looks up for a name built from a volume name is the
      one remove_iscsi_target deletes for that volume name. */
  lemma CreateAndRemoveAgree(tool: Responder, history: seq<Invocation>, prefix: string,
                             volumeId: string, volumeName: string)
    requires OneColonPrefix(prefix) && ':' !in volumeName
    ensures var e := RemoveTargetSpec(tool, history, prefix, volumeId, volumeName);
            e.calls[0].argv[2] == Iqn(prefix, VolumeIdOf(Iqn(prefix, volumeName)).value)
  {
    IqnRoundTrip(prefix, volumeName);
  }

  // ---- show_target ----

  /** show_target without an IQN raises InvalidParameterValue before any
      call; with one, it raises NotFound exactly when the listing answered and
      no line contains the IQN, and returns normally exactly when one does. */
  lemma ShowTargetOutcomes(tool: Responder, history: seq<Invocation>, iqn: Option<string>)
    ensures var e := ShowTargetSpec(tool, history, iqn);
            && (iqn.None? ==> e.result == Err(InvalidParameterValue) && e.calls == [])
            && (iqn.Some? ==>
                  var listing := Run(tool, history, GetTargetsCall);
                  && e.calls == [GetTargetsCall]
                  && (listing.Err? ==> e.result == Err(listing.error))
                  && (listing.Ok? ==>
                        var lines := Split(listing.value, '\n');
                        && (e.result == Err(NotFound) <==> !Listed(lines, iqn.value))
                        && (e.result.Ok? <==> Listed(lines, iqn.value))))
  {
    if iqn.Some? {
      var listing := Run(tool, history, GetTargetsCall);
      if listing.Ok? {
        FirstContainingSpec(Split(listing.value, '\n'), iqn.value);
      }
    }
  }

  /** Only None is refused: an empty IQN is found in any listing. */
  lemma ShowTargetEmptyIqnFound(tool: Responder, history: seq<Invocation>)
    requires Run(tool, history, GetTargetsCall).Ok?
    ensures ShowTargetSpec(tool, history, Some("")).result == Ok(())
  {
    EmptyIqnMatchesFirstLine(Run(tool, history, GetTargetsCall).value);
  }

  // ---- initialize_connection and terminate_connection ----

  /** The connection info says "iscsi" and exposes the volume at LUN 0,
      keeping every other property of the generic builder. */
  lemma ConnectionInfoLunZero(properties: map<string, Value>)
    ensures var info := ConnectionInfo(properties);
            && info.Dict? && info.entries.Keys == {"driver_volume_type", "data"}
            && info.entries["driver_volume_type"] == Str("iscsi")
            && info.entries["data"].Dict?
            && info.entries["data"].entries.Keys == properties.Keys + {"target_lun"}
            && info.entries["data"].entries["target_lun"] == Int(0)
            && forall k :: k in properties && k != "target_lun" ==>
                 info.entries["data"].entries[k] == properties[k]
  {
  }

  /** For a volume whose location has `iqn` as its second space field (as in
      "portal iqn" or "portal iqn lun") and CHAP "method user password",
      attaching an initiator adds it to that IQN with that user and password;
      a tool failure raises ISCSITargetAttachFailed, and success returns the
      connection info. */
  lemma InitializeConnectionAttaches(tool: Responder, history: seq<Invocation>,
                                     iscsiProperties: Volume -> map<string, Value>,
                                     volume: Volume, connector: map<string, string>,
                                     portal: string, iqn: string, tail: string,
                                     authMethod: string, user: string, password: string)
    requires volume.providerLocation.Some?
    requires SecondField(volume.providerLocation.value, ' ', portal, iqn, tail)
    requires ' ' !in authMethod && ' ' !in user && ' ' !in password
    requires volume.providerAuth == Some(authMethod + " " + user + " " + password)
    requires "initiator" in connector
    ensures var e := InitializeConnectionSpec(tool, history, iscsiProperties, volume, connector);
            var call := Invocation([Rtstool, "add-initiator", iqn, user, password, connector["initiator"]],
                                   true, true);
            && e.calls == [call]
            && (tool(history, call).exitCode != 0 ==> e.result == Err(ISCSITargetAttachFailed(volume.id)))
            && (tool(history, call).exitCode == 0 ==> e.result == Ok(ConnectionInfo(iscsiProperties(volume))))
  {
    SecondFieldIsProviderIqn(volume.providerLocation.value, portal, iqn, tail);
    AuthFieldsOfTriple(authMethod, user, password);
  }

  /** A connector without an initiator, or a volume without a provider
      location or auth, raises before the tool is called. */
  lemma InitializeConnectionRejectsMalformedInput(tool: Responder, history: seq<Invocation>,
                                                  iscsiProperties: Volume -> map<string, Value>,
                                                  volume: Volume, connector: map<string, string>)
    requires volume.providerLocation.None? || volume.providerAuth.None? || "initiator" !in connector
    ensures var e := InitializeConnectionSpec(tool, history, iscsiProperties, volume, connector);
            e.calls == [] && e.result.Err?
  {
  }

  /** Detaching an initiator removes it from the IQN that is the second space
      field of the volume's location, whatever follows it; a tool
      failure raises ISCSITargetDetachFailed. */
  lemma TerminateConnectionDetaches(tool: Responder, history: seq<Invocation>,
                                    volume: Volume, connector: map<string, string>,
                                    portal: string, iqn: string, tail: string)
    requires volume.providerLocation.Some?
    requires SecondField(volume.providerLocation.value, ' ', portal, iqn, tail)
    requires "initiator" in connector
    ensures var e := TerminateConnectionSpec(tool, history, volume, connector);
            var call := Invocation([Rtstool, "delete-initiator", iqn, connector["initiator"]], true, true);
            && e.calls == [call]
            && (e.result.Err? <==> tool(history, call).exitCode != 0)
            && (e.result.Err? ==> e.result.error == ISCSITargetDetachFailed(volume.id))
  {
    SecondFieldIsProviderIqn(volume.providerLocation.value, portal, iqn, tail);
  }

  // ---- the scenario of a create followed by a remove ----

  /** A volume exported under prefix + name, whose listing then shows the
      target, gets back the listed line; removing it afterwards deletes that
      same IQN. */
  lemma CreateThenRemove(tool: Responder, history: seq<Invocation>, prefix: string, volumeName: string,
                         path: string, volumeId: string)
    requires OneColonPrefix(prefix) && ':' !in volumeName
    requires Run(tool, history, CreateCall(path, Iqn(prefix, volumeName), "", "", true)).Ok?
    requires var h := history + [CreateCall(path, Iqn(prefix, volumeName), "", "", true)];
             var listing := Run(tool, h, GetTargetsCall);
             listing.Ok? && Listed(Split(listing.value, '\n'), Iqn(prefix, volumeName))
    ensures var created := CreateSpec(tool, history, prefix, Iqn(prefix, volumeName), path, None, true);
            && created.result.Ok? && Contains(created.result.value, Iqn(prefix, volumeName))
            && var removed := RemoveTargetSpec(tool, history + created.calls, prefix, volumeId, volumeName);
               removed.calls == [Invocation([Rtstool, "delete", Iqn(prefix, volumeName)], true, true)]
  {
    IqnRoundTrip(prefix, volumeName);
    var h := history + [CreateCall(path, Iqn(prefix, volumeName), "", "", true)];
    var listing := Run(tool, h, GetTargetsCall);
    FirstContainingSpec(Split(listing.value, '\n'), Iqn(prefix, volumeName));
  }
}

/** What the platform report promises, stated over the inputs of `getPropertyTree20202`. */
module ReportProperties {
  import HexFormat
  import opened ReportPlatform

  /** Clearing a list whose first UUID is empty is a one-shot rule: applying it again changes nothing. */
  lemma NormalizeUuidsIdempotent(uuids: seq<string>)
    ensures NormalizeUuids(NormalizeUuids(uuids)) == NormalizeUuids(uuids)
  {
  }

  /**
    The status line is decided by the first installed shell alone, against the
    running shell's vbnv, id and SC version, and by the number of installed shells.
  */
  lemma StatusFollowsFirstInstalledShell(p: Platform, dev: DeviceQueries, board: BoardInfo,
                                         installed: seq<DsaInfo>, env: Collaborators)
    requires InterfaceCoversLogic(dev)
    requires Describes(p, dev, board, installed, env)
    requires installed != []
    ensures var cur := CurrentShell(dev, board, env);
            ReportStatus(p) == Printed(ShellStatus(
              SameShell(cur["vbnv"], Get(cur, "id", ""), installed[0], env.matchId),
              SameSc(ScVersion(dev.xmcBmcVersion, board.bmcVer), installed[0]),
              |installed|))
  {
  }

  /** With no installed shell no `status` node exists, so the status lookup fails. */
  lemma NoInstalledShellLeavesNoStatus(p: Platform, dev: DeviceQueries, board: BoardInfo,
                                       installed: seq<DsaInfo>, env: Collaborators)
    requires InterfaceCoversLogic(dev)
    requires Describes(p, dev, board, installed, env)
    ensures ReportStatus(p) == StatusMissing <==> installed == []
  {
  }

  /** More than one installed shell always gives the multiple-shells warning. */
  lemma SeveralInstalledShellsWarn(p: Platform, dev: DeviceQueries, board: BoardInfo,
                                   installed: seq<DsaInfo>, env: Collaborators)
    requires InterfaceCoversLogic(dev)
    requires Describes(p, dev, board, installed, env)
    ensures ReportStatus(p) == Printed(MultipleShells) <==> |installed| > 1
  {
  }

  /**
    With exactly one installed shell the report is silent exactly when that
    shell is the running one and its SC firmware matches.
  */
  lemma SingleShellUpToDate(p: Platform, dev: DeviceQueries, board: BoardInfo,
                            installed: seq<DsaInfo>, env: Collaborators)
    requires InterfaceCoversLogic(dev)
    requires Describes(p, dev, board, installed, env)
    requires |installed| == 1
    ensures ReportStatus(p) == Printed(NoWarning) <==>
              StatusFor(CurrentShell(dev, board, env), installed[0], env) == Status(true, true)
  {
  }

  /**
    A golden device reports `xilinx_<board>_GOLDEN`, has no id (so the report
    shows N/A as its platform ID), and an installed shell is the running one
    only when it carries that name and matches the empty id.
  */
  lemma GoldenDeviceReport(p: Platform, dev: DeviceQueries, board: BoardInfo,
                           installed: seq<DsaInfo>, env: Collaborators)
    requires InterfaceCoversLogic(dev)
    requires Describes(p, dev, board, installed, env)
    requires dev.isMfg
    ensures ReportFields(p)[3] == Field("Platform", GoldenVbnv(dev.boardName))
    ensures ReportFields(p)[5..6] == PlatformIdFields(p.currentShell) == [Field("Platform ID", "N/A")]
    ensures forall i :: 0 <= i < |installed| ==>
              (p.statuses[i].shell <==>
                 installed[i].name == GoldenVbnv(dev.boardName) && env.matchId(installed[i], ""))
  {
  }

  /**
    A 1RP device whose ROM reports no vbnv matches no installed shell: with one
    installed shell the report always says the device is not up-to-date.
  */
  lemma EmptyRomVbnvIsNotUpToDate(p: Platform, dev: DeviceQueries, board: BoardInfo,
                                  installed: seq<DsaInfo>, env: Collaborators)
    requires InterfaceCoversLogic(dev)
    requires Describes(p, dev, board, installed, env)
    requires Classify(dev) == OneRp && dev.romVbnv == ""
    requires |installed| == 1
    ensures ReportStatus(p) == Printed(DeviceNotUpToDate)
  {
  }

  /**
    When neither the device nor the board knows the SC version, every installed
    shell counts as matching and the SC warning is never printed.
  */
  lemma UnknownScVersionNeverWarns(p: Platform, dev: DeviceQueries, board: BoardInfo,
                                   installed: seq<DsaInfo>, env: Collaborators)
    requires InterfaceCoversLogic(dev)
    requires Describes(p, dev, board, installed, env)
    requires dev.xmcBmcVersion == "" && board.bmcVer == ""
    ensures forall i :: 0 <= i < |installed| ==> p.statuses[i].sc
    ensures ReportStatus(p) != Printed(ScNotUpToDate)
  {
  }

  /**
    The platform ID shown: for 2RP the last logic UUID with its interface UUID
    (when both render to non-empty text), for 1RP the ROM timestamp in hex.
  */
  lemma PlatformIdShown(p: Platform, dev: DeviceQueries, board: BoardInfo,
                        installed: seq<DsaInfo>, env: Collaborators)
    requires InterfaceCoversLogic(dev)
    requires Describes(p, dev, board, installed, env)
    ensures Classify(dev) == OneRp ==>
      ReportFields(p)[5..6] == [Field("Platform ID", HexFormat.FormatId(dev.romTimeSinceEpoch))]
    ensures Classify(dev) == TwoRp ==>
      var logic := env.uuidText(dev.logicUuids[|dev.logicUuids| - 1]);
      var iface := env.uuidText(dev.interfaceUuids[|dev.logicUuids| - 1]);
      logic != "" && iface != "" ==>
        ReportFields(p)[5..7] == [Field("Platform ID", logic), Field("Interface UUID", iface)]
  {
  }

  /**
    Installed shell `k` appears in the report, in order, with its name, its SC
    version and its timestamp as `0x%x`.
  */
  lemma InstalledShellLines(p: Platform, dev: DeviceQueries, board: BoardInfo,
                            installed: seq<DsaInfo>, env: Collaborators, k: nat)
    requires InterfaceCoversLogic(dev)
    requires Describes(p, dev, board, installed, env)
    requires k < |installed|
    ensures var at := |HeaderFields(p)| + 3 * k;
            at + 3 <= |ReportFields(p)| &&
            ReportFields(p)[at..at + 3] ==
              [Field("Platform", installed[k].name),
               Field("SC Version", installed[k].bmcVer),
               Field("Platform ID", HexFormat.FormatId(installed[k].timestamp))]
  {
    InstalledFieldsAt(p.availableShells, k);
    var h := HeaderFields(p);
    var at := |h| + 3 * k;
    var rest := InstalledFields(p.availableShells);
    assert ReportFields(p)[at..at + 3] == rest[3 * k..3 * k + 3];
    assert p.availableShells[k] == AvailableShell(installed[k]);
  }
}

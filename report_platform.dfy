/**
  The platform report of the board-management tool: what it records about the
  shell running on the FPGA and the shells installed on the host, and which
  single status warning it prints.

  A property-tree node is a map from key to text: `put` updates a key and
  `get(key, default)` is `Get`. Device queries, the flash controller and the
  `DSAInfo` library are inputs.
*/
module ReportPlatform {
  import HexFormat

  /** A flash image installed on the host, as `DSAInfo` describes it. */
  datatype DsaInfo = DsaInfo(name: string, bmcVer: string, timestamp: nat, file: string)

  /** What the flash controller reports about the board (`BoardInfo`). */
  datatype BoardInfo = BoardInfo(serialNum: string, bmcVer: string)

  /** Answers of the device queries. A query that throws is given as the empty value. */
  datatype DeviceQueries = DeviceQueries(
    bdf: string,
    flashType: string,
    isMfg: bool,
    boardName: string,
    logicUuids: seq<string>,
    interfaceUuids: seq<string>,
    romVbnv: string,
    romTimeSinceEpoch: nat,
    xmcBmcVersion: string)

  /** Library code whose definition is not part of this model. */
  datatype Collaborators = Collaborators(
    dsaFromUuid: string -> DsaInfo,       // DSAInfo built from a logic UUID
    uuidText: string -> string,           // XBU::string_to_UUID
    matchId: (DsaInfo, string) -> bool)   // DSAInfo::matchId

  type Node = map<string, string>

  /** `ptree::get<std::string>(key, default)` on a flat node. */
  function Get(node: Node, key: string, default: string): string {
    if key in node then node[key] else default
  }

  // ---------------------------------------------------------------------
  // Status helpers
  // ---------------------------------------------------------------------

  /** Is an installed shell the one running on the device? */
  function SameShell(vbnv: string, id: string, installed: DsaInfo,
                     matchId: (DsaInfo, string) -> bool): (r: bool)
    ensures r <==> vbnv != "" && installed.name == vbnv && matchId(installed, id)
    ensures r ==> installed.name != ""
  {
    if vbnv != "" then installed.name == vbnv && matchId(installed, id) else false
  }

  /** Is the installed shell's SC firmware the running one? An unknown running version matches. */
  function SameSc(sc: string, installed: DsaInfo): (r: bool)
    ensures r <==> sc == "" || installed.bmcVer == sc
    ensures !r ==> installed.bmcVer != sc
  {
    sc == "" || installed.bmcVer == sc
  }

  datatype Warning = MultipleShells | DeviceNotUpToDate | ScNotUpToDate | NoWarning

  /** The line `shell_status` returns, `%-8s : %s\n` with "WARNING" padded to eight. */
  function WarningText(w: Warning): (t: string)
    ensures t == "" <==> w == NoWarning
  {
    match w
    case MultipleShells => "WARNING  : Multiple shells are installed on the system.\n"
    case DeviceNotUpToDate => "WARNING  : Device is not up-to-date.\n"
    case ScNotUpToDate => "WARNING  : SC image on the device is not up-to-date.\n"
    case NoWarning => ""
  }

  /** Every check that fails, most important first. */
  function FailedChecks(shellOk: bool, scOk: bool, multiDsa: int): seq<Warning> {
    (if multiDsa > 1 then [MultipleShells] else [])
    + (if !shellOk then [DeviceNotUpToDate] else [])
    + (if !scOk then [ScNotUpToDate] else [])
  }

  /** The one warning printed: the most important failed check, if any. */
  function ShellStatus(shellOk: bool, scOk: bool, multiDsa: int): (w: Warning)
    ensures var failed := FailedChecks(shellOk, scOk, multiDsa);
            w == if failed == [] then NoWarning else failed[0]
    ensures w == MultipleShells <==> multiDsa > 1
    ensures w == DeviceNotUpToDate <==> multiDsa <= 1 && !shellOk
    ensures w == ScNotUpToDate <==> multiDsa <= 1 && shellOk && !scOk
    ensures w == NoWarning <==> multiDsa <= 1 && shellOk && scOk
  {
    if multiDsa > 1 then MultipleShells
    else if !shellOk then DeviceNotUpToDate
    else if !scOk then ScNotUpToDate
    else NoWarning
  }

  // ---------------------------------------------------------------------
  // Data rules of the property tree
  // ---------------------------------------------------------------------

  /** The workaround for hosts that report one empty UUID: such a list counts as empty. */
  function NormalizeUuids(uuids: seq<string>): (r: seq<string>)
    ensures r == [] || r[0] != ""
    ensures r == [] <==> uuids == [] || uuids[0] == ""
    ensures r != [] ==> r == uuids
  {
    if uuids != [] && uuids[0] == "" then [] else uuids
  }

  datatype ShellKind = Golden | TwoRp | OneRp

  /** Which kind of shell runs on the device. */
  function Classify(dev: DeviceQueries): (k: ShellKind)
    ensures k == Golden <==> dev.isMfg
    ensures k == TwoRp <==>
              (&& !dev.isMfg
               && dev.logicUuids != [] && dev.logicUuids[0] != ""
               && dev.interfaceUuids != [] && dev.interfaceUuids[0] != "")
  {
    if dev.isMfg then Golden
    else if NormalizeUuids(dev.logicUuids) != [] && NormalizeUuids(dev.interfaceUuids) != [] then TwoRp
    else OneRp
  }

  /** The platform name of a golden (manufacturing) image. */
  function GoldenVbnv(boardName: string): (v: string)
    ensures |v| == |boardName| + 14
    ensures v[..7] == "xilinx_" && v[7..|v| - 7] == boardName && v[|v| - 7..] == "_GOLDEN"
  {
    "xilinx_" + boardName + "_GOLDEN"
  }

  /** The reported SC version: the queried XMC/BMC version, else the board's. */
  function ScVersion(queried: string, boardBmcVer: string): (v: string)
    ensures queried != "" ==> v == queried
    ensures queried == "" ==> v == boardBmcVer
    ensures v == "" <==> queried == "" && boardBmcVer == ""
  {
    if queried != "" then queried else boardBmcVer
  }

  /**
    The 2RP loop reads `interface_uuids[i]` for every index of `logic_uuids`;
    the device must report at least as many interface UUIDs as logic UUIDs.
  */
  predicate InterfaceCoversLogic(dev: DeviceQueries) {
    Classify(dev) == TwoRp ==> |dev.interfaceUuids| >= |dev.logicUuids|
  }

  /** The keys one pass of the 2RP loop puts, for logic UUID `i`. */
  function TwoRpEntries(logic: seq<string>, iface: seq<string>, i: nat, env: Collaborators): Node
    requires i < |logic| <= |iface|
  {
    var part := env.dsaFromUuid(logic[i]);
    map["vbnv" := part.name,
        "logic-uuid" := env.uuidText(logic[i]),
        "interface-uuid" := env.uuidText(iface[i]),
        "id" := HexFormat.FormatId(part.timestamp)]
  }

  /** The `current_shell` node: the running shell's identity and SC version. */
  function CurrentShell(dev: DeviceQueries, board: BoardInfo, env: Collaborators): (cur: Node)
    requires InterfaceCoversLogic(dev)
    ensures "vbnv" in cur && "sc_version" in cur
    ensures cur["sc_version"] == ScVersion(dev.xmcBmcVersion, board.bmcVer)
    ensures ("id" in cur <==> !dev.isMfg)
    ensures ("logic-uuid" in cur <==> Classify(dev) == TwoRp)
    ensures ("interface-uuid" in cur <==> Classify(dev) == TwoRp)
    ensures dev.isMfg ==> cur["vbnv"] == GoldenVbnv(dev.boardName)
    ensures Classify(dev) == OneRp ==>
      cur["vbnv"] == dev.romVbnv && cur["id"] == HexFormat.FormatId(dev.romTimeSinceEpoch)
    ensures Classify(dev) == TwoRp ==>
      var last := dev.logicUuids[|dev.logicUuids| - 1];
      && cur["vbnv"] == env.dsaFromUuid(last).name
      && cur["logic-uuid"] == env.uuidText(last)
      && cur["interface-uuid"] == env.uuidText(dev.interfaceUuids[|dev.logicUuids| - 1])
      && cur["id"] == HexFormat.FormatId(env.dsaFromUuid(last).timestamp)
  {
    var logic := NormalizeUuids(dev.logicUuids);
    var iface := NormalizeUuids(dev.interfaceUuids);
    var identity :=
      match Classify(dev)
      case Golden => map["vbnv" := GoldenVbnv(dev.boardName)]
      case TwoRp => TwoRpEntries(logic, iface, |logic| - 1, env)
      case OneRp => map["vbnv" := dev.romVbnv, "id" := HexFormat.FormatId(dev.romTimeSinceEpoch)];
    identity["sc_version" := ScVersion(dev.xmcBmcVersion, board.bmcVer)]
  }

  /** The `status` node recorded for one installed shell. */
  datatype Status = Status(shell: bool, sc: bool)

  function StatusFor(cur: Node, installed: DsaInfo, env: Collaborators): Status {
    Status(SameShell(Get(cur, "vbnv", ""), Get(cur, "id", ""), installed, env.matchId),
           SameSc(Get(cur, "sc_version", ""), installed))
  }

  /** The `available_shells` entry of one installed shell. */
  function AvailableShell(installed: DsaInfo): Node {
    map["vbnv" := installed.name,
        "sc_version" := installed.bmcVer,
        "id" := HexFormat.FormatId(installed.timestamp),
        "file" := installed.file]
  }

  /**
    The `platform` node: `statuses` are its `status` children in the order they
    were added, `availableShells` the children of `available_shells`.
  */
  datatype Platform = Platform(
    bdf: string,
    flashType: string,
    serialNum: string,
    currentShell: Node,
    statuses: seq<Status>,
    availableShells: seq<Node>)

  /** `p` is the `platform` node built for these inputs. */
  predicate Describes(p: Platform, dev: DeviceQueries, board: BoardInfo,
                      installed: seq<DsaInfo>, env: Collaborators)
    requires InterfaceCoversLogic(dev)
  {
    && p.bdf == dev.bdf && p.flashType == dev.flashType && p.serialNum == board.serialNum
    && p.currentShell == CurrentShell(dev, board, env)
    && |p.statuses| == |installed| && |p.availableShells| == |installed|
    && (forall i :: 0 <= i < |installed| ==> p.statuses[i] == StatusFor(p.currentShell, installed[i], env))
    && (forall i :: 0 <= i < |installed| ==> p.availableShells[i] == AvailableShell(installed[i]))
  }

  /** Builds the `current_shell` node step by step, as `getPropertyTree20202` does. */
  method BuildCurrentShell(dev: DeviceQueries, board: BoardInfo, env: Collaborators)
    returns (cur: Node)
    requires InterfaceCoversLogic(dev)
    ensures cur == CurrentShell(dev, board, env)
  {
    var logicUuids := dev.logicUuids;
    if logicUuids != [] && logicUuids[0] == "" {
      logicUuids := [];
    }
    var interfaceUuids := dev.interfaceUuids;
    if interfaceUuids != [] && interfaceUuids[0] == "" {
      interfaceUuids := [];
    }

    cur := map[];
    if dev.isMfg {
      cur := cur["vbnv" := "xilinx_" + dev.boardName + "_GOLDEN"];
    } else if logicUuids != [] && interfaceUuids != [] {
      var i := 0;
      while i < |logicUuids|
        invariant 0 <= i <= |logicUuids|
        invariant i == 0 ==> cur == map[]
        invariant i > 0 ==> cur == TwoRpEntries(logicUuids, interfaceUuids, i - 1, env)
      {
        var part := env.dsaFromUuid(logicUuids[i]);
        cur := cur["vbnv" := part.name];
        cur := cur["logic-uuid" := env.uuidText(logicUuids[i])];
        cur := cur["interface-uuid" := env.uuidText(interfaceUuids[i])];
        cur := cur["id" := HexFormat.FormatId(part.timestamp)];
        i := i + 1;
      }
    } else {
      cur := cur["vbnv" := dev.romVbnv];
      cur := cur["id" := HexFormat.FormatId(dev.romTimeSinceEpoch)];
    }

    var scVer := dev.xmcBmcVersion;
    if scVer == "" {
      scVer := board.bmcVer;
    }
    cur := cur["sc_version" := scVer];
  }

  /** `getPropertyTree20202`: the `platform` node for a device and the shells installed on the host. */
  method BuildPlatform(dev: DeviceQueries, board: BoardInfo, installed: seq<DsaInfo>,
                       env: Collaborators)
    returns (p: Platform)
    requires InterfaceCoversLogic(dev)
    ensures Describes(p, dev, board, installed, env)
  {
    var cur := BuildCurrentShell(dev, board, env);
    var statuses: seq<Status> := [];
    var shells: seq<Node> := [];
    var i := 0;
    while i < |installed|
      invariant 0 <= i <= |installed|
      invariant |statuses| == i && |shells| == i
      invariant forall j :: 0 <= j < i ==> statuses[j] == StatusFor(cur, installed[j], env)
      invariant forall j :: 0 <= j < i ==> shells[j] == AvailableShell(installed[j])
    {
      var dsa := installed[i];
      var shell := map["vbnv" := dsa.name];
      shell := shell["sc_version" := dsa.bmcVer];
      shell := shell["id" := HexFormat.FormatId(dsa.timestamp)];
      shell := shell["file" := dsa.file];
      var status := Status(SameShell(Get(cur, "vbnv", ""), Get(cur, "id", ""), dsa, env.matchId),
                           SameSc(Get(cur, "sc_version", ""), dsa));
      statuses := statuses + [status];
      shells := shells + [shell];
      i := i + 1;
    }
    p := Platform(dev.bdf, dev.flashType, board.serialNum, cur, statuses, shells);
  }

  // ---------------------------------------------------------------------
  // The report
  // ---------------------------------------------------------------------

  /** One `label : value` line of the report. */
  datatype Field = Field(caption: string, value: string)

  /** The closing status line, or the failed lookup of a `status` node that was never added. */
  datatype StatusLine = Printed(warning: Warning) | StatusMissing

  /** For 2RP the platform ID is the logic UUID, shown with the interface UUID. */
  function PlatformIdFields(cur: Node): (fs: seq<Field>)
    ensures var logic := Get(cur, "logic-uuid", "");
            var iface := Get(cur, "interface-uuid", "");
            if logic != "" && iface != ""
            then fs == [Field("Platform ID", logic), Field("Interface UUID", iface)]
            else fs == [Field("Platform ID", Get(cur, "id", "N/A"))]
    ensures 1 <= |fs| <= 2 && fs[0].caption == "Platform ID"
  {
    var logic := Get(cur, "logic-uuid", "");
    var iface := Get(cur, "interface-uuid", "");
    if logic != "" && iface != "" then
      [Field("Platform ID", logic), Field("Interface UUID", iface)]
    else
      [Field("Platform ID", Get(cur, "id", "N/A"))]
  }

  function HeaderFields(p: Platform): seq<Field> {
    [Field("Device", p.bdf),
     Field("Type", p.flashType),
     Field("Serial Number", p.serialNum),
     Field("Platform", Get(p.currentShell, "vbnv", "N/A")),
     Field("SC Version", Get(p.currentShell, "sc_version", "N/A"))]
    + PlatformIdFields(p.currentShell)
  }

  function ShellFields(shell: Node): seq<Field> {
    [Field("Platform", Get(shell, "vbnv", "N/A")),
     Field("SC Version", Get(shell, "sc_version", "N/A")),
     Field("Platform ID", Get(shell, "id", "N/A"))]
  }

  /** The lines for the installed shells, in order. */
  function InstalledFields(shells: seq<Node>): seq<Field> {
    if shells == [] then []
    else InstalledFields(shells[..|shells| - 1]) + ShellFields(shells[|shells| - 1])
  }

  function ReportFields(p: Platform): seq<Field> {
    HeaderFields(p) + InstalledFields(p.availableShells)
  }

  /** The status line reads the FIRST `status` child and counts all installed shells. */
  function ReportStatus(p: Platform): StatusLine {
    if p.statuses == [] then StatusMissing
    else Printed(ShellStatus(p.statuses[0].shell, p.statuses[0].sc, |p.availableShells|))
  }

  /** Each installed shell gives three lines, in the order of the installed list. */
  lemma {:induction false} InstalledFieldsAt(shells: seq<Node>, k: nat)
    requires k < |shells|
    ensures |InstalledFields(shells)| == 3 * |shells|
    ensures InstalledFields(shells)[3 * k..3 * k + 3] == ShellFields(shells[k])
    decreases |shells|
  {
    var init := shells[..|shells| - 1];
    if k < |shells| - 1 {
      InstalledFieldsAt(init, k);
      assert init[k] == shells[k];
    } else if init != [] {
      InstalledFieldsAt(init, 0);
    }
  }

  /** `writeReport`: the report lines, then the status line. */
  method WriteReport(p: Platform) returns (fields: seq<Field>, status: StatusLine)
    ensures fields == ReportFields(p)
    ensures status == ReportStatus(p)
  {
    fields := [Field("Device", p.bdf), Field("Type", p.flashType), Field("Serial Number", p.serialNum)];
    fields := fields + [Field("Platform", Get(p.currentShell, "vbnv", "N/A"))];
    fields := fields + [Field("SC Version", Get(p.currentShell, "sc_version", "N/A"))];
    var logicUuid := Get(p.currentShell, "logic-uuid", "");
    var interfaceUuid := Get(p.currentShell, "interface-uuid", "");
    if logicUuid != "" && interfaceUuid != "" {
      fields := fields + [Field("Platform ID", logicUuid)];
      fields := fields + [Field("Interface UUID", interfaceUuid)];
    } else {
      fields := fields + [Field("Platform ID", Get(p.currentShell, "id", "N/A"))];
    }

    var shells := p.availableShells;
    var i := 0;
    while i < |shells|
      invariant 0 <= i <= |shells|
      invariant fields == HeaderFields(p) + InstalledFields(shells[..i])
    {
      var shell := shells[i];
      assert shells[..i + 1][..i] == shells[..i];
      fields := fields + [Field("Platform", Get(shell, "vbnv", "N/A"))];
      fields := fields + [Field("SC Version", Get(shell, "sc_version", "N/A"))];
      fields := fields + [Field("Platform ID", Get(shell, "id", "N/A"))];
      i := i + 1;
    }
    assert shells[..i] == shells;

    if p.statuses == [] {
      status := StatusMissing;
    } else {
      status := Printed(ShellStatus(p.statuses[0].shell, p.statuses[0].sc, |shells|));
    }
  }
}

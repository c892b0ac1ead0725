# Platform report of the XRT board-management tool, in Dafny

This project models the platform report of `xbmgmt` (`ReportPlatform`). The
report first builds a property tree for a device. The tree records the shell
running on the FPGA, its SC (satellite controller) firmware version and the
shells installed on the host. The report then prints that tree and ends with a
single status warning, chosen by a fixed priority.

The model has three modules:

- `HexFormat` (`hex_format.dfy`): the `0x%x` text used for image timestamps. A
  parse function reads it back, and a proved round trip shows that distinct
  timestamps give distinct id strings.
- `ReportPlatform` (`report_platform.dfy`): the data and the operations.
  - The helpers `same_shell`, `same_sc` and `shell_status`.
  - The UUID-list workaround, the golden/2RP/1RP classification of the running
    shell and the SC-version fallback.
  - `getPropertyTree20202` and `writeReport` as methods with loops. Each is
    proved equal to a specification function.
  - A property-tree node is a `map<string, string>`: `put` is a map update and
    `get(key, default)` is `Get`. The `status` children of the `platform` node
    are a sequence, and `writeReport` reads the first one.
  - The report is the sequence of `label : value` lines it prints, followed by
    the status line. When no shell is installed, no `status` node exists and
    the lookup fails (`StatusMissing`).
- `ReportProperties` (`report_properties.dfy`): lemmas about the whole report,
  stated over the device's query answers and the list of installed shells.

The model takes these as inputs:

- Device queries and the flash controller: `DeviceQueries`, `BoardInfo` and the
  list of installed `DsaInfo`. A query that throws (UUIDs, XMC/BMC version) is
  given as the empty value, because the source swallows the exception and
  keeps the empty value.
- Library code whose definition is not shown: the `DSAInfo` built from a logic
  UUID, `XBU::string_to_UUID` and `DSAInfo::matchId`. These are the function
  fields of `Collaborators`.

## Model

| member | source | states |
|---|---|---|
| `ReportPlatform.SameShell` | src/runtime_src/core/tools/xbmgmt2/ReportPlatform.cpp:44-54 | an installed shell is the running one iff the running vbnv is non-empty, equals the installed name and `matchId(id)` holds; so an installed shell with an empty name never matches |
| `ReportPlatform.SameSc` | src/runtime_src/core/tools/xbmgmt2/ReportPlatform.cpp:59-63 | the SC firmware matches iff the running SC version is empty (unknown) or equals the installed `bmcVer` |
| `ReportPlatform.ShellStatus` | src/runtime_src/core/tools/xbmgmt2/ReportPlatform.cpp:149-159 | the warning is the first failed check of the priority list (multiple shells, shell, SC); multiple-shells iff more than one shell whatever the flags; not-up-to-date iff at most one shell and the shell flag is false; the SC warning iff at most one shell, the shell flag is true and the SC flag is false; no warning iff at most one shell and both flags are true |
| `ReportPlatform.WarningText` | src/runtime_src/core/tools/xbmgmt2/ReportPlatform.cpp:152-158 | the exact `%-8s : %s` warning lines; the text is empty exactly for "no warning" |
| `ReportPlatform.NormalizeUuids` | src/runtime_src/core/tools/xbmgmt2/ReportPlatform.cpp:84-94 | the normalised list is empty iff the input is empty or starts with an empty UUID; otherwise it is the input unchanged; it never starts with an empty UUID |
| `ReportProperties.NormalizeUuidsIdempotent` | src/runtime_src/core/tools/xbmgmt2/ReportPlatform.cpp:87-88 | applying the UUID workaround twice gives the same list as applying it once |
| `ReportPlatform.Classify` | src/runtime_src/core/tools/xbmgmt2/ReportPlatform.cpp:98-113 | the running shell is golden iff the device is a manufacturing image; otherwise it is 2RP iff both raw UUID lists are non-empty and start with a non-empty UUID; otherwise it is 1RP |
| `ReportPlatform.GoldenVbnv` | src/runtime_src/core/tools/xbmgmt2/ReportPlatform.cpp:99-100 | the golden name is `xilinx_`, then the board name, then `_GOLDEN` (14 extra characters) |
| `ReportPlatform.ScVersion` | src/runtime_src/core/tools/xbmgmt2/ReportPlatform.cpp:115-121 | the reported SC version is the queried XMC/BMC version when non-empty, else the board-info BMC version; it is empty only when both are |
| `ReportPlatform.CurrentShell` | src/runtime_src/core/tools/xbmgmt2/ReportPlatform.cpp:97-122 | the `current_shell` keys per kind: golden has vbnv `xilinx_<board>_GOLDEN` and no id; 2RP has the values of the LAST logic UUID and its interface UUID (repeated `put`); 1RP has the ROM vbnv and the ROM timestamp as `0x%x`; every kind has the fallback SC version |
| `ReportPlatform.BuildCurrentShell` | src/runtime_src/core/tools/xbmgmt2/ReportPlatform.cpp:81-122 | clearing the UUID lists in place, the 2RP loop that overwrites the same keys, and the SC fallback build exactly `CurrentShell`; it needs at least as many interface UUIDs as logic UUIDs in the 2RP case |
| `ReportPlatform.BuildPlatform` | src/runtime_src/core/tools/xbmgmt2/ReportPlatform.cpp:65-147 | the `platform` node has one `status` child and one `available_shells` entry per installed shell, in order; each status compares that shell with the running vbnv, id and SC version |
| `ReportPlatform.PlatformIdFields` | src/runtime_src/core/tools/xbmgmt2/ReportPlatform.cpp:181-189 | the logic UUID is printed as Platform ID, followed by the interface UUID, when both are non-empty; otherwise the id is printed, or `N/A` when there is no id |
| `ReportPlatform.InstalledFieldsAt` | src/runtime_src/core/tools/xbmgmt2/ReportPlatform.cpp:192-200 | each installed shell contributes exactly three lines (platform, SC version, platform ID) at position `3k`, in list order |
| `ReportPlatform.WriteReport` | src/runtime_src/core/tools/xbmgmt2/ReportPlatform.cpp:161-205 | the streamed lines are the header, the platform-ID choice and three lines per installed shell; the status line is `shell_status` of the first `status` node and the number of installed shells, or a failed lookup when there is no `status` node |
| `ReportProperties.StatusFollowsFirstInstalledShell` | src/runtime_src/core/tools/xbmgmt2/ReportPlatform.cpp:136-139 | with a shell installed, the status line depends on the first installed shell only, checked against the running vbnv, id and fallback SC version |
| `ReportProperties.NoInstalledShellLeavesNoStatus` | src/runtime_src/core/tools/xbmgmt2/ReportPlatform.cpp:203-204 | the status lookup fails exactly when no shell is installed |
| `ReportProperties.SeveralInstalledShellsWarn` | src/runtime_src/core/tools/xbmgmt2/ReportPlatform.cpp:152-153 | the report warns about multiple shells exactly when more than one shell is installed |
| `ReportProperties.SingleShellUpToDate` | src/runtime_src/core/tools/xbmgmt2/ReportPlatform.cpp:154-158 | with one installed shell, the report has no warning exactly when that shell matches both the running shell and the SC version |
| `ReportProperties.GoldenDeviceReport` | src/runtime_src/core/tools/xbmgmt2/ReportPlatform.cpp:98-101 | a golden device reports `xilinx_<board>_GOLDEN` and Platform ID `N/A`; an installed shell matches it iff the shell has that name and `matchId` accepts the empty id |
| `ReportProperties.EmptyRomVbnvIsNotUpToDate` | src/runtime_src/core/tools/xbmgmt2/ReportPlatform.cpp:111 | a 1RP device whose ROM vbnv is empty, with one installed shell, always reports "Device is not up-to-date" |
| `ReportProperties.UnknownScVersionNeverWarns` | src/runtime_src/core/tools/xbmgmt2/ReportPlatform.cpp:119-121 | when neither the device nor the board knows the SC version, every installed shell's SC status is true and the SC warning never appears |
| `ReportProperties.PlatformIdShown` | src/runtime_src/core/tools/xbmgmt2/ReportPlatform.cpp:184-189 | 1RP shows the ROM timestamp in hex as Platform ID; 2RP shows the last logic UUID and its interface UUID when both render non-empty |
| `ReportProperties.InstalledShellLines` | src/runtime_src/core/tools/xbmgmt2/ReportPlatform.cpp:127-133 | installed shell `k` is listed in order, with its name, its `bmcVer` and its timestamp as `0x%x` |
| `HexFormat.HexDigits` | src/runtime_src/core/tools/xbmgmt2/ReportPlatform.cpp:108 | `%x` prints at least one lower-case hex digit and has no leading zero except for 0 itself |
| `HexFormat.HexRoundTrip` | src/runtime_src/core/tools/xbmgmt2/ReportPlatform.cpp:112 | parsing the printed hex digits gives back the timestamp |
| `HexFormat.FormatIdInjective` | src/runtime_src/core/tools/xbmgmt2/ReportPlatform.cpp:132 | two timestamps give the same `0x%x` id only when they are equal |

## Left out

- `src/runtime_src/core/edge/drm/zocl/include/zocl_aie.h` is not part of this model. It only declares the AI-Engine partition structures, two timeout constants and stubs that always fail. The partition reference counting and reset polling that would use them are kernel code outside the files modelled.
- Device queries, `Flasher::getBoardInfo` and `getInstalledDSA` are hardware I/O. Their answers are inputs (`DeviceQueries`, `BoardInfo`, the installed list).
- The `DSAInfo` built from a UUID, `DSAInfo::matchId` and `XBU::string_to_UUID` have no visible definition. They are arbitrary functions passed in (`Collaborators`).
- Exceptions from the UUID and XMC/BMC queries are modelled only as the empty value they leave behind.
- A bad `pcie_bdf` rendering, or other exceptions from queries outside those try blocks, are not modelled.
- `boost::property_tree` is modelled as flat key/value maps. The report is modelled as the `label : value` pairs it prints, without `%-20s` padding, section headings or blank lines. The status line's text is modelled exactly (`WarningText`).
- `getPropertyTreeInternal` only delegates to `getPropertyTree20202`, so it has no separate member.
- The `hardware.serial_num` and `file` keys are recorded (`Platform.serialNum`, `AvailableShell`) but no property is stated about them.
- `ReportPlatform.BuildCurrentShell`: the 2RP loop reads `interface_uuids[i]` for every index of `logic_uuids`, which is undefined behaviour in C++ when the interface list is shorter. The model requires the interface list to be at least as long (`InterfaceCoversLogic`) instead of modelling that read.
- `ReportPlatform.WriteReport`: `static_cast<int>` of the shell count is taken as exact. A count above `INT_MAX` cannot occur for installed flash images. Timestamps are unbounded naturals rather than 64-bit values, which makes no difference to `%x`.
- `pt.get<bool>` reads back exactly the boolean that `put` stored. That round trip through text is assumed, not modelled.

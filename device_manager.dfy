/** The multi-device registry: probing a connected device (`getprop` and `wm size`),
    the registry keyed by serial, the ONLINE/BUSY acquire/release cycle, and the
    first-match application search. */
module DeviceRegistry {
  import opened Wrappers
  import opened Strings
  import opened Dicts
  import opened Adb

  datatype DeviceState = Online | Offline | Busy | Unauthorized

  /** The enum's string values. */
  function StateValue(s: DeviceState): (r: string)
    ensures |r| > 0
  {
    match s
    case Online => "online"
    case Offline => "offline"
    case Busy => "busy"
    case Unauthorized => "unauthorized"
  }

  lemma StateValueInjective(a: DeviceState, b: DeviceState)
    requires StateValue(a) == StateValue(b)
    ensures a == b
  {
    assert StateValue(a)[0] == StateValue(b)[0];
    if a.Offline? || b.Offline? {
      assert StateValue(a)[1] == StateValue(b)[1];
    }
  }

  datatype DeviceInfo = DeviceInfo(
    deviceId: string,
    state: DeviceState,
    model: Option<string>,
    brand: Option<string>,
    androidVersion: Option<string>,
    sdkVersion: Option<int>,
    screenWidth: Option<int>,
    screenHeight: Option<int>,
    currentTaskId: Option<string>)

  /** `DeviceInfo(device_id=serial, state=OFFLINE)`: every other field at its default. */
  function OfflineInfo(serial: string): (r: DeviceInfo)
    ensures r.deviceId == serial && r.state == Offline
    ensures r.model.None? && r.brand.None? && r.androidVersion.None? && r.sdkVersion.None?
    ensures r.screenWidth.None? && r.screenHeight.None? && r.currentTaskId.None?
  {
    DeviceInfo(serial, Offline, None, None, None, None, None, None, None)
  }

  datatype AppInfo = AppInfo(packageName: string, appName: Option<string>, version: Option<string>)

  // ---------------------------------------------------------------- getprop parsing

  /** One line of `getprop` output, `[key]: [value]`, after stripping. */
  function PropLine(raw: string): (r: Option<(string, string)>)
  {
    var line := Strip(raw);
    if StartsWith(line, "[") && Contains(line, "]: [") then
      var keyEnd := Find(line, "]: [").value;
      assert keyEnd >= 1 by {
        assert line[keyEnd] == ']' && line[0] == '[';
      }
      // `line[key_end + 4 : -1]`: empty when the line ends right after the marker
      var value := if keyEnd + 4 <= |line| - 1 then line[keyEnd + 4..|line| - 1] else "";
      Some((line[1..keyEnd], value))
    else None
  }

  /** Each line's parse, in order. */
  function ParsedLines(lines: seq<string>): (r: seq<Option<(string, string)>>)
    ensures |r| == |lines| && forall i :: 0 <= i < |lines| ==> r[i] == PropLine(lines[i])
  {
    seq(|lines|, i requires 0 <= i < |lines| => PropLine(lines[i]))
  }

  /** One step of the loop: a parsed line is stored, a skipped one changes nothing. */
  function Store(d: seq<(string, string)>, kv: Option<(string, string)>): seq<(string, string)> {
    match kv
    case None => d
    case Some((k, v)) => Put(d, k, v)
  }

  function StoreAll(d: seq<(string, string)>, parsed: seq<Option<(string, string)>>): seq<(string, string)>
    decreases |parsed|
  {
    if |parsed| == 0 then d else Store(StoreAll(d, parsed[..|parsed| - 1]), parsed[|parsed| - 1])
  }

  /** The dict `_parse_props` builds from the given lines: each `[key]: [value]` line
      stores `value` under `key`, overwriting an earlier value for the same key. */
  function Props(lines: seq<string>): seq<(string, string)> {
    StoreAll([], ParsedLines(lines))
  }

  /** Exactly the stripped lines that open with `[` and hold `]: [` are parsed. */
  lemma PropLineShape(raw: string)
    ensures PropLine(raw).Some? <==> StartsWith(Strip(raw), "[") && Contains(Strip(raw), "]: [")
  {
  }

  /** A stripped line holding the marker at `keyEnd` parses to the text between the brackets. */
  lemma PropLineOf(line: string, keyEnd: nat)
    requires Strip(line) == line && StartsWith(line, "[")
    requires Find(line, "]: [") == Some(keyEnd) && keyEnd + 4 <= |line| - 1
    ensures PropLine(line) == Some((line[1..keyEnd], line[keyEnd + 4..|line| - 1]))
  {
    assert Contains(line, "]: [");
  }

  /** How `getprop` prints one property. */
  function PropText(key: string, value: string): string {
    "[" + key + "]: [" + value + "]"
  }

  lemma PropTextStripped(key: string, value: string)
    ensures Strip(PropText(key, value)) == PropText(key, value)
  {
    var line := PropText(key, value);
    assert line[0] == '[' && line[|line| - 1] == ']';
    StripClean(line);
  }

  lemma PropTextFind(key: string, value: string)
    requires forall k :: 0 <= k < |key| ==> key[k] != ']'
    ensures Find(PropText(key, value), "]: [") == Some(|key| + 1)
  {
    var line := PropText(key, value);
    assert line[|key| + 1..|key| + 5] == "]: [";
    forall k | 0 <= k < |key| + 1 ensures line[k] != "]: ["[0] {
      if k > 0 { assert line[k] == key[k - 1]; }
    }
    FindFirstChar(line, "]: [", |key| + 1);
  }

  /** A line printed as `[key]: [value]` parses back to its key and value, provided the
      key holds no `]`. */
  lemma PropLineRoundTrip(key: string, value: string)
    requires forall k :: 0 <= k < |key| ==> key[k] != ']'
    ensures PropLine(PropText(key, value)) == Some((key, value))
  {
    var line := PropText(key, value);
    PropTextStripped(key, value);
    PropTextFind(key, value);
    assert StartsWith(line, "[") by {
      assert line[..1] == "[";
    }
    PropLineOf(line, |key| + 1);
    assert line[1..|key| + 1] == key;
    assert line[|key| + 5..|line| - 1] == value;
  }

  lemma PropsAppend(lines: seq<string>, line: string)
    ensures Props(lines + [line]) == Store(Props(lines), PropLine(line))
  {
    var all := ParsedLines(lines + [line]);
    assert all[..|lines|] == ParsedLines(lines);
  }

  /** A later line for a key overrides every earlier one. */
  lemma PropsLastWins(lines: seq<string>, line: string, key: string, value: string)
    requires PropLine(line) == Some((key, value))
    ensures Lookup(Props(lines + [line]), key) == Some(value)
  {
    PropsAppend(lines, line);
    LookupPutSame(Props(lines), key, value);
  }

  /** Lines that are not `[key]: [value]` leave the dict as it was. */
  lemma PropsSkipsOtherLines(lines: seq<string>, line: string)
    requires !StartsWith(Strip(line), "[") || !Contains(Strip(line), "]: [")
    ensures Props(lines + [line]) == Props(lines)
  {
    PropLineShape(line);
    PropsAppend(lines, line);
  }

  lemma {:induction false} StoreAllDistinct(d: seq<(string, string)>, parsed: seq<Option<(string, string)>>)
    requires DistinctKeys(d)
    ensures DistinctKeys(StoreAll(d, parsed))
    decreases |parsed|
  {
    if |parsed| > 0 {
      var before := StoreAll(d, parsed[..|parsed| - 1]);
      StoreAllDistinct(d, parsed[..|parsed| - 1]);
      match parsed[|parsed| - 1]
      case None =>
      case Some((k, v)) => PutDistinct(before, k, v);
    }
  }

  /** Each key appears once in the parsed dict. */
  lemma PropsDistinct(lines: seq<string>)
    ensures DistinctKeys(Props(lines))
  {
    StoreAllDistinct([], ParsedLines(lines));
  }

  lemma StoreAllSnoc(parsed: seq<Option<(string, string)>>, i: nat)
    requires i < |parsed|
    ensures StoreAll([], parsed[..i + 1]) == Store(StoreAll([], parsed[..i]), parsed[i])
  {
    assert parsed[..i + 1][..i] == parsed[..i];
  }

  /** `_parse_props`: the loop over the output's lines. */
  method ParseProps(propsOutput: string) returns (result: seq<(string, string)>)
    ensures result == Props(Split(propsOutput, "\n"))
  {
    result := ParseLines(Split(propsOutput, "\n"));
  }

  /** The body of the `_parse_props` loop, over lines already split. */
  method ParseLines(lines: seq<string>) returns (result: seq<(string, string)>)
    ensures result == Props(lines)
  {
    ghost var parsed := ParsedLines(lines);
    result := [];
    var i := 0;
    while i < |lines|
      invariant 0 <= i <= |lines|
      invariant result == StoreAll([], parsed[..i])
    {
      StoreAllSnoc(parsed, i);
      var kv := PropLine(lines[i]);
      assert kv == parsed[i];
      result := Store(result, kv);
      i := i + 1;
    }
    assert parsed[..|lines|] == parsed;
  }

  // ---------------------------------------------------------------- probing a device

  /** `_get_device_info` for a device answering `getprop` and `wm size` as given: a
      failing `getprop` gives the OFFLINE entry, otherwise the entry is built from the
      properties of its stripped output. */
  function ProbeDevice(serial: string, getprop: Reply, wmSize: Reply): (r: DeviceInfo)
    ensures r.deviceId == serial
    ensures getprop.Raised? ==> r == OfflineInfo(serial)
    ensures getprop.Output? ==> r == ProbeFromProps(serial, Props(Split(Strip(getprop.text), "\n")), wmSize)
  {
    match getprop
    case Raised => OfflineInfo(serial)
    case Output(text) => ProbeFromProps(serial, Props(Split(Strip(text), "\n")), wmSize)
  }

  /** The entry for a device whose properties were read. An SDK property that is present,
      non-empty and not an integer raises in `int()`, which, like a failing shell call,
      gives the OFFLINE entry. */
  function ProbeFromProps(serial: string, props: seq<(string, string)>, wmSize: Reply): (r: DeviceInfo)
    ensures r.deviceId == serial && r.currentTaskId.None?
    ensures r.state == Online || r == OfflineInfo(serial)
    ensures r.state == Online ==> r.screenWidth == Some(ParseWmSize(wmSize).0) && r.screenHeight == Some(ParseWmSize(wmSize).1)
    ensures r.state == Online ==> (r.model == Lookup(props, "ro.product.model") && r.brand == Lookup(props, "ro.product.brand")
                                   && r.androidVersion == Lookup(props, "ro.build.version.release"))
  {
    var sdkText := Lookup(props, "ro.build.version.sdk");
    if sdkText.Some? && |sdkText.value| > 0 && ParseInt(sdkText.value).None? then OfflineInfo(serial)
    else
      var sdk := if sdkText.Some? && |sdkText.value| > 0 then ParseInt(sdkText.value) else None;
      var (w, h) := ParseWmSize(wmSize);
      DeviceInfo(serial, Online, Lookup(props, "ro.product.model"), Lookup(props, "ro.product.brand"),
                 Lookup(props, "ro.build.version.release"), sdk, Some(w), Some(h), None)
  }

  /** A device whose properties give an integer SDK level (or none) is ONLINE; the level
      is the one printed. */
  lemma ProbeOnline(serial: string, props: seq<(string, string)>, wmSize: Reply, sdk: int)
    requires Lookup(props, "ro.build.version.sdk") == Some(IntToString(sdk))
    ensures var r := ProbeFromProps(serial, props, wmSize);
      r.state == Online && r.sdkVersion == Some(sdk)
  {
    ParseIntRoundTrip(sdk);
    assert |IntToString(sdk)| > 0 by {
      if sdk >= 0 { assert |NatToString(sdk)| > 0; }
    }
  }

  lemma ProbeNoSdk(serial: string, props: seq<(string, string)>, wmSize: Reply)
    requires !HasKey(props, "ro.build.version.sdk")
    ensures var r := ProbeFromProps(serial, props, wmSize);
      r.state == Online && r.sdkVersion.None?
  {
  }

  /** An SDK property that is not an integer makes the probe fail. */
  lemma ProbeBadSdk(serial: string, props: seq<(string, string)>, wmSize: Reply, sdkText: string)
    requires Lookup(props, "ro.build.version.sdk") == Some(sdkText)
    requires |sdkText| > 0 && ParseInt(sdkText).None?
    ensures ProbeFromProps(serial, props, wmSize) == OfflineInfo(serial)
  {
  }

  /** The probe of every connected device (serial and its two shell replies), in order. */
  function ProbeAll(connected: seq<(string, Reply, Reply)>): (r: seq<DeviceInfo>)
    ensures |r| == |connected|
    decreases |connected|
  {
    if |connected| == 0 then []
    else
      var (serial, getprop, wmSize) := connected[|connected| - 1];
      ProbeAll(connected[..|connected| - 1]) + [ProbeDevice(serial, getprop, wmSize)]
  }

  lemma ProbeAllSnoc(connected: seq<(string, Reply, Reply)>, i: nat)
    requires i < |connected|
    ensures ProbeAll(connected[..i + 1])
      == ProbeAll(connected[..i]) + [ProbeDevice(connected[i].0, connected[i].1, connected[i].2)]
  {
    assert connected[..i + 1][..i] == connected[..i];
  }

  /** Each scanned device's entry is its own probe. */
  lemma {:induction false} ProbeAllAt(connected: seq<(string, Reply, Reply)>, i: nat)
    requires i < |connected|
    ensures ProbeAll(connected)[i] == ProbeDevice(connected[i].0, connected[i].1, connected[i].2)
    ensures ProbeAll(connected)[i].deviceId == connected[i].0
    decreases |connected|
  {
    if i < |connected| - 1 {
      ProbeAllAt(connected[..|connected| - 1], i);
    }
  }

  // ---------------------------------------------------------------- the registry

  /** A well-keyed registry entry carries the id it is stored under. */
  lemma LookupWellKeyed(d: seq<(string, DeviceInfo)>, id: string)
    requires WellKeyed(d) && HasKey(d, id)
    ensures Lookup(d, id).value.deviceId == id
  {
    var k :| 0 <= k < |d| && d[k] == (id, Lookup(d, id).value);
  }

  /** Entries keyed by their own serial, each key once. */
  ghost predicate WellKeyed(d: seq<(string, DeviceInfo)>) {
    DistinctKeys(d) && forall i :: 0 <= i < |d| ==> d[i].0 == d[i].1.deviceId
  }

  /** `self._devices[info.device_id] = info` for each scanned device in turn. */
  function RegisterAll(d: seq<(string, DeviceInfo)>, infos: seq<DeviceInfo>): seq<(string, DeviceInfo)>
    decreases |infos|
  {
    if |infos| == 0 then d
    else Put(RegisterAll(d, infos[..|infos| - 1]), infos[|infos| - 1].deviceId, infos[|infos| - 1])
  }

  lemma RegisterAllSnoc(d: seq<(string, DeviceInfo)>, infos: seq<DeviceInfo>, info: DeviceInfo)
    ensures RegisterAll(d, infos + [info]) == Put(RegisterAll(d, infos), info.deviceId, info)
  {
    assert (infos + [info])[..|infos|] == infos;
  }

  lemma PutWellKeyed(d: seq<(string, DeviceInfo)>, info: DeviceInfo)
    requires WellKeyed(d)
    ensures WellKeyed(Put(d, info.deviceId, info))
    decreases |d|
  {
    PutDistinct(d, info.deviceId, info);
    if |d| > 0 && d[0].0 != info.deviceId {
      assert WellKeyed(d[1..]) by {
        DistinctTail(d);
        assert forall i :: 0 <= i < |d[1..]| ==> d[1..][i] == d[i + 1];
      }
      PutWellKeyed(d[1..], info);
    }
  }

  lemma {:induction false} RegisterAllWellKeyed(d: seq<(string, DeviceInfo)>, infos: seq<DeviceInfo>)
    requires WellKeyed(d)
    ensures WellKeyed(RegisterAll(d, infos))
    decreases |infos|
  {
    if |infos| > 0 {
      RegisterAllWellKeyed(d, infos[..|infos| - 1]);
      PutWellKeyed(RegisterAll(d, infos[..|infos| - 1]), infos[|infos| - 1]);
    }
  }

  /** Scanning never removes a device, whatever it finds. */
  lemma {:induction false} RegisterAllKeeps(d: seq<(string, DeviceInfo)>, infos: seq<DeviceInfo>, id: string)
    requires HasKey(d, id)
    ensures HasKey(RegisterAll(d, infos), id)
    decreases |infos|
  {
    if |infos| > 0 {
      var before := RegisterAll(d, infos[..|infos| - 1]);
      RegisterAllKeeps(d, infos[..|infos| - 1], id);
      PutKeys(before, infos[|infos| - 1].deviceId, infos[|infos| - 1]);
    }
  }

  /** After a scan, a serial that was seen maps to its last probe, and any other serial
      keeps its old entry. */
  lemma {:induction false} RegisterAllLookup(d: seq<(string, DeviceInfo)>, infos: seq<DeviceInfo>, id: string)
    ensures (forall i :: 0 <= i < |infos| ==> infos[i].deviceId != id) ==>
      Lookup(RegisterAll(d, infos), id) == Lookup(d, id)
    ensures |infos| > 0 && infos[|infos| - 1].deviceId == id ==>
      Lookup(RegisterAll(d, infos), id) == Some(infos[|infos| - 1])
    decreases |infos|
  {
    if |infos| > 0 {
      var init := infos[..|infos| - 1];
      var last := infos[|infos| - 1];
      RegisterAllLookup(d, init, id);
      if last.deviceId == id {
        LookupPutSame(RegisterAll(d, init), id, last);
      } else {
        LookupPutOther(RegisterAll(d, init), last.deviceId, last, id);
      }
    }
  }

  /** `get_available_devices`: the ONLINE entries, in registry order. */
  function Available(d: seq<(string, DeviceInfo)>): (r: seq<DeviceInfo>)
    ensures forall i :: 0 <= i < |r| ==> r[i].state == Online
    ensures forall i :: 0 <= i < |r| ==> exists j :: 0 <= j < |d| && d[j].1 == r[i]
    ensures forall j :: 0 <= j < |d| && d[j].1.state == Online ==> d[j].1 in r
    ensures |r| <= |d|
    decreases |d|
  {
    if |d| == 0 then []
    else
      var rest := Available(d[1..]);
      assert forall i :: 0 <= i < |rest| ==> exists j :: 0 <= j < |d| && d[j].1 == rest[i] by {
        forall i | 0 <= i < |rest| ensures exists j :: 0 <= j < |d| && d[j].1 == rest[i] {
          var j :| 0 <= j < |d[1..]| && d[1..][j].1 == rest[i];
          assert d[j + 1].1 == rest[i];
        }
      }
      assert forall j :: 1 <= j < |d| ==> d[j] == d[1..][j - 1];
      if d[0].1.state == Online then [d[0].1] + rest else rest
  }

  /** `acquire_device` succeeds exactly for a registered ONLINE device. */
  predicate CanAcquire(d: seq<(string, DeviceInfo)>, id: string) {
    var info := Lookup(d, id);
    info.Some? && info.value.state == Online
  }

  /** The registry after a successful acquire: BUSY with the task's id. */
  function Acquired(d: seq<(string, DeviceInfo)>, id: string, taskId: string): (r: seq<(string, DeviceInfo)>)
    requires CanAcquire(d, id)
    ensures Keys(r) == Keys(d)
  {
    var busy := Lookup(d, id).value.(state := Busy, currentTaskId := Some(taskId));
    PutKeys(d, id, busy);
    Put(d, id, busy)
  }

  /** The registry after `release_device`: a known device is ONLINE with no task; an
      unknown id changes nothing. */
  function Released(d: seq<(string, DeviceInfo)>, id: string): (r: seq<(string, DeviceInfo)>)
    ensures Keys(r) == Keys(d)
    ensures !HasKey(d, id) ==> r == d
  {
    match Lookup(d, id)
    case None => d
    case Some(info) =>
      PutKeys(d, id, info.(state := Online, currentTaskId := None));
      Put(d, id, info.(state := Online, currentTaskId := None))
  }

  /** An acquired device is BUSY with its task, cannot be acquired again and is not
      offered as available; every other device is untouched. */
  lemma AcquireEffect(d: seq<(string, DeviceInfo)>, id: string, taskId: string, other: string)
    requires CanAcquire(d, id) && other != id
    ensures Lookup(Acquired(d, id, taskId), id) == Some(Lookup(d, id).value.(state := Busy, currentTaskId := Some(taskId)))
    ensures !CanAcquire(Acquired(d, id, taskId), id)
    ensures Lookup(Acquired(d, id, taskId), other) == Lookup(d, other)
  {
    var info := Lookup(d, id).value.(state := Busy, currentTaskId := Some(taskId));
    LookupPutSame(d, id, info);
    LookupPutOther(d, id, info, other);
  }

  /** Releasing a device acquired from ONLINE gives back the entry it had, minus the task id. */
  lemma AcquireRelease(d: seq<(string, DeviceInfo)>, id: string, taskId: string)
    requires CanAcquire(d, id)
    ensures Lookup(Released(Acquired(d, id, taskId), id), id) == Some(Lookup(d, id).value.(currentTaskId := None))
    ensures CanAcquire(Released(Acquired(d, id, taskId), id), id)
  {
    var orig := Lookup(d, id).value;
    var busy := orig.(state := Busy, currentTaskId := Some(taskId));
    LookupPutSame(d, id, busy);
    var a := Acquired(d, id, taskId);
    LookupPutSame(a, id, busy.(state := Online, currentTaskId := None));
  }

  lemma AcquireWellKeyed(d: seq<(string, DeviceInfo)>, id: string, taskId: string)
    requires WellKeyed(d) && CanAcquire(d, id)
    ensures WellKeyed(Acquired(d, id, taskId))
  {
    LookupWellKeyed(d, id);
    PutWellKeyed(d, Lookup(d, id).value.(state := Busy, currentTaskId := Some(taskId)));
  }

  lemma ReleaseWellKeyed(d: seq<(string, DeviceInfo)>, id: string)
    requires WellKeyed(d)
    ensures WellKeyed(Released(d, id))
  {
    match Lookup(d, id)
    case None =>
    case Some(info) =>
      LookupWellKeyed(d, id);
      PutWellKeyed(d, info.(state := Online, currentTaskId := None));
  }

  // ---------------------------------------------------------------- application search

  /** The `find_app_by_name` test for one application, with the keyword already lower-cased;
      an empty application name is skipped like a missing one. */
  predicate AppMatches(app: AppInfo, keywordLower: string) {
    Contains(Lower(app.packageName), keywordLower)
    || (app.appName.Some? && |app.appName.value| > 0 && Contains(Lower(app.appName.value), keywordLower))
  }

  /** The first application, in list order, whose package or name contains the keyword,
      ignoring ASCII case. */
  function FindAppByName(apps: seq<AppInfo>, keyword: string): (r: Option<AppInfo>)
    ensures r.Some? ==> exists i :: 0 <= i < |apps| && apps[i] == r.value && AppMatches(apps[i], Lower(keyword))
                                 && (forall j :: 0 <= j < i ==> !AppMatches(apps[j], Lower(keyword)))
    ensures r.None? ==> forall i :: 0 <= i < |apps| ==> !AppMatches(apps[i], Lower(keyword))
    decreases |apps|
  {
    if |apps| == 0 then None
    else if AppMatches(apps[0], Lower(keyword)) then Some(apps[0])
    else
      var r := FindAppByName(apps[1..], keyword);
      assert forall j :: 1 <= j < |apps| ==> apps[j] == apps[1..][j - 1];
      if r.Some? then
        var i :| 0 <= i < |apps[1..]| && apps[1..][i] == r.value && AppMatches(apps[1..][i], Lower(keyword))
          && (forall j :: 0 <= j < i ==> !AppMatches(apps[1..][j], Lower(keyword)));
        assert apps[i + 1] == r.value;
        r
      else r
  }

  /** Changing the keyword's case does not change the result. */
  lemma FindAppIgnoresCase(apps: seq<AppInfo>, keyword: string, other: string)
    requires Lower(keyword) == Lower(other)
    ensures FindAppByName(apps, keyword) == FindAppByName(apps, other)
    decreases |apps|
  {
    if |apps| > 0 {
      FindAppIgnoresCase(apps[1..], keyword, other);
    }
  }

  // ---------------------------------------------------------------- the manager

  class DeviceManager {
    var devices: seq<(string, DeviceInfo)>

    ghost predicate Valid()
      reads this
    {
      WellKeyed(devices)
    }

    constructor ()
      ensures Valid() && devices == []
    {
      devices := [];
    }

    /** `get_device` */
    function GetDevice(id: string): (r: Option<DeviceInfo>)
      reads this
      requires Valid()
      ensures r.Some? ==> r.value.deviceId == id
      ensures r.Some? <==> HasKey(devices, id)
    {
      if HasKey(devices, id) then LookupWellKeyed(devices, id); Lookup(devices, id) else None
    }

    /** `get_available_devices` */
    function AvailableDevices(): (r: seq<DeviceInfo>)
      reads this
      ensures forall i :: 0 <= i < |r| ==> r[i].state == Online
      ensures forall i :: 0 <= i < |r| ==> exists j :: 0 <= j < |devices| && devices[j].1 == r[i]
      ensures forall j :: 0 <= j < |devices| && devices[j].1.state == Online ==> devices[j].1 in r
    {
      Available(devices)
    }

    /** `scan_devices`: probe each connected device (serial and its two shell replies) in
        order, store each result under its serial, and return them all. */
    method ScanDevices(connected: seq<(string, Reply, Reply)>) returns (found: seq<DeviceInfo>)
      requires Valid()
      modifies this
      ensures Valid()
      ensures found == ProbeAll(connected)
      ensures devices == RegisterAll(old(devices), found)
    {
      found := [];
      var i := 0;
      while i < |connected|
        invariant 0 <= i <= |connected|
        invariant found == ProbeAll(connected[..i])
        invariant devices == RegisterAll(old(devices), found)
        invariant Valid()
      {
        var (serial, getprop, wmSize) := connected[i];
        var info := ProbeDevice(serial, getprop, wmSize);
        PutWellKeyed(devices, info);
        RegisterAllSnoc(old(devices), found, info);
        ProbeAllSnoc(connected, i);
        found := found + [info];
        devices := Put(devices, info.deviceId, info);
        i := i + 1;
      }
      assert connected[..|connected|] == connected;
    }

    /** `acquire_device` */
    method AcquireDevice(id: string, taskId: string) returns (ok: bool)
      requires Valid()
      modifies this
      ensures Valid()
      ensures ok == CanAcquire(old(devices), id)
      ensures ok ==> devices == Acquired(old(devices), id, taskId)
      ensures !ok ==> devices == old(devices)
    {
      var device := Lookup(devices, id);
      if device.Some? && device.value.state == Online {
        AcquireWellKeyed(devices, id, taskId);
        devices := Put(devices, id, device.value.(state := Busy, currentTaskId := Some(taskId)));
        return true;
      }
      return false;
    }

    /** `release_device` */
    method ReleaseDevice(id: string)
      requires Valid()
      modifies this
      ensures Valid()
      ensures devices == Released(old(devices), id)
    {
      ReleaseWellKeyed(devices, id);
      var device := Lookup(devices, id);
      if device.Some? {
        devices := Put(devices, id, device.value.(state := Online, currentTaskId := None));
      }
    }
  }
}

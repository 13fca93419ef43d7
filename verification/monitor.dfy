/** Monitor enumeration (src/monitor.rs): map GDI device names to friendly
    display names through the display-configuration paths, collect the
    monitor handles through an enumeration callback, and describe each one. */
module Monitors {
  import opened Win
  import opened Wide

  /** `DISPLAYCONFIG_PATH_INFO`, the parts read here: the source and target ids. */
  datatype PathInfo = PathInfo(sourceAdapter: Luid, sourceId: u32, targetAdapter: Luid, targetId: u32)

  const DEFAULT_PATH: PathInfo := PathInfo(Luid(0, 0), 0, Luid(0, 0), 0)

  const ERROR_INSUFFICIENT_BUFFER: u32 := 122

  /** `Vec::resize(n, fill)`: cut down to `n`, or pad with `fill` up to `n`. */
  function Resize<T>(v: seq<T>, n: nat, fill: T): (r: seq<T>)
    ensures |r| == n
    ensures forall i :: 0 <= i < n && i < |v| ==> r[i] == v[i]
    ensures forall i :: |v| <= i < n ==> r[i] == fill
  {
    if n <= |v| then v[..n] else v + seq(n - |v|, _ => fill)
  }

  /** What the two display-configuration calls answer: the buffer sizes call's
      status and path count, then the query's status and the active paths. */
  datatype ConfigEnv = ConfigEnv(sizesStatus: u32, numPaths: u32, queryStatus: u32, paths: seq<PathInfo>)

  /** `QueryDisplayConfig` into a buffer of `capacity` paths: the status, and
      the paths written at its start (their number goes back in `num_paths`). */
  function QueryDisplayConfig(capacity: nat, env: ConfigEnv): (res: (u32, seq<PathInfo>))
    ensures res.0 == 0 ==> res.1 == env.paths && |env.paths| <= capacity
  {
    if env.queryStatus != 0 then (env.queryStatus, [])
    else if |env.paths| > capacity then (ERROR_INSUFFICIENT_BUFFER, [])
    else (0, env.paths)
  }

  /** What `get_display_config_path_infos` returns: the sizes call's error,
      the query's error, or the paths it wrote. It succeeds exactly when both
      calls do and the paths fit the buffer the first call sized. */
  function PathInfosOf(env: ConfigEnv): (r: Result<seq<PathInfo>>)
    ensures !r.Panic?
    ensures r.Ok? <==> env.sizesStatus == 0 && env.queryStatus == 0 && |env.paths| <= env.numPaths
    ensures r.Ok? ==> r.value == env.paths
    ensures env.sizesStatus != 0 ==> r == Err(HResultFromWin32(env.sizesStatus))
  {
    if env.sizesStatus != 0 then Err(HResultFromWin32(env.sizesStatus))
    else
      var (status, written) := QueryDisplayConfig(env.numPaths, env);
      if status != 0 then Err(HResultFromWin32(status)) else Ok(written)
  }

  /** `get_display_config_path_infos`: size the buffer, query into it, then
      resize it to the count the query returned, which leaves exactly the
      paths the query wrote. */
  method GetPathInfos(env: ConfigEnv) returns (r: Result<seq<PathInfo>>)
    ensures env.sizesStatus != 0 ==> r == Err(HResultFromWin32(env.sizesStatus))
    ensures r.Ok? <==> env.sizesStatus == 0 && QueryDisplayConfig(env.numPaths, env).0 == 0
    ensures r.Ok? ==> r.value == env.paths
    ensures !r.Panic?
    ensures r == PathInfosOf(env)
  {
    if env.sizesStatus != 0 {
      return Err(HResultFromWin32(env.sizesStatus));
    }
    var pathInfos := seq(env.numPaths, _ => DEFAULT_PATH);
    var (status, written) := QueryDisplayConfig(|pathInfos|, env);
    if status != 0 {
      return Err(HResultFromWin32(status));
    }
    pathInfos := written + pathInfos[|written|..];
    var numPaths := |written|;
    pathInfos := Resize(pathInfos, numPaths, DEFAULT_PATH);
    assert pathInfos == written;
    r := Ok(pathInfos);
  }

  /** What `DisplayConfigGetDeviceInfo` answers: its status and the name
      buffer it filled. */
  datatype NameQuery = NameQuery(status: u32, name: seq<u16>)

  /** The device-info answers for a source (GDI device name) and a target
      (friendly monitor name), by adapter id and id. */
  datatype DeviceInfoEnv = DeviceInfoEnv(sourceName: (Luid, u32) -> NameQuery, targetName: (Luid, u32) -> NameQuery)

  /** One path's (device name, display name), each query with `?`. */
  function PathNames(p: PathInfo, env: DeviceInfoEnv): (r: Result<(string, string)>)
    ensures !r.Panic?
    ensures r.Ok? ==> (NameOf(env.sourceName(p.sourceAdapter, p.sourceId).name) == Ok(r.value.0)
      && NameOf(env.targetName(p.targetAdapter, p.targetId).name) == Ok(r.value.1))
    ensures r.Ok? ==> (env.sourceName(p.sourceAdapter, p.sourceId).status == 0
      && env.targetName(p.targetAdapter, p.targetId).status == 0)
  {
    var source := env.sourceName(p.sourceAdapter, p.sourceId);
    var _ :- Check(HResultFromWin32(source.status));
    var name :- NameOf(source.name);
    var target := env.targetName(p.targetAdapter, p.targetId);
    var _ :- Check(HResultFromWin32(target.status));
    var displayName :- NameOf(target.name);
    Ok((name, displayName))
  }

  function AllPathNames(paths: seq<PathInfo>, env: DeviceInfoEnv): (rs: seq<Result<(string, string)>>)
    ensures |rs| == |paths| && forall i :: 0 <= i < |paths| ==> rs[i] == PathNames(paths[i], env)
  {
    seq(|paths|, i requires 0 <= i < |paths| => PathNames(paths[i], env))
  }

  /** Inserting the pairs in order into an empty map. */
  function NameMap(pairs: seq<(string, string)>): (m: map<string, string>)
    ensures forall i :: 0 <= i < |pairs| ==> pairs[i].0 in m
    ensures |pairs| > 0 ==> m[pairs[|pairs| - 1].0] == pairs[|pairs| - 1].1
    decreases |pairs|
  {
    if pairs == [] then map[]
    else NameMap(pairs[..|pairs| - 1])[pairs[|pairs| - 1].0 := pairs[|pairs| - 1].1]
  }

  /** One more pair is one more insert. */
  lemma NameMapSnoc(pairs: seq<(string, string)>, p: (string, string))
    ensures NameMap(pairs + [p]) == NameMap(pairs)[p.0 := p.1]
  {
    assert (pairs + [p])[..|pairs|] == pairs;
  }

  /** Every device name of some path is a key, nothing else is, and its value
      is the display name of the last path with that device name. */
  lemma {:induction false} NameMapLastWins(pairs: seq<(string, string)>, k: string)
    ensures k in NameMap(pairs) <==> exists i :: 0 <= i < |pairs| && pairs[i].0 == k
    ensures forall i :: (0 <= i < |pairs| && pairs[i].0 == k && (forall j :: i < j < |pairs| ==> pairs[j].0 != k)
      ==> k in NameMap(pairs) && NameMap(pairs)[k] == pairs[i].1)
    decreases |pairs|
  {
    if pairs != [] {
      var init := pairs[..|pairs| - 1];
      NameMapLastWins(init, k);
      forall i | 0 <= i < |init| ensures init[i] == pairs[i] {
      }
    }
  }

  /** The name map `build_device_name_to_display_name_map` computes, or the failure. */
  function NameMapOf(paths: Result<seq<PathInfo>>, env: DeviceInfoEnv): (r: Result<map<string, string>>)
    ensures !paths.Ok? ==> r == paths.PropagateFailure()
    ensures paths.Ok? ==> !r.Panic?
    ensures r.Ok? ==> paths.Ok? && forall i :: 0 <= i < |paths.value| ==>
      PathNames(paths.value[i], env).Ok? && PathNames(paths.value[i], env).value.0 in r.value
  {
    if !paths.Ok? then paths.PropagateFailure()
    else
      var pairs := AllOk(AllPathNames(paths.value, env));
      if pairs.Ok? then Ok(NameMap(pairs.value)) else pairs.PropagateFailure()
  }

  /** `build_device_name_to_display_name_map`: fetch the paths, then one
      insert per path, in order. */
  method BuildNameMap(config: ConfigEnv, env: DeviceInfoEnv) returns (r: Result<map<string, string>>)
    ensures r == NameMapOf(PathInfosOf(config), env)
  {
    var paths :- GetPathInfos(config);
    r := InsertPathNames(paths, env);
  }

  /** The insert loop of `build_device_name_to_display_name_map`. */
  method InsertPathNames(paths: seq<PathInfo>, env: DeviceInfoEnv) returns (r: Result<map<string, string>>)
    ensures r == NameMapOf(Ok(paths), env)
  {
    ghost var rs := AllPathNames(paths, env);
    var result := map[];
    ghost var pairs: seq<(string, string)> := [];
    var i := 0;
    while i < |paths|
      invariant 0 <= i <= |paths| && |pairs| == i
      invariant forall j :: 0 <= j < i ==> rs[j] == Ok(pairs[j])
      invariant result == NameMap(pairs)
    {
      var names := PathNames(paths[i], env);
      if !names.Ok? {
        AllOkAfter(rs, pairs);
        return names.PropagateFailure();
      }
      NameMapSnoc(pairs, names.value);
      pairs := pairs + [names.value];
      result := result[names.value.0 := names.value.1];
      i := i + 1;
    }
    AllOkAfter(rs, pairs);
    r := Ok(result);
  }

  /** The `Vec<HMONITOR>` the enumeration callback fills through its `LPARAM`. */
  class HandleList {
    var handles: seq<int>

    constructor ()
      ensures handles == []
    {
      handles := [];
    }

    /** `enum_display_monitors`: append the handle, return TRUE to go on. */
    method OnMonitor(monitor: int) returns (proceed: bool)
      modifies this
      ensures handles == old(handles) + [monitor] && proceed
    {
      handles := handles + [monitor];
      proceed := true;
    }
  }

  /** `get_all_display_handles`: `EnumDisplayMonitors` calls the callback
      for each monitor in turn while it answers TRUE, then reports success
      (`enumOk`) or, through `.ok()?`, the HRESULT made from its Win32 last
      error. */
  method GetAllDisplayHandles(monitors: seq<int>, enumOk: bool, lastError: u32) returns (r: Result<seq<int>>)
    ensures enumOk ==> r == Ok(monitors)
    ensures !enumOk ==> r == Err(HResultFromWin32(lastError))
  {
    var list := new HandleList();
    var i := 0;
    var proceed := true;
    while i < |monitors| && proceed
      invariant 0 <= i <= |monitors| && list.handles == monitors[..i] && proceed
    {
      proceed := list.OnMonitor(monitors[i]);
      assert monitors[..i + 1] == monitors[..i] + [monitors[i]];
      i := i + 1;
    }
    if !enumOk {
      return Err(HResultFromWin32(lastError));
    }
    assert monitors[..i] == monitors;
    r := Ok(list.handles);
  }

  /** What describing one monitor meets: `GetMonitorInfoW` (success, the
      device-name buffer, its error) and `EnumDisplaySettingsW` (success,
      the refresh rate, its error). */
  datatype MonitorQuery = MonitorQuery(infoOk: bool, device: seq<u16>, infoError: Status,
                                       settingsOk: bool, frequency: u32, settingsError: Status)

  datatype Monitor = Monitor(deviceName: string, displayName: string, displayFrequency: u32, handle: int)

  /** The body of `enumerate_all`'s loop for one handle: a device name
      missing from the map panics through `unwrap`. */
  function MonitorFor(handle: int, names: map<string, string>, q: MonitorQuery): (r: Result<Monitor>)
    ensures r.Panic? <==> q.infoOk && NameOf(q.device).Ok? && NameOf(q.device).value !in names
    ensures r.Ok? ==> (r.value.handle == handle && NameOf(q.device) == Ok(r.value.deviceName)
      && r.value.deviceName in names && r.value.displayName == names[r.value.deviceName]
      && r.value.displayFrequency == q.frequency)
    ensures r.Ok? <==> q.infoOk && NameOf(q.device).Ok? && NameOf(q.device).value in names && q.settingsOk
  {
    if !q.infoOk then Err(q.infoError)
    else
      var deviceName :- NameOf(q.device);
      if deviceName !in names then Panic
      else if !q.settingsOk then Err(q.settingsError)
      else Ok(Monitor(deviceName, names[deviceName], q.frequency, handle))
  }

  function MonitorsFor(handles: seq<int>, names: map<string, string>, query: int -> MonitorQuery)
    : (rs: seq<Result<Monitor>>)
    ensures |rs| == |handles| && forall i :: 0 <= i < |handles| ==> rs[i] == MonitorFor(handles[i], names, query(handles[i]))
  {
    seq(|handles|, i requires 0 <= i < |handles| => MonitorFor(handles[i], names, query(handles[i])))
  }

  /** `enumerate_all`'s loop: one monitor per handle pushed with `?`. */
  method DescribeAll(handles: seq<int>, names: map<string, string>, query: int -> MonitorQuery)
    returns (r: Result<seq<Monitor>>)
    ensures r == AllOk(MonitorsFor(handles, names, query))
    ensures r.Ok? ==> |r.value| == |handles| && forall i :: 0 <= i < |handles| ==> r.value[i].handle == handles[i]
  {
    ghost var rs := MonitorsFor(handles, names, query);
    var result := [];
    var i := 0;
    while i < |handles|
      invariant 0 <= i <= |handles| && |result| == i
      invariant forall j :: 0 <= j < i ==> rs[j] == Ok(result[j]) && result[j].handle == handles[j]
    {
      var monitor := MonitorFor(handles[i], names, query(handles[i]));
      if !monitor.Ok? {
        AllOkAfter(rs, result);
        return monitor.PropagateFailure();
      }
      result := result + [monitor.value];
      i := i + 1;
    }
    AllOkAfter(rs, result);
    r := Ok(result);
  }

  /** `Monitor::enumerate_all`: the name map, the handles, then one monitor
      per handle in enumeration order, or the first failure. */
  method EnumerateAll(config: ConfigEnv, env: DeviceInfoEnv, monitors: seq<int>, enumOk: bool, enumError: u32,
                      query: int -> MonitorQuery)
    returns (r: Result<seq<Monitor>>)
    ensures r.Ok? ==> |r.value| == |monitors| && forall i :: 0 <= i < |monitors| ==> r.value[i].handle == monitors[i]
    ensures var names := NameMapOf(PathInfosOf(config), env);
      (!names.Ok? ==> r == names.PropagateFailure())
      && (names.Ok? && !enumOk ==> r == Err(HResultFromWin32(enumError)))
      && (names.Ok? && enumOk ==> r == AllOk(MonitorsFor(monitors, names.value, query)))
  {
    var names :- BuildNameMap(config, env);
    var handles :- GetAllDisplayHandles(monitors, enumOk, enumError);
    r := DescribeAll(handles, names, query);
  }
}

/** The `watch_config.json` file shared by the two single-pair watchers: a JSON object
    with the keys `watch_path` and `launch_path`. The file is an abstract value; JSON
    text and the file system are not modelled. */
module WatchConfig {

  const WatchKey := "watch_path"
  const LaunchKey := "launch_path"

  /** What `load_config` can find on disk. `Unreadable` stands for every content on which
      `json.load` or `config.get` raises (the exception is caught and printed). */
  datatype ConfigFile = NoFile | Unreadable | Json(fields: map<string, string>)

  /** The paths `load_config` leaves in `watch_path` and `launch_path`, given the ones
      they held before. */
  datatype Settings = Settings(watchPath: string, launchPath: string)

  /** `save_config`: the object written by `json.dump`. */
  function Saved(watchPath: string, launchPath: string): (f: ConfigFile)
    ensures f.Json? && f.fields.Keys == {WatchKey, LaunchKey}
    ensures f.fields[WatchKey] == watchPath && f.fields[LaunchKey] == launchPath
  {
    Json(map[WatchKey := watchPath, LaunchKey := launchPath])
  }

  /** `config.get(key, "")`. */
  function Get(fields: map<string, string>, key: string): string
  {
    if key in fields then fields[key] else ""
  }

  /** `load_config`: an absent or unreadable file keeps the current paths; a readable
      one replaces both, a missing key reading as the empty string. */
  function Load(file: ConfigFile, current: Settings): (r: Settings)
    ensures !file.Json? ==> r == current
    ensures file.Json? && WatchKey !in file.fields ==> r.watchPath == ""
    ensures file.Json? && LaunchKey !in file.fields ==> r.launchPath == ""
    ensures file.Json? && WatchKey in file.fields ==> r.watchPath == file.fields[WatchKey]
    ensures file.Json? && LaunchKey in file.fields ==> r.launchPath == file.fields[LaunchKey]
  {
    match file
    case Json(fields) => Settings(Get(fields, WatchKey), Get(fields, LaunchKey))
    case _ => current
  }

  /** What `save_config` writes, `load_config` reads back, whatever the paths held. */
  lemma LoadAfterSave(watchPath: string, launchPath: string, current: Settings)
    ensures Load(Saved(watchPath, launchPath), current) == Settings(watchPath, launchPath)
  {
  }
}

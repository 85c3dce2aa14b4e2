/**
 * Resolving the plugin's configuration from its environment: the state-file
 * check done at import, then `settings()`. Environment variables are
 * `Option<string>` (None: unset); the results of `which('smartctl')` and
 * `glob.glob('/dev/sd?')` are inputs.
 */
module Settings {
  import opened Wrappers
  import opened Text

  /** The four environment variables the plugin reads. */
  datatype Env = Env(
    statefile: Option<string>,  // MUNIN_STATEFILE
    drives: Option<string>,     // smart_raw_drives
    params: Option<string>,     // smart_raw_params
    smartctl: Option<string>)   // smart_raw_smartctl

  /** The resolved settings, the `Config` namespace of the plugin. */
  datatype Config = Config(executable: string, params: seq<string>, drives: seq<string>)

  /** The ValueErrors raised before any command runs. */
  datatype StartupError = MissingStatefile | NoExecutable

  /** The attribute ids monitored when `smart_raw_params` is unset. */
  const DefaultParams: string := "5 187 188 197 198"

  /** `['/dev/{}'.format(d) for d in names]`. */
  function DevicePaths(names: seq<string>): (paths: seq<string>)
    ensures |paths| == |names|
    ensures forall i :: 0 <= i < |names| ==> paths[i] == "/dev/" + names[i]
    decreases |names|
  {
    if |names| == 0 then [] else ["/dev/" + names[0]] + DevicePaths(names[1..])
  }

  /** The drives: the globbed devices when `smart_raw_drives` is unset, else its tokens under /dev/. */
  function DriveList(env: Option<string>, globbed: seq<string>): seq<string> {
    match env
    case None => globbed
    case Some(s) => DevicePaths(Words(s))
  }

  /** The attribute ids: the tokens of `smart_raw_params`, or of the default list when it is unset. */
  function ParamList(env: Option<string>): seq<string> {
    Words(env.GetOr(DefaultParams))
  }

  /**
   * `os.getenv('smart_raw_smartctl', which('smartctl'))`, rejected when
   * empty: a variable set to the empty string is not replaced by the search.
   */
  function Executable(env: Option<string>, found: Option<string>): (r: Result<string, StartupError>)
    ensures r.Failure? ==> r.error == NoExecutable
    ensures r.Success? ==> r.value != ""
    ensures env.Some? ==> (r.Success? <==> env.value != "") && (r.Success? ==> r.value == env.value)
    ensures env.None? ==> (r.Success? <==> found.Some? && found.value != "") && (r.Success? ==> Some(r.value) == found)
  {
    var path := if env.Some? then env else found;
    if path.None? || path.value == "" then Failure(NoExecutable) else Success(path.value)
  }

  /** Module import (the MUNIN_STATEFILE check) followed by `settings()`. */
  function Resolve(env: Env, found: Option<string>, globbed: seq<string>): (r: Result<Config, StartupError>)
    ensures r.Failure? <==> env.statefile.None? || env.statefile.value == "" || Executable(env.smartctl, found).Failure?
    ensures r.Failure? && (env.statefile.None? || env.statefile.value == "") ==> r.error == MissingStatefile
  {
    if env.statefile.None? || env.statefile.value == "" then Failure(MissingStatefile)
    else
      match Executable(env.smartctl, found)
      case Failure(e) => Failure(e)
      case Success(exe) => Success(Config(exe, ParamList(env.params), DriveList(env.drives, globbed)))
  }

  /** Without `smart_raw_params` the plugin watches ids 5, 187, 188, 197 and 198, in that order. */
  lemma DefaultParamList()
    ensures ParamList(None) == ["5", "187", "188", "197", "198"]
  {
    var ids := ["5", "187", "188", "197", "198"];
    assert Join(" ", ids) == DefaultParams;
    assert forall w :: w in ids ==> IsWord(w);
    WordsOfJoin(ids);
  }

  /**
   * With `smart_raw_drives` set, the i-th drive is /dev/ followed by the
   * i-th token, and its basename, the device name used in field names, is
   * that token when the token has no '/'.
   */
  lemma ConfiguredDrives(s: string, globbed: seq<string>)
    ensures |DriveList(Some(s), globbed)| == |Words(s)|
    ensures forall i :: 0 <= i < |Words(s)| ==> DriveList(Some(s), globbed)[i] == "/dev/" + Words(s)[i]
    ensures forall i :: 0 <= i < |Words(s)| && '/' !in Words(s)[i] ==> Basename(DriveList(Some(s), globbed)[i]) == Words(s)[i]
  {
    var names := Words(s);
    forall i | 0 <= i < |names| && '/' !in names[i]
      ensures Basename(DriveList(Some(s), globbed)[i]) == names[i]
    {
      BasenameUnder("/dev/", names[i]);
    }
  }
}

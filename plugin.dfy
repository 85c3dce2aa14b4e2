/**
 * The plugin's commands: `munin_fetch`, `munin_config`, the autoconf reply
 * and the dispatch of `main` on the command-line arguments.
 *
 * Running smartctl is an input: `tool` maps a drive path to the lines of
 * its report (a drive the map does not hold reports no lines). The state
 * file is a StateFile object; the text a command prints is the `stdout` of
 * its Outcome.
 */
module Plugin {
  import opened Wrappers
  import opened Text
  import opened Smartctl
  import opened State
  import opened Settings

  /** The graph attributes printed before the fields by `config`. */
  const HeaderConfig: string :=
    "graph_title S.M.A.R.T. Raw Values\ngraph_category disk\ngraph_args --lower-limit 0 --base 1000\n"

  /** The reply of `autoconf` when smartctl cannot be run. */
  const AutoconfNo: string := "no (smartctl not found or not executable)"

  /** The Munin field name `smart_raw_{id}_{device}`. */
  function FieldName(id: string, device: string): string {
    "smart_raw_" + id + "_" + device
  }

  /** The SMART_CONFIG template: a field's label and its lower bound. */
  function ConfigEntry(id: string, device: string, name: string): string {
    FieldName(id, device) + ".label " + device + ": " + name + "\n" + FieldName(id, device) + ".min 0\n"
  }

  /** The SMART_FETCH template: a field's current raw value. */
  function FetchEntry(device: string, r: Record): string {
    FieldName(r.id, device) + ".value " + r.raw + "\n"
  }

  /** `line` reports a value for `field`. */
  predicate ValueLineOf(line: string, field: string) {
    |field| + 7 <= |line| && line[..|field| + 7] == field + ".value "
  }

  /** The lines smartctl prints for `drive`. */
  function Report(tool: map<string, seq<string>>, drive: string): seq<string> {
    if drive in tool then tool[drive] else []
  }

  /** Every record is filed under its own id, as a parse result is. */
  predicate KeyedById(smart: map<string, Record>) {
    forall k :: k in smart ==> smart[k].id == k
  }

  /** What the report smartctl prints for a drive parses to. */
  type Scan = string -> Result<map<string, Record>, ParseError>

  /** The parse of each drive's report. */
  function ScanReports(tool: map<string, seq<string>>): Scan {
    drive => Parse(Report(tool, drive))
  }

  /** Every successful parse files each record under its own id. */
  ghost predicate ScanKeyedById(scan: Scan) {
    forall drive :: scan(drive).Success? ==> KeyedById(scan(drive).value)
  }

  /** Parsing smartctl's reports files each record under its own id. */
  lemma ReportsKeyedById(tool: map<string, seq<string>>)
    ensures ScanKeyedById(ScanReports(tool))
  {
    forall drive | ScanReports(tool)(drive).Success?
      ensures KeyedById(ScanReports(tool)(drive).value)
    {
      ParsedKeysAreIds(Report(tool, drive));
    }
  }

  /** `{s['id']: s['name'] for s in smart.values()}` for a map keyed by id. */
  function KnownNames(smart: map<string, Record>): (names: map<string, string>)
    ensures names.Keys == smart.Keys
    ensures forall k :: k in smart ==> names[k] == smart[k].name
  {
    map k | k in smart :: smart[k].name
  }

  /** The names a drive's report gives to its attribute ids (none when it cannot be parsed). */
  function DriveNames(scan: Scan, drive: string): map<string, string> {
    match scan(drive)
    case Success(smart) => KnownNames(smart)
    case Failure(_) => map[]
  }

  /** Every drive's report can be parsed. */
  predicate AllParse(drives: seq<string>, scan: Scan) {
    forall i :: 0 <= i < |drives| ==> scan(drives[i]).Success?
  }

  // ---------------------------------------------------------------------
  // fetch
  // ---------------------------------------------------------------------

  /** The value lines of one drive: one per configured id it reports, in configured order. */
  function DriveValues(drive: string, params: seq<string>, smart: map<string, Record>): seq<string>
    decreases |params|
  {
    if |params| == 0 then []
    else
      var p := params[|params| - 1];
      DriveValues(drive, params[..|params| - 1], smart) + if p in smart then [FetchEntry(Basename(drive), smart[p])] else []
  }

  /** The configured ids a drive reported, in configured order. */
  function Reported(params: seq<string>, smart: map<string, Record>): (ids: seq<string>)
    ensures forall p :: p in ids <==> p in params && p in smart
    decreases |params|
  {
    if |params| == 0 then []
    else
      var p := params[|params| - 1];
      assert params == params[..|params| - 1] + [p];
      Reported(params[..|params| - 1], smart) + if p in smart then [p] else []
  }

  /** What a run of `munin_fetch` has done: lines collected, the file, its rewrites, the error met. */
  datatype FetchTrace = FetchTrace(
    response: seq<string>,
    stored: Option<map<string, string>>,
    writes: nat,
    failure: Option<ParseError>)

  /**
   * `munin_fetch` over `drives`, from a state file holding `stored`: for each
   * drive, collect its value lines, then merge its names into the file; the
   * first report that cannot be parsed stops the run.
   */
  function FetchRun(drives: seq<string>, params: seq<string>, scan: Scan,
                    stored: Option<map<string, string>>): FetchTrace
    decreases |drives|
  {
    if |drives| == 0 then FetchTrace([], stored, 0, None)
    else
      var t := FetchRun(drives[..|drives| - 1], params, scan, stored);
      var drive := drives[|drives| - 1];
      if t.failure.Some? then t
      else
        match scan(drive)
        case Failure(e) => t.(failure := Some(e))
        case Success(smart) =>
          var names := KnownNames(smart);
          FetchTrace(
            t.response + DriveValues(drive, params, smart),
            Written(t.stored, names),
            t.writes + if Changed(Load(t.stored), names) then 1 else 0,
            None)
  }

  /** Once a run has failed, the drives after the failing one change nothing. */
  lemma {:induction false} FetchFailureStays(drives: seq<string>, params: seq<string>, scan: Scan,
                                             stored: Option<map<string, string>>, k: nat)
    requires k <= |drives|
    requires FetchRun(drives[..k], params, scan, stored).failure.Some?
    ensures FetchRun(drives, params, scan, stored) == FetchRun(drives[..k], params, scan, stored)
    decreases |drives|
  {
    if k < |drives| {
      var n := |drives|;
      assert drives[..n - 1][..k] == drives[..k];
      FetchFailureStays(drives[..n - 1], params, scan, stored, k);
    } else {
      assert drives[..k] == drives;
    }
  }

  /** A fetch fails exactly when some drive's report cannot be parsed. */
  lemma {:induction false} FetchSucceedsIff(drives: seq<string>, params: seq<string>, scan: Scan,
                                            stored: Option<map<string, string>>)
    ensures FetchRun(drives, params, scan, stored).failure.None? <==> AllParse(drives, scan)
    decreases |drives|
  {
    if |drives| > 0 {
      var n := |drives|;
      var prefix := drives[..n - 1];
      FetchSucceedsIff(prefix, params, scan, stored);
      assert forall i :: 0 <= i < n - 1 ==> prefix[i] == drives[i];
      assert AllParse(drives, scan) <==> AllParse(prefix, scan) && scan(drives[n - 1]).Success?;
    }
  }

  /**
   * The first unparsable report ends the fetch with its error: the file is
   * as the drives before it left it, and the drives after it are not read.
   */
  lemma FetchStopsAt(drives: seq<string>, params: seq<string>, scan: Scan,
                     stored: Option<map<string, string>>, i: nat)
    requires i < |drives|
    requires AllParse(drives[..i], scan)
    requires scan(drives[i]).Failure?
    ensures FetchRun(drives, params, scan, stored)
         == FetchRun(drives[..i], params, scan, stored).(failure := Some(scan(drives[i]).error))
  {
    FetchSucceedsIff(drives[..i], params, scan, stored);
    assert drives[..i + 1][..i] == drives[..i];
    FetchFailureStays(drives, params, scan, stored, i + 1);
  }

  /** The lines and the error of a fetch do not depend on the state file. */
  lemma {:induction false} FetchIgnoresState(drives: seq<string>, params: seq<string>, scan: Scan,
                                             s: Option<map<string, string>>, s': Option<map<string, string>>)
    ensures FetchRun(drives, params, scan, s).response == FetchRun(drives, params, scan, s').response
    ensures FetchRun(drives, params, scan, s).failure == FetchRun(drives, params, scan, s').failure
    decreases |drives|
  {
    if |drives| > 0 {
      FetchIgnoresState(drives[..|drives| - 1], params, scan, s, s');
    }
  }

  /** Each value line of a drive names a configured id on that drive. */
  lemma {:induction false} DriveValuesFields(drive: string, params: seq<string>, smart: map<string, Record>)
    requires KeyedById(smart)
    ensures forall x :: x in DriveValues(drive, params, smart) ==>
      exists j :: 0 <= j < |params| && ValueLineOf(x, FieldName(params[j], Basename(drive)))
    decreases |params|
  {
    if |params| > 0 {
      var n := |params|;
      var p := params[n - 1];
      DriveValuesFields(drive, params[..n - 1], smart);
      forall x | x in DriveValues(drive, params, smart)
        ensures exists j :: 0 <= j < n && ValueLineOf(x, FieldName(params[j], Basename(drive)))
      {
        if x in DriveValues(drive, params[..n - 1], smart) {
          var j :| 0 <= j < n - 1 && ValueLineOf(x, FieldName(params[..n - 1][j], Basename(drive)));
          assert params[..n - 1][j] == params[j];
        } else {
          assert p in smart && x == FetchEntry(Basename(drive), smart[p]);
          var f := FieldName(p, Basename(drive));
          assert x == (f + ".value ") + (smart[p].raw + "\n");
          assert ValueLineOf(x, FieldName(params[n - 1], Basename(drive)));
        }
      }
    }
  }

  /**
   * The value lines of a drive are, in order, one line per configured id it
   * reports, giving that id's raw value under the field name of the id.
   */
  lemma {:induction false} DriveValuesAt(drive: string, params: seq<string>, smart: map<string, Record>)
    requires KeyedById(smart)
    ensures |DriveValues(drive, params, smart)| == |Reported(params, smart)|
    ensures forall i :: 0 <= i < |Reported(params, smart)| ==>
      DriveValues(drive, params, smart)[i]
        == FieldName(Reported(params, smart)[i], Basename(drive)) + ".value " + smart[Reported(params, smart)[i]].raw + "\n"
    decreases |params|
  {
    if |params| > 0 {
      DriveValuesAt(drive, params[..|params| - 1], smart);
    }
  }

  /** Every line `fetch` prints names a field of a configured id on a configured drive. */
  lemma {:induction false} FetchedFieldsConfigured(drives: seq<string>, params: seq<string>, scan: Scan,
                                                   stored: Option<map<string, string>>)
    requires ScanKeyedById(scan)
    ensures forall x :: x in FetchRun(drives, params, scan, stored).response ==>
      exists i, j :: 0 <= i < |drives| && 0 <= j < |params| && ValueLineOf(x, FieldName(params[j], Basename(drives[i])))
    decreases |drives|
  {
    if |drives| > 0 {
      var n := |drives|;
      var prefix := drives[..n - 1];
      var t := FetchRun(prefix, params, scan, stored);
      FetchedFieldsConfigured(prefix, params, scan, stored);
      var drive := drives[n - 1];
      forall x | x in FetchRun(drives, params, scan, stored).response
        ensures exists i, j :: 0 <= i < n && 0 <= j < |params| && ValueLineOf(x, FieldName(params[j], Basename(drives[i])))
      {
        if x in t.response {
          var i, j :| 0 <= i < n - 1 && 0 <= j < |params| && ValueLineOf(x, FieldName(params[j], Basename(prefix[i])));
          assert prefix[i] == drives[i];
        } else {
          var smart := scan(drive).value;
          DriveValuesFields(drive, params, smart);
          var j :| 0 <= j < |params| && ValueLineOf(x, FieldName(params[j], Basename(drives[n - 1])));
        }
      }
    }
  }

  /** The names of all drives merged in order: a later drive overrides an earlier one. */
  function AllNames(drives: seq<string>, scan: Scan): map<string, string>
    decreases |drives|
  {
    if |drives| == 0 then map[]
    else AllNames(drives[..|drives| - 1], scan) + DriveNames(scan, drives[|drives| - 1])
  }

  /** A successful fetch leaves the file holding its old state merged with every drive's names. */
  lemma {:induction false} FetchMerges(drives: seq<string>, params: seq<string>, scan: Scan,
                                       stored: Option<map<string, string>>)
    requires AllParse(drives, scan)
    ensures Load(FetchRun(drives, params, scan, stored).stored) == Load(stored) + AllNames(drives, scan)
    decreases |drives|
  {
    if |drives| > 0 {
      var n := |drives|;
      var prefix := drives[..n - 1];
      assert AllParse(prefix, scan) by {
        assert forall i :: 0 <= i < n - 1 ==> prefix[i] == drives[i];
      }
      FetchMerges(prefix, params, scan, stored);
      FetchSucceedsIff(prefix, params, scan, stored);
      var t := FetchRun(prefix, params, scan, stored);
      assert scan(drives[n - 1]).Success?;
      var names := DriveNames(scan, drives[n - 1]);
      assert FetchRun(drives, params, scan, stored).stored == Written(t.stored, names);
      LoadAfterUpdate(t.stored, names);
      MergeAssociates(Load(stored), AllNames(prefix, scan), names);
    }
  }

  /*
   * Regrouping steps the solver can prove alone. The proofs that call them
   * spell the step out because without it they run out of resource.
   */
  lemma AppendAssociates<T>(a: seq<T>, b: seq<T>, c: seq<T>)
    ensures (a + b) + c == a + (b + c)
  {
  }

  lemma MergeAssociates(a: map<string, string>, b: map<string, string>, c: map<string, string>)
    ensures (a + b) + c == a + (b + c)
  {
  }

  /** The last drive that reports an id decides the name recorded for it. */
  lemma {:induction false} AllNamesLastReporter(drives: seq<string>, scan: Scan, i: nat, k: string)
    requires i < |drives|
    requires k in DriveNames(scan, drives[i])
    requires forall j :: i < j < |drives| ==> k !in DriveNames(scan, drives[j])
    ensures k in AllNames(drives, scan) && AllNames(drives, scan)[k] == DriveNames(scan, drives[i])[k]
    decreases |drives|
  {
    var n := |drives|;
    if i < n - 1 {
      var prefix := drives[..n - 1];
      assert prefix[i] == drives[i];
      assert forall j :: i < j < n - 1 ==> prefix[j] == drives[j];
      AllNamesLastReporter(prefix, scan, i, k);
    }
  }

  /**
   * After a successful fetch, an id's name in the file is the one the last
   * drive reporting it gave; ids no drive reports keep their old names.
   */
  lemma LastReporterWins(drives: seq<string>, params: seq<string>, scan: Scan,
                         stored: Option<map<string, string>>, i: nat, k: string)
    requires AllParse(drives, scan)
    requires i < |drives|
    requires k in DriveNames(scan, drives[i])
    requires forall j :: i < j < |drives| ==> k !in DriveNames(scan, drives[j])
    ensures var state := Load(FetchRun(drives, params, scan, stored).stored);
      k in state && state[k] == DriveNames(scan, drives[i])[k]
    ensures Load(stored).Keys <= Load(FetchRun(drives, params, scan, stored).stored).Keys
  {
    FetchMerges(drives, params, scan, stored);
    AllNamesLastReporter(drives, scan, i, k);
  }

  /** No two drives give one id different names. */
  predicate NamesAgree(drives: seq<string>, scan: Scan) {
    forall i, j, k :: 0 <= i < |drives| && 0 <= j < |drives| && k in DriveNames(scan, drives[i]) && k in DriveNames(scan, drives[j])
      ==> DriveNames(scan, drives[i])[k] == DriveNames(scan, drives[j])[k]
  }

  /** When drives agree, the merged names hold every drive's names. */
  lemma {:induction false} AgreedNamesKept(drives: seq<string>, scan: Scan)
    requires NamesAgree(drives, scan)
    ensures forall i, k :: 0 <= i < |drives| && k in DriveNames(scan, drives[i]) ==>
      k in AllNames(drives, scan) && AllNames(drives, scan)[k] == DriveNames(scan, drives[i])[k]
    decreases |drives|
  {
    if |drives| > 0 {
      var n := |drives|;
      var prefix := drives[..n - 1];
      assert NamesAgree(prefix, scan) by {
        assert forall i :: 0 <= i < n - 1 ==> prefix[i] == drives[i];
      }
      AgreedNamesKept(prefix, scan);
      var last := DriveNames(scan, drives[n - 1]);
      assert AllNames(drives, scan) == AllNames(prefix, scan) + last;
      forall i, k | 0 <= i < n && k in DriveNames(scan, drives[i])
        ensures k in AllNames(drives, scan) && AllNames(drives, scan)[k] == DriveNames(scan, drives[i])[k]
      {
        if k !in last {
          assert prefix[i] == drives[i];
        }
      }
    }
  }

  /** A fetch whose drives' names are all in the file already writes nothing. */
  lemma {:induction false} FetchStable(drives: seq<string>, params: seq<string>, scan: Scan,
                                       stored: Option<map<string, string>>)
    requires AllParse(drives, scan)
    requires forall i :: 0 <= i < |drives| ==> !Changed(Load(stored), DriveNames(scan, drives[i]))
    ensures FetchRun(drives, params, scan, stored).stored == stored
    ensures FetchRun(drives, params, scan, stored).writes == 0
    decreases |drives|
  {
    if |drives| > 0 {
      var n := |drives|;
      var prefix := drives[..n - 1];
      assert forall i :: 0 <= i < n - 1 ==> prefix[i] == drives[i];
      FetchStable(prefix, params, scan, stored);
      FetchSucceedsIff(prefix, params, scan, stored);
    }
  }

  /**
   * Fetching twice with the same reports, when no two drives name an id
   * differently: the second fetch prints the same lines and writes nothing.
   */
  lemma RefetchWritesNothing(drives: seq<string>, params: seq<string>, scan: Scan,
                             stored: Option<map<string, string>>)
    requires AllParse(drives, scan)
    requires NamesAgree(drives, scan)
    ensures var first := FetchRun(drives, params, scan, stored);
      var second := FetchRun(drives, params, scan, first.stored);
      && second.response == first.response
      && second.stored == first.stored
      && second.writes == 0
  {
    var first := FetchRun(drives, params, scan, stored);
    FetchMerges(drives, params, scan, stored);
    AgreedNamesKept(drives, scan);
    forall i | 0 <= i < |drives|
      ensures !Changed(Load(first.stored), DriveNames(scan, drives[i]))
    {
    }
    FetchStable(drives, params, scan, first.stored);
    FetchIgnoresState(drives, params, scan, stored, first.stored);
  }

  /** One more drive: what it adds to a run that has not failed yet. */
  lemma FetchRunStep(drives: seq<string>, params: seq<string>, scan: Scan,
                     stored: Option<map<string, string>>, d: nat)
    requires d < |drives|
    requires FetchRun(drives[..d], params, scan, stored).failure.None?
    ensures var t := FetchRun(drives[..d], params, scan, stored);
      match scan(drives[d])
      case Failure(e) => FetchRun(drives[..d + 1], params, scan, stored) == t.(failure := Some(e))
      case Success(smart) =>
        var names := KnownNames(smart);
        FetchRun(drives[..d + 1], params, scan, stored)
          == FetchTrace(t.response + DriveValues(drives[d], params, smart),
                        Written(t.stored, names),
                        t.writes + if Changed(Load(t.stored), names) then 1 else 0,
                        None)
  {
    assert drives[..d + 1][..d] == drives[..d];
  }

  /** One more configured id on a drive. */
  lemma DriveValuesStep(drive: string, params: seq<string>, smart: map<string, Record>, j: nat)
    requires j < |params|
    ensures DriveValues(drive, params[..j + 1], smart)
         == DriveValues(drive, params[..j], smart) + if params[j] in smart then [FetchEntry(Basename(drive), smart[params[j]])] else []
  {
    assert params[..j + 1][..j] == params[..j];
  }

  /** The inner loop of `munin_fetch`: append a drive's value lines, configured id by id. */
  method AppendValues(response: seq<string>, drive: string, params: seq<string>, smart: map<string, Record>)
    returns (r: seq<string>)
    ensures r == response + DriveValues(drive, params, smart)
  {
    r := response;
    var j := 0;
    while j < |params|
      invariant 0 <= j <= |params|
      invariant r == response + DriveValues(drive, params[..j], smart)
    {
      var param := params[j];
      DriveValuesStep(drive, params, smart, j);
      if param in smart {
        AppendAssociates(response, DriveValues(drive, params[..j], smart), [FetchEntry(Basename(drive), smart[param])]);
        r := r + [FetchEntry(Basename(drive), smart[param])];
      }
      j := j + 1;
    }
    assert params[..j] == params;
  }

  /**
   * One turn of the drive loop of `munin_fetch`: parse the report of drive
   * `d`, append its value lines and merge the names it reported into the
   * state file, or stop with the parse error and leave the file alone.
   */
  method FetchDrive(drives: seq<string>, params: seq<string>, tool: map<string, seq<string>>,
                    ghost stored: Option<map<string, string>>, d: nat, response: seq<string>, file: StateFile)
    returns (r: Result<seq<string>, ParseError>)
    requires d < |drives|
    requires var t := FetchRun(drives[..d], params, ScanReports(tool), stored);
      t.failure.None? && response == t.response && file.stored == t.stored
    modifies file
    ensures var t := FetchRun(drives[..d], params, ScanReports(tool), stored);
      var t' := FetchRun(drives[..d + 1], params, ScanReports(tool), stored);
      && file.stored == t'.stored
      && file.writes - old(file.writes) == t'.writes - t.writes
      && (r.Success? <==> t'.failure.None?)
      && (r.Success? ==> r.value == t'.response)
      && (r.Failure? ==> t'.failure == Some(r.error))
  {
    FetchRunStep(drives, params, ScanReports(tool), stored, d);
    var drive := drives[d];
    var smart := ParseOutput(Report(tool, drive));
    assert ScanReports(tool)(drive) == smart;
    if smart.Failure? {
      return Failure(smart.error);
    }
    var lines := AppendValues(response, drive, params, smart.value);
    var state := file.Update(KnownNames(smart.value));
    r := Success(lines);
  }

  /**
   * `munin_fetch`: for every drive run smartctl, collect the value lines of
   * the configured ids it reports, then merge the names it reported into
   * the state file. Returns the joined lines, or the error of the first
   * report that cannot be parsed.
   */
  method MuninFetch(cfg: Config, tool: map<string, seq<string>>, file: StateFile) returns (out: Result<string, ParseError>)
    modifies file
    ensures var t := FetchRun(cfg.drives, cfg.params, ScanReports(tool), old(file.stored));
      && file.stored == t.stored
      && file.writes == old(file.writes) + t.writes
      && out == if t.failure.None? then Success(Join("\n", t.response)) else Failure(t.failure.value)
  {
    var response: seq<string> := [];
    var d := 0;
    while d < |cfg.drives|
      invariant 0 <= d <= |cfg.drives|
      invariant var t := FetchRun(cfg.drives[..d], cfg.params, ScanReports(tool), old(file.stored));
        && t.failure.None?
        && response == t.response
        && file.stored == t.stored
        && file.writes == old(file.writes) + t.writes
    {
      var r := FetchDrive(cfg.drives, cfg.params, tool, old(file.stored), d, response, file);
      if r.Failure? {
        FetchFailureStays(cfg.drives, cfg.params, ScanReports(tool), old(file.stored), d + 1);
        return Failure(r.error);
      }
      response := r.value;
      d := d + 1;
    }
    assert cfg.drives[..d] == cfg.drives;
    out := Success(Join("\n", response));
  }

  // ---------------------------------------------------------------------
  // config
  // ---------------------------------------------------------------------

  /** The recorded name of an id, or "Unknown". */
  function Label(known: map<string, string>, id: string): string {
    if id in known then known[id] else "Unknown"
  }

  /** The field declarations of one drive, one per configured id. */
  function DriveConfig(drive: string, params: seq<string>, known: map<string, string>): seq<string>
    decreases |params|
  {
    if |params| == 0 then []
    else
      var p := params[|params| - 1];
      DriveConfig(drive, params[..|params| - 1], known) + [ConfigEntry(p, Basename(drive), Label(known, p))]
  }

  /** The field declarations of every drive, drive by drive. */
  function ConfigBody(drives: seq<string>, params: seq<string>, known: map<string, string>): seq<string>
    decreases |drives|
  {
    if |drives| == 0 then []
    else ConfigBody(drives[..|drives| - 1], params, known) + DriveConfig(drives[|drives| - 1], params, known)
  }

  lemma DriveConfigStep(drive: string, params: seq<string>, known: map<string, string>, j: nat)
    requires j < |params|
    ensures DriveConfig(drive, params[..j + 1], known)
         == DriveConfig(drive, params[..j], known) + [ConfigEntry(params[j], Basename(drive), Label(known, params[j]))]
  {
    assert params[..j + 1][..j] == params[..j];
  }

  lemma ConfigBodyStep(drives: seq<string>, params: seq<string>, known: map<string, string>, d: nat)
    requires d < |drives|
    ensures ConfigBody(drives[..d + 1], params, known)
         == ConfigBody(drives[..d], params, known) + DriveConfig(drives[d], params, known)
  {
    assert drives[..d + 1][..d] == drives[..d];
  }

  /** The inner loop of `munin_config`: append a drive's declarations, configured id by id. */
  method AppendLabels(response: seq<string>, drive: string, params: seq<string>, known: map<string, string>)
    returns (r: seq<string>)
    ensures r == response + DriveConfig(drive, params, known)
  {
    r := response;
    var j := 0;
    while j < |params|
      invariant 0 <= j <= |params|
      invariant r == response + DriveConfig(drive, params[..j], known)
    {
      var param := params[j];
      var name := Label(known, param);
      DriveConfigStep(drive, params, known, j);
      AppendAssociates(response, DriveConfig(drive, params[..j], known), [ConfigEntry(param, Basename(drive), name)]);
      r := r + [ConfigEntry(param, Basename(drive), name)];
      j := j + 1;
    }
    assert params[..j] == params;
  }

  /** What `config` prints, before print's own newline. */
  function ConfigText(drives: seq<string>, params: seq<string>, known: map<string, string>): string {
    Join("\n", [HeaderConfig] + ConfigBody(drives, params, known))
  }

  /**
   * `config` prints the header alone when there is no drive or no id, and
   * otherwise the header, a newline and the declarations joined by
   * newlines; as the header and every declaration end in a newline, blocks
   * are separated by a blank line.
   */
  lemma ConfigTextLayout(drives: seq<string>, params: seq<string>, known: map<string, string>)
    ensures |drives| == 0 || |params| == 0 ==> ConfigText(drives, params, known) == HeaderConfig
    ensures |drives| > 0 && |params| > 0 ==>
      ConfigText(drives, params, known) == HeaderConfig + "\n" + Join("\n", ConfigBody(drives, params, known))
  {
    var body := ConfigBody(drives, params, known);
    ConfigLength(drives, params, known);
    if |body| == 0 {
      assert [HeaderConfig] + body == [HeaderConfig];
    } else {
      assert ([HeaderConfig] + body)[1..] == body;
    }
  }

  /** A drive's j-th declaration is that of the j-th configured id. */
  lemma {:induction false} DriveConfigAt(drive: string, params: seq<string>, known: map<string, string>)
    ensures |DriveConfig(drive, params, known)| == |params|
    ensures forall j :: 0 <= j < |params| ==>
      DriveConfig(drive, params, known)[j] == ConfigEntry(params[j], Basename(drive), Label(known, params[j]))
    decreases |params|
  {
    if |params| > 0 {
      DriveConfigAt(drive, params[..|params| - 1], known);
    }
  }

  /**
   * `config` declares every (drive, id) pair exactly once, drive-major: the
   * declaration of the j-th id on the i-th drive sits at i * |params| + j
   * and labels the field with the recorded name or "Unknown".
   */
  lemma ConfigEntryAt(drives: seq<string>, params: seq<string>, known: map<string, string>, i: nat, j: nat)
    requires i < |drives| && j < |params|
    ensures |ConfigBody(drives, params, known)| == |drives| * |params|
    ensures 0 <= i * |params| + j < |drives| * |params|
    ensures ConfigBody(drives, params, known)[i * |params| + j]
         == ConfigEntry(params[j], Basename(drives[i]), Label(known, params[j]))
  {
    ConfigLength(drives, params, known);
    ConfigLength(drives[..i], params, known);
    ConfigEntryAfter(drives, params, known, i, j);
  }

  /** The declarations of drive i follow those of the drives before it. */
  lemma {:induction false} ConfigEntryAfter(drives: seq<string>, params: seq<string>, known: map<string, string>, i: nat, j: nat)
    requires i < |drives| && j < |params|
    ensures |ConfigBody(drives[..i], params, known)| + j < |ConfigBody(drives, params, known)|
    ensures ConfigBody(drives, params, known)[|ConfigBody(drives[..i], params, known)| + j]
         == ConfigEntry(params[j], Basename(drives[i]), Label(known, params[j]))
    decreases |drives|
  {
    var prefix := drives[..|drives| - 1];
    var k := |ConfigBody(drives[..i], params, known)| + j;
    if i < |drives| - 1 {
      assert prefix[..i] == drives[..i];
      assert prefix[i] == drives[i];
      ConfigEntryAfter(prefix, params, known, i, j);
      ConfigEntryEarlier(drives, params, known, k);
    } else {
      assert drives[..i] == prefix;
      ConfigEntryLast(drives, params, known, j, k);
    }
  }

  /** The declarations of the earlier drives come first. */
  lemma ConfigEntryEarlier(drives: seq<string>, params: seq<string>, known: map<string, string>, k: nat)
    requires |drives| > 0 && k < |ConfigBody(drives[..|drives| - 1], params, known)|
    ensures k < |ConfigBody(drives, params, known)|
    ensures ConfigBody(drives, params, known)[k] == ConfigBody(drives[..|drives| - 1], params, known)[k]
  {
    var prefix := ConfigBody(drives[..|drives| - 1], params, known);
    assert ConfigBody(drives, params, known) == prefix + DriveConfig(drives[|drives| - 1], params, known);
  }

  /** The declarations of the last drive come after those of the earlier drives. */
  lemma ConfigEntryLast(drives: seq<string>, params: seq<string>, known: map<string, string>, j: nat, k: int)
    requires |drives| > 0 && j < |params|
    requires k == |ConfigBody(drives[..|drives| - 1], params, known)| + j
    ensures 0 <= k < |ConfigBody(drives, params, known)|
    ensures ConfigBody(drives, params, known)[k]
         == ConfigEntry(params[j], Basename(drives[|drives| - 1]), Label(known, params[j]))
  {
    var prefix := ConfigBody(drives[..|drives| - 1], params, known);
    var last := DriveConfig(drives[|drives| - 1], params, known);
    assert ConfigBody(drives, params, known) == prefix + last;
    DriveConfigEntry(drives[|drives| - 1], params, known, j);
    assert (prefix + last)[k] == last[j];
  }

  /** The j-th declaration of a drive, for one j. */
  lemma DriveConfigEntry(drive: string, params: seq<string>, known: map<string, string>, j: nat)
    requires j < |params|
    ensures |DriveConfig(drive, params, known)| == |params|
    ensures DriveConfig(drive, params, known)[j] == ConfigEntry(params[j], Basename(drive), Label(known, params[j]))
  {
    DriveConfigAt(drive, params, known);
  }

  /** `config` prints one declaration per drive and configured id. */
  lemma {:induction false} ConfigLength(drives: seq<string>, params: seq<string>, known: map<string, string>)
    ensures |ConfigBody(drives, params, known)| == |drives| * |params|
    decreases |drives|
  {
    if |drives| > 0 {
      var n := |drives|;
      ConfigLength(drives[..n - 1], params, known);
      DriveConfigAt(drives[n - 1], params, known);
      MulStep(n, |params|);
    }
  }

  /** Spelled out for the same reason as `AppendAssociates`: `ConfigLength` needs it to stay within its resource limit. */
  lemma MulStep(n: int, m: int)
    ensures (n - 1) * m + m == n * m
  {
  }

  /**
   * After a successful fetch, `config` labels every drive's field of an id
   * with the name the last drive reporting that id gave it.
   */
  lemma FetchThenConfigLabels(drives: seq<string>, params: seq<string>, scan: Scan,
                              stored: Option<map<string, string>>, i: nat, a: nat, j: nat)
    requires AllParse(drives, scan)
    requires i < |drives| && a < |drives| && j < |params|
    requires params[j] in DriveNames(scan, drives[i])
    requires forall l :: i < l < |drives| ==> params[j] !in DriveNames(scan, drives[l])
    ensures var known := Load(FetchRun(drives, params, scan, stored).stored);
      && |ConfigBody(drives, params, known)| == |drives| * |params|
      && a * |params| + j < |drives| * |params|
      && ConfigBody(drives, params, known)[a * |params| + j]
         == ConfigEntry(params[j], Basename(drives[a]), DriveNames(scan, drives[i])[params[j]])
  {
    var known := Load(FetchRun(drives, params, scan, stored).stored);
    LastReporterWins(drives, params, scan, stored, i, params[j]);
    ConfigEntryAt(drives, params, known, a, j);
  }

  /**
   * `munin_config`: read the state without updating it, then print the
   * header and a declaration per drive and configured id.
   */
  method MuninConfig(cfg: Config, file: StateFile) returns (out: string)
    modifies file
    ensures out == ConfigText(cfg.drives, cfg.params, Load(old(file.stored)))
    ensures file.stored == old(file.stored) && file.writes == old(file.writes)
  {
    var known := file.Update(map[]);
    assert known == Load(old(file.stored));
    var response := [HeaderConfig];
    var d := 0;
    while d < |cfg.drives|
      invariant 0 <= d <= |cfg.drives|
      invariant response == [HeaderConfig] + ConfigBody(cfg.drives[..d], cfg.params, known)
      invariant file.stored == old(file.stored) && file.writes == old(file.writes)
    {
      var drive := cfg.drives[d];
      response := AppendLabels(response, drive, cfg.params, known);
      ConfigBodyStep(cfg.drives, cfg.params, known, d);
      AppendAssociates([HeaderConfig], ConfigBody(cfg.drives[..d], cfg.params, known), DriveConfig(drive, cfg.params, known));
      d := d + 1;
    }
    assert cfg.drives[..d] == cfg.drives;
    out := Join("\n", response);
  }

  // ---------------------------------------------------------------------
  // main
  // ---------------------------------------------------------------------

  datatype Command = FetchCommand | ConfigCommand | AutoconfCommand

  /** `main`'s choice from `sys.argv[1:]`; anything else is the invalid arguments. */
  function SelectCommand(args: seq<string>): (r: Result<Command, seq<string>>)
    ensures r == Success(FetchCommand) <==> args == []
    ensures r == Success(ConfigCommand) <==> args != [] && args[0] == "config"
    ensures r == Success(AutoconfCommand) <==> args != [] && args[0] == "autoconf"
    ensures r.Failure? ==> r.error == args
  {
    if args == [] then Success(FetchCommand)
    else if args[0] == "config" then Success(ConfigCommand)
    else if args[0] == "autoconf" then Success(AutoconfCommand)
    else Failure(args)
  }

  /** The exceptions that end the plugin before it prints anything. */
  datatype PluginError =
    | StartupFailed(startup: StartupError)
    | SmartctlFailed(parse: ParseError)
    | InvalidArguments(args: seq<string>)

  /** What one run of the plugin ends with: printed text and exit status, or an exception. */
  datatype Outcome = Exit(stdout: string, status: int) | Raised(error: PluginError)

  /** A run's outcome together with the state file it leaves and its rewrites. */
  datatype RunTrace = RunTrace(outcome: Outcome, stored: Option<map<string, string>>, writes: nat)

  /**
   * One run of the plugin: resolve the settings, choose the command from
   * the arguments and run it. `isExecutable` says whether a path is a file
   * the plugin may execute.
   */
  function RunSpec(env: Env, found: Option<string>, globbed: seq<string>, args: seq<string>,
                   tool: map<string, seq<string>>, isExecutable: string -> bool,
                   stored: Option<map<string, string>>): RunTrace
  {
    match Resolve(env, found, globbed)
    case Failure(e) => RunTrace(Raised(StartupFailed(e)), stored, 0)
    case Success(cfg) =>
      match SelectCommand(args)
      case Failure(rest) => RunTrace(Raised(InvalidArguments(rest)), stored, 0)
      case Success(FetchCommand) =>
        var t := FetchRun(cfg.drives, cfg.params, ScanReports(tool), stored);
        if t.failure.Some? then RunTrace(Raised(SmartctlFailed(t.failure.value)), t.stored, t.writes)
        else RunTrace(Exit(Join("\n", t.response) + "\n", 0), t.stored, t.writes)
      case Success(ConfigCommand) =>
        RunTrace(Exit(ConfigText(cfg.drives, cfg.params, Load(stored)) + "\n", 0), stored, 0)
      case Success(AutoconfCommand) =>
        if isExecutable(cfg.executable) then RunTrace(Exit("yes\n", 0), stored, 0)
        else RunTrace(Exit(AutoconfNo + "\n", 1), stored, 0)
  }

  /**
   * Only `fetch` touches the state file; `autoconf` exits with status 1
   * exactly when the resolved smartctl cannot be executed; arguments other
   * than none, `config` or `autoconf` raise after the settings resolved.
   */
  lemma RunCommands(env: Env, found: Option<string>, globbed: seq<string>, args: seq<string>,
                    tool: map<string, seq<string>>, isExecutable: string -> bool,
                    stored: Option<map<string, string>>)
    ensures var r := RunSpec(env, found, globbed, args, tool, isExecutable, stored);
      && (r.stored != stored || r.writes != 0 ==> Resolve(env, found, globbed).Success? && args == [])
      && (r.outcome.Exit? && r.outcome.status == 1 <==>
            Resolve(env, found, globbed).Success? && args != [] && args[0] == "autoconf"
            && !isExecutable(Resolve(env, found, globbed).value.executable))
      && (r.outcome.Raised? && r.outcome.error.InvalidArguments? <==>
            Resolve(env, found, globbed).Success? && SelectCommand(args).Failure?)
  {
  }

  /** `main`, after the module-level settings. */
  method Run(env: Env, found: Option<string>, globbed: seq<string>, args: seq<string>,
             tool: map<string, seq<string>>, isExecutable: string -> bool, file: StateFile) returns (o: Outcome)
    modifies file
    ensures var r := RunSpec(env, found, globbed, args, tool, isExecutable, old(file.stored));
      o == r.outcome && file.stored == r.stored && file.writes == old(file.writes) + r.writes
  {
    var resolved := Resolve(env, found, globbed);
    if resolved.Failure? {
      return Raised(StartupFailed(resolved.error));
    }
    var cfg := resolved.value;
    var command := SelectCommand(args);
    if command.Failure? {
      return Raised(InvalidArguments(command.error));
    }
    match command.value
    case FetchCommand =>
      var out := MuninFetch(cfg, tool, file);
      if out.Failure? {
        o := Raised(SmartctlFailed(out.error));
      } else {
        o := Exit(out.value + "\n", 0);
      }
    case ConfigCommand =>
      var out := MuninConfig(cfg, file);
      o := Exit(out + "\n", 0);
    case AutoconfCommand =>
      if isExecutable(cfg.executable) {
        o := Exit("yes\n", 0);
      } else {
        o := Exit(AutoconfNo + "\n", 1);
      }
  }
}

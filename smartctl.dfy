/**
 * Parsing the attribute table that `smartctl --all <drive>` prints: the
 * lines matching the data-row pattern become ten-field records, keyed by
 * their first token, the first row for an id winning.
 */
module Smartctl {
  import opened Wrappers
  import opened Text
  import opened RowPattern

  /** One attribute row; every field is the token as printed, never converted. */
  datatype Record = Record(
    id: string,
    name: string,
    flag: string,
    value: string,
    worst: string,
    thresh: string,
    attrType: string,
    updated: string,
    whenFailed: string,
    raw: string)

  /** The fields of a record in table order. */
  function Fields(r: Record): seq<string> {
    [r.id, r.name, r.flag, r.value, r.worst, r.thresh, r.attrType, r.updated, r.whenFailed, r.raw]
  }

  /** The record built from the first ten tokens of a row; later tokens are dropped. */
  function ToRecord(words: seq<string>): (r: Record)
    requires |words| >= 10
    ensures Fields(r) == words[..10]
  {
    Record(words[0], words[1], words[2], words[3], words[4],
           words[5], words[6], words[7], words[8], words[9])
  }

  /** Indexing `words[9]` of a row with fewer than ten tokens raises IndexError. */
  datatype ParseError = TooFewFields(line: string)

  /** A data row is never blank, so it has a first token. */
  lemma RowHasWords(line: string)
    requires IsSmartLine(line)
    ensures |Words(line)| > 0
  {
    WordsAreTokens(line);
    var lead := SkipSpace(line, 0);
    assert !IsSpace(line[lead]);
  }

  /** The id of a data row: its first token, which starts with a digit. */
  function RowId(line: string): (id: string)
    requires IsSmartLine(line)
    ensures IsWord(id) && IsDigit(id[0])
  {
    RowHasWords(line);
    WordsAreTokens(line);
    Words(line)[0]
  }

  /** One turn of the parsing loop over the output collected so far. */
  function Step(output: map<string, Record>, line: string): Result<map<string, Record>, ParseError> {
    if !IsSmartLine(line) then Success(output)
    else
      var words := Words(line);
      var id := RowId(line);
      if id in output then Success(output)
      else if |words| < 10 then Failure(TooFewFields(line))
      else Success(output[id := ToRecord(words)])
  }

  /** The parse of a whole output: the loop run over every line in order, stopping at an error. */
  function Parse(lines: seq<string>): Result<map<string, Record>, ParseError>
    decreases |lines|
  {
    if |lines| == 0 then Success(map[])
    else
      match Parse(lines[..|lines| - 1])
      case Failure(e) => Failure(e)
      case Success(output) => Step(output, lines[|lines| - 1])
  }

  /** Once the parse of a prefix has failed, so has the parse of the whole. */
  lemma {:induction false} ParseFailureStays(lines: seq<string>, k: nat)
    requires k <= |lines|
    requires Parse(lines[..k]).Failure?
    ensures Parse(lines) == Parse(lines[..k])
    decreases |lines| - k
  {
    if k < |lines| {
      var longer := lines[..k + 1];
      assert longer[..k] == lines[..k];
      assert lines[..k + 1][..k] == lines[..k];
      ParseFailureStays(lines, k + 1);
    } else {
      assert lines[..k] == lines;
    }
  }

  /** The loop of `smartctl()` over the decoded output lines. */
  method ParseOutput(lines: seq<string>) returns (r: Result<map<string, Record>, ParseError>)
    ensures r == Parse(lines)
  {
    var output: map<string, Record> := map[];
    var i := 0;
    while i < |lines|
      invariant 0 <= i <= |lines|
      invariant Parse(lines[..i]) == Success(output)
    {
      var line := lines[i];
      assert lines[..i + 1][..i] == lines[..i];
      assert lines[..i + 1][i] == line;
      if IsSmartLine(line) {
        RowHasWords(line);
        var words := Words(line);
        var paramId := words[0];
        if paramId !in output {
          if |words| < 10 {
            r := Failure(TooFewFields(line));
            ParseFailureStays(lines, i + 1);
            return;
          }
          output := output[paramId := Record(words[0], words[1], words[2], words[3], words[4],
                                             words[5], words[6], words[7], words[8], words[9])];
        }
      }
      i := i + 1;
    }
    assert lines[..i] == lines;
    r := Success(output);
  }

  /** Line `i` is a data row and no earlier data row has its id. */
  ghost predicate FirstRow(lines: seq<string>, i: int) {
    && 0 <= i < |lines|
    && IsSmartLine(lines[i])
    && forall j :: 0 <= j < i && IsSmartLine(lines[j]) ==> RowId(lines[j]) != RowId(lines[i])
  }

  /** Every data row has a first row with the same id at or before it. */
  lemma {:induction false} FirstRowOf(lines: seq<string>, j: nat) returns (i: nat)
    requires j < |lines| && IsSmartLine(lines[j])
    ensures i <= j && FirstRow(lines, i) && RowId(lines[i]) == RowId(lines[j])
    decreases j
  {
    if FirstRow(lines, j) {
      i := j;
    } else {
      var j' :| 0 <= j' < j && IsSmartLine(lines[j']) && RowId(lines[j']) == RowId(lines[j]);
      i := FirstRowOf(lines, j');
    }
  }

  /** Being a first row does not depend on the lines after it. */
  lemma FirstRowInPrefix(lines: seq<string>, i: int)
    requires |lines| > 0 && i < |lines| - 1
    ensures FirstRow(lines, i) <==> FirstRow(lines[..|lines| - 1], i)
  {
    var prefix := lines[..|lines| - 1];
    assert forall j :: 0 <= j < |prefix| ==> prefix[j] == lines[j];
  }

  /** What Parse promises of a successful parse of `lines`. */
  ghost predicate Parsed(lines: seq<string>, output: map<string, Record>) {
    && (forall i :: FirstRow(lines, i) ==> |Words(lines[i])| >= 10)
    && (forall k :: k in output <==> exists i :: FirstRow(lines, i) && RowId(lines[i]) == k)
    && (forall i :: FirstRow(lines, i) ==> RowId(lines[i]) in output && output[RowId(lines[i])] == ToRecord(Words(lines[i])))
  }

  /** What Parse promises of a failed parse of `lines`. */
  ghost predicate Rejected(lines: seq<string>, e: ParseError) {
    exists i :: FirstRow(lines, i) && |Words(lines[i])| < 10 && e == TooFewFields(lines[i])
  }

  /**
   * The parse keeps exactly the ids of the data rows, each with the record
   * of its first row, and fails exactly when such a first row has fewer than
   * ten tokens; later rows with a known id and all other lines are ignored.
   */
  lemma {:induction false} ParseCharacterized(lines: seq<string>)
    ensures Parse(lines).Success? ==> Parsed(lines, Parse(lines).value)
    ensures Parse(lines).Failure? ==> Rejected(lines, Parse(lines).error)
    decreases |lines|
  {
    if |lines| == 0 {
      return;
    }
    var prefix := lines[..|lines| - 1];
    ParseCharacterized(prefix);
    FirstRowsOfPrefix(lines);
    match Parse(prefix)
    case Failure(e) =>
      var i :| FirstRow(prefix, i) && |Words(prefix[i])| < 10 && e == TooFewFields(prefix[i]);
      assert FirstRow(lines, i);
    case Success(output) =>
      StepCharacterized(lines, output);
  }

  /** The first rows of all lines but the last are those of the prefix. */
  lemma FirstRowsOfPrefix(lines: seq<string>)
    requires |lines| > 0
    ensures forall i :: 0 <= i < |lines| - 1 ==> (FirstRow(lines, i) <==> FirstRow(lines[..|lines| - 1], i))
    ensures forall j :: 0 <= j < |lines| - 1 ==> lines[..|lines| - 1][j] == lines[j]
  {
    forall i | 0 <= i < |lines| - 1 ensures FirstRow(lines, i) <==> FirstRow(lines[..|lines| - 1], i) {
      FirstRowInPrefix(lines, i);
    }
  }

  /** The induction step of ParseCharacterized when the prefix parses. */
  lemma StepCharacterized(lines: seq<string>, output: map<string, Record>)
    requires |lines| > 0
    requires Parsed(lines[..|lines| - 1], output)
    requires forall i :: 0 <= i < |lines| - 1 ==> (FirstRow(lines, i) <==> FirstRow(lines[..|lines| - 1], i))
    requires forall j :: 0 <= j < |lines| - 1 ==> lines[..|lines| - 1][j] == lines[j]
    ensures Step(output, lines[|lines| - 1]).Success? ==> Parsed(lines, Step(output, lines[|lines| - 1]).value)
    ensures Step(output, lines[|lines| - 1]).Failure? ==> Rejected(lines, Step(output, lines[|lines| - 1]).error)
  {
    var n := |lines| - 1;
    var prefix := lines[..n];
    var x := lines[n];
    if !IsSmartLine(x) {
      assert !FirstRow(lines, n);
      ParsedExtends(lines, output, output);
    } else {
      var id := RowId(x);
      if id in output {
        var i :| FirstRow(prefix, i) && RowId(prefix[i]) == id;
        assert IsSmartLine(lines[i]) && RowId(lines[i]) == RowId(lines[n]);
        assert !FirstRow(lines, n);
        ParsedExtends(lines, output, output);
      } else {
        forall j | 0 <= j < n && IsSmartLine(lines[j]) ensures RowId(lines[j]) != id {
          var i := FirstRowOf(prefix, j);
        }
        assert FirstRow(lines, n);
        if |Words(x)| >= 10 {
          ParsedExtends(lines, output, output[id := ToRecord(Words(x))]);
        }
      }
    }
  }

  /** The induction step of ParseCharacterized when the last line parses. */
  lemma ParsedExtends(lines: seq<string>, output: map<string, Record>, output': map<string, Record>)
    requires |lines| > 0
    requires Parsed(lines[..|lines| - 1], output)
    requires forall i :: 0 <= i < |lines| - 1 ==> (FirstRow(lines, i) <==> FirstRow(lines[..|lines| - 1], i))
    requires forall j :: 0 <= j < |lines| - 1 ==> lines[..|lines| - 1][j] == lines[j]
    requires !FirstRow(lines, |lines| - 1) ==> output' == output
    requires FirstRow(lines, |lines| - 1) ==>
      |Words(lines[|lines| - 1])| >= 10 && output' == output[RowId(lines[|lines| - 1]) := ToRecord(Words(lines[|lines| - 1]))]
    requires FirstRow(lines, |lines| - 1) ==> RowId(lines[|lines| - 1]) !in output
    ensures Parsed(lines, output')
  {
    ParsedExtendsKeys(lines, output, output');
    ParsedExtendsRecords(lines, output, output');
  }

  lemma ParsedExtendsKeys(lines: seq<string>, output: map<string, Record>, output': map<string, Record>)
    requires |lines| > 0
    requires Parsed(lines[..|lines| - 1], output)
    requires forall i :: 0 <= i < |lines| - 1 ==> (FirstRow(lines, i) <==> FirstRow(lines[..|lines| - 1], i))
    requires forall j :: 0 <= j < |lines| - 1 ==> lines[..|lines| - 1][j] == lines[j]
    requires !FirstRow(lines, |lines| - 1) ==> output' == output
    requires FirstRow(lines, |lines| - 1) ==> output'.Keys == output.Keys + {RowId(lines[|lines| - 1])}
    ensures forall k :: k in output' <==> exists i :: FirstRow(lines, i) && RowId(lines[i]) == k
  {
    forall k ensures k in output' <==> exists i :: FirstRow(lines, i) && RowId(lines[i]) == k {
      KeyOfExtension(lines, output, output', k);
    }
  }

  /** One key of ParsedExtendsKeys. */
  lemma KeyOfExtension(lines: seq<string>, output: map<string, Record>, output': map<string, Record>, k: string)
    requires |lines| > 0
    requires Parsed(lines[..|lines| - 1], output)
    requires forall i :: 0 <= i < |lines| - 1 ==> (FirstRow(lines, i) <==> FirstRow(lines[..|lines| - 1], i))
    requires forall j :: 0 <= j < |lines| - 1 ==> lines[..|lines| - 1][j] == lines[j]
    requires !FirstRow(lines, |lines| - 1) ==> output' == output
    requires FirstRow(lines, |lines| - 1) ==> output'.Keys == output.Keys + {RowId(lines[|lines| - 1])}
    ensures k in output' <==> exists i :: FirstRow(lines, i) && RowId(lines[i]) == k
  {
    var n := |lines| - 1;
    var prefix := lines[..n];
    if k in output {
      var i :| FirstRow(prefix, i) && RowId(prefix[i]) == k;
      assert FirstRow(lines, i) && RowId(lines[i]) == k;
    }
    if exists i :: FirstRow(lines, i) && RowId(lines[i]) == k {
      var i :| FirstRow(lines, i) && RowId(lines[i]) == k;
      if i < n {
        assert FirstRow(prefix, i) && RowId(prefix[i]) == k;
      }
    }
  }

  lemma ParsedExtendsRecords(lines: seq<string>, output: map<string, Record>, output': map<string, Record>)
    requires |lines| > 0
    requires Parsed(lines[..|lines| - 1], output)
    requires forall i :: 0 <= i < |lines| - 1 ==> (FirstRow(lines, i) <==> FirstRow(lines[..|lines| - 1], i))
    requires forall j :: 0 <= j < |lines| - 1 ==> lines[..|lines| - 1][j] == lines[j]
    requires !FirstRow(lines, |lines| - 1) ==> output' == output
    requires FirstRow(lines, |lines| - 1) ==>
      |Words(lines[|lines| - 1])| >= 10 && output' == output[RowId(lines[|lines| - 1]) := ToRecord(Words(lines[|lines| - 1]))]
    ensures forall i :: FirstRow(lines, i) ==> |Words(lines[i])| >= 10
    ensures forall i :: FirstRow(lines, i) ==> RowId(lines[i]) in output' && output'[RowId(lines[i])] == ToRecord(Words(lines[i]))
  {
    forall i | FirstRow(lines, i)
      ensures |Words(lines[i])| >= 10
      ensures RowId(lines[i]) in output' && output'[RowId(lines[i])] == ToRecord(Words(lines[i]))
    {
      if i < |lines| - 1 {
        RecordOfEarlierRow(lines, output, output', i);
      }
    }
  }

  /** A first row before the last line keeps the record it had. */
  lemma RecordOfEarlierRow(lines: seq<string>, output: map<string, Record>, output': map<string, Record>, i: int)
    requires |lines| > 0
    requires Parsed(lines[..|lines| - 1], output)
    requires forall i :: 0 <= i < |lines| - 1 ==> (FirstRow(lines, i) <==> FirstRow(lines[..|lines| - 1], i))
    requires forall j :: 0 <= j < |lines| - 1 ==> lines[..|lines| - 1][j] == lines[j]
    requires !FirstRow(lines, |lines| - 1) ==> output' == output
    requires FirstRow(lines, |lines| - 1) ==>
      |Words(lines[|lines| - 1])| >= 10 && output' == output[RowId(lines[|lines| - 1]) := ToRecord(Words(lines[|lines| - 1]))]
    requires FirstRow(lines, i) && i < |lines| - 1
    ensures |Words(lines[i])| >= 10
    ensures RowId(lines[i]) in output' && output'[RowId(lines[i])] == ToRecord(Words(lines[i]))
  {
    var n := |lines| - 1;
    var prefix := lines[..n];
    var k := RowId(lines[i]);
    assert prefix[i] == lines[i];
    assert FirstRow(prefix, i);
    assert k in output && output[k] == ToRecord(Words(lines[i]));
    assert FirstRow(lines, n) ==> k != RowId(lines[n]);
  }

  /** The parsed map is keyed by each record's own id. */
  lemma ParsedKeysAreIds(lines: seq<string>)
    requires Parse(lines).Success?
    ensures forall k :: k in Parse(lines).value ==> Parse(lines).value[k].id == k
  {
    ParseCharacterized(lines);
    var output := Parse(lines).value;
    forall k | k in output ensures output[k].id == k {
      var i :| FirstRow(lines, i) && RowId(lines[i]) == k;
      var words := Words(lines[i]);
      assert output[k] == ToRecord(words);
      assert RowId(lines[i]) == words[0];
      assert ToRecord(words).id == words[0];
    }
  }
}

/** The certifier's state and its operations: writing and removing scripts,
    handing them to the external tool, cleaning up, and the two workflows
    (requesting certification for every card of a list, approving every
    pending request). */
module Certify {
  import opened PyStr
  import opened CertifyText

  /** The file system, as far as the certifier sees it: path to lines. */
  type Files = map<string, seq<string>>

  /** The file system after `create_output_files` wrote `script`, if it wrote one. */
  function WriteScript(fs: Files, script: Option<Script>): (r: Files)
    ensures script.None? ==> r == fs
    ensures script.Some? ==> r.Keys == fs.Keys + {script.value.path} && r[script.value.path] == script.value.lines
    ensures forall p :: p in fs && (script.None? || p != script.value.path) ==> p in r && r[p] == fs[p]
  {
    match script
    case None => fs
    case Some(s) => fs[s.path := s.lines]
  }

  /** Writing the same script twice leaves what writing it once leaves. */
  lemma WriteScriptIdempotent(fs: Files, script: Option<Script>)
    ensures WriteScript(WriteScript(fs, script), script) == WriteScript(fs, script)
  {
  }

  /** A run of `os.remove` calls: each removes its path, and the first path
      that is absent raises, so that path and the ones after it are left
      alone. The flag says whether every call returned. */
  function RemoveEach(fs: Files, paths: seq<string>): (r: (bool, Files))
    ensures r.1.Keys <= fs.Keys
    ensures forall p :: p in r.1 ==> r.1[p] == fs[p]
    ensures forall p :: p in fs && p !in r.1 ==> p in paths
  {
    if paths == [] then (true, fs)
    else if paths[0] !in fs then (false, fs)
    else RemoveEach(fs - {paths[0]}, paths[1..])
  }

  /** Removing distinct paths succeeds exactly when all of them are present,
      and then removes exactly those paths. */
  lemma {:induction false} RemoveEachExactly(fs: Files, paths: seq<string>)
    requires forall i, j :: 0 <= i < j < |paths| ==> paths[i] != paths[j]
    ensures RemoveEach(fs, paths).0 <==> forall k :: 0 <= k < |paths| ==> paths[k] in fs
    ensures RemoveEach(fs, paths).0 ==> RemoveEach(fs, paths).1 == fs - set k | 0 <= k < |paths| :: paths[k]
  {
    if paths != [] {
      var rest := paths[1..];
      RemoveEachExactly(fs - {paths[0]}, rest);
      if paths[0] in fs {
        assert forall k :: 0 <= k < |rest| ==> (rest[k] in fs - {paths[0]} <==> rest[k] in fs) by {
          forall k | 0 <= k < |rest| ensures rest[k] != paths[0] {
            assert rest[k] == paths[k + 1];
          }
        }
        var all := set k | 0 <= k < |paths| :: paths[k];
        var tail := set k | 0 <= k < |rest| :: rest[k];
        assert all == {paths[0]} + tail by {
          forall p | p in all ensures p in {paths[0]} + tail {
            var k :| 0 <= k < |paths| && paths[k] == p;
            if k > 0 { assert rest[k - 1] == p; }
          }
          forall p | p in tail ensures p in all {
            var k :| 0 <= k < |rest| && rest[k] == p;
            assert paths[k + 1] == p;
          }
        }
      }
    }
  }

  /** Two removals: the first absent path stops the run. */
  lemma RemoveTwo(fs: Files, paths: seq<string>)
    requires |paths| == 2 ==> paths[0] != paths[1]
    ensures |paths| == 2 ==>
      RemoveEach(fs, paths) ==
        (if paths[0] !in fs then (false, fs)
         else if paths[1] !in fs then (false, fs - {paths[0]})
         else (true, fs - {paths[0]} - {paths[1]}))
  {
    if |paths| == 2 && paths[0] in fs {
      var fs1 := fs - {paths[0]};
      assert paths[1..] == [paths[1]] && [paths[1]][1..] == [];
      assert RemoveEach(fs, paths) == RemoveEach(fs1, [paths[1]]);
      if paths[1] in fs1 {
        assert RemoveEach(fs1, [paths[1]]) == RemoveEach(fs1 - {paths[1]}, []);
      }
    }
  }

  /** The paths `cleanup(instance, workflow)` removes, in order. The request
      branch builds them from its `instance` argument, the approval branch from
      the configured instance. */
  function CleanupPaths(instance: string, configured: string, workflow: string): seq<string> {
    if workflow == RequestCertificationKind then [CardListScriptPath(instance), CardsCsvPath(instance)]
    else if workflow == ApproveCertificationKind then [ApprovalIdsPath(configured), ApprovalListScriptPath(configured)]
    else []
  }

  /** Cleanup removes two distinct fixed files for each of the two workflows
      and nothing for any other name. */
  lemma CleanupPathsShape(instance: string, configured: string, workflow: string)
    ensures |CleanupPaths(instance, configured, workflow)| ==
      if workflow == RequestCertificationKind || workflow == ApproveCertificationKind then 2 else 0
    ensures var ps := CleanupPaths(instance, configured, workflow);
      forall i, j :: 0 <= i < j < |ps| ==> ps[i] != ps[j]
  {
    RequestPathsAvoidFixed(instance);
    ApprovePathsAvoidFixed(configured);
  }

  /** `file.readline()` of a file given as its lines: the first line, or the
      empty string for an empty file. */
  function FirstLine(lines: seq<string>): string {
    if lines == [] then "" else lines[0]
  }

  /** The approval ids the approval workflow processes, in order. */
  function ApprovalIds(lines: seq<string>): (ids: seq<string>)
    ensures |ids| >= 1
  {
    Split(Strip(FirstLine(lines)), ',')
  }

  /** The approval ids are the comma-separated pieces of the stripped first
      line: one more than its commas, joining back to it, none containing a
      comma, and independent of every later line. An empty file gives the
      single id "". */
  lemma ApprovalIdsAreFirstLinePieces(lines: seq<string>)
    ensures var line := Strip(FirstLine(lines));
      && |ApprovalIds(lines)| == Count(line, ',') + 1
      && Join(ApprovalIds(lines), ',') == line
      && (forall k :: 0 <= k < |ApprovalIds(lines)| ==> ',' !in ApprovalIds(lines)[k])
    ensures ApprovalIds(lines) == ApprovalIds(lines[..if lines == [] then 0 else 1])
    ensures lines == [] ==> ApprovalIds(lines) == [""]
  {
    var line := Strip(FirstLine(lines));
    SplitLength(line, ',');
    JoinSplit(line, ',');
    if lines == [] {
      assert Strip("") == "";
    }
  }

  /** Every data row of the card list CSV has a first field. */
  predicate CardRows(rows: seq<seq<string>>) {
    |rows| >= 1 && forall k :: 1 <= k < |rows| ==> |rows[k]| >= 1
  }

  /** The card ids the request workflow processes: the first field of each
      row after the header. */
  function CardIds(rows: seq<seq<string>>): (ids: seq<string>)
    requires CardRows(rows)
    ensures |ids| == |rows| - 1
    ensures forall k :: 1 <= k < |rows| ==> ids[k - 1] == rows[k][0]
  {
    seq(|rows| - 1, k requires 0 <= k < |rows| - 1 => rows[k + 1][0])
  }

  /** The per-row script paths for `ids`, in order. */
  function RowPaths(prefix: string, ids: seq<string>): seq<string> {
    if ids == [] then [] else RowPaths(prefix, ids[..|ids| - 1]) + [prefix + ids[|ids| - 1]]
  }

  /** The set of per-row script paths for `ids`. */
  function RowPathSet(prefix: string, ids: seq<string>): set<string> {
    if ids == [] then {} else RowPathSet(prefix, ids[..|ids| - 1]) + {prefix + ids[|ids| - 1]}
  }

  /** The per-row paths are the prefix followed by each id, in order, and the
      set of them is the set of those paths. */
  lemma {:induction false} RowPathsAt(prefix: string, ids: seq<string>)
    ensures |RowPaths(prefix, ids)| == |ids|
    ensures forall k :: 0 <= k < |ids| ==> RowPaths(prefix, ids)[k] == prefix + ids[k]
    ensures forall p :: p in RowPathSet(prefix, ids) <==> exists k :: 0 <= k < |ids| && p == prefix + ids[k]
  {
    if ids != [] {
      var n := |ids| - 1;
      RowPathsAt(prefix, ids[..n]);
      forall p | p in RowPathSet(prefix, ids) ensures exists k :: 0 <= k < |ids| && p == prefix + ids[k] {
        if p != prefix + ids[n] {
          assert p in RowPathSet(prefix, ids[..n]);
          var k :| 0 <= k < n && p == prefix + ids[..n][k];
          assert p == prefix + ids[k];
        }
      }
      forall p | exists k :: 0 <= k < |ids| && p == prefix + ids[k] ensures p in RowPathSet(prefix, ids) {
        var k :| 0 <= k < |ids| && p == prefix + ids[k];
        if k < n {
          assert p == prefix + ids[..n][k];
        }
      }
    }
  }

  /** A path that is not the prefix followed by some id is not a per-row path. */
  lemma {:induction false} RowPathSetAvoids(prefix: string, ids: seq<string>, x: string)
    requires forall id :: prefix + id != x
    ensures x !in RowPathSet(prefix, ids)
  {
    if ids != [] {
      RowPathSetAvoids(prefix, ids[..|ids| - 1], x);
    }
  }

  /** The request workflow hands the tool the list script and then one request
      script per data row, in row order, each named after that row's first
      field: N data rows give exactly N request invocations. */
  lemma RequestTraceShape(instance: string, rows: seq<seq<string>>)
    requires CardRows(rows)
    ensures var t := [CardListScriptPath(instance)] + RowPaths(RequestScriptPrefix(instance), CardIds(rows));
      && |t| == |rows|
      && t[0] == CardListScriptPath(instance)
      && forall k :: 1 <= k < |rows| ==> t[k] == RequestScriptPath(instance, rows[k][0])
  {
    RowPathsAt(RequestScriptPrefix(instance), CardIds(rows));
  }

  /** What the per-row part of a workflow logs: for each id, what
      `create_output_files` logs for it and then the tool's exit entry. */
  function RowsLog(instance: string, kind: string, ids: seq<string>, statuses: seq<int>): (r: seq<LogEntry>)
    requires |ids| == |statuses|
    ensures 2 * |ids| <= |r| <= 3 * |ids|
  {
    if ids == [] then []
    else
      var n := |ids| - 1;
      RowsLog(instance, kind, ids[..n], statuses[..n]) + RowLog(instance, kind, ids[n], statuses[n])
  }

  /** What one row logs: what `create_output_files` logs for it, then the
      tool's exit entry. */
  function RowLog(instance: string, kind: string, id: string, status: int): (r: seq<LogEntry>)
    ensures 2 <= |r| <= 3
    ensures r[|r| - 1] == ExecuteEntry(instance, status)
  {
    CreationLog(instance, kind, id) + [ExecuteEntry(instance, status)]
  }

  /** The trace of a row loop after its first `n` rows, started from `t0`:
      the rows' scripts, run in order. */
  ghost predicate TraceAfter(prefix: string, ids: seq<string>, n: nat, t0: seq<string>, t: seq<string>)
    requires n <= |ids|
  {
    t == t0 + RowPaths(prefix, ids[..n])
  }

  /** The files after the first `n` rows, started from `f0`: the rows' scripts are gone. */
  ghost predicate FilesAfter(prefix: string, ids: seq<string>, n: nat, f0: Files, f: Files)
    requires n <= |ids|
  {
    f == f0 - RowPathSet(prefix, ids[..n])
  }

  /** The log after the first `n` rows, started from `l0`: each row's entries, in order. */
  ghost predicate LogAfter(instance: string, kind: string, ids: seq<string>, statuses: seq<int>, n: nat,
                           l0: seq<LogEntry>, l: seq<LogEntry>)
    requires n <= |ids| == |statuses|
  {
    l == l0 + RowsLog(instance, kind, ids[..n], statuses[..n])
  }

  /** One loop step of the trace. */
  lemma TraceStep(prefix: string, ids: seq<string>, n: nat, t0: seq<string>, t: seq<string>)
    requires n < |ids|
    requires TraceAfter(prefix, ids, n, t0, t)
    ensures TraceAfter(prefix, ids, n + 1, t0, t + [prefix + ids[n]])
  {
    assert ids[..n + 1][..n] == ids[..n];
  }

  /** One loop step of the files: the row's script joins the removed ones. */
  lemma FilesStep(prefix: string, ids: seq<string>, n: nat, f0: Files, f: Files)
    requires n < |ids|
    requires FilesAfter(prefix, ids, n, f0, f)
    ensures FilesAfter(prefix, ids, n + 1, f0, f - {prefix + ids[n]})
  {
    assert ids[..n + 1][..n] == ids[..n];
    assert RowPathSet(prefix, ids[..n + 1]) == RowPathSet(prefix, ids[..n]) + {prefix + ids[n]};
  }

  /** One loop step of the log: the row's entries follow those of the rows before it. */
  lemma LogStep(instance: string, kind: string, ids: seq<string>, statuses: seq<int>, n: nat,
                l0: seq<LogEntry>, l: seq<LogEntry>)
    requires n < |ids| == |statuses|
    requires LogAfter(instance, kind, ids, statuses, n, l0, l)
    ensures LogAfter(instance, kind, ids, statuses, n + 1, l0, l + RowLog(instance, kind, ids[n], statuses[n]))
  {
    assert ids[..n + 1][..n] == ids[..n] && statuses[..n + 1][..n] == statuses[..n];
  }

  /** The net effect of a workflow on the file system: it wrote the list
      script `a` and the tool's output `b`, wrote and removed the per-row
      scripts, and cleanup then removed `a` and `b` (in either order). */
  lemma CleanupAfterRows(fs: Files, a: string, x: seq<string>, b: string, y: seq<string>, prefix: string, ids: seq<string>)
    requires a != b
    requires forall id :: prefix + id != a && prefix + id != b
    ensures var left := fs[a := x][b := y] - RowPathSet(prefix, ids);
      && RemoveEach(left, [a, b]) == (true, fs - ({a, b} + RowPathSet(prefix, ids)))
      && RemoveEach(left, [b, a]) == (true, fs - ({a, b} + RowPathSet(prefix, ids)))
  {
    var rows := RowPathSet(prefix, ids);
    RowPathSetAvoids(prefix, ids, a);
    RowPathSetAvoids(prefix, ids, b);
    RemoveTwo(fs[a := x][b := y] - rows, [a, b]);
    RemoveTwo(fs[a := x][b := y] - rows, [b, a]);
    assert fs[a := x][b := y] - rows - {a} - {b} == fs - ({a, b} + rows);
    assert fs[a := x][b := y] - rows - {b} - {a} == fs - ({a, b} + rows);
  }

  /** After its loop, the request workflow's cleanup succeeds and leaves the
      file system as it was, less the list script, the card list and the
      per-row scripts. */
  lemma RequestCleanup(instance: string, fs: Files, x: seq<string>, y: seq<string>, ids: seq<string>)
    ensures RemoveEach(fs[CardListScriptPath(instance) := x][CardsCsvPath(instance) := y] - RowPathSet(RequestScriptPrefix(instance), ids),
                       CleanupPaths(instance, instance, RequestCertificationKind))
      == (true, fs - ({CardListScriptPath(instance), CardsCsvPath(instance)} + RowPathSet(RequestScriptPrefix(instance), ids)))
  {
    RequestPathsAvoidFixed(instance);
    CleanupAfterRows(fs, CardListScriptPath(instance), x, CardsCsvPath(instance), y, RequestScriptPrefix(instance), ids);
  }

  /** After its loop, the approval workflow's cleanup succeeds and leaves the
      file system as it was, less the approval list script, the id file and the
      per-row scripts. */
  lemma ApproveCleanup(instance: string, fs: Files, x: seq<string>, y: seq<string>, ids: seq<string>)
    ensures RemoveEach(fs[ApprovalListScriptPath(instance) := x][ApprovalIdsPath(instance) := y] - RowPathSet(ApproveScriptPrefix(instance), ids),
                       CleanupPaths(instance, instance, ApproveCertificationKind))
      == (true, fs - ({ApprovalListScriptPath(instance), ApprovalIdsPath(instance)} + RowPathSet(ApproveScriptPrefix(instance), ids)))
  {
    ApprovePathsAvoidFixed(instance);
    CleanupAfterRows(fs, ApprovalListScriptPath(instance), x, ApprovalIdsPath(instance), y, ApproveScriptPrefix(instance), ids);
  }

  /** How many times `e` occurs in `log`. */
  function Occurrences(log: seq<LogEntry>, e: LogEntry): nat {
    if log == [] then 0 else Occurrences(log[..|log| - 1], e) + (if log[|log| - 1] == e then 1 else 0)
  }

  lemma {:induction false} OccurrencesAppend(a: seq<LogEntry>, b: seq<LogEntry>, e: LogEntry)
    ensures Occurrences(a + b, e) == Occurrences(a, e) + Occurrences(b, e)
  {
    if b != [] {
      var n := |b| - 1;
      assert (a + b)[..|a + b| - 1] == a + b[..n];
      OccurrencesAppend(a, b[..n], e);
    } else {
      assert a + b == a;
    }
  }

  /** One `create_output_files` call logs the invalid-type error once, unless
      the kind is `approve_certification`; a tool exit entry is never that error. */
  lemma RowInvalidTypeErrors(instance: string, kind: string, id: string, status: int)
    requires IsKnownKind(kind)
    ensures Occurrences(CreationLog(instance, kind, id), LogEntry(Error, InvalidTypeMessage(kind)))
      == if kind == ApproveCertificationKind then 0 else 1
    ensures Occurrences([ExecuteEntry(instance, status)], LogEntry(Error, InvalidTypeMessage(kind))) == 0
  {
    var e := LogEntry(Error, InvalidTypeMessage(kind));
    var info := LogEntry(Info, CreatedMessage(instance, kind, id));
    assert [ExecuteEntry(instance, status)][..0] == [];
    assert ExecuteEntry(instance, status).message[0] != e.message[0];
    assert Occurrences([info], e) == 0 by {
      assert [info][..0] == [];
    }
    if kind == ApproveCertificationKind {
      assert CreationLog(instance, kind, id) == [info];
    } else {
      assert CreationLog(instance, kind, id) == [info, e];
      assert [info, e][..1] == [info];
      assert Occurrences([info, e], e) == 1;
    }
  }

  /** Every request row logs the invalid-type error once (the kind test falls
      through to the `else` of the approval test); approval rows never do. */
  lemma {:induction false} RowsLogInvalidTypeErrors(instance: string, kind: string, ids: seq<string>, statuses: seq<int>)
    requires |ids| == |statuses|
    requires IsKnownKind(kind)
    ensures Occurrences(RowsLog(instance, kind, ids, statuses), LogEntry(Error, InvalidTypeMessage(kind)))
      == if kind == ApproveCertificationKind then 0 else |ids|
  {
    if ids != [] {
      var n := |ids| - 1;
      var e := LogEntry(Error, InvalidTypeMessage(kind));
      RowsLogInvalidTypeErrors(instance, kind, ids[..n], statuses[..n]);
      var before := RowsLog(instance, kind, ids[..n], statuses[..n]);
      var created := CreationLog(instance, kind, ids[n]);
      RowInvalidTypeErrors(instance, kind, ids[n], statuses[n]);
      assert RowsLog(instance, kind, ids, statuses) == before + created + [ExecuteEntry(instance, statuses[n])];
      OccurrencesAppend(before + created, [ExecuteEntry(instance, statuses[n])], e);
      OccurrencesAppend(before, created, e);
    }
  }

  /** The certifier: the configuration it was started with, the files it sees,
      the log it appends to and the scripts it has handed to the external
      tool, in order. */
  class Certifier {
    const cfg: Config
    var fs: Files
    var log: seq<LogEntry>
    var trace: seq<string>

    /** The log file is opened for writing at start-up, so it begins empty. */
    constructor (cfg: Config, files: Files)
      ensures this.cfg == cfg && fs == files && log == [] && trace == []
    {
      this.cfg := cfg;
      fs := files;
      log := [];
      trace := [];
    }

    /** `open(path, 'w')` followed by writing `lines`. */
    method WriteFile(path: string, lines: seq<string>)
      modifies this`fs
      ensures fs == old(fs)[path := lines]
    {
      fs := fs[path := lines];
    }

    /** `os.remove(path)`; `ok` is false when the path is absent and the call raises. */
    method Remove(path: string) returns (ok: bool)
      modifies this`fs
      ensures ok == (path in old(fs))
      ensures fs == if ok then old(fs) - {path} else old(fs)
    {
      ok := path in fs;
      if ok {
        fs := fs - {path};
      }
    }

    /** `create_output_files(username, pwd, file_type, card_id)`, with its
        four separate kind tests, the last one carrying the `else`. */
    method CreateOutputFiles(cred: Credential, fileType: string, cardId: string)
      modifies this`fs, this`log
      ensures fs == WriteScript(old(fs), ScriptFor(cfg, cred, fileType, cardId))
      ensures log == old(log) + CreationLog(cfg.instance, fileType, cardId)
    {
      var instance := cfg.instance;
      var connect := ConnectLine(cred, instance);
      if fileType == GetCardListKind {
        WriteFile(CardListScriptPath(instance), [connect, CommandLine(cfg, GetCardListKind, cardId)]);
        log := log + [LogEntry(Info, CreatedMessage(instance, GetCardListKind, cardId))];
      }
      if fileType == RequestCertificationKind {
        WriteFile(RequestScriptPath(instance, cardId), [connect, CommandLine(cfg, RequestCertificationKind, cardId)]);
        log := log + [LogEntry(Info, CreatedMessage(instance, RequestCertificationKind, cardId))];
      }
      if fileType == GetApprovalsKind {
        WriteFile(ApprovalListScriptPath(instance), [connect, CommandLine(cfg, GetApprovalsKind, cardId)]);
        log := log + [LogEntry(Info, CreatedMessage(instance, GetApprovalsKind, cardId))];
      }
      if fileType == ApproveCertificationKind {
        WriteFile(ApproveScriptPath(instance, cardId), [connect, CommandLine(cfg, ApproveCertificationKind, cardId)]);
        log := log + [LogEntry(Info, CreatedMessage(instance, ApproveCertificationKind, cardId))];
      } else {
        log := log + [LogEntry(Error, InvalidTypeMessage(fileType))];
      }
    }

    /** `execute_command(instance, script_file)`: the tool is handed the
        script, and its exit status (an input here) picks the log entry. */
    method ExecuteCommand(instance: string, scriptFile: string, status: int)
      modifies this`trace, this`log
      ensures trace == old(trace) + [scriptFile]
      ensures log == old(log) + [ExecuteEntry(instance, status)]
    {
      trace := trace + [scriptFile];
      if status != 0 {
        log := log + [LogEntry(Error, "Error executing command for " + instance + ": None")];
      } else {
        log := log + [LogEntry(Info, "Command executed successfully for " + instance + ": None")];
      }
    }

    /** `cleanup(instance, function)`; `ok` is false when an `os.remove` raised. */
    method Cleanup(instance: string, workflow: string) returns (ok: bool)
      modifies this`fs
      ensures (ok, fs) == RemoveEach(old(fs), CleanupPaths(instance, cfg.instance, workflow))
    {
      CleanupPathsShape(instance, cfg.instance, workflow);
      if workflow == RequestCertificationKind {
        ok := Remove(CardListScriptPath(instance));
        if ok {
          ok := Remove(CardsCsvPath(instance));
        }
      } else if workflow == ApproveCertificationKind {
        ok := Remove(ApprovalIdsPath(cfg.instance));
        if ok {
          ok := Remove(ApprovalListScriptPath(cfg.instance));
        }
      } else {
        ok := true;
      }
      RemoveTwo(old(fs), CleanupPaths(instance, cfg.instance, workflow));
    }

    /** The body of both workflow loops: write the row's script, hand it to
        the tool, then remove it again. */
    method ProcessRow(cred: Credential, kind: string, id: string, status: int)
      requires kind == RequestCertificationKind || kind == ApproveCertificationKind
      modifies this`fs, this`log, this`trace
      ensures fs == old(fs) - {ScriptPath(cfg.instance, kind, id)}
      ensures trace == old(trace) + [ScriptPath(cfg.instance, kind, id)]
      ensures log == old(log) + RowLog(cfg.instance, kind, id, status)
    {
      var path := ScriptPath(cfg.instance, kind, id);
      CreateOutputFiles(cred, kind, id);
      ExecuteCommand(cfg.instance, path, status);
      var removed := Remove(path);
      assert removed;
    }

    /** The loop of `request_certification`: every row after the header, in
        order, has the request script for its first field written, run and
        removed. `statuses[i]` is the tool's exit status for row `i`. */
    method RequestRows(cred: Credential, rows: seq<seq<string>>, statuses: seq<int>)
      requires CardRows(rows)
      requires |statuses| == |rows|
      modifies this`fs, this`log, this`trace
      ensures trace == old(trace) + RowPaths(RequestScriptPrefix(cfg.instance), CardIds(rows))
      ensures fs == old(fs) - RowPathSet(RequestScriptPrefix(cfg.instance), CardIds(rows))
      ensures log == old(log) + RowsLog(cfg.instance, RequestCertificationKind, CardIds(rows), statuses[1..])
    {
      var instance := cfg.instance;
      ghost var prefix := RequestScriptPrefix(instance);
      ghost var ids, st := CardIds(rows), statuses[1..];
      var i := 1;
      while i < |rows|
        invariant 1 <= i <= |rows|
        invariant TraceAfter(prefix, ids, i - 1, old(trace), trace)
        invariant FilesAfter(prefix, ids, i - 1, old(fs), fs)
        invariant LogAfter(instance, RequestCertificationKind, ids, st, i - 1, old(log), log)
      {
        var cardId := rows[i][0];
        assert cardId == ids[i - 1] && statuses[i] == st[i - 1];
        ghost var t, f, l := trace, fs, log;
        ProcessRow(cred, RequestCertificationKind, cardId, statuses[i]);
        TraceStep(prefix, ids, i - 1, old(trace), t);
        FilesStep(prefix, ids, i - 1, old(fs), f);
        LogStep(instance, RequestCertificationKind, ids, st, i - 1, old(log), l);
        i := i + 1;
      }
      assert ids[..|rows| - 1] == ids && st[..|rows| - 1] == st;
    }

    /** `request_certification(username, pwd)`. The tool, run on the list
        script, writes the card list `csvText`; `rows` is what `csv.reader`
        yields from it, header first. `statuses` are the tool's exit statuses,
        one per invocation. */
    method RequestCertification(cred: Credential, csvText: seq<string>, rows: seq<seq<string>>, statuses: seq<int>)
      requires CardRows(rows)
      requires |statuses| == |rows|
      modifies this`fs, this`log, this`trace
      ensures trace == old(trace) + [CardListScriptPath(cfg.instance)]
        + RowPaths(RequestScriptPrefix(cfg.instance), CardIds(rows))
      ensures fs == old(fs) - ({CardListScriptPath(cfg.instance), CardsCsvPath(cfg.instance)}
        + RowPathSet(RequestScriptPrefix(cfg.instance), CardIds(rows)))
      ensures log == old(log) + CreationLog(cfg.instance, GetCardListKind, "") + [ExecuteEntry(cfg.instance, statuses[0])]
        + RowsLog(cfg.instance, RequestCertificationKind, CardIds(rows), statuses[1..])
    {
      var instance := cfg.instance;
      CreateOutputFiles(cred, GetCardListKind, "");
      ExecuteCommand(instance, CardListScriptPath(instance), statuses[0]);
      // The tool has written the card list the script asked for.
      WriteFile(CardsCsvPath(instance), csvText);
      ghost var script := ScriptFor(cfg, cred, GetCardListKind, "").value.lines;
      assert fs == old(fs)[CardListScriptPath(instance) := script][CardsCsvPath(instance) := csvText];
      RequestRows(cred, rows, statuses);
      RequestCleanup(instance, old(fs), script, csvText, CardIds(rows));
      var cleaned := Cleanup(instance, RequestCertificationKind);
      assert cleaned;
    }

    /** The loop of `approve_certification`: every id, in order, has its
        approve script written, run and removed. `statuses[k]` is the tool's
        exit status for id `k`. */
    method ApproveRows(cred: Credential, values: seq<string>, statuses: seq<int>)
      requires |statuses| == |values|
      modifies this`fs, this`log, this`trace
      ensures trace == old(trace) + RowPaths(ApproveScriptPrefix(cfg.instance), values)
      ensures fs == old(fs) - RowPathSet(ApproveScriptPrefix(cfg.instance), values)
      ensures log == old(log) + RowsLog(cfg.instance, ApproveCertificationKind, values, statuses)
    {
      var instance := cfg.instance;
      ghost var prefix := ApproveScriptPrefix(instance);
      var j := 0;
      while j < |values|
        invariant 0 <= j <= |values|
        invariant TraceAfter(prefix, values, j, old(trace), trace)
        invariant FilesAfter(prefix, values, j, old(fs), fs)
        invariant LogAfter(instance, ApproveCertificationKind, values, statuses, j, old(log), log)
      {
        var approvalId := values[j];
        ghost var t, f, l := trace, fs, log;
        ProcessRow(cred, ApproveCertificationKind, approvalId, statuses[j]);
        TraceStep(prefix, values, j, old(trace), t);
        FilesStep(prefix, values, j, old(fs), f);
        LogStep(instance, ApproveCertificationKind, values, statuses, j, old(log), l);
        j := j + 1;
      }
      assert values[..|values|] == values && statuses[..|values|] == statuses;
    }

    /** `approve_certification(username, pwd)`. The tool, run on the
        approval list script, writes the lines `idsText`; the ids are the
        comma-separated pieces of its stripped first line. `statuses` are the
        tool's exit statuses, one per invocation. */
    method ApproveCertification(cred: Credential, idsText: seq<string>, statuses: seq<int>)
      requires |statuses| == |ApprovalIds(idsText)| + 1
      modifies this`fs, this`log, this`trace
      ensures trace == old(trace) + [ApprovalListScriptPath(cfg.instance)]
        + RowPaths(ApproveScriptPrefix(cfg.instance), ApprovalIds(idsText))
      ensures fs == old(fs) - ({ApprovalListScriptPath(cfg.instance), ApprovalIdsPath(cfg.instance)}
        + RowPathSet(ApproveScriptPrefix(cfg.instance), ApprovalIds(idsText)))
      ensures log == old(log) + CreationLog(cfg.instance, GetApprovalsKind, "") + [ExecuteEntry(cfg.instance, statuses[0])]
        + RowsLog(cfg.instance, ApproveCertificationKind, ApprovalIds(idsText), statuses[1..])
    {
      var instance := cfg.instance;
      CreateOutputFiles(cred, GetApprovalsKind, "");
      ExecuteCommand(instance, ApprovalListScriptPath(instance), statuses[0]);
      // The tool has written the pending approval ids the script asked for.
      WriteFile(ApprovalIdsPath(instance), idsText);
      var row := Strip(FirstLine(fs[ApprovalIdsPath(instance)]));
      var values := Split(row, ',');
      ghost var script := ScriptFor(cfg, cred, GetApprovalsKind, "").value.lines;
      assert fs == old(fs)[ApprovalListScriptPath(instance) := script][ApprovalIdsPath(instance) := idsText];
      ApproveRows(cred, values, statuses[1..]);
      ApproveCleanup(instance, old(fs), script, idsText, values);
      var cleaned := Cleanup(instance, ApproveCertificationKind);
      assert cleaned;
    }
  }
}

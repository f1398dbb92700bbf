/** The text the certifier produces: the paths of its script and output files,
    the two lines of each generated script, and the messages it logs. All of it
    is a pure function of the configuration, the credential, the script kind and
    the row id and, for the entry logged after a tool run, the tool's exit status. */
module CertifyText {

  datatype Option<T> = None | Some(value: T)

  /** The values read once from the configuration file. */
  datatype Config = Config(instance: string, certificationId: string, datasetId: string)

  /** The user name given on the command line and the password typed at the prompt. */
  datatype Credential = Credential(username: string, password: string)

  /** A script file to write: where, and its lines (without line terminators). */
  datatype Script = Script(path: string, lines: seq<string>)

  datatype Level = Info | Error

  /** One line of the process log, without its timestamp. */
  datatype LogEntry = LogEntry(level: Level, message: string)

  // The four script kinds `create_output_files` knows.
  const GetCardListKind: string := "get_card_list"
  const RequestCertificationKind: string := "request_certification"
  const GetApprovalsKind: string := "get_approvals"
  const ApproveCertificationKind: string := "approve_certification"

  predicate IsKnownKind(kind: string) {
    kind == GetCardListKind || kind == RequestCertificationKind
    || kind == GetApprovalsKind || kind == ApproveCertificationKind
  }

  /** The directory every script and output file lives in. */
  const ScriptDir: string := "cli_script_files/"

  function CardListScriptPath(instance: string): string {
    ScriptDir + instance + "_get_card_list"
  }

  /** Where the tool writes the card list that the list script queries. */
  function CardsCsvPath(instance: string): string {
    ScriptDir + instance + "_cards_to_certify.csv"
  }

  function RequestScriptPrefix(instance: string): string {
    ScriptDir + instance + "_request_certification_card_"
  }

  function RequestScriptPath(instance: string, cardId: string): string {
    RequestScriptPrefix(instance) + cardId
  }

  function ApprovalListScriptPath(instance: string): string {
    ScriptDir + instance + "_approval_list"
  }

  /** Where the tool writes the pending approval ids that the approval list script asks for. */
  function ApprovalIdsPath(instance: string): string {
    ScriptDir + instance + "_approval_id_list.csv"
  }

  function ApproveScriptPrefix(instance: string): string {
    ScriptDir + instance + "_approve_cert_request_"
  }

  function ApproveScriptPath(instance: string, approvalId: string): string {
    ApproveScriptPrefix(instance) + approvalId
  }

  /** The path a script of `kind` is written to. It depends on the instance,
      the kind and (for the two per-row kinds) the row id, and on nothing else. */
  function ScriptPath(instance: string, kind: string, id: string): (r: string)
    requires IsKnownKind(kind)
    ensures |r| > |ScriptDir + instance| + 1
    ensures r[..|ScriptDir + instance| + 1] == ScriptDir + instance + "_"
  {
    if kind == GetCardListKind then CardListScriptPath(instance)
    else if kind == RequestCertificationKind then RequestScriptPath(instance, id)
    else if kind == GetApprovalsKind then ApprovalListScriptPath(instance)
    else ApproveScriptPath(instance, id)
  }

  /** The first line of every script: log in to the instance. */
  function ConnectLine(cred: Credential, instance: string): string {
    "connect -u " + cred.username + " -p " + cred.password + " -s " + instance + ".domo.com"
  }

  /** The second line of each kind of script. The trailing blanks of three of
      them are part of the text written. */
  function CommandLine(cfg: Config, kind: string, id: string): string
    requires IsKnownKind(kind)
  {
    if kind == GetCardListKind then
      "query-data -i " + cfg.datasetId + " -xf " + CardsCsvPath(cfg.instance)
      + " -sql \"SELECT `Card ID`, `Title` FROM `" + cfg.datasetId + "`\" "
    else if kind == RequestCertificationKind then
      "request-certification -i " + cfg.certificationId + " -c " + id + " "
    else if kind == GetApprovalsKind then
      "get-needed-approvals -c 10000 -f " + ApprovalIdsPath(cfg.instance) + " "
    else
      "approve-certification -i " + id
  }

  /** The script `create_output_files` writes for `kind`, if it writes one. */
  function ScriptFor(cfg: Config, cred: Credential, kind: string, id: string): (r: Option<Script>)
    ensures r.Some? <==> IsKnownKind(kind)
    ensures r.Some? ==> |r.value.lines| == 2 && r.value.lines[0] == ConnectLine(cred, cfg.instance)
  {
    if IsKnownKind(kind) then
      Some(Script(ScriptPath(cfg.instance, kind, id), [ConnectLine(cred, cfg.instance), CommandLine(cfg, kind, id)]))
    else
      None
  }

  /** The success message logged after writing a script of `kind`. */
  function CreatedMessage(instance: string, kind: string, id: string): string
    requires IsKnownKind(kind)
  {
    if kind == GetCardListKind then "File " + instance + "_get_card_list created successfully"
    else if kind == RequestCertificationKind then
      "File " + instance + "_request_certification for " + id + " created successfully"
    else if kind == GetApprovalsKind then "File " + instance + "_approval_id_list.csv created successfully"
    else "File " + instance + "_approve_cert_request_" + id + " created successfully"
  }

  function InvalidTypeMessage(kind: string): string {
    "Invalid file type " + kind + " provided."
  }

  /** What one call of `create_output_files` logs. The four kind tests are
      separate `if`s and only the last has an `else`, so the invalid-type error
      follows every kind except `approve_certification`, the three other valid
      kinds included. */
  function CreationLog(instance: string, kind: string, id: string): (r: seq<LogEntry>)
    ensures 1 <= |r| <= 2
    ensures |r| == 2 <==> IsKnownKind(kind) && kind != ApproveCertificationKind
  {
    (if IsKnownKind(kind) then [LogEntry(Info, CreatedMessage(instance, kind, id))] else [])
    + (if kind != ApproveCertificationKind then [LogEntry(Error, InvalidTypeMessage(kind))] else [])
  }

  /** What `execute_command` logs after the tool exits with `status`. No pipe
      is attached to the child, so the captured output and error are both
      Python's `None`. */
  function ExecuteEntry(instance: string, status: int): (e: LogEntry)
    ensures e.level == Error <==> status != 0
  {
    if status != 0 then LogEntry(Error, "Error executing command for " + instance + ": None")
    else LogEntry(Info, "Command executed successfully for " + instance + ": None")
  }

  /** Every generated script has two lines, a connect line and a
      kind-specific command, and is written exactly for the four known kinds. */
  lemma ScriptShape(cfg: Config, cred: Credential, kind: string, id: string)
    ensures ScriptFor(cfg, cred, kind, id).Some? <==> IsKnownKind(kind)
    ensures ScriptFor(cfg, cred, kind, id).Some? ==>
      var s := ScriptFor(cfg, cred, kind, id).value;
      && |s.lines| == 2
      && s.lines[0] == "connect -u " + cred.username + " -p " + cred.password + " -s " + cfg.instance + ".domo.com"
      && s.path == ScriptPath(cfg.instance, kind, id)
    ensures kind == GetCardListKind ==>
      ScriptFor(cfg, cred, kind, id).value.lines[1]
        == "query-data -i " + cfg.datasetId + " -xf " + CardsCsvPath(cfg.instance)
           + " -sql \"SELECT `Card ID`, `Title` FROM `" + cfg.datasetId + "`\" "
    ensures kind == RequestCertificationKind ==>
      ScriptFor(cfg, cred, kind, id).value.lines[1]
        == "request-certification -i " + cfg.certificationId + " -c " + id + " "
    ensures kind == GetApprovalsKind ==>
      ScriptFor(cfg, cred, kind, id).value.lines[1]
        == "get-needed-approvals -c 10000 -f " + ApprovalIdsPath(cfg.instance) + " "
    ensures kind == ApproveCertificationKind ==>
      ScriptFor(cfg, cred, kind, id).value.lines[1] == "approve-certification -i " + id
  {
  }

  /** Two calls with the same instance, kind and id write to the same path,
      whatever certification id, dataset id and credential they were given. */
  lemma ScriptDeterministic(cfg1: Config, cfg2: Config, cred1: Credential, cred2: Credential, kind: string, id: string)
    requires cfg1.instance == cfg2.instance
    requires IsKnownKind(kind)
    ensures ScriptFor(cfg1, cred1, kind, id).value.path == ScriptFor(cfg2, cred2, kind, id).value.path
  {
  }

  /** The invalid-type error is logged exactly when the kind is not
      `approve_certification`, and then once. */
  lemma InvalidTypeLoggedIff(instance: string, kind: string, id: string)
    ensures LogEntry(Error, InvalidTypeMessage(kind)) in CreationLog(instance, kind, id)
      <==> kind != ApproveCertificationKind
    ensures kind != ApproveCertificationKind ==>
      CreationLog(instance, kind, id)[|CreationLog(instance, kind, id)| - 1] == LogEntry(Error, InvalidTypeMessage(kind))
  {
  }

  /** A kind outside the four known ones writes nothing and logs only the
      invalid-type error. */
  lemma UnknownKindOnlyLogs(cfg: Config, cred: Credential, kind: string, id: string)
    requires !IsKnownKind(kind)
    ensures ScriptFor(cfg, cred, kind, id) == None
    ensures CreationLog(cfg.instance, kind, id) == [LogEntry(Error, InvalidTypeMessage(kind))]
  {
  }

  /** Different row ids give different per-row script files. */
  lemma RowPathsInjective(instance: string, a: string, b: string)
    ensures RequestScriptPath(instance, a) == RequestScriptPath(instance, b) ==> a == b
    ensures ApproveScriptPath(instance, a) == ApproveScriptPath(instance, b) ==> a == b
  {
    var rp, ap := RequestScriptPrefix(instance), ApproveScriptPrefix(instance);
    assert RequestScriptPath(instance, a)[|rp|..] == a;
    assert RequestScriptPath(instance, b)[|rp|..] == b;
    assert ApproveScriptPath(instance, a)[|ap|..] == a;
    assert ApproveScriptPath(instance, b)[|ap|..] == b;
  }

  /** No per-row script of the request workflow lands on one of its two fixed
      files, and those two differ. */
  lemma RequestPathsAvoidFixed(instance: string)
    ensures forall id :: RequestScriptPath(instance, id) != CardListScriptPath(instance)
    ensures forall id :: RequestScriptPath(instance, id) != CardsCsvPath(instance)
    ensures CardListScriptPath(instance) != CardsCsvPath(instance)
  {
    var n := |ScriptDir + instance| + 1;
    assert CardListScriptPath(instance)[n] == 'g';
    assert CardsCsvPath(instance)[n] == 'c';
    forall id ensures RequestScriptPath(instance, id)[n] == 'r' {
    }
  }

  /** No per-row script of the approval workflow lands on one of its two fixed
      files, and those two differ. */
  lemma ApprovePathsAvoidFixed(instance: string)
    ensures forall id :: ApproveScriptPath(instance, id) != ApprovalListScriptPath(instance)
    ensures forall id :: ApproveScriptPath(instance, id) != ApprovalIdsPath(instance)
    ensures ApprovalListScriptPath(instance) != ApprovalIdsPath(instance)
  {
    var n := |ScriptDir + instance| + 1;
    assert ApprovalListScriptPath(instance)[n + 6] == 'a';
    assert ApprovalIdsPath(instance)[n + 6] == 'a';
    assert ApprovalListScriptPath(instance)[n + 9] == 'l';
    assert ApprovalIdsPath(instance)[n + 9] == 'i';
    forall id ensures ApproveScriptPath(instance, id)[n + 6] == 'e' {
    }
  }
}

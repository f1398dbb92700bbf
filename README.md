# Bulk card certifier, modelled in Dafny

`certify.py` automates card certification in a Domo instance by driving an
external command-line tool. For each step it:

1. writes a short two-line script (a `connect` line, then one tool command);
2. hands the script to the tool;
3. reads the CSV or comma-separated file the tool produced;
4. for each id in that file, writes that id's script, hands it to the tool and removes it. For the card list the ids are the first field of every row after the header. For the approval file they are the comma-separated pieces of its stripped first line, and later lines are ignored;
5. deletes its temporary files.

There are two workflows:

- **Request.** Fetch the card list from a dataset, then request certification for every card in it.
- **Approve.** Fetch the ids of pending approvals, then approve each one.

The model is a class `Certify.Certifier` with three pieces of state:

- `fs`: the file system, as a map from path to lines;
- `log`: the process log, as (level, message) pairs;
- `trace`: the script paths handed to the external tool, in order.

The configuration (instance, certification id, dataset id) is fixed when the class is constructed.

Everything the program writes is a pure function of the configuration, the credential, the script kind and the row id and, for the entry logged after each tool run, the tool's exit status. This covers:

- script paths;
- script lines;
- log messages.

These functions live in `CertifyText` (`certify_text.dfy`).

The Python string built-ins the approval workflow relies on live in `PyStr` (`py_str.dfy`). They are `str.strip()`, `str.split(',')`, and `join`/`count` to state what `split` does.

The methods in `certify.dfy` follow the source's control flow. This includes the `if`/`if`/`if`/`if`-`else` chain of `create_output_files`, which is reproduced as written: the "Invalid file type" error is logged for every kind except `approve_certification`, including the three valid kinds. Each workflow method states its complete effect:

- the exact trace;
- the exact new file system: the old one minus the list script, the tool's output file and every per-row script;
- the exact log.

Lemmas then prove what those effects mean: one invocation per row, in order, and how many times the invalid-type error appears.

## Model

| member | source | states |
|---|---|---|
| PyStr.StripStart | certify.py:65 | the result is no longer than the input; everything dropped from the front is whitespace (`str.isspace`); the result does not start with whitespace |
| PyStr.StripEnd | certify.py:65 | the result is no longer than the input; everything dropped from the end is whitespace; the result does not end with whitespace |
| PyStr.StripStartIsSuffix | certify.py:65 | what left-stripping keeps is a suffix of the input |
| PyStr.StripEndIsPrefix | certify.py:65 | what right-stripping keeps is a prefix of the input |
| PyStr.StripIsSlice | certify.py:65 | `strip()` returns a contiguous slice of the line; everything before and after that slice is whitespace |
| PyStr.StripIsTrimmed | certify.py:65 | a stripped line is empty, or it starts and ends with a non-whitespace character |
| PyStr.StripIdempotent | certify.py:65 | stripping twice gives the same result as stripping once |
| PyStr.IsSpace | certify.py:65 | Python's `str.isspace` on one character: exactly the 29 whitespace code points (tab to carriage return, the four information separators, space, NEL, no-break space, Ogham space mark, U+2000 to U+200A, line and paragraph separators, narrow no-break space, medium mathematical space, ideographic space) |
| PyStr.Strip | certify.py:65 | `strip()` with no argument: right-stripping the left-stripped line. The result is no longer than the line and does not end with whitespace (StripIsSlice and StripIsTrimmed give the rest) |
| PyStr.Split | certify.py:66 | `split(sep)` always yields at least one piece, and no piece contains the separator |
| PyStr.SplitLength | certify.py:66 | the number of pieces is the number of separators plus one (an empty line gives one empty piece) |
| PyStr.JoinSplit | certify.py:66 | joining the pieces with the separator gives back the line, so empty pieces are kept and nothing is lost |
| PyStr.SplitAfterWord | certify.py:66 | a separator-free word in front of more text is glued onto the first piece of that text |
| PyStr.SplitJoin | certify.py:66 | splitting a join of separator-free pieces gives back exactly those pieces, so `split` is the inverse of `join` |
| CertifyText.ScriptPath | certify.py:79-97 | the path of each known kind's script: `cli_script_files/<instance>_get_card_list`, `…_request_certification_card_<id>`, `…_approval_list` or `…_approve_cert_request_<id>`. Every such path starts with `cli_script_files/<instance>_` and continues beyond it |
| CertifyText.ConnectLine | certify.py:80 | the first script line `connect -u <user> -p <password> -s <instance>.domo.com`, the same for all four kinds (lines 80, 86, 92, 98) |
| CertifyText.CommandLine | certify.py:81-99 | the second script line of each kind, with the trailing blanks of lines 81, 87 and 93 and none on line 99 |
| CertifyText.ScriptFor | certify.py:78-99 | the script `create_output_files` writes: present exactly for the four known kinds, always two lines, the first being the connect line |
| CertifyText.CreatedMessage | certify.py:82-100 | the success message of each known kind, with the texts of lines 82, 88, 94 and 100 (the `get_approvals` message names the id file, not the script) |
| CertifyText.InvalidTypeMessage | certify.py:102 | `Invalid file type <kind> provided.` |
| CertifyText.CreationLog | certify.py:78-102 | what one `create_output_files` call logs: the success entry of a known kind, then the invalid-type error for every kind but `approve_certification`. Every call logs one or two entries, two exactly for the three known kinds other than `approve_certification` |
| CertifyText.ExecuteEntry | certify.py:111-114 | the entry `execute_command` logs: an error exactly when the exit status is non-zero, carrying the instance and `None` |
| CertifyText.ScriptShape | certify.py:79-99 | a script is written exactly for the four known kinds. It has two lines: line 1 is `connect -u <user> -p <password> -s <instance>.domo.com`; line 2 is the kind's command: `query-data -i <dataset> -xf <card CSV> -sql "SELECT …" `, `request-certification -i <cert> -c <id> `, `get-needed-approvals -c 10000 -f <id file> ` or `approve-certification -i <id>`. Its path is the kind's path |
| CertifyText.ScriptDeterministic | certify.py:79-97 | the path written depends only on the instance, the kind and the id, not on the credential, the certification id or the dataset |
| CertifyText.InvalidTypeLoggedIff | certify.py:78-102 | "Invalid file type … provided." is logged if and only if the kind is not `approve_certification`; when it is logged, it is the call's last entry |
| CertifyText.UnknownKindOnlyLogs | certify.py:78-102 | an unknown kind writes no script and logs only the invalid-type error |
| CertifyText.RowPathsInjective | certify.py:85-97 | different row ids give different request (and approve) script paths |
| CertifyText.RequestPathsAvoidFixed | certify.py:49-57 | no request script can coincide with the card-list script or the card CSV, and those two paths differ |
| CertifyText.ApprovePathsAvoidFixed | certify.py:63-72 | no approve script can coincide with the approval-list script or the approval id file, and those two paths differ |
| Certify.WriteScript | certify.py:79-97 | the file system after `create_output_files`: unchanged when no script is written; otherwise the script's path gains the script's lines and every other file keeps its content |
| Certify.CleanupPaths | certify.py:117-123 | the paths `cleanup` removes, in order: the list script then the card CSV (built from the argument) for `request_certification`; the id file then the approval-list script (built from the configured instance) for `approve_certification`; none otherwise |
| Certify.FirstLine | certify.py:65 | `readline()`: the first line of the file, or `""` for an empty file |
| Certify.ApprovalIds | certify.py:65-66 | the ids `approve_certification` iterates over: the comma pieces of the stripped first line; there is always at least one |
| Certify.CardIds | certify.py:52-54 | the card ids `request_certification` iterates over: one per row after the header, the k-th being the first field of data row k |
| Certify.RowLog | certify.py:55-57 | what one loop iteration logs: two or three entries, the creation entries followed by the tool's exit entry |
| Certify.RowsLog | certify.py:53-72 | what a whole loop logs: each id's row entries in order, so between two and three entries per id |
| Certify.WriteScriptIdempotent | certify.py:79-97 | writing the same script again leaves the same file system |
| Certify.RemoveEach | certify.py:119-123 | a run of `os.remove` calls only deletes files, leaves the content of the remaining files unchanged, and deletes only the listed paths |
| Certify.RemoveEachExactly | certify.py:117-123 | removing distinct paths succeeds if and only if every path exists; it then removes exactly that set of paths |
| Certify.RemoveTwo | certify.py:117-123 | two removals: an absent first path stops the run with nothing removed; an absent second path stops it after the first removal; otherwise both files are removed |
| Certify.CleanupPathsShape | certify.py:117-123 | cleanup names two distinct files for `request_certification` and two for `approve_certification`, and none for any other name |
| Certify.ApprovalIdsAreFirstLinePieces | certify.py:64-67 | the approval ids are the comma-separated pieces of the stripped first line. There are commas + 1 of them, and they join back to that line. Lines after the first are ignored. An empty file gives the single id `""` |
| Certify.RowPathsAt | certify.py:53-57 | the per-row trace has one path per id: the k-th is the prefix followed by the k-th id. The set of per-row paths is exactly those paths |
| Certify.RowPathSetAvoids | certify.py:53-58 | a path that is not of the form prefix + id is never one of the per-row paths |
| Certify.RequestTraceShape | certify.py:48-56 | the request workflow invokes the list script first, then the request script of each data row's first field, in order. N data rows give exactly N request invocations, and the header row gives none |
| Certify.CleanupAfterRows | certify.py:53-58 | after the loop, cleanup of the two fixed files succeeds in either order. The result is the original file system minus those two files and the per-row scripts |
| Certify.RequestCleanup | certify.py:47-58 | at the end of the request workflow the cleanup finds both its files. The workflow removes exactly the list script, the card CSV and the request scripts |
| Certify.ApproveCleanup | certify.py:61-73 | at the end of the approval workflow the cleanup finds both its files. The workflow removes exactly the list script, the id file and the approve scripts |
| Certify.RowInvalidTypeErrors | certify.py:84-102 | one request row logs the invalid-type error once; one approve row never logs it; a tool exit entry is never that error |
| Certify.RowsLogInvalidTypeErrors | certify.py:53-72 | over a whole loop, the invalid-type error appears once per request row and never for approve rows |
| Certify.Certifier.constructor | certify.py:34-44 | the configuration is fixed; the log (opened with mode `w`) and the trace start empty |
| Certify.Certifier.WriteFile | certify.py:79-81 | opening with `w` and writing replaces the file's content and changes nothing else |
| Certify.Certifier.Remove | certify.py:57 | `os.remove` succeeds exactly when the file exists, and then removes only that file |
| Certify.Certifier.CreateOutputFiles | certify.py:76-104 | the new file system is the old one with the kind's script written (unchanged for an unknown kind). The log gains the success entry of a known kind, followed by the invalid-type error unless the kind is `approve_certification` |
| Certify.Certifier.ExecuteCommand | certify.py:107-114 | the script is appended to the trace. A non-zero exit status logs the error entry, zero logs the success entry; both carry the instance and `None` |
| Certify.Certifier.Cleanup | certify.py:117-123 | the files removed, their order and the stop at the first absent file are those of `RemoveEach` over the cleanup paths. The request branch uses its argument; the approve branch uses the configured instance |
| Certify.Certifier.ProcessRow | certify.py:55-57 | one loop body: the row's script is run (appended to the trace), then removed, so the file system is unchanged except that this path is gone. The log gains the row's creation and exit entries |
| Certify.Certifier.RequestRows | certify.py:50-57 | for the data rows after the header, in order: their request scripts are the trace; none of them is left in the file system; the log holds each row's entries |
| Certify.Certifier.RequestCertification | certify.py:47-58 | the whole request workflow. Trace = list script, then one request script per data row. File system = the old one minus the list script, the card CSV and every request script. The log is given exactly |
| Certify.Certifier.ApproveRows | certify.py:67-72 | for each id, in order: its approve script is in the trace; none is left in the file system; the log holds each id's entries |
| Certify.Certifier.ApproveCertification | certify.py:61-73 | the whole approval workflow over the comma-separated pieces of the stripped first line of the tool's id file. Trace = list script, then one approve script per piece. File system = the old one minus the list script, the id file and every approve script. The log is given exactly |

## Left out

- The external Java tool (`java -jar domoUtil.jar`) is not run.
  - An invocation is an append to `trace`.
  - Its exit status is an input: the `statuses` parameter of each workflow.
  - The file the tool writes is an input, written into `fs` right after the list invocation: `csvText` for the card list, `idsText` for the approval ids. It is written whatever the exit status. In the source, if the tool writes no file (for example after a failed login), the `open` at certify.py:50 or 64 raises `FileNotFoundError`. The run then ends with the list script, which holds the password in clear text, still on disk. The `assert cleaned` in `Certify.Certifier.RequestCertification` and `Certify.Certifier.ApproveCertification` holds only under this assumption.
  - No pipes are attached, so `communicate()` returns `None`. The log messages therefore end in `: None`.
- `configparser` loading of `config.ini` (lines 34-40): the three values are the constructor's `Config`.
- `argparse`, `getpass`, and the module-level dispatch (lines 126-144) are command-line plumbing. Lines 141-144 sit outside the `__main__` guard.
- `csv.reader` dialect and quoting (line 51): the rows are passed pre-parsed next to the file's text, and nothing ties the two together.
  - `RequestCertification` requires at least a header row, because `next` raises on an empty file.
  - It also requires a first field in every data row, because `row[0]` raises otherwise.
- Log timestamps and the line format (lines 43-44): an entry is a level and a message.
- Exceptions while writing a script inside `create_output_files` (lines 103-104): the model's file writes always succeed, so the "An error occurred while creating files" entry is never logged. In the source, a write that fails at line 85 or 97 (for instance an id containing `/` that names a missing directory) is caught, but the script file then does not exist, so the `os.remove` at line 57 or 72 raises and ends the run before cleanup. The `assert removed` in `Certify.Certifier.ProcessRow` holds only because of this assumption.
- `print(approval_id)` (line 69): output to the terminal.
- Line terminators: file content is a sequence of lines without their `\n`, so `readline()` is modelled as the first line. The trailing newline that `strip()` removes is therefore not part of the model. Leading or trailing whitespace inside the line is stripped as in Python.
- A failed tool run logs `Error executing command for <instance>: None` (certify.py:112). The row id appears only in the creation entry.
- No `os.remove` call (certify.py:57, 72, 119-123) is inside a `try`, so a failed removal raises and ends the run. `Remove` and `Cleanup` return that failure as `ok == false`. Both workflows assert that their cleanup succeeds, and no removal inside a loop fails.
- CertifyText.ScriptShape: the model assumes the username, password, configuration values and row ids contain no line breaks, so "two lines" is a fact about the model's representation of a file as a sequence of lines. A value with an embedded `\n` or `\r` makes certify.py:80-99 write a file of three or more lines, and `csv.reader` (line 51) can return such a card id from a quoted field. Likewise, the elements of `idsText` are assumed to be real lines, free of line breaks: given `["55\n56"]` the model yields the single id `"55\n56"`, where `readline()` (line 65) on the real file would stop at the first `\n` and yield `["55"]`.

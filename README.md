# tsh job control, modelled in Dafny

`tsh` is a small Unix shell with job control. It reads a command line, runs
builtins (`quit`, `jobs`, `bg`, `fg`) itself and forks a child for anything
else; a foreground child is waited for, a background one is announced as
`[jid] (pid) cmdline`. A job list maps job ids to (pid, state, command line)
with states FG, BG and ST (stopped). The SIGCHLD handler reaps every child
whose status changed: a stop marks the job ST and prints
`Job [jid] (pid) stopped by signal n`, a signal death prints
`Job [jid] (pid) terminated by signal n` and deletes the job, a normal exit
deletes it silently, and a continue marks it FG. `bg` and `fg` take a
`%jid` or a pid, resolve it with `strtol`, and print exactly one error line
for each kind of bad argument.

This project models that core — the job list, the reaper, the `bg`/`fg`
argument checks, the bookkeeping of launching a command and the foreground
wait — and proves what the shell promises about it.

Files, one module each:

- `jobtable.dfy` (`JobTable`): the job list as `map<int, Job>` and the
  contracts of the job-list helpers `eval` and the handler call
  (`job_from_pid`, `fg_job`, `job_set_state`, `delete_job`, `add_job`). tsh's
  helper library (tsh_helper.c) is not part of this model: each helper is a
  function with one body meeting the contract tsh.c relies on, and everything
  else is proved from those contracts only.
- `text.dfy` (`Text`): decimal printing (`%d`), C `strtol(s, NULL, 10)`
  (leading white space, optional sign, digits, clamping to the 64-bit
  `long` range) and the truncation of its result to a 32-bit `int`.
- `messages.dfy` (`Messages`): every line the core prints, and the errno
  report used for `open` and `execve` failures.
- `reaper.dfy` (`Reaper`): one status (`Handle`) and a whole drain (`Reap`).
- `fgwait.dfy` (`ForegroundWait`): the wait-loop condition and how wake-ups
  of the sleeping shell end it.
- `builtins.dfy` (`Builtins`): argument resolution and the effect of `bg` and `fg`.
- `launch.dfy` (`Launch`): the forked child's redirections and `execve`, and
  the lines of the `jobs` builtin.
- `shell.dfy` (`Shell`): class `Shell` holding the job list and the terminal
  output, whose methods are the handler's loop, the wait loop, the launch,
  the builtins and `eval`'s dispatch, each proved against the functions above.
- `wrappers.dfy` (`Wrappers`): `Option`.

What the operating system supplies becomes a parameter: the pid `fork`
returns, the jid `add_job` allocates (any positive jid not in use), the
statuses `waitpid` reports at each SIGCHLD (a sequence of notifications per
handler run, and a sequence of such runs for the wake-ups of a wait), and the
results of `open`, `execve` and `list_jobs`.

Where the code differs from its written description, the model follows the code:

- A status for a pid with no job still prints its stop or termination line,
  with jid 0 (`Job [0] (pid) ...`); the table is left alone because the
  helpers ignore jid 0.
- `waitpid` is called with `WNOHANG | WUNTRACED` but without `WCONTINUED`, so
  on Linux the continue branch of the handler is never taken. The branch is
  modelled as written.
- "At most one FG job" is not an invariant of the code: `ForegroundNotUnique`
  shows a continue of a background job making two FG jobs. With at most one FG
  job the wait condition means exactly "an FG job of this pid exists"
  (`WaitingExactly`).
- The `strtol` result lands in a 32-bit `jid_t`/`pid_t`. So `%4294967297`
  names job 1, as does any number congruent to 1 modulo 2^32 (`ResolveJidModulo`), and `%abc` names jid 0, so it is
  "No such job" (`ResolveJidWithoutDigits`).

## Model

| member | source | states |
|---|---|---|
| JobTable.JobFromPid | tsh.c:397 | returns 0 exactly when no job has the pid, otherwise an allocated jid whose job has that pid |
| JobTable.FgJob | tsh.c:254 | returns 0 exactly when no job is FG, otherwise an allocated jid whose job is FG |
| JobTable.SetState | tsh.c:399 | only the state of the named job changes; the same jids stay allocated; jid 0 or an unknown jid changes nothing; positive jids and distinct pids are kept |
| JobTable.Delete | tsh.c:405 | exactly the named jid is freed and every other job is kept unchanged |
| JobTable.AddAt | tsh.c:253 | the new jid maps to the new job, every old job is kept, and the table stays well formed when the pid is new |
| Text.StrToL | tsh.c:314 | the result stays within the 64-bit long range |
| Text.ToInt32 | tsh.c:314 | the result is an int32, congruent to its input modulo 2^32, and equal to the input when that is already in range |
| Text.ValueOfShowNat | tsh.c:266 | the decimal digits printed by `%d` for n denote n |
| Text.ParseShowNat | tsh.c:323 | strtol reads back a printed number, whatever non-digit text follows it |
| Text.ParseNoDigits | tsh.c:314 | strtol of text that starts with neither white space, sign nor digit is 0 |
| Messages.JobLine | tsh.c:266 | the `[jid] (pid) cmdline` line opens with a bracket and ends with the command line |
| Messages.StoppedLine | tsh.c:400-401 | the stop line opens with `Job [` |
| Messages.TerminatedLine | tsh.c:403-404 | the termination line opens with `Job [` |
| Messages.JobIdsReadBack | tsh.c:331 | the jid printed in the job line and in the stop and termination lines reads back with strtol from just after the bracket |
| Messages.StoppedIsNotTerminated | tsh.c:400-404 | for the same job, the stop line and the termination line differ |
| Messages.MissingArgumentLine | tsh.c:302 | "name command requires PID or %jobid argument" leads with the builtin's name |
| Messages.BadArgumentLine | tsh.c:308 | "name: argument must be a PID or %jobid" leads with the builtin's name |
| Messages.NoSuchJobLine | tsh.c:316 | "arg: No such job" echoes the argument as given |
| Messages.ErrnoMessage | tsh.c:212-217 | a report exactly for errno 2 and 13, with the exact text "path: No such file or directory" / "path: Permission denied" |
| Messages.ErrnoLines | tsh.c:285-290 | at most one line, none exactly when errno is neither 2 nor 13, never the list-failure line |
| Messages.ErrnoMessagesDistinct | tsh.c:241-246 | the two reports differ and both begin with the path |
| Reaper.Handle | tsh.c:397-410 | one status keeps the table well formed, never adds a job, and keeps every job of another process unchanged |
| Reaper.HandleStopped | tsh.c:398-401 | a stop keeps all jids, sets the job of that pid to ST and prints the stop line with its jid |
| Reaper.HandleSignaled | tsh.c:402-405 | a signal death prints the termination line, frees that job's jid, and afterwards no job has that pid |
| Reaper.HandleContinued | tsh.c:406-407 | a continue sets the job of that pid to FG, whatever its state was, and prints nothing |
| Reaper.HandleExited | tsh.c:408-409 | a normal exit frees that job's jid, leaves no job with the pid, and prints nothing |
| Reaper.Reap | tsh.c:394-412 | a drain keeps the table well formed and never adds jobs |
| Reaper.ReapConcat | tsh.c:394-412 | draining a then b equals draining a + b: each status is handled exactly once, in order, wherever a drain stops |
| Reaper.ReapLineCount | tsh.c:394-412 | a drain prints exactly one line per stop or signal death in it |
| Reaper.ReapOthersUnchanged | tsh.c:394-412 | a job none of whose statuses is in the drain comes out unchanged |
| ForegroundWait.Waiting | tsh.c:254 | the loop condition implies an FG job of that pid exists |
| ForegroundWait.WaitingExactly | tsh.c:370 | with at most one FG job, the condition holds exactly when an FG job of that pid exists |
| ForegroundWait.NoFgWithPidKept | tsh.c:397-410 | once no FG job of the pid exists, only a continue of that pid can make one |
| ForegroundWait.StopOrDeathEndsWait | tsh.c:398-409 | after a stop, signal death or exit of the pid, no FG job of it exists and the condition is false |
| ForegroundWait.DrainEndsWait | tsh.c:394-412 | the same for a whole drain, provided no continue of the pid follows the stop or death |
| ForegroundWait.AfterWakeups | tsh.c:254-257 | the table after one handler run per wake-up stays well formed |
| ForegroundWait.WakeupsAreOneDrain | tsh.c:254-257 | how statuses are split across wake-ups does not matter: the result is one drain of all of them |
| ForegroundWait.WaitEndsBy | tsh.c:370-372 | the wait consumes no wake-up after one whose result already falsifies the condition |
| ForegroundWait.StopEndsWait | tsh.c:254-257 | the wait ends at the latest with the wake-up that reports a stop, death or exit of its pid not followed by a continue |
| ForegroundWait.LaunchWaits | tsh.c:252-254 | after adding a foreground job to a table with no FG job, the condition holds for its pid |
| ForegroundWait.ForegroundNotUnique | tsh.c:406-407 | a concrete table where a continue makes two jobs FG at once |
| Builtins.LooksLikeJobRef | tsh.c:307 | an empty argument is refused, and an accepted one starts with either '%' or a digit |
| Builtins.ResolveJob | tsh.c:301-330 | "missing argument" exactly when there is no argument, "bad argument" exactly when it starts with neither '%' nor a digit, "No such job" carries the argument, and a resolved jid is allocated and is the jid strtol read after '%' or the job whose pid strtol read |
| Builtins.ResolveDigits | tsh.c:321-330 | a pid argument resolves to the job whose pid strtol reads, and is "No such job" exactly when no job has that pid |
| Builtins.ResolveUnknownPid | tsh.c:323-327 | a printed pid that no job has is "No such job" echoing the argument |
| Builtins.ErrorLine | tsh.c:344-364 | the syntax errors lead with the builtin's name, "No such job" with the argument |
| Builtins.ErrorLinesDistinct | tsh.c:338-364 | the three rejections print three different lines, whatever the argument |
| Builtins.BgEffect | tsh.c:299-335 | a rejected argument prints its error and changes nothing; a resolved job prints `[jid] (pid) cmdline`, becomes BG, and no other job changes |
| Builtins.FgEffect | tsh.c:336-369 | a rejected argument prints its error and changes nothing; a resolved job becomes FG silently, and no other job changes |
| Builtins.ResolveJidArgument | tsh.c:312-320 | `%` and a printed jid, with any non-digit suffix and further words, resolves to that job |
| Builtins.ResolvePidArgument | tsh.c:321-330 | a printed pid resolves to the job of that process |
| Builtins.ResolveUnknownJid | tsh.c:312-318 | `%n` for an unallocated n is "No such job" echoing the argument |
| Builtins.ResolveJidWithoutDigits | tsh.c:312-318 | `%` followed by text with no number is "No such job" |
| Builtins.ResolveJidModulo | tsh.c:314 | `%` and any number congruent to an allocated jid modulo 2^32 resolves to that job |
| Builtins.ResolvePercent | tsh.c:312-318 | a `%` argument resolves to the 32-bit value strtol reads after the `%` when that jid is allocated, and is "No such job" otherwise |
| Builtins.FgStartsWait | tsh.c:369-370 | after `fg` on a job, with no other job FG, the wait condition holds for that job's pid |
| Launch.ChildRun | tsh.c:204-248 | the child executes the program exactly when every redirection that is asked for and `execve` succeed, and otherwise prints at most one line and exits; a failed open is reported on the shell's output, a failed `execve` into the output file when one is in place |
| Launch.InputReportedFirst | tsh.c:206-220 | a failed input redirection is what the child reports, whatever else would have failed |
| Launch.OutputReportedSecond | tsh.c:222-237 | with the input in place, a failed output redirection is reported before the program is tried |
| Launch.ExecFailureReported | tsh.c:240-248 | a failed `execve` is reported under the program's path, into the output redirection file when there is one |
| Launch.JobsLines | tsh.c:277-295 | `jobs` prints at most one line: the errno report of a redirection that did not open, or "Fails to write into job list." exactly when listing fails |
| Shell.Arguments | tsh.c:301-306 | the words after the command's name: none exactly when `argc == 1`, and the first of them is `argv[1]` |
| Shell.Shell.Emit | tsh.c:302 | one `sio_printf` line is appended to the output and the job list is untouched |
| Shell.Shell.constructor | tsh.c:114 | the shell starts with an empty job list and no output |
| Shell.Shell.AddJob | tsh.c:253 | the job list gains exactly the new job and stays well formed |
| Shell.Shell.ReapOne | tsh.c:397-410 | one loop iteration of the handler leaves the table and output that `Handle` describes |
| Shell.Shell.SigchldHandler | tsh.c:386-414 | the handler's loop leaves the table and output of draining all pending statuses in order |
| Shell.Shell.WaitForeground | tsh.c:254-257 | the loop sleeps while the condition holds, stops as soon as it fails, and leaves the table and output of the wake-ups it consumed |
| Shell.Shell.RunExternal | tsh.c:252-267 | a background job is added as BG and announced with its jid; a foreground job is added as FG and waited for |
| Shell.Shell.JobsCommand | tsh.c:275-298 | `jobs` leaves the table alone and prints the lines `JobsLines` gives |
| Shell.Shell.BgCommand | tsh.c:299-335 | `bg` changes the table and prints as `BgEffect` says |
| Shell.Shell.FgCommand | tsh.c:336-374 | `fg` rejects as `FgEffect` says, or sets the job FG and waits on its pid |
| Shell.Shell.Eval | tsh.c:185-374 | parse errors and empty lines do nothing; `quit` exits; each builtin and each kind of launch does what its method states |

## Left out

- Signal masking (`sigprocmask`, `sigsuspend`) and the atomicity it buys: the model runs the handler only at the points where tsh.c lets it run — between `eval`s and at each wake-up of a wait. Interleavings such as a handler's line appearing before the `[jid] (pid)` line of a background launch are not modelled.
- `fork`, `setpgid`, `kill` (the SIGCONT of `bg`/`fg`) and `_exit`: not modelled beyond the pid `fork` returns, which is a parameter.
- `dup2` and `close` in the child: assumed to succeed. A redirection that opened is taken to be on standard input or output from then on; this only decides where a later `execve` report goes (`Launch.ChildRun`'s `into`). The file descriptors themselves, and the child's output once the program runs, are not modelled.
- Shell.Shell.WaitForeground: also returns when the supplied wake-ups run out while the loop condition still holds. The program would sleep on in `sigsuspend` instead, so a result `k == |wakeups|` says only that the wait had not ended yet.
- Shell.Shell.SigchldHandler: the save and restore of `errno` around the handler (tsh.c:387, 413) is not modelled; the model has no `errno` outside the parameters of the calls that fail.
- A failing `fork` (pid -1): the code records it like a real child; the model takes only positive pids.
- `sigint_handler`, `sigtstp_handler`, `sigquit_handler`, `main`, `cleanup` and the read loop: outside the job-control core.
- `parseline` and the tokenizer: their result (`ParseResult`, `Tokens`) is an input.
- The text `list_jobs` writes: tsh_helper.c is not part of this model; only its success or failure is an input.
- The job list's capacity: `add_job` can fail when the list is full and tsh.c ignores its result; the model always has room, and which free jid `add_job` picks is a parameter.
- The helpers' own code (tsh_helper.c is not part of this model); the `JobTable` functions state the contracts assumed of them, and `FgJob`'s choice among several FG jobs (lowest jid) is used by no proof.
- The width of `jid_t` and `pid_t` (tsh_helper.h is not part of this model): both are taken as 32-bit `int`.
- testprogs/mytstpp.c: a test program, not part of the shell.
- Reaper.Reap: its own contract states only well-formedness and no added jobs; what a drain does is stated by the lemmas after it.

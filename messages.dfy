/** The exact lines tsh.c writes with `sio_printf`, each without its final newline. */
module Messages {
  import opened Wrappers
  import opened Text

  /** `[jid] (pid) cmdline`: a background launch, and `bg` on a resolved job.
      It ends with the command line; `JobIdsReadBack` reads the jid back. */
  function JobLine(jid: nat, pid: nat, cmdline: string): (r: string)
    ensures |r| > |cmdline| && r[0] == '[' && r[|r| - |cmdline|..] == cmdline
  {
    "[" + ShowNat(jid) + "] (" + ShowNat(pid) + ") " + cmdline
  }

  /** `Job [jid] (pid) stopped by signal n`. */
  function StoppedLine(jid: nat, pid: nat, sig: nat): (r: string)
    ensures |r| > 5 && r[..5] == "Job ["
  {
    StatusLine(jid, pid, ") stopped by signal ", sig)
  }

  /** `Job [jid] (pid) terminated by signal n`. */
  function TerminatedLine(jid: nat, pid: nat, sig: nat): (r: string)
    ensures |r| > 5 && r[..5] == "Job ["
  {
    StatusLine(jid, pid, ") terminated by signal ", sig)
  }

  function StatusLine(jid: nat, pid: nat, what: string, sig: nat): string {
    "Job [" + ShowNat(jid) + "] (" + ShowNat(pid) + what + ShowNat(sig)
  }

  /** Each line that names a job writes its jid so that strtol reads it back
      from just after the bracket. */
  lemma JobIdsReadBack(jid: nat, pid: nat, cmdline: string, sig: nat)
    requires jid <= LongMax
    ensures StrToL(JobLine(jid, pid, cmdline)[1..]) == jid
    ensures StrToL(StoppedLine(jid, pid, sig)[5..]) == jid
    ensures StrToL(TerminatedLine(jid, pid, sig)[5..]) == jid
  {
    var rest := "] (" + ShowNat(pid) + ") " + cmdline;
    assert JobLine(jid, pid, cmdline)[1..] == ShowNat(jid) + rest;
    ParseShowNat(jid, rest);
    StatusReadsBack(jid, pid, ") stopped by signal ", sig);
    StatusReadsBack(jid, pid, ") terminated by signal ", sig);
  }

  lemma StatusReadsBack(jid: nat, pid: nat, what: string, sig: nat)
    requires jid <= LongMax
    ensures StrToL(StatusLine(jid, pid, what, sig)[5..]) == jid
  {
    var rest := "] (" + ShowNat(pid) + what + ShowNat(sig);
    assert StatusLine(jid, pid, what, sig)[5..] == ShowNat(jid) + rest;
    ParseShowNat(jid, rest);
  }

  /** For the same job, a stop and a signal death print different lines. */
  lemma StoppedIsNotTerminated(jid: nat, pid: nat, sig: nat, sig': nat)
    ensures StoppedLine(jid, pid, sig) != TerminatedLine(jid, pid, sig')
  {
    var head := "Job [" + ShowNat(jid) + "] (" + ShowNat(pid) + ") ";
    var s, t := StoppedLine(jid, pid, sig), TerminatedLine(jid, pid, sig');
    assert s[|head|] == 's' && t[|head|] == 't';
  }

  /** `bg`/`fg` with no argument; `name` is "bg" or "fg". The line leads with the
      builtin's name. */
  function MissingArgumentLine(name: string): (r: string)
    ensures |r| > |name| && r[..|name|] == name
  {
    name + " command requires PID or %jobid argument"
  }

  /** `bg`/`fg` whose argument starts with neither '%' nor a digit. The line
      leads with the builtin's name. */
  function BadArgumentLine(name: string): (r: string)
    ensures |r| > |name| && r[..|name|] == name
  {
    name + ": argument must be a PID or %jobid"
  }

  /** The argument that named no job, echoed as given. */
  function NoSuchJobLine(arg: string): (r: string)
    ensures |r| > |arg| && r[..|arg|] == arg
  {
    arg + ": No such job"
  }

  const ListFailedLine: string := "Fails to write into job list."

  /** The report for a failed `open` or `execve` of `path`: only ENOENT (2) and
      EACCES (13) are reported, every other errno silently. */
  function ErrnoMessage(path: string, errno: int): (r: Option<string>)
    ensures r.Some? <==> errno == 2 || errno == 13
    ensures errno == 2 ==> r == Some(path + ": No such file or directory")
    ensures errno == 13 ==> r == Some(path + ": Permission denied")
  {
    if errno == 2 then Some(path + ": No such file or directory")
    else if errno == 13 then Some(path + ": Permission denied")
    else None
  }

  /** The same report as zero or one output lines. */
  function ErrnoLines(path: string, errno: int): (r: seq<string>)
    ensures |r| <= 1 && (r != [] <==> errno == 2 || errno == 13)
    ensures ListFailedLine !in r
  {
    match ErrnoMessage(path, errno)
    case Some(m) =>
      assert m[|m| - 1] != ListFailedLine[|ListFailedLine| - 1];
      [m]
    case None => []
  }

  /** The two reported causes are told apart, and each report names the path. */
  lemma ErrnoMessagesDistinct(path: string)
    ensures ErrnoMessage(path, 2) != ErrnoMessage(path, 13)
    ensures ErrnoMessage(path, 2).value[..|path|] == path
    ensures ErrnoMessage(path, 13).value[..|path|] == path
  {
    var a := ErrnoMessage(path, 2).value;
    var b := ErrnoMessage(path, 13).value;
    assert a[|path| + 2] == 'N' && b[|path| + 2] == 'P';
  }
}

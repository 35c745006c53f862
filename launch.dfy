/** The forked child of an external command, and the `jobs` builtin's own
    output: both open files, and both report only two errno values. */
module Launch {
  import opened Wrappers
  import opened Messages

  /** The outcome of one system call: success, or failure with `errno`. */
  datatype SysResult = Succeeded | Failed(errno: int)

  /** What the child ends up doing: it replaces its image with the program, or
      it writes the lines and calls `_exit(0)`. The lines go to the shell's
      standard output, or to the output redirection file `into` when that file
      was already in place on standard output. */
  datatype ChildOutcome = Execs | Exits(lines: seq<string>, into: Option<string>)

  /** The child: the input redirection is opened first, then the output
      redirection, then the program is executed; the first call that fails is
      reported (if its errno is ENOENT or EACCES) and the child exits. The
      results of calls never reached are ignored. A redirection that opened is
      assumed to be installed by `dup2`, so an `execve` failure is reported
      into the output file. */
  function ChildRun(program: string, infile: Option<string>, outfile: Option<string>,
                    openIn: SysResult, openOut: SysResult, exec: SysResult): (r: ChildOutcome)
    ensures r.Execs? <==>
      (infile.None? || openIn.Succeeded?) && (outfile.None? || openOut.Succeeded?) && exec.Succeeded?
    ensures r.Exits? ==> |r.lines| <= 1
    // a failed open is reported on the shell's output; a failed execve, with
    // both redirections in place, into the output file if there is one
    ensures r.Exits? ==>
      r.into == if (infile.None? || openIn.Succeeded?) && (outfile.None? || openOut.Succeeded?) then outfile else None
  {
    if infile.Some? && openIn.Failed? then Exits(ErrnoLines(infile.value, openIn.errno), None)
    else if outfile.Some? && openOut.Failed? then Exits(ErrnoLines(outfile.value, openOut.errno), None)
    else if exec.Failed? then Exits(ErrnoLines(program, exec.errno), outfile)
    else Execs
  }

  /** A failed input redirection is what the child reports, whatever would
      have happened to the output redirection and the program. */
  lemma InputReportedFirst(program: string, path: string, outfile: Option<string>,
                           errno: int, openOut: SysResult, exec: SysResult)
    ensures ChildRun(program, Some(path), outfile, Failed(errno), openOut, exec)
            == Exits(ErrnoLines(path, errno), None)
  {
  }

  /** With no input redirection, or one that opened, a failed output
      redirection is reported and the program is never executed. */
  lemma OutputReportedSecond(program: string, infile: Option<string>, path: string,
                             openIn: SysResult, errno: int, exec: SysResult)
    requires infile.None? || openIn.Succeeded?
    ensures ChildRun(program, infile, Some(path), openIn, Failed(errno), exec)
            == Exits(ErrnoLines(path, errno), None)
  {
  }

  /** A program that cannot be executed is reported by its path, argv[0];
      with an output redirection in place the report lands in that file. */
  lemma ExecFailureReported(program: string, infile: Option<string>, outfile: Option<string>,
                            openIn: SysResult, openOut: SysResult, errno: int)
    requires infile.None? || openIn.Succeeded?
    requires outfile.None? || openOut.Succeeded?
    ensures ChildRun(program, infile, outfile, openIn, openOut, Failed(errno))
            == Exits(ErrnoLines(program, errno), outfile)
  {
  }

  /** The lines the `jobs` builtin prints itself (the listing goes to the
      file or to standard output): an error for a redirection that did not
      open, or the failure line when listing fails. `listed` is what
      `list_jobs` returned; it is not consulted when the open failed. */
  function JobsLines(outfile: Option<string>, open: SysResult, listed: bool): (r: seq<string>)
    ensures |r| <= 1
    ensures r == [ListFailedLine] <==> (outfile.None? || open.Succeeded?) && !listed
    ensures outfile.Some? && open.Failed? ==> r == ErrnoLines(outfile.value, open.errno)
    ensures (outfile.None? || open.Succeeded?) && listed ==> r == []
  {
    if outfile.Some? && open.Failed? then ErrnoLines(outfile.value, open.errno)
    else if listed then []
    else [ListFailedLine]
  }
}

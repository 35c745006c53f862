/** The shell's mutable state and the parts of `eval` and `sigchld_handler`
    that change it. The job list and the terminal are fields; what the
    operating system supplies (the pid `fork` returns, the jid `add_job`
    picks, the statuses `waitpid` reports while the shell sleeps, the results
    of `open` and `list_jobs`) arrives as parameters. */
module Shell {
  import opened Wrappers
  import opened JobTable
  import opened Messages
  import opened Reaper
  import opened ForegroundWait
  import opened Builtins
  import opened Launch

  /** `parseline`'s verdict on a command line. */
  datatype ParseResult = ParseError | ParseEmpty | ParseFg | ParseBg

  datatype Builtin = NoBuiltin | Quit | JobsBuiltin | BgBuiltin | FgBuiltin

  /** The tokens `eval` reads: the words, the builtin they name, and the
      output redirection (`jobs > file`). */
  datatype Tokens = Tokens(argv: seq<string>, builtin: Builtin, outfile: Option<string>)

  /** The words after the command's name (`argv[1..argc]`). */
  function Arguments(argv: seq<string>): (r: seq<string>)
    ensures |r| == if argv == [] then 0 else |argv| - 1
    ensures forall i :: 0 <= i < |r| ==> r[i] == argv[i + 1]
  {
    if argv == [] then [] else argv[1..]
  }

  /** What the environment supplies to one `eval`. */
  datatype World = World(
    jid: int,                          // the jid add_job allocates for a new job
    pid: Pid,                          // the child's pid, as fork returns it
    openOutfile: SysResult,            // open of the `jobs` redirection
    listed: bool,                      // what list_jobs returns
    wakeups: seq<seq<Notification>>)   // what each SIGCHLD during a wait reports

  class Shell {
    /** The job list. */
    var jobs: Table
    /** Every line written to the terminal, oldest first. */
    var out: seq<string>

    ghost predicate Valid()
      reads this
    {
      TableOk(jobs)
    }

    constructor ()
      ensures Valid() && jobs == map[] && out == []
    {
      jobs := map[];
      out := [];
    }

    /** `sio_printf` of one line. */
    method Emit(line: string)
      modifies this
      ensures jobs == old(jobs) && out == old(out) + [line]
    {
      out := out + [line];
    }

    /** `add_job(pid, state, cmdline)`, `jid` being the free jid it takes. */
    method AddJob(jid: int, pid: Pid, state: JobState, cmdline: string)
      requires Valid() && jid > 0 && jid !in jobs && !HasPid(jobs, pid)
      modifies this
      ensures Valid()
      ensures jobs == AddAt(old(jobs), jid, Job(pid, state, cmdline)) && out == old(out)
    {
      jobs := AddAt(jobs, jid, Job(pid, state, cmdline));
    }

    /** One iteration of the reaping loop, for the status `n` of one child. */
    method ReapOne(n: Notification)
      requires Valid()
      modifies this
      ensures Valid()
      ensures jobs == Handle(old(jobs), n).jobs
      ensures out == old(out) + Handle(old(jobs), n).lines
    {
      var jid := JobFromPid(jobs, n.pid);
      match n.status {
        case Stopped(sig) =>
          jobs := SetState(jobs, jid, ST);
          out := out + [StoppedLine(jid, n.pid, sig)];
        case Signaled(sig) =>
          out := out + [TerminatedLine(jid, n.pid, sig)];
          jobs := Delete(jobs, jid);
        case Continued =>
          jobs := SetState(jobs, jid, FG);
        case Exited(_) =>
          jobs := Delete(jobs, jid);
      }
    }

    /** `sigchld_handler`: reaps every child status pending when it runs, in
        the order `waitpid` returns them. */
    method SigchldHandler(pending: seq<Notification>)
      requires Valid()
      modifies this
      ensures Valid()
      ensures jobs == Reap(old(jobs), pending).jobs
      ensures out == old(out) + Reap(old(jobs), pending).lines
    {
      var i := 0;
      while i < |pending|
        invariant 0 <= i <= |pending| && Valid()
        invariant jobs == Reap(old(jobs), pending[..i]).jobs
        invariant out == old(out) + Reap(old(jobs), pending[..i]).lines
      {
        var n := pending[i];
        ReapOne(n);
        assert pending[..i + 1] == pending[..i] + [n];
        ReapSnoc(old(jobs), pending[..i], n);
        i := i + 1;
      }
      assert pending[..i] == pending;
    }

    /** The wait loop: while the FG job is the process `pid`, sleep; each
        wake-up runs the handler on the statuses of that wake-up. Returns how
        many wake-ups were consumed. */
    method WaitForeground(pid: Pid, wakeups: seq<seq<Notification>>) returns (k: nat)
      requires Valid()
      modifies this
      ensures Valid() && WaitOutcome(old(jobs), pid, wakeups, k)
      ensures jobs == AfterWakeups(old(jobs), wakeups[..k]).jobs
      ensures out == old(out) + AfterWakeups(old(jobs), wakeups[..k]).lines
    {
      ghost var t0, o0 := jobs, out;
      k := 0;
      while k < |wakeups| && Waiting(jobs, pid)
        invariant Valid() && WaitedThrough(t0, pid, wakeups, k)
        invariant jobs == AfterWakeups(t0, wakeups[..k]).jobs
        invariant out == o0 + AfterWakeups(t0, wakeups[..k]).lines
        decreases |wakeups| - k
      {
        ghost var before := AfterWakeups(t0, wakeups[..k]);
        WaitedOneMore(t0, pid, wakeups, k);
        AfterWakeupsStep(t0, wakeups, k);
        SigchldHandler(wakeups[k]);
        AppendAssociative(o0, before.lines, Reap(before.jobs, wakeups[k]).lines);
        k := k + 1;
      }
    }

    /** The parent's part of an external command, after `fork` returned `pid`:
        a foreground job is added as FG and waited for; a background job is
        added as BG and announced as `[jid] (pid) cmdline`. */
    method RunExternal(background: bool, jid: int, pid: Pid, cmdline: string,
                       wakeups: seq<seq<Notification>>) returns (k: nat)
      requires Valid() && jid > 0 && jid !in jobs && !HasPid(jobs, pid)
      modifies this
      ensures Valid()
      ensures var added := AddAt(old(jobs), jid, Job(pid, if background then BG else FG, cmdline));
        if background then
          && k == 0 && jobs == added
          && out == old(out) + [JobLine(jid, pid, cmdline)]
        else
          && WaitOutcome(added, pid, wakeups, k)
          && jobs == AfterWakeups(added, wakeups[..k]).jobs
          && out == old(out) + AfterWakeups(added, wakeups[..k]).lines
    {
      if !background {
        AddJob(jid, pid, FG, cmdline);
        k := WaitForeground(pid, wakeups);
      } else {
        AddJob(jid, pid, BG, cmdline);
        var j := JobFromPid(jobs, pid);
        Emit(JobLine(j, pid, cmdline));
        k := 0;
      }
    }

    /** `jobs`: lists the job list (not modelled) and prints its own errors;
        the table is untouched. */
    method JobsCommand(outfile: Option<string>, open: SysResult, listed: bool)
      modifies this
      ensures jobs == old(jobs) && out == old(out) + JobsLines(outfile, open, listed)
    {
      if outfile.Some? {
        if open.Succeeded? {
          if !listed {
            Emit(ListFailedLine);
          }
        } else {
          out := out + ErrnoLines(outfile.value, open.errno);
        }
      } else if !listed {
        Emit(ListFailedLine);
      }
    }

    /** `bg args`: continues the job (the SIGCONT is not modelled) and marks it BG. */
    method BgCommand(args: seq<string>)
      requires Valid()
      modifies this
      ensures Valid()
      ensures jobs == BgEffect(old(jobs), args).jobs
      ensures out == old(out) + BgEffect(old(jobs), args).lines
    {
      match ResolveJob(jobs, args) {
        case Rejected(e) =>
          Emit(ErrorLine("bg", e));
        case Resolved(jid) =>
          var pid := jobs[jid].pid;
          Emit(JobLine(jid, pid, jobs[jid].cmdline));
          jobs := SetState(jobs, jid, BG);
      }
    }

    /** `fg args`: marks the job FG, then waits on its pid as a foreground
        launch does. Returns how many wake-ups the wait consumed. */
    method FgCommand(args: seq<string>, wakeups: seq<seq<Notification>>) returns (k: nat)
      requires Valid()
      modifies this
      ensures Valid()
      ensures var e := FgEffect(old(jobs), args);
        match ResolveJob(old(jobs), args)
        case Rejected(_) => k == 0 && jobs == e.jobs && out == old(out) + e.lines
        case Resolved(jid) =>
          && WaitOutcome(e.jobs, old(jobs)[jid].pid, wakeups, k)
          && jobs == AfterWakeups(e.jobs, wakeups[..k]).jobs
          && out == old(out) + AfterWakeups(e.jobs, wakeups[..k]).lines
    {
      match ResolveJob(jobs, args) {
        case Rejected(e) =>
          Emit(ErrorLine("fg", e));
          k := 0;
        case Resolved(jid) =>
          var pid := jobs[jid].pid;
          jobs := SetState(jobs, jid, FG);
          k := WaitForeground(pid, wakeups);
      }
    }

    /** `eval` on a parsed command line. Returns the wake-ups consumed and
        whether the shell exits (`quit`). */
    method Eval(parse: ParseResult, tok: Tokens, cmdline: string, w: World) returns (k: nat, quit: bool)
      requires Valid()
      requires tok.builtin.NoBuiltin? && (parse.ParseFg? || parse.ParseBg?) ==>
        w.jid > 0 && w.jid !in jobs && !HasPid(jobs, w.pid)
      modifies this
      ensures Valid()
      ensures quit <==> !(parse.ParseError? || parse.ParseEmpty?) && tok.builtin.Quit?
      ensures parse.ParseError? || parse.ParseEmpty? || tok.builtin.Quit? ==>
        k == 0 && jobs == old(jobs) && out == old(out)
      ensures !(parse.ParseError? || parse.ParseEmpty?) && tok.builtin.JobsBuiltin? ==>
        k == 0 && jobs == old(jobs) && out == old(out) + JobsLines(tok.outfile, w.openOutfile, w.listed)
      ensures !(parse.ParseError? || parse.ParseEmpty?) && tok.builtin.BgBuiltin? ==>
        var e := BgEffect(old(jobs), Arguments(tok.argv));
        k == 0 && jobs == e.jobs && out == old(out) + e.lines
      ensures parse.ParseBg? && tok.builtin.NoBuiltin? ==>
        k == 0 && jobs == AddAt(old(jobs), w.jid, Job(w.pid, BG, cmdline))
        && out == old(out) + [JobLine(w.jid, w.pid, cmdline)]
      ensures parse.ParseFg? && tok.builtin.NoBuiltin? ==>
        var added := AddAt(old(jobs), w.jid, Job(w.pid, FG, cmdline));
        && WaitOutcome(added, w.pid, w.wakeups, k)
        && jobs == AfterWakeups(added, w.wakeups[..k]).jobs
        && out == old(out) + AfterWakeups(added, w.wakeups[..k]).lines
      ensures !(parse.ParseError? || parse.ParseEmpty?) && tok.builtin.FgBuiltin? ==>
        var args := Arguments(tok.argv);
        var e := FgEffect(old(jobs), args);
        && (ResolveJob(old(jobs), args).Rejected? ==>
              k == 0 && jobs == e.jobs && out == old(out) + e.lines)
        && (ResolveJob(old(jobs), args).Resolved? ==>
              var pid := old(jobs)[ResolveJob(old(jobs), args).jid].pid;
              && WaitOutcome(e.jobs, pid, w.wakeups, k)
              && jobs == AfterWakeups(e.jobs, w.wakeups[..k]).jobs
              && out == old(out) + AfterWakeups(e.jobs, w.wakeups[..k]).lines)
    {
      k, quit := 0, false;
      if parse.ParseError? || parse.ParseEmpty? {
        return;
      }
      match tok.builtin {
        case NoBuiltin =>
          k := RunExternal(parse.ParseBg?, w.jid, w.pid, cmdline, w.wakeups);
        case Quit =>
          quit := true;
        case JobsBuiltin =>
          JobsCommand(tok.outfile, w.openOutfile, w.listed);
        case BgBuiltin =>
          BgCommand(Arguments(tok.argv));
        case FgBuiltin =>
          k := FgCommand(Arguments(tok.argv), w.wakeups);
      }
    }
  }
}

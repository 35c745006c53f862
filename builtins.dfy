/** The `bg` and `fg` builtins of `eval`: checking and resolving the job
    argument (`%jid` or a pid), then the state change and the line printed. */
module Builtins {
  import opened Text
  import opened JobTable
  import opened Messages
  import opened ForegroundWait

  datatype ArgError = MissingArgument | NotJobReference | NoSuchJob(arg: string)

  datatype Resolution = Resolved(jid: int) | Rejected(error: ArgError)

  /** The syntax check: the argument starts with '%' or with a digit (an empty
      argument starts with NUL in C, which is neither). */
  predicate LooksLikeJobRef(arg: string)
    ensures arg == [] ==> !LooksLikeJobRef(arg)
    // an accepted argument takes exactly one of the two forms
    ensures LooksLikeJobRef(arg) ==> (arg[0] == '%' <==> !IsDigit(arg[0]))
  {
    arg != [] && (arg[0] == '%' || IsDigit(arg[0]))
  }

  /** `args` are the words after the builtin's name. Only the first one is
      used. `%` followed by text: the text is read by strtol as a jid; otherwise
      the argument is read by strtol as a pid, then looked up with job_from_pid.
      Both values are stored in 32-bit ints. */
  function ResolveJob(t: Table, args: seq<string>): (r: Resolution)
    requires TableOk(t)
    ensures r.Resolved? ==> r.jid in t
    ensures r == Rejected(MissingArgument) <==> args == []
    ensures r == Rejected(NotJobReference) <==> args != [] && !LooksLikeJobRef(args[0])
    ensures r.Rejected? && r.error.NoSuchJob? ==> args != [] && LooksLikeJobRef(args[0]) && r.error.arg == args[0]
    // a resolved jid is the one strtol read after '%', or the job of the pid it read
    ensures r.Resolved? ==>
      && args != [] && LooksLikeJobRef(args[0])
      && (if args[0][0] == '%' then r.jid == ToInt32(StrToL(args[0][1..]))
          else t[r.jid].pid == ToInt32(StrToL(args[0])))
  {
    if args == [] then Rejected(MissingArgument)
    else
      var arg := args[0];
      if !LooksLikeJobRef(arg) then Rejected(NotJobReference)
      else if arg[0] == '%' then
        var jid := ToInt32(StrToL(arg[1..]));
        if jid in t then Resolved(jid) else Rejected(NoSuchJob(arg))
      else
        var jid := JobFromPid(t, ToInt32(StrToL(arg)));
        if jid in t then Resolved(jid) else Rejected(NoSuchJob(arg))
  }

  /** The line printed for a rejected argument; `name` is "bg" or "fg". */
  function ErrorLine(name: string, e: ArgError): (r: string)
    ensures e.NoSuchJob? ==> |r| > |e.arg| && r[..|e.arg|] == e.arg
    ensures !e.NoSuchJob? ==> |r| > |name| && r[..|name|] == name
  {
    match e
    case MissingArgument => MissingArgumentLine(name)
    case NotJobReference => BadArgumentLine(name)
    case NoSuchJob(arg) => NoSuchJobLine(arg)
  }

  /** The three rejections are told apart by their lines, whatever the
      argument echoed in "No such job". */
  lemma ErrorLinesDistinct(name: string, arg: string)
    ensures ErrorLine(name, MissingArgument) != ErrorLine(name, NotJobReference)
    ensures ErrorLine(name, MissingArgument) != ErrorLine(name, NoSuchJob(arg))
    ensures ErrorLine(name, NotJobReference) != ErrorLine(name, NoSuchJob(arg))
  {
    var m, b, n := ErrorLine(name, MissingArgument), ErrorLine(name, NotJobReference), ErrorLine(name, NoSuchJob(arg));
    assert m[|m| - 1] == 't' && b[|b| - 1] == 'd' && n[|n| - 1] == 'b';
  }

  /** `bg`: a rejected argument prints its error and changes nothing; a
      resolved job prints `[jid] (pid) cmdline` and becomes BG, and no other
      job changes. */
  function BgEffect(t: Table, args: seq<string>): (r: Effect)
    requires TableOk(t)
    ensures TableOk(r.jobs)
    ensures ResolveJob(t, args).Rejected? ==>
      r.jobs == t && r.lines == [ErrorLine("bg", ResolveJob(t, args).error)]
    ensures ResolveJob(t, args).Resolved? ==>
      var j := ResolveJob(t, args).jid;
      && r.jobs.Keys == t.Keys
      && r.jobs[j] == Job(t[j].pid, BG, t[j].cmdline)
      && (forall k :: k in t && k != j ==> r.jobs[k] == t[k])
      && r.lines == [JobLine(j, t[j].pid, t[j].cmdline)]
  {
    match ResolveJob(t, args)
    case Rejected(e) => Effect(t, [ErrorLine("bg", e)])
    case Resolved(j) => Effect(SetState(t, j, BG), [JobLine(j, t[j].pid, t[j].cmdline)])
  }

  /** `fg` before its wait: a rejected argument prints its error and changes
      nothing; a resolved job becomes FG silently, and no other job changes —
      in particular a job already FG stays FG. */
  function FgEffect(t: Table, args: seq<string>): (r: Effect)
    requires TableOk(t)
    ensures TableOk(r.jobs)
    ensures ResolveJob(t, args).Rejected? ==>
      r.jobs == t && r.lines == [ErrorLine("fg", ResolveJob(t, args).error)]
    ensures ResolveJob(t, args).Resolved? ==>
      var j := ResolveJob(t, args).jid;
      && r.jobs.Keys == t.Keys
      && r.jobs[j] == Job(t[j].pid, FG, t[j].cmdline)
      && (forall k :: k in t && k != j ==> r.jobs[k] == t[k])
      && r.lines == []
  {
    match ResolveJob(t, args)
    case Rejected(e) => Effect(t, [ErrorLine("fg", e)])
    case Resolved(j) => Effect(SetState(t, j, FG), [])
  }

  /** `%jid`, written as the shell prints jids, names that job, whatever
      non-digit text follows and whatever further words there are. */
  lemma ResolveJidArgument(t: Table, j: int, rest: string, more: seq<string>)
    requires TableOk(t) && j in t && j <= IntMax
    requires rest == [] || !IsDigit(rest[0])
    ensures ResolveJob(t, ["%" + ShowNat(j) + rest] + more) == Resolved(j)
  {
    var arg := "%" + ShowNat(j) + rest;
    assert arg[1..] == ShowNat(j) + rest;
    ParseShowNat(j, rest);
    ResolvePercent(t, [arg] + more);
  }

  /** How a `%` argument resolves: strtol of the rest, as a 32-bit jid. */
  lemma ResolvePercent(t: Table, args: seq<string>)
    requires TableOk(t) && args != [] && args[0] != [] && args[0][0] == '%'
    ensures var jid := ToInt32(StrToL(args[0][1..]));
            ResolveJob(t, args) == if jid in t then Resolved(jid) else Rejected(NoSuchJob(args[0]))
  {
  }

  /** How a pid argument resolves: the job whose pid is the 32-bit value
      strtol reads, and "No such job" when no job has that pid. */
  lemma ResolveDigits(t: Table, args: seq<string>)
    requires TableOk(t) && args != [] && args[0] != [] && IsDigit(args[0][0])
    ensures var p := ToInt32(StrToL(args[0]));
            ResolveJob(t, args) == if HasPid(t, p) then Resolved(JobFromPid(t, p)) else Rejected(NoSuchJob(args[0]))
  {
  }

  /** A printed pid that no job has is "No such job", echoing the argument. */
  lemma ResolveUnknownPid(t: Table, p: nat, rest: string, more: seq<string>)
    requires TableOk(t) && !HasPid(t, p) && p <= IntMax
    requires rest == [] || !IsDigit(rest[0])
    ensures ResolveJob(t, [ShowNat(p) + rest] + more) == Rejected(NoSuchJob(ShowNat(p) + rest))
  {
    var arg := ShowNat(p) + rest;
    assert arg[0] == ShowNat(p)[0];
    ParseShowNat(p, rest);
    ResolveDigits(t, [arg] + more);
  }

  /** A pid, written as the shell prints pids, names the job of that process. */
  lemma ResolvePidArgument(t: Table, j: int, rest: string, more: seq<string>)
    requires TableOk(t) && j in t && t[j].pid <= IntMax
    requires rest == [] || !IsDigit(rest[0])
    ensures ResolveJob(t, [ShowNat(t[j].pid) + rest] + more) == Resolved(j)
  {
    var pid := t[j].pid;
    var arg := ShowNat(pid) + rest;
    assert arg[0] == ShowNat(pid)[0];
    assert LooksLikeJobRef(arg) && arg[0] != '%';
    ParseShowNat(pid, rest);
    assert ToInt32(StrToL(arg)) == pid;
    assert JobFromPid(t, pid) == j;
    ResolveDigits(t, [arg] + more);
  }

  /** `%n` for a jid that is not allocated is "No such job", echoing the argument. */
  lemma ResolveUnknownJid(t: Table, n: nat, more: seq<string>)
    requires TableOk(t) && n !in t && n <= IntMax
    ensures ResolveJob(t, ["%" + ShowNat(n)] + more) == Rejected(NoSuchJob("%" + ShowNat(n)))
  {
    var arg := "%" + ShowNat(n);
    assert arg[1..] == ShowNat(n) + [];
    ParseShowNat(n, []);
    ResolvePercent(t, [arg] + more);
  }

  /** `%` followed by text strtol reads no digits from is the jid 0: "No such job". */
  lemma ResolveJidWithoutDigits(t: Table, s: string, more: seq<string>)
    requires TableOk(t)
    requires s == [] || (!IsSpace(s[0]) && !IsDigit(s[0]) && s[0] != '-' && s[0] != '+')
    ensures ResolveJob(t, ["%" + s] + more) == Rejected(NoSuchJob("%" + s))
  {
    assert ("%" + s)[1..] == s;
    ParseNoDigits(s);
    ResolvePercent(t, ["%" + s] + more);
  }

  /** Storing strtol's result in a 32-bit int keeps the low 32 bits, so `%`
      followed by any number congruent to the jid modulo 2^32 (as
      4294967297 is to 1) names that job as well. */
  lemma ResolveJidModulo(t: Table, j: int, n: nat)
    requires TableOk(t) && j in t && j <= IntMax
    requires n <= LongMax && (n - j) % Modulus32 == 0
    ensures ResolveJob(t, ["%" + ShowNat(n)]) == Resolved(j)
  {
    var arg := "%" + ShowNat(n);
    assert arg[1..] == ShowNat(n) + [];
    ParseShowNat(n, []);
    Int32OfCongruent(n, j);
    ResolvePercent(t, [arg]);
  }

  lemma Int32OfCongruent(x: int, j: int)
    requires IntMin <= j <= IntMax && (x - j) % Modulus32 == 0
    ensures ToInt32(x) == j
  {
    var r := ToInt32(x);
    var a := (x - r) / Modulus32;
    var b := (x - j) / Modulus32;
    assert x - r == a * Modulus32;
    assert x - j == b * Modulus32;
    assert j - r == (a - b) * Modulus32;
  }

  /** `fg` on a resolved job, when no other job is FG, starts a wait that
      lasts while the job stays FG. */
  lemma FgStartsWait(t: Table, args: seq<string>)
    requires TableOk(t) && ResolveJob(t, args).Resolved?
    requires forall k :: k in t && t[k].state == FG ==> k == ResolveJob(t, args).jid
    ensures var j := ResolveJob(t, args).jid;
            Waiting(FgEffect(t, args).jobs, t[j].pid)
  {
    var j := ResolveJob(t, args).jid;
    var r := FgEffect(t, args).jobs;
    assert forall k :: k in r && r[k].state == FG ==> k == j;
  }
}

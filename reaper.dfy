/** The child-status reaper (`sigchld_handler`): each status `waitpid` reports
    becomes one table transition and at most one line. The asynchronous
    delivery of SIGCHLD is replaced by explicit notifications applied in order. */
module Reaper {
  import opened Text
  import opened JobTable
  import opened Messages

  /** What `waitpid(-1, &status, WNOHANG | WUNTRACED)` says about a child:
      WIFSTOPPED, WIFSIGNALED, WIFCONTINUED, or anything else (a normal exit). */
  datatype Status = Stopped(stopSig: nat) | Signaled(termSig: nat) | Continued | Exited(code: nat)

  datatype Notification = Notification(pid: Pid, status: Status)

  /** One iteration of the reaping loop. The job is looked up by pid; when no
      job has that pid the jid is 0, the table helpers leave the table alone,
      and the stop and termination lines still print with jid 0. */
  function Handle(t: Table, n: Notification): (r: Effect)
    requires TableOk(t)
    ensures TableOk(r.jobs)
    ensures r.jobs.Keys <= t.Keys
    // every job of another process is kept as it was
    ensures forall k :: k in t && t[k].pid != n.pid ==> k in r.jobs && r.jobs[k] == t[k]
  {
    var jid := JobFromPid(t, n.pid);
    match n.status
    case Stopped(sig) => Effect(SetState(t, jid, ST), [StoppedLine(jid, n.pid, sig)])
    case Signaled(sig) => Effect(Delete(t, jid), [TerminatedLine(jid, n.pid, sig)])
    case Continued => Effect(SetState(t, jid, FG), [])
    case Exited(_) => Effect(Delete(t, jid), [])
  }

  /** A stop notification: the job of that pid is kept, now in state ST, and
      `Job [jid] (pid) stopped by signal n` is printed. */
  lemma HandleStopped(t: Table, pid: Pid, sig: nat)
    requires TableOk(t)
    ensures var r := Handle(t, Notification(pid, Stopped(sig)));
      && r.jobs.Keys == t.Keys
      && (forall k :: k in t && t[k].pid == pid ==> r.jobs[k] == Job(pid, ST, t[k].cmdline))
      && r.lines == [StoppedLine(JobFromPid(t, pid), pid, sig)]
  {
  }

  /** A signal death: `Job [jid] (pid) terminated by signal n` is printed and
      the job is deleted, so its pid no longer resolves. */
  lemma HandleSignaled(t: Table, pid: Pid, sig: nat)
    requires TableOk(t)
    ensures var r := Handle(t, Notification(pid, Signaled(sig)));
      && r.jobs.Keys == t.Keys - {JobFromPid(t, pid)}
      && !HasPid(r.jobs, pid)
      && JobFromPid(r.jobs, pid) == NoJob
      && r.lines == [TerminatedLine(JobFromPid(t, pid), pid, sig)]
  {
  }

  /** A normal exit: the job is deleted and nothing is printed. */
  lemma HandleExited(t: Table, pid: Pid, code: nat)
    requires TableOk(t)
    ensures var r := Handle(t, Notification(pid, Exited(code)));
      && r.jobs.Keys == t.Keys - {JobFromPid(t, pid)}
      && !HasPid(r.jobs, pid)
      && r.lines == []
  {
  }

  /** A continue: the job becomes FG whatever its state was; nothing is printed. */
  lemma HandleContinued(t: Table, pid: Pid)
    requires TableOk(t)
    ensures var r := Handle(t, Notification(pid, Continued));
      && r.jobs.Keys == t.Keys
      && (forall k :: k in t && t[k].pid == pid ==> r.jobs[k] == Job(pid, FG, t[k].cmdline))
      && r.lines == []
  {
  }

  /** The whole drain of one handler invocation: the notifications in the
      order `waitpid` returns them, each applied once to the table the
      previous ones left, their lines in the same order. */
  function Reap(t: Table, q: seq<Notification>): (r: Effect)
    requires TableOk(t)
    ensures TableOk(r.jobs)
    ensures r.jobs.Keys <= t.Keys
    decreases |q|
  {
    if q == [] then Effect(t, [])
    else
      var before := Reap(t, q[..|q| - 1]);
      var last := Handle(before.jobs, q[|q| - 1]);
      Effect(last.jobs, before.lines + last.lines)
  }

  /** How many lines a queue of notifications makes: one per stop or signal death. */
  function Reported(q: seq<Notification>): nat {
    if q == [] then 0
    else Reported(q[..|q| - 1]) + (if q[|q| - 1].status.Stopped? || q[|q| - 1].status.Signaled? then 1 else 0)
  }

  predicate Mentions(q: seq<Notification>, pid: int) {
    exists i :: 0 <= i < |q| && q[i].pid == pid
  }

  lemma AppendAssociative<T>(a: seq<T>, b: seq<T>, c: seq<T>)
    ensures a + b + c == a + (b + c)
  {
  }

  /** Appending one notification to the queue is one more Handle step. */
  lemma ReapSnoc(t: Table, q: seq<Notification>, n: Notification)
    requires TableOk(t)
    ensures var rq := Reap(t, q); var h := Handle(rq.jobs, n);
            Reap(t, q + [n]) == Effect(h.jobs, rq.lines + h.lines)
  {
    assert (q + [n])[..|q + [n]| - 1] == q;
  }

  /** Draining `a` and then `b` is draining `a + b`: no notification is lost,
      repeated or reordered by where a drain happens to stop. */
  lemma {:induction false} ReapConcat(t: Table, a: seq<Notification>, b: seq<Notification>)
    requires TableOk(t)
    ensures var ra := Reap(t, a); var rb := Reap(ra.jobs, b);
            Reap(t, a + b) == Effect(rb.jobs, ra.lines + rb.lines)
    decreases |b|
  {
    var ra := Reap(t, a);
    if b == [] {
      assert a + b == a;
    } else {
      var b' := b[..|b| - 1];
      var n := b[|b| - 1];
      assert a + b == (a + b') + [n];
      assert b == b' + [n];
      var rb' := Reap(ra.jobs, b');
      ReapConcat(t, a, b');
      assert Reap(t, a + b') == Effect(rb'.jobs, ra.lines + rb'.lines);
      var h := Handle(rb'.jobs, n);
      ReapSnoc(t, a + b', n);
      assert Reap(t, a + b) == Effect(h.jobs, (ra.lines + rb'.lines) + h.lines);
      ReapSnoc(ra.jobs, b', n);
      assert Reap(ra.jobs, b) == Effect(h.jobs, rb'.lines + h.lines);
      AppendAssociative(ra.lines, rb'.lines, h.lines);
    }
  }

  /** One line per stop or signal death in the queue — each is reported exactly once. */
  lemma {:induction false} ReapLineCount(t: Table, q: seq<Notification>)
    requires TableOk(t)
    ensures |Reap(t, q).lines| == Reported(q)
    decreases |q|
  {
    if q != [] {
      ReapLineCount(t, q[..|q| - 1]);
    }
  }

  /** A job whose process has no notification in the queue leaves the drain unchanged. */
  lemma {:induction false} ReapOthersUnchanged(t: Table, q: seq<Notification>, jid: int)
    requires TableOk(t) && jid in t && !Mentions(q, t[jid].pid)
    ensures jid in Reap(t, q).jobs && Reap(t, q).jobs[jid] == t[jid]
    decreases |q|
  {
    if q != [] {
      var q' := q[..|q| - 1];
      ReapOthersUnchanged(t, q', jid);
      assert q[|q| - 1].pid != t[jid].pid;
    }
  }
}

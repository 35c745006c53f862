/** The foreground wait of `eval` (after an FG launch and in `fg`): the shell
    sleeps in `sigsuspend` while `fg_job() != 0 && pid == job_get_pid(fg_job())`.
    Each wake-up is modelled as one run of the reaper over the notifications
    pending at that moment (a wake-up by another signal drains nothing). */
module ForegroundWait {
  import opened JobTable
  import opened Reaper

  /** Some job in state FG belongs to process `pid`. */
  ghost predicate FgWithPid(t: Table, pid: int) {
    exists j :: j in t && t[j].state == FG && t[j].pid == pid
  }

  ghost predicate AtMostOneFg(t: Table) {
    forall j, k :: j in t && k in t && t[j].state == FG && t[k].state == FG ==> j == k
  }

  /** The wait-loop condition, as tsh.c writes it. */
  predicate Waiting(t: Table, pid: int)
    requires TableOk(t)
    ensures Waiting(t, pid) ==> FgWithPid(t, pid)
  {
    FgJob(t) != NoJob && t[FgJob(t)].pid == pid
  }

  /** With at most one FG job the loop waits exactly while an FG job of that
      process exists. (tsh.c does not keep that invariant: see ForegroundNotUnique.) */
  lemma WaitingExactly(t: Table, pid: int)
    requires TableOk(t) && AtMostOneFg(t)
    ensures Waiting(t, pid) <==> FgWithPid(t, pid)
  {
    if FgWithPid(t, pid) {
      var j :| j in t && t[j].state == FG && t[j].pid == pid;
      assert FgJob(t) == j;
    }
  }

  /** Once no FG job of `pid` exists, only a continue of `pid` can make one. */
  lemma NoFgWithPidKept(t: Table, n: Notification, pid: int)
    requires TableOk(t) && !FgWithPid(t, pid)
    requires !(n.pid == pid && n.status.Continued?)
    ensures !FgWithPid(Handle(t, n).jobs, pid)
  {
    var r := Handle(t, n).jobs;
    forall j | j in r ensures !(r[j].state == FG && r[j].pid == pid) {
      if t[j].pid == n.pid {
        match n.status
        case Stopped(sig) => HandleStopped(t, n.pid, sig);
        case Signaled(sig) => HandleSignaled(t, n.pid, sig);
        case Exited(code) => HandleExited(t, n.pid, code);
        case Continued => HandleContinued(t, n.pid);
      }
    }
  }

  /** A stop, signal death or exit of `pid` leaves no FG job of `pid`, so the
      wait on `pid` ends. */
  lemma StopOrDeathEndsWait(t: Table, n: Notification)
    requires TableOk(t) && !n.status.Continued?
    ensures !FgWithPid(Handle(t, n).jobs, n.pid)
    ensures !Waiting(Handle(t, n).jobs, n.pid)
  {
    var r := Handle(t, n).jobs;
    if FgWithPid(r, n.pid) {
      var j :| j in r && r[j].state == FG && r[j].pid == n.pid;
      assert j in t;
      match n.status
      case Stopped(sig) => HandleStopped(t, n.pid, sig);
      case Signaled(sig) => HandleSignaled(t, n.pid, sig);
      case Exited(code) => HandleExited(t, n.pid, code);
    }
  }

  /** The same over one drain: a stop, signal death or exit of `pid`, with no
      continue of `pid` after it, ends the wait on `pid` whatever else the
      drain holds. */
  lemma {:induction false} DrainEndsWait(t: Table, q: seq<Notification>, i: nat, pid: Pid)
    requires TableOk(t) && i < |q|
    requires q[i].pid == pid && !q[i].status.Continued?
    requires forall m :: i < m < |q| ==> !(q[m].pid == pid && q[m].status.Continued?)
    ensures !FgWithPid(Reap(t, q).jobs, pid)
    ensures !Waiting(Reap(t, q).jobs, pid)
    decreases |q|
  {
    var before := Reap(t, q[..|q| - 1]);
    if i == |q| - 1 {
      StopOrDeathEndsWait(before.jobs, q[i]);
    } else {
      DrainEndsWait(t, q[..|q| - 1], i, pid);
      NoFgWithPidKept(before.jobs, q[|q| - 1], pid);
    }
  }

  /** All notifications of the first `|ws|` wake-ups, in delivery order. */
  function Flatten(ws: seq<seq<Notification>>): seq<Notification> {
    if ws == [] then [] else Flatten(ws[..|ws| - 1]) + ws[|ws| - 1]
  }

  /** The table and output after the reaper ran once per wake-up in `ws`. */
  function AfterWakeups(t: Table, ws: seq<seq<Notification>>): (r: Effect)
    requires TableOk(t)
    ensures TableOk(r.jobs)
    decreases |ws|
  {
    if ws == [] then Effect(t, [])
    else
      var before := AfterWakeups(t, ws[..|ws| - 1]);
      var batch := Reap(before.jobs, ws[|ws| - 1]);
      Effect(batch.jobs, before.lines + batch.lines)
  }

  /** One more wake-up is one more drain. */
  /** The wake-ups up to and including the k-th: the first k, then one drain. */
  lemma AfterWakeupsStep(t: Table, ws: seq<seq<Notification>>, k: nat)
    requires TableOk(t) && k < |ws|
    ensures var before := AfterWakeups(t, ws[..k]); var r := Reap(before.jobs, ws[k]);
            AfterWakeups(t, ws[..k + 1]) == Effect(r.jobs, before.lines + r.lines)
  {
    assert ws[..k] + [ws[k]] == ws[..k + 1];
    AfterWakeupsSnoc(t, ws[..k], ws[k]);
  }

  lemma AfterWakeupsSnoc(t: Table, ws: seq<seq<Notification>>, batch: seq<Notification>)
    requires TableOk(t)
    ensures var before := AfterWakeups(t, ws); var r := Reap(before.jobs, batch);
            AfterWakeups(t, ws + [batch]) == Effect(r.jobs, before.lines + r.lines)
  {
    assert (ws + [batch])[..|ws + [batch]| - 1] == ws;
  }

  /** How notifications are grouped into wake-ups does not matter: the result
      is that of draining all of them in one go. */
  lemma {:induction false} WakeupsAreOneDrain(t: Table, ws: seq<seq<Notification>>)
    requires TableOk(t)
    ensures AfterWakeups(t, ws) == Reap(t, Flatten(ws))
    decreases |ws|
  {
    if ws != [] {
      WakeupsAreOneDrain(t, ws[..|ws| - 1]);
      ReapConcat(t, Flatten(ws[..|ws| - 1]), ws[|ws| - 1]);
    }
  }

  /** The wait loop went on sleeping after each of the first `k` wake-ups. */
  ghost predicate WaitedThrough(t: Table, pid: int, ws: seq<seq<Notification>>, k: nat)
    requires TableOk(t)
  {
    k <= |ws| && forall i :: 0 <= i < k ==> Waiting(AfterWakeups(t, ws[..i]).jobs, pid)
  }

  lemma WaitedOneMore(t: Table, pid: int, ws: seq<seq<Notification>>, k: nat)
    requires TableOk(t) && WaitedThrough(t, pid, ws, k) && k < |ws|
    requires Waiting(AfterWakeups(t, ws[..k]).jobs, pid)
    ensures WaitedThrough(t, pid, ws, k + 1)
  {
  }

  /** What the wait loop does with the wake-ups `ws`, if it consumed `k` of
      them: it went on sleeping after each of the first `k`, and it stopped
      either because the condition became false or because no wake-up is left
      (in the program it would then sleep on). */
  ghost predicate WaitOutcome(t: Table, pid: int, ws: seq<seq<Notification>>, k: nat)
    requires TableOk(t)
  {
    && WaitedThrough(t, pid, ws, k)
    && (k == |ws| || !Waiting(AfterWakeups(t, ws[..k]).jobs, pid))
  }

  /** The wait consumes no wake-up after one that leaves no FG job of `pid`. */
  lemma WaitEndsBy(t: Table, pid: int, ws: seq<seq<Notification>>, k: nat, m: nat)
    requires TableOk(t) && WaitOutcome(t, pid, ws, k)
    requires m <= |ws| && !Waiting(AfterWakeups(t, ws[..m]).jobs, pid)
    ensures k <= m
  {
  }

  /** So a wait on `pid` ends at the latest with the wake-up that reports a
      stop, signal death or exit of `pid` (the `i`-th notification of the
      first `m` wake-ups), unless a continue of `pid` follows it there. */
  lemma {:induction false} StopEndsWait(t: Table, pid: Pid, ws: seq<seq<Notification>>, k: nat, m: nat, i: nat)
    requires TableOk(t) && WaitOutcome(t, pid, ws, k) && m <= |ws|
    requires var q := Flatten(ws[..m]);
      && i < |q| && q[i].pid == pid && !q[i].status.Continued?
      && forall j :: i < j < |q| ==> !(q[j].pid == pid && q[j].status.Continued?)
    ensures k <= m
  {
    WakeupsAreOneDrain(t, ws[..m]);
    DrainEndsWait(t, Flatten(ws[..m]), i, pid);
    WaitEndsBy(t, pid, ws, k, m);
  }

  /** After a foreground launch into a table with no FG job, the shell waits. */
  lemma LaunchWaits(t: Table, jid: int, pid: Pid, cmdline: string)
    requires TableOk(t) && !HasFg(t) && !HasPid(t, pid)
    requires jid > 0 && jid !in t
    ensures Waiting(AddAt(t, jid, Job(pid, FG, cmdline)), pid)
  {
    var t' := AddAt(t, jid, Job(pid, FG, cmdline));
    assert forall k :: k in t' && t'[k].state == FG ==> k == jid;
  }

  /** The code does not keep "at most one FG job": with a background job 1 and
      a foreground job 2 running, a continue notification for job 1 makes both
      FG (and `fg` likewise never demotes the job that was FG). */
  lemma ForegroundNotUnique()
    ensures var t := map[1 := Job(10, BG, "sleep 50 &"), 2 := Job(20, FG, "sleep 60")];
            var r := Handle(t, Notification(10, Continued)).jobs;
            TableOk(t) && !AtMostOneFg(r) && r[1].state == FG && r[2].state == FG
  {
    var t := map[1 := Job(10, BG, "sleep 50 &"), 2 := Job(20, FG, "sleep 60")];
    assert t.Keys == {1, 2};
    assert TableOk(t);
    assert t[1].pid == 10;
    assert JobFromPid(t, 10) == 1;
    HandleContinued(t, 10);
  }
}

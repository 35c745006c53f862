/** The job list, reached by tsh.c only through the helpers of tsh_helper
    (`add_job`, `delete_job`, `job_set_state`, `job_from_pid`, `job_get_pid`,
    `job_exists`, `fg_job`). Their code is not part of this model: each function
    below is one body that meets the contract tsh.c relies on, and the contracts
    are the assumptions the rest of the model is proved under. */
module JobTable {

  /** Process ids returned by `fork` and `waitpid` in the branches tsh.c records. */
  type Pid = p: int | p > 0 witness 1

  datatype JobState = FG | BG | ST

  datatype Job = Job(pid: Pid, state: JobState, cmdline: string)

  /** jid -> job. */
  type Table = map<int, Job>

  /** What the rest of a step did: the new table and the lines it printed. */
  datatype Effect = Effect(jobs: Table, lines: seq<string>)

  /** jid 0 is never allocated; the helpers return it for "no job". */
  const NoJob: int := 0

  /** Allocated jids are positive and no two jobs share a pid. */
  ghost predicate TableOk(t: Table) {
    && (forall j :: j in t ==> j > 0)
    && (forall j, k :: j in t && k in t && t[j].pid == t[k].pid ==> j == k)
  }

  predicate HasPid(t: Table, pid: int) {
    exists j :: j in t && t[j].pid == pid
  }

  /** `job_from_pid`: the jid of the job whose pid is `pid`, or 0. */
  function JobFromPid(t: Table, pid: int): (j: nat)
    requires TableOk(t)
    ensures j == NoJob <==> !HasPid(t, pid)
    ensures j != NoJob ==> j in t && t[j].pid == pid
  {
    if HasPid(t, pid) then var j :| j in t && t[j].pid == pid; j else NoJob
  }

  predicate HasFg(t: Table) {
    exists j :: j in t && t[j].state == FG
  }

  /** `fg_job`: the jid of a job in state FG, or 0 when there is none. Several
      jobs may be FG at once; which one the helper returns is not visible, and
      nothing proved about the model depends on the choice made here (the
      lowest such jid). */
  function FgJob(t: Table): (j: nat)
    requires TableOk(t)
    ensures j == NoJob <==> !HasFg(t)
    ensures j != NoJob ==> j in t && t[j].state == FG
  {
    if HasFg(t) then
      LeastFgExists(t);
      var m :| m in t && t[m].state == FG && forall k :: k in t && t[k].state == FG ==> m <= k; m
    else NoJob
  }

  /** `job_set_state`: changes the state of job `jid` only; a no-op when `jid`
      is not allocated (as when job_from_pid found nothing). */
  function SetState(t: Table, jid: int, s: JobState): (r: Table)
    ensures r.Keys == t.Keys
    ensures jid in t ==> r[jid] == Job(t[jid].pid, s, t[jid].cmdline)
    ensures forall k :: k in t && k != jid ==> r[k] == t[k]
    ensures TableOk(t) ==> TableOk(r)
  {
    if jid in t then t[jid := t[jid].(state := s)] else t
  }

  /** `delete_job`: frees `jid`; a no-op when it is not allocated. */
  function Delete(t: Table, jid: int): (r: Table)
    ensures r.Keys == t.Keys - {jid}
    ensures forall k :: k in r ==> r[k] == t[k]
    ensures TableOk(t) ==> TableOk(r)
  {
    t - {jid}
  }

  /** `add_job` once the table has chosen the fresh jid `jid`. */
  function AddAt(t: Table, jid: int, job: Job): (r: Table)
    requires jid > 0 && jid !in t
    ensures r.Keys == t.Keys + {jid} && r[jid] == job
    ensures forall k :: k in t ==> r[k] == t[k]
    ensures TableOk(t) && !HasPid(t, job.pid) ==> TableOk(r)
  {
    t[jid := job]
  }

  lemma LeastFgExists(t: Table)
    requires TableOk(t) && HasFg(t)
    ensures exists m :: m in t && t[m].state == FG && forall k :: k in t && t[k].state == FG ==> m <= k
  {
    var j :| j in t && t[j].state == FG;
    LeastFgBelow(t, j);
  }

  lemma {:induction false} LeastFgBelow(t: Table, j: int)
    requires TableOk(t) && j in t && t[j].state == FG
    ensures exists m :: m in t && t[m].state == FG && forall k :: k in t && t[k].state == FG ==> m <= k
    decreases j
  {
    if exists i :: i in t && t[i].state == FG && i < j {
      var i :| i in t && t[i].state == FG && i < j;
      LeastFgBelow(t, i);
    } else {
      assert forall k :: k in t && t[k].state == FG ==> j <= k;
    }
  }
}

/** The reminder scheduler: while running, every minute it sends each due reminder to its
    chat and then deletes the one-shot ones. Sending is an oracle that reports whether
    delivery worked; every attempt is kept in an outbox. */
module CronScheduler {
  import opened Wrappers
  import opened CronStore

  /** One delivery attempt: where to, what, and whether it went through. */
  datatype Delivery = Delivery(chatId: string, content: string, delivered: bool)

  /** The text of a reminder message. */
  function ReminderText(message: string): string {
    "⏰ 提醒：" + message
  }

  /** The attempts a tick makes for `due`, one per job in that order, whatever each
      delivery's outcome. */
  function Deliveries(due: seq<CronJob>, deliver: (string, string) -> bool): (r: seq<Delivery>)
    ensures |r| == |due|
    ensures forall i :: 0 <= i < |due| ==>
      r[i] == Delivery(due[i].chatId, ReminderText(due[i].message),
                       deliver(due[i].chatId, ReminderText(due[i].message)))
  {
    if |due| == 0 then []
    else
      var last := due[|due| - 1];
      Deliveries(due[..|due| - 1], deliver)
        + [Delivery(last.chatId, ReminderText(last.message), deliver(last.chatId, ReminderText(last.message)))]
  }

  /** The store after firing `job`: a one-shot job is removed by id, a recurring one
      stays. */
  function AfterFiring(jobs: seq<CronJob>, job: CronJob): seq<CronJob> {
    if IsSet(job.at) then AfterRemove(jobs, job.id, None) else jobs
  }

  /** The store after firing `due` in order. Delivery outcomes play no part. */
  function AfterFiringAll(jobs: seq<CronJob>, due: seq<CronJob>): seq<CronJob> {
    if |due| == 0 then jobs
    else AfterFiring(AfterFiringAll(jobs, due[..|due| - 1]), due[|due| - 1])
  }

  /** Removing by id, with distinct ids, leaves no job with that id. */
  lemma RemoveByIdLeavesNone(jobs: seq<CronJob>, id: string)
    requires DistinctIds(jobs)
    ensures forall j :: j in AfterRemove(jobs, id, None) ==> j.id != id
  {
    match FindIndex(jobs, id, None)
    case None =>
    case Some(i) =>
      var r := RemoveAt(jobs, i);
      forall k | 0 <= k < |r| ensures r[k].id != id {
        if k < i { assert r[k] == jobs[k]; } else { assert r[k] == jobs[k + 1]; }
      }
  }

  /** Removing one job keeps every other job, and adds none. */
  lemma RemoveKeepsOthers(jobs: seq<CronJob>, id: string, j: CronJob)
    ensures j in AfterRemove(jobs, id, None) ==> j in jobs
    ensures j in jobs && j.id != id ==> j in AfterRemove(jobs, id, None)
  {
    match FindIndex(jobs, id, None)
    case None =>
    case Some(i) =>
      var r := RemoveAt(jobs, i);
      if j in r {
        var k :| 0 <= k < |r| && r[k] == j;
        if k < i { assert jobs[k] == j; } else { assert jobs[k + 1] == j; }
      }
      if j in jobs && j.id != id {
        var k :| 0 <= k < |jobs| && jobs[k] == j;
        assert k != i;
        if k < i { assert r[k] == j; } else { assert r[k - 1] == j; }
      }
  }

  /** Firing keeps ids distinct and adds no job. */
  lemma {:induction false} AfterFiringAllShrinks(jobs: seq<CronJob>, due: seq<CronJob>)
    requires DistinctIds(jobs)
    ensures DistinctIds(AfterFiringAll(jobs, due))
    ensures forall j :: j in AfterFiringAll(jobs, due) ==> j in jobs
  {
    if |due| > 0 {
      var before := AfterFiringAll(jobs, due[..|due| - 1]);
      AfterFiringAllShrinks(jobs, due[..|due| - 1]);
      var d := due[|due| - 1];
      if IsSet(d.at) {
        RemoveKeepsIdsDistinct(before, d.id, None);
        forall j | j in AfterRemove(before, d.id, None) ensures j in jobs {
          RemoveKeepsOthers(before, d.id, j);
        }
      }
    }
  }

  /** With distinct ids, every one-shot job that fired is gone from the store afterwards,
      whether or not its delivery worked: a one-shot reminder fires at most once. */
  lemma {:induction false} FiredOneShotsRemoved(jobs: seq<CronJob>, due: seq<CronJob>)
    requires DistinctIds(jobs)
    ensures forall d, j :: d in due && IsSet(d.at) && j in AfterFiringAll(jobs, due) ==> j.id != d.id
  {
    if |due| > 0 {
      var init := due[..|due| - 1];
      var before := AfterFiringAll(jobs, init);
      var last := due[|due| - 1];
      FiredOneShotsRemoved(jobs, init);
      AfterFiringAllShrinks(jobs, init);
      if IsSet(last.at) {
        RemoveByIdLeavesNone(before, last.id);
        forall j | j in AfterRemove(before, last.id, None) ensures j in before {
          RemoveKeepsOthers(before, last.id, j);
        }
      }
      forall d, j | d in due && IsSet(d.at) && j in AfterFiringAll(jobs, due) ensures j.id != d.id {
        if d != last {
          assert d in init by {
            var k :| 0 <= k < |due| && due[k] == d;
            assert init[k] == d;
          }
        }
      }
    }
  }

  /** No one-shot job among `due` has the id of `j`. */
  predicate NotFired(j: CronJob, due: seq<CronJob>) {
    forall d :: d in due && IsSet(d.at) ==> d.id != j.id
  }

  /** Firing removes nothing but the fired one-shot jobs: every other job survives. */
  lemma {:induction false} UnfiredJobsSurvive(jobs: seq<CronJob>, due: seq<CronJob>)
    ensures forall j :: j in jobs && NotFired(j, due) ==> j in AfterFiringAll(jobs, due)
  {
    if |due| > 0 {
      var init := due[..|due| - 1];
      var before := AfterFiringAll(jobs, init);
      var last := due[|due| - 1];
      UnfiredJobsSurvive(jobs, init);
      forall j | j in jobs && NotFired(j, due) ensures j in AfterFiringAll(jobs, due) {
        assert NotFired(j, init) by {
          forall d | d in init && IsSet(d.at) ensures d.id != j.id {
            var k :| 0 <= k < |init| && init[k] == d;
            assert due[k] == d;
          }
        }
        if IsSet(last.at) {
          RemoveKeepsOthers(before, last.id, j);
        }
      }
    }
  }

  /** With distinct ids, firing jobs taken from the store never removes a recurring
      job: only jobs with `at` set are deleted. */
  lemma {:induction false} RecurringJobsSurvive(jobs: seq<CronJob>, due: seq<CronJob>)
    requires DistinctIds(jobs)
    requires forall d :: d in due ==> d in jobs
    ensures forall j :: j in jobs && !IsSet(j.at) ==> j in AfterFiringAll(jobs, due)
  {
    if |due| > 0 {
      var init := due[..|due| - 1];
      var before := AfterFiringAll(jobs, init);
      var last := due[|due| - 1];
      assert forall d :: d in init ==> d in due;
      RecurringJobsSurvive(jobs, init);
      if IsSet(last.at) {
        forall j | j in jobs && !IsSet(j.at) ensures j in AfterRemove(before, last.id, None) {
          var a :| 0 <= a < |jobs| && jobs[a] == j;
          assert last in due;
          var b :| 0 <= b < |jobs| && jobs[b] == last;
          assert a != b;
          RemoveKeepsOthers(before, last.id, j);
        }
      }
    }
  }

  /** A tick never deletes a recurring job, provided the stored ids are distinct. */
  lemma TickKeepsRecurringJobs(jobs: seq<CronJob>, now: int,
                               nextAfter: (string, int) -> Option<int>, parseIso: string -> Option<int>)
    requires DistinctIds(jobs)
    ensures forall j :: j in jobs && !IsSet(j.at) ==> j in AfterFiringAll(jobs, DueJobs(jobs, now, nextAfter, parseIso))
  {
    RecurringJobsSurvive(jobs, DueJobs(jobs, now, nextAfter, parseIso));
  }

  /** The scheduler: the store it fires from, whether the interval is set, and the
      attempts made so far. */
  class Scheduler {
    const store: JobStore
    var running: bool
    var outbox: seq<Delivery>

    constructor (store: JobStore)
      ensures this.store == store && !running && outbox == []
    {
      this.store := store;
      running := false;
      outbox := [];
    }

    /** `fireJob(job)`: send the reminder to the job's chat; a failed delivery is
        recorded and otherwise ignored; then a one-shot job is removed by id. */
    method FireJob(job: CronJob, deliver: (string, string) -> bool)
      modifies this, store
      ensures running == old(running)
      ensures outbox == old(outbox) + Deliveries([job], deliver)
      ensures store.jobs == AfterFiring(old(store.jobs), job)
    {
      var content := ReminderText(job.message);
      var delivered := deliver(job.chatId, content);
      outbox := outbox + [Delivery(job.chatId, content, delivered)];
      if IsSet(job.at) {
        var _ := store.RemoveById(job.id);
      }
    }

    /** `tick()`: read the due jobs at `now` once, then fire them one at a time in that
        order. */
    method Tick(now: int, nextAfter: (string, int) -> Option<int>, parseIso: string -> Option<int>,
                deliver: (string, string) -> bool)
      modifies this, store
      ensures running == old(running)
      ensures var due := DueJobs(old(store.jobs), now, nextAfter, parseIso);
        && outbox == old(outbox) + Deliveries(due, deliver)
        && store.jobs == AfterFiringAll(old(store.jobs), due)
    {
      var due := store.GetDue(now, nextAfter, parseIso);
      var i := 0;
      while i < |due|
        invariant 0 <= i <= |due|
        invariant running == old(running)
        invariant outbox == old(outbox) + Deliveries(due[..i], deliver)
        invariant store.jobs == AfterFiringAll(old(store.jobs), due[..i])
      {
        assert due[..i + 1][..i] == due[..i];
        FireJob(due[i], deliver);
        i := i + 1;
      }
      assert due[..i] == due;
    }

    /** `startScheduler()`: when already running, nothing happens; otherwise one tick
        runs at once and the scheduler becomes running. */
    method Start(now: int, nextAfter: (string, int) -> Option<int>, parseIso: string -> Option<int>,
                 deliver: (string, string) -> bool)
      modifies this, store
      ensures running
      ensures old(running) ==> outbox == old(outbox) && store.jobs == old(store.jobs)
      ensures !old(running) ==>
        var due := DueJobs(old(store.jobs), now, nextAfter, parseIso);
        && outbox == old(outbox) + Deliveries(due, deliver)
        && store.jobs == AfterFiringAll(old(store.jobs), due)
    {
      if running {
        return;
      }
      Tick(now, nextAfter, parseIso, deliver);
      running := true;
    }

    /** `stopScheduler()`: clear the interval if set; stopping twice is harmless. */
    method Stop()
      modifies this
      ensures !running
      ensures outbox == old(outbox)
    {
      running := false;
    }
  }
}

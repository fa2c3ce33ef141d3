/** The reminder store: the list of reminder jobs, added to, filtered, removed from and
    checked for jobs due at a given instant. The jobs file is modelled as the list it
    holds; time is integer milliseconds since the epoch. */
module CronStore {
  import opened Wrappers
  import opened JsText

  /** A stored reminder. `cron` and `at` are both optional: creation lets exactly one be
      non-blank, but a job read back can carry both, and then `at` decides. */
  datatype CronJob = CronJob(
    id: string,
    userId: string,
    chatId: string,
    cron: Option<string>,
    at: Option<string>,
    message: string,
    createdAt: string)

  /** The argument of `cronAdd`: a job without `id` and `createdAt`. */
  datatype NewJob = NewJob(userId: string, chatId: string, cron: Option<string>, at: Option<string>, message: string)

  /** `job.at` (or `job.cron`) is truthy: present and not "". */
  predicate IsSet(field: Option<string>) {
    field.Some? && field.value != ""
  }

  /** `!!field?.trim()`: present and not only whitespace. */
  predicate NonBlank(field: Option<string>) {
    field.Some? && Trim(field.value) != ""
  }

  const MissingScheduleText: string := "必须提供 cron（周期）或 at（单次时间）"
  const BothSchedulesText: string := "cron 与 at 只能二选一"

  /** The error `cronAdd` throws, if any: neither or both schedules non-blank. */
  function Validate(job: NewJob): (r: Option<string>)
    ensures r.None? <==> NonBlank(job.cron) != NonBlank(job.at)
    ensures r == Some(MissingScheduleText) <==> !NonBlank(job.cron) && !NonBlank(job.at)
    ensures r == Some(BothSchedulesText) <==> NonBlank(job.cron) && NonBlank(job.at)
  {
    var hasCron, hasAt := NonBlank(job.cron), NonBlank(job.at);
    if !hasCron && !hasAt then Some(MissingScheduleText)
    else if hasCron && hasAt then Some(BothSchedulesText)
    else None
  }

  /** `{...job, id, createdAt}` exactly as `cronAdd` builds it: every field verbatim, so a
      whitespace-only schedule that validation ignored is stored all the same. */
  function CreatedAsWritten(job: NewJob, id: string, createdAt: string): CronJob
  {
    CronJob(id, job.userId, job.chatId, job.cron, job.at, job.message, createdAt)
  }

  /** The job `cronAdd` evidently means to store: the caller's fields verbatim, except
      that a schedule field validation judged blank is left out. */
  function Created(job: NewJob, id: string, createdAt: string): (r: CronJob)
    ensures r.id == id && r.createdAt == createdAt
    ensures r.userId == job.userId && r.chatId == job.chatId && r.message == job.message
    ensures NonBlank(job.cron) ==> r.cron == job.cron
    ensures NonBlank(job.at) ==> r.at == job.at
    ensures !NonBlank(job.cron) ==> r.cron.None?
    ensures !NonBlank(job.at) ==> r.at.None?
  {
    CronJob(id, job.userId, job.chatId,
            if NonBlank(job.cron) then job.cron else None,
            if NonBlank(job.at) then job.at else None,
            job.message, createdAt)
  }

  /** A job that passes validation is stored with exactly one schedule, and that one set. */
  lemma CreatedHasOneSchedule(job: NewJob, id: string, createdAt: string)
    requires Validate(job).None?
    ensures var r := Created(job, id, createdAt);
      (IsSet(r.cron) && r.at.None?) || (IsSet(r.at) && r.cron.None?)
  {
  }

  /** `now` with seconds and milliseconds cleared (`setSeconds(0, 0)`). */
  function StartOfMinute(now: int): (r: int)
    ensures r <= now < r + 60000 && r % 60000 == 0
  {
    now - now % 60000
  }

  /** Whether `cronGetDue(now)` includes `job`. `parseIso` is `new Date(at).getTime()`
      (`None` for NaN); `nextAfter(expr, t)` is the next run of the cron expression after
      instant `t` (`None` when the expression does not parse). */
  predicate IsDue(job: CronJob, now: int, nextAfter: (string, int) -> Option<int>, parseIso: string -> Option<int>)
  {
    if IsSet(job.at) then
      match parseIso(job.at.value)
      case Some(atTime) => atTime <= now
      case None => false
    else if IsSet(job.cron) then
      var som := StartOfMinute(now);
      match nextAfter(job.cron.value, som - 1)
      case Some(nextRun) => nextRun <= som
      case None => false
    else false
  }

  /** The cron oracle's one promise: a next run comes after the instant it starts from. */
  ghost predicate NextIsLater(nextAfter: (string, int) -> Option<int>) {
    forall expr: string, t: int :: nextAfter(expr, t).Some? ==> nextAfter(expr, t).value > t
  }

  /** A job with `at` set is judged by `at` alone: the instant has come, at full
      precision; an unparseable `at` is never due, and `cron` is never consulted. */
  lemma AtDecides(job: CronJob, now: int, cron: Option<string>,
                  nextAfter: (string, int) -> Option<int>, parseIso: string -> Option<int>)
    requires IsSet(job.at)
    ensures IsDue(job, now, nextAfter, parseIso) <==> parseIso(job.at.value).Some? && parseIso(job.at.value).value <= now
    ensures IsDue(job.(cron := cron), now, nextAfter, parseIso) == IsDue(job, now, nextAfter, parseIso)
  {
  }

  /** A recurring job is due exactly when its next run after the last millisecond of the
      previous minute falls on the start of this minute. */
  lemma CronDueAtStartOfMinute(job: CronJob, now: int,
                               nextAfter: (string, int) -> Option<int>, parseIso: string -> Option<int>)
    requires NextIsLater(nextAfter)
    requires !IsSet(job.at) && IsSet(job.cron)
    ensures IsDue(job, now, nextAfter, parseIso) <==>
      nextAfter(job.cron.value, StartOfMinute(now) - 1) == Some(StartOfMinute(now))
  {
    var som := StartOfMinute(now);
    var next := nextAfter(job.cron.value, som - 1);
    if next.Some? {
      assert next.value > som - 1;
    }
  }

  /** Within one minute a recurring job gets the same verdict at every instant. */
  lemma CronVerdictPerMinute(job: CronJob, now1: int, now2: int,
                             nextAfter: (string, int) -> Option<int>, parseIso: string -> Option<int>)
    requires !IsSet(job.at)
    requires now1 / 60000 == now2 / 60000
    ensures IsDue(job, now1, nextAfter, parseIso) == IsDue(job, now2, nextAfter, parseIso)
  {
    assert StartOfMinute(now1) == StartOfMinute(now2);
  }

  /** A whitespace-only `at` passes validation beside a cron expression, is stored as it
      came, and then silences the job: `at` is truthy, so the cron is never consulted, and
      it parses to no instant. */
  lemma BlankAtSilencesCron(job: NewJob, id: string, createdAt: string, now: int,
                            nextAfter: (string, int) -> Option<int>, parseIso: string -> Option<int>)
    requires NonBlank(job.cron)
    requires job.at.Some? && job.at.value != "" && AllSpace(job.at.value)
    requires parseIso(job.at.value).None?
    ensures Validate(job).None?
    ensures !IsDue(CreatedAsWritten(job, id, createdAt), now, nextAfter, parseIso)
  {
  }

  /** The job stored in that case fires by its cron expression as validation implies. */
  lemma ValidCronJobFiresByCron(job: NewJob, id: string, createdAt: string, now: int,
                                nextAfter: (string, int) -> Option<int>, parseIso: string -> Option<int>)
    requires Validate(job).None? && NonBlank(job.cron)
    ensures var r := Created(job, id, createdAt);
      IsDue(r, now, nextAfter, parseIso) <==>
        (match nextAfter(job.cron.value, StartOfMinute(now) - 1)
         case Some(nextRun) => nextRun <= StartOfMinute(now)
         case None => false)
  {
    assert job.cron.value != "";
  }

  /** The elements of `s` that satisfy `p`, in order. */
  function Filter<T(==,!new)>(s: seq<T>, p: T -> bool): (r: seq<T>)
    ensures |r| <= |s|
    ensures forall x :: x in r <==> x in s && p(x)
  {
    if |s| == 0 then []
    else Filter(s[..|s| - 1], p) + (if p(s[|s| - 1]) then [s[|s| - 1]] else [])
  }

  /** `Filter` keeps every copy of an element that satisfies `p` and no copy of one
      that does not. */
  lemma {:induction false} FilterCounts<T(!new)>(s: seq<T>, p: T -> bool)
    ensures forall x :: multiset(Filter(s, p))[x] == if p(x) then multiset(s)[x] else 0
    decreases |s|
  {
    if |s| > 0 {
      var init, last := s[..|s| - 1], s[|s| - 1];
      FilterCounts(init, p);
      assert s == init + [last];
      assert multiset(s) == multiset(init) + multiset{last};
      assert multiset(Filter(s, p)) == multiset(Filter(init, p)) + multiset(if p(last) then [last] else []);
    }
  }

  /** `a` is `b` with some elements left out, the rest in their order. */
  predicate SubsequenceOf<T(==)>(a: seq<T>, b: seq<T>)
  {
    if |a| == 0 then true
    else if |b| == 0 then false
    else if a[|a| - 1] == b[|b| - 1] then SubsequenceOf(a[..|a| - 1], b[..|b| - 1])
    else SubsequenceOf(a, b[..|b| - 1])
  }

  /** Leaving out the last element of a subsequence keeps it a subsequence. */
  lemma {:induction false} SubsequenceDropLast<T>(a: seq<T>, b: seq<T>)
    requires |a| > 0 && SubsequenceOf(a, b)
    ensures SubsequenceOf(a[..|a| - 1], b)
    decreases |b|
  {
    var a' := a[..|a| - 1];
    var b' := b[..|b| - 1];
    if a[|a| - 1] != b[|b| - 1] {
      SubsequenceDropLast(a, b');
    }
    if |a'| > 0 && a'[|a'| - 1] == b[|b| - 1] {
      SubsequenceDropLast(a', b');
      assert a'[..|a'| - 1] == a[..|a| - 2];
    }
  }

  /** A subsequence of `b` is one of `b` with anything appended. */
  lemma SubsequenceExtend<T>(a: seq<T>, b: seq<T>, x: T)
    requires SubsequenceOf(a, b)
    ensures SubsequenceOf(a, b + [x])
  {
    assert (b + [x])[..|b|] == b;
    if |a| > 0 && a[|a| - 1] == x {
      SubsequenceDropLast(a, b);
    }
  }

  lemma {:induction false} SubsequenceOfSelf<T>(s: seq<T>)
    ensures SubsequenceOf(s, s)
  {
    if |s| > 0 {
      SubsequenceOfSelf(s[..|s| - 1]);
    }
  }

  /** What `filter` keeps is a subsequence of what it was given. */
  lemma {:induction false} FilterIsSubsequence<T(!new)>(s: seq<T>, p: T -> bool)
    ensures SubsequenceOf(Filter(s, p), s)
  {
    if |s| > 0 {
      var init := s[..|s| - 1];
      FilterIsSubsequence(init, p);
      if p(s[|s| - 1]) {
        assert Filter(s, p)[..|Filter(s, p)| - 1] == Filter(init, p);
      } else {
        assert init + [s[|s| - 1]] == s;
        SubsequenceExtend(Filter(init, p), init, s[|s| - 1]);
        assert Filter(s, p) == Filter(init, p) + [];
        assert Filter(s, p) == Filter(init, p);
      }
    }
  }

  /** `splice(i, 1)`. */
  function RemoveAt<T>(s: seq<T>, i: nat): (r: seq<T>)
    requires i < |s|
    ensures |r| == |s| - 1
    ensures forall k :: 0 <= k < i ==> r[k] == s[k]
    ensures forall k :: i <= k < |r| ==> r[k] == s[k + 1]
  {
    s[..i] + s[i + 1..]
  }

  /** The predicate of `cronRemove`'s `findIndex`: the id matches, and so does the owner
      unless `userId` is `null` or absent. */
  predicate Matches(job: CronJob, id: string, userId: Option<string>) {
    job.id == id && (userId.None? || job.userId == userId.value)
  }

  /** `findIndex`, from index `from` on. */
  function FindFrom(jobs: seq<CronJob>, id: string, userId: Option<string>, from: nat): (r: Option<nat>)
    requires from <= |jobs|
    ensures r.Some? ==> from <= r.value < |jobs| && Matches(jobs[r.value], id, userId)
    ensures r.Some? ==> forall k :: from <= k < r.value ==> !Matches(jobs[k], id, userId)
    ensures r.None? ==> forall k :: from <= k < |jobs| ==> !Matches(jobs[k], id, userId)
    decreases |jobs| - from
  {
    if from == |jobs| then None
    else if Matches(jobs[from], id, userId) then Some(from)
    else FindFrom(jobs, id, userId, from + 1)
  }

  /** The index of the first matching job. */
  function FindIndex(jobs: seq<CronJob>, id: string, userId: Option<string>): (r: Option<nat>)
    ensures r.Some? ==> r.value < |jobs| && Matches(jobs[r.value], id, userId)
    ensures r.Some? ==> forall k :: 0 <= k < r.value ==> !Matches(jobs[k], id, userId)
    ensures r.None? ==> forall k :: 0 <= k < |jobs| ==> !Matches(jobs[k], id, userId)
  {
    FindFrom(jobs, id, userId, 0)
  }

  /** The list after a removal: the first matching job spliced out, or no change. */
  function AfterRemove(jobs: seq<CronJob>, id: string, userId: Option<string>): seq<CronJob>
  {
    match FindIndex(jobs, id, userId)
    case Some(i) => RemoveAt(jobs, i)
    case None => jobs
  }

  /** Removal takes out exactly one job when one matches, keeping the others in order. */
  lemma {:induction false} AfterRemoveIsSubsequence(jobs: seq<CronJob>, id: string, userId: Option<string>)
    ensures SubsequenceOf(AfterRemove(jobs, id, userId), jobs)
    ensures |AfterRemove(jobs, id, userId)| == |jobs| - (if FindIndex(jobs, id, userId).Some? then 1 else 0)
  {
    var i := FindIndex(jobs, id, userId);
    if i.Some? {
      RemoveAtIsSubsequence(jobs, i.value);
    } else {
      SubsequenceOfSelf(jobs);
    }
  }

  /** Splicing out one element keeps the rest in order. */
  lemma {:induction false} RemoveAtIsSubsequence<T>(s: seq<T>, i: nat)
    requires i < |s|
    ensures SubsequenceOf(RemoveAt(s, i), s)
    decreases |s|
  {
    var r := RemoveAt(s, i);
    if i == |s| - 1 {
      assert r == s[..|s| - 1];
      SubsequenceOfSelf(r);
      SubsequenceExtend(r, r, s[|s| - 1]);
      assert r + [s[|s| - 1]] == s;
    } else {
      assert r[..|r| - 1] == RemoveAt(s[..|s| - 1], i);
      RemoveAtIsSubsequence(s[..|s| - 1], i);
    }
  }

  /** The ids are pairwise distinct. */
  predicate DistinctIds(jobs: seq<CronJob>) {
    forall i, j :: 0 <= i < j < |jobs| ==> jobs[i].id != jobs[j].id
  }

  /** Appending a job whose id is not yet in the store keeps the ids distinct. */
  lemma AddKeepsIdsDistinct(jobs: seq<CronJob>, job: CronJob)
    requires DistinctIds(jobs)
    requires forall k :: 0 <= k < |jobs| ==> jobs[k].id != job.id
    ensures DistinctIds(jobs + [job])
  {
  }

  /** Removing a job keeps the ids distinct. */
  lemma RemoveKeepsIdsDistinct(jobs: seq<CronJob>, id: string, userId: Option<string>)
    requires DistinctIds(jobs)
    ensures DistinctIds(AfterRemove(jobs, id, userId))
  {
    match FindIndex(jobs, id, userId)
    case None =>
    case Some(i) =>
      var r := RemoveAt(jobs, i);
      forall a, b | 0 <= a < b < |r| ensures r[a].id != r[b].id {
        var a', b' := if a < i then a else a + 1, if b < i then b else b + 1;
        assert r[a] == jobs[a'] && r[b] == jobs[b'];
      }
  }

  /** `cronGetDue(now)`: the due jobs, in store order. */
  function DueJobs(jobs: seq<CronJob>, now: int,
                   nextAfter: (string, int) -> Option<int>, parseIso: string -> Option<int>): seq<CronJob>
  {
    Filter(jobs, job => IsDue(job, now, nextAfter, parseIso))
  }

  /** The persisted job list. */
  class JobStore {
    var jobs: seq<CronJob>

    constructor (jobs: seq<CronJob>)
      ensures this.jobs == jobs
    {
      this.jobs := jobs;
    }

    /** `cronList(userId)`: a non-empty `userId` selects that user's jobs, in store
        order; an absent or empty one selects all. */
    function List(userId: Option<string>): (r: seq<CronJob>)
      reads this
      ensures IsSet(userId) ==> forall job :: job in r <==> job in jobs && job.userId == userId.value
      ensures IsSet(userId) ==> forall job :: multiset(r)[job] ==
                                  (if job.userId == userId.value then multiset(jobs)[job] else 0)
      ensures !IsSet(userId) ==> r == jobs
      ensures SubsequenceOf(r, jobs)
    {
      if IsSet(userId) then
        var u := userId.value;
        FilterIsSubsequence(jobs, (job: CronJob) => job.userId == u);
        FilterCounts(jobs, (job: CronJob) => job.userId == u);
        Filter(jobs, (job: CronJob) => job.userId == u)
      else
        SubsequenceOfSelf(jobs);
        jobs
    }

    /** `cronAdd(job)`, with the fresh `randomUUID()` and the ISO time of creation passed
        in. A rejected job leaves the store as it was. */
    method Add(job: NewJob, id: string, createdAt: string) returns (r: Result<CronJob, string>)
      modifies this
      ensures Validate(job).Some? ==> r == Err(Validate(job).value) && jobs == old(jobs)
      ensures Validate(job).None? ==> r == Ok(Created(job, id, createdAt)) && jobs == old(jobs) + [r.value]
    {
      var error := Validate(job);
      if error.Some? {
        return Err(error.value);
      }
      var created := Created(job, id, createdAt);
      jobs := jobs + [created];
      return Ok(created);
    }

    /** `cronRemove(id, userId)`: splice out the first job with that id (and owner, when
        `userId` is given, "" included); report whether one was found. */
    method Remove(id: string, userId: Option<string>) returns (removed: bool)
      modifies this
      ensures removed <==> FindIndex(old(jobs), id, userId).Some?
      ensures jobs == AfterRemove(old(jobs), id, userId)
    {
      var idx := FindIndex(jobs, id, userId);
      if idx.None? {
        return false;
      }
      jobs := RemoveAt(jobs, idx.value);
      return true;
    }

    /** `cronRemoveById(id)`: the same without an owner filter. */
    method RemoveById(id: string) returns (removed: bool)
      modifies this
      ensures removed <==> exists k :: 0 <= k < |old(jobs)| && old(jobs)[k].id == id
      ensures jobs == AfterRemove(old(jobs), id, None)
    {
      removed := Remove(id, None);
      if removed {
        var k := FindIndex(old(jobs), id, None).value;
        assert old(jobs)[k].id == id;
      }
    }

    /** `cronGetDue(now)`: one pass over the jobs, collecting the due ones. Nothing in
        the store changes. */
    method GetDue(now: int, nextAfter: (string, int) -> Option<int>, parseIso: string -> Option<int>)
      returns (due: seq<CronJob>)
      ensures due == DueJobs(jobs, now, nextAfter, parseIso)
    {
      due := [];
      var i := 0;
      while i < |jobs|
        invariant 0 <= i <= |jobs|
        invariant due == DueJobs(jobs[..i], now, nextAfter, parseIso)
      {
        var job := jobs[i];
        assert jobs[..i + 1][..i] == jobs[..i];
        if IsSet(job.at) {
          var atTime := parseIso(job.at.value);
          if atTime.Some? && atTime.value <= now {
            due := due + [job];
          }
        } else if IsSet(job.cron) {
          var som := StartOfMinute(now);
          var nextRun := nextAfter(job.cron.value, som - 1);
          if nextRun.Some? && nextRun.value <= som {
            due := due + [job];
          }
        }
        i := i + 1;
      }
      assert jobs[..i] == jobs;
    }
  }
}

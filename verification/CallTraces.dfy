/**
 What an interleaved call comes to. However calls, clears and cleanups interleave, each call does to its own
 record exactly what the uninterrupted call of the page loop does with the replies that its attempts have met.
 */
module CallTraces {
  import opened Basics
  import opened MapSum
  import opened FillPages
  import opened FillSlots
  import opened FillCalls

  /** The sequential call on the replies that the job has met so far. */
  function Sequential(j: Job): CallResult {
    Attempts(j.before, j.key.orderId, j.replies)
  }

  /** The job has merged the pages of all the given replies and is still open. */
  predicate HasMerged(j: Job, replies: seq<Reply>, progress: Progress) {
    Attempts(j.before, j.key.orderId, replies) == CallResult(Later, progress, false, |replies|)
  }

  /** Where the job stands in the sequential call, and what its record is there. */
  ghost predicate Follows(j: Job, o: Obj) {
    && j.initialAdvances == j.before.advances && |j.replies| <= PAGES_PER_CALL
    && match j.phase
       case Ready =>
         HasMerged(j, j.replies, o.progress) && |j.replies| == j.attempt < PAGES_PER_CALL
       case Checked(page) =>
         && |j.replies| == j.attempt + 1 && j.replies[j.attempt] == Page(page)
         && HasMerged(j, j.replies[..j.attempt], o.progress)
       case Touching =>
         HasMerged(j, j.replies, o.progress) && |j.replies| == j.attempt + 1
       case Completing(result) =>
         Sequential(j).end == Finished(result) && Sequential(j).progress == o.progress
       case _ =>
         && Sequential(j).progress == o.progress && Sequential(j).failedQuery == j.failedQuery
         && (Sequential(j).end.Later? ==> |j.replies| == PAGES_PER_CALL)
  }

  ghost predicate FollowsAt(s: Sys, job: nat) {
    Running(s, job) && Follows(s.jobs[job], s.objects[s.jobs[job].pid])
  }

  ghost predicate AllFollow(s: Sys) {
    forall job | job in s.jobs :: FollowsAt(s, job)
  }

  /** One call goes on, and every other call and record is left alone. */
  ghost predicate GoesOn(s: Sys, t: Sys, job: nat) {
    && Running(s, job) && FollowsAt(t, job)
    && t.jobs == s.jobs[job := t.jobs[job]]
    && t.objects == s.objects[s.jobs[job].pid := t.objects[t.jobs[job].pid]]
  }

  lemma GoingOnFollows(s: Sys, t: Sys, job: nat)
    requires JobsOk(s) && AllFollow(s) && GoesOn(s, t, job)
    ensures AllFollow(t)
  {
    assert JobOk(job, s.jobs[job], s.objects[s.jobs[job].pid]);
    forall other | other in t.jobs ensures FollowsAt(t, other) {
      if other != job {
        assert FollowsAt(s, other) && JobOk(other, s.jobs[other], s.objects[s.jobs[other].pid]);
      }
    }
  }

  // ---------------------------------------------------------------- one more reply

  lemma {:induction false} LaterMergesAll(p: Progress, orderId: int, replies: seq<Reply>)
    requires Attempts(p, orderId, replies).end.Later?
    ensures var r := Attempts(p, orderId, replies); !r.failedQuery && r.pages == |replies|
    decreases |replies|
  {
    if replies != [] {
      LaterMergesAll(PageStep(p, orderId, replies[0].fills).1, orderId, replies[1..]);
    }
  }

  /** A call that is still open goes on with the next reply from the record it has. */
  lemma {:induction false} AttemptsPut(p: Progress, orderId: int, init: seq<Reply>, reply: Reply)
    requires Attempts(p, orderId, init).end.Later?
    ensures var r := Attempts(p, orderId, init);
      var last := Attempts(r.progress, orderId, [reply]);
      Attempts(p, orderId, init + [reply]) == last.(pages := r.pages + last.pages)
    decreases |init|
  {
    if init == [] {
      assert [] + [reply] == [reply];
    } else {
      AttemptsPut(PageStep(p, orderId, init[0].fills).1, orderId, init[1..], reply);
      assert (init + [reply])[1..] == init[1..] + [reply];
    }
  }

  /** What one reply makes of an open call. */
  lemma OneReply(j: Job, init: seq<Reply>, progress: Progress, reply: Reply)
    requires HasMerged(j, init, progress)
    ensures var r := Attempts(j.before, j.key.orderId, init + [reply]);
      match reply
      case Page(page) =>
        var (verdict, next) := PageStep(progress, j.key.orderId, page);
        && r.progress == next
        && (match verdict
            case Continue => HasMerged(j, init + [reply], next)
            case Complete(result) => r.end == Finished(result) && r.failedQuery
            case Reject(error) => r.end == Broken(error) && r.failedQuery)
      case Failed => r.end.Stopped? && r.progress == progress && r.failedQuery
      case _ => r.end.Stopped? && r.progress == progress && !r.failedQuery
  {
    AttemptsPut(j.before, j.key.orderId, init, reply);
    if reply.Page? {
      assert [reply][1..] == [];
    }
  }

  // ---------------------------------------------------------------- own steps

  lemma StoppedFollows(s: Sys, job: nat, reply: Reply)
    requires FollowsAt(s, job) && s.jobs[job].phase.Ready? && (reply.Refused? || reply.Cleared?)
    ensures var t := SetPhase(Met(s, job, reply), job, Ending, false); GoesOn(s, t, job)
  {
    OneReply(s.jobs[job], s.jobs[job].replies, s.objects[s.jobs[job].pid].progress, reply);
  }

  lemma FailedFollows(s: Sys, job: nat)
    requires FollowsAt(s, job) && s.jobs[job].phase.Ready?
    ensures var t := Failing(Met(s, job, Failed), job); GoesOn(s, t, job)
  {
    OneReply(s.jobs[job], s.jobs[job].replies, s.objects[s.jobs[job].pid].progress, Failed);
  }

  lemma CheckedFollows(s: Sys, job: nat, page: seq<Fill>)
    requires FollowsAt(s, job) && s.jobs[job].phase.Ready?
    ensures var t := SetPhase(Met(s, job, Page(page)), job, Checked(page), false); GoesOn(s, t, job)
  {
    var j := s.jobs[job];
    assert (j.replies + [Page(page)])[..j.attempt] == j.replies;
  }

  lemma MergedFollows(s: Sys, job: nat)
    requires FollowsAt(s, job) && s.jobs[job].phase.Checked?
    ensures var t := Merged(s, job, s.jobs[job].phase.page); GoesOn(s, t, job)
  {
    var j := s.jobs[job];
    var p := s.objects[j.pid].progress;
    OneReply(j, j.replies[..j.attempt], p, Page(j.phase.page));
    assert j.replies == j.replies[..j.attempt] + [Page(j.phase.page)];
    SettledFollows(s, job, PageStep(p, j.key.orderId, j.phase.page).0, PageStep(p, j.key.orderId, j.phase.page).1);
  }

  lemma SettledFollows(s: Sys, job: nat, verdict: Verdict, next: Progress)
    requires FollowsAt(s, job) && s.jobs[job].phase.Checked?
    requires match verdict
      case Continue => HasMerged(s.jobs[job], s.jobs[job].replies, next)
      case Complete(result) => Sequential(s.jobs[job]).end == Finished(result) && Sequential(s.jobs[job]).progress == next
      case Reject(_) => Sequential(s.jobs[job]).end.Broken? && Sequential(s.jobs[job]).progress == next && Sequential(s.jobs[job]).failedQuery
    ensures var t := Settled(s, job, verdict, next); GoesOn(s, t, job)
  {
  }

  lemma TouchedFollows(s: Sys, job: nat, now: int)
    requires FollowsAt(s, job) && s.jobs[job].phase.Touching? && !s.jobs[job].failedQuery
    ensures var t := Touched(s, job, now); GoesOn(s, t, job)
  {
  }

  lemma {:induction false} FinishedIsMarked(p: Progress, orderId: int, replies: seq<Reply>)
    requires Attempts(p, orderId, replies).end.Finished?
    ensures Attempts(p, orderId, replies).failedQuery
    decreases |replies|
  {
    if replies[0].Page? && PageStep(p, orderId, replies[0].fills).0.Continue? {
      FinishedIsMarked(PageStep(p, orderId, replies[0].fills).1, orderId, replies[1..]);
    }
  }

  lemma TakenOutFollows(s: Sys, job: nat)
    requires FollowsAt(s, job) && s.jobs[job].phase.Completing?
    ensures var t := TakenOut(s, job); GoesOn(s, t, job)
  {
    FinishedIsMarked(s.jobs[job].before, s.jobs[job].key.orderId, s.jobs[job].replies);
  }

  lemma CleanedUpFollows(s: Sys, job: nat)
    requires FollowsAt(s, job) && s.jobs[job].phase.Ending?
    ensures var t := CleanedUp(s, job); GoesOn(s, t, job)
  {
  }

  /** The job of a step of one call. */
  predicate OfJob(step: Step) {
    step.GiveUp? || step.QueryFails? || step.PageArrives? || step.Merge? || step.Touch? || step.TakeOut? || step.CleanUp?
  }

  lemma OwnStepFollows(s: Sys, step: Step)
    requires JobsOk(s) && AllFollow(s) && OfJob(step) && Enabled(s, step)
    ensures GoesOn(s, Apply(s, step), step.job)
  {
    assert FollowsAt(s, step.job) && JobOk(step.job, s.jobs[step.job], s.objects[s.jobs[step.job].pid]);
    match step
    case GiveUp(job) => StoppedFollows(s, job, Refused);
    case QueryFails(job) => FailedFollows(s, job);
    case PageArrives(job, page) =>
      if InGeneration(s, s.jobs[job]) { CheckedFollows(s, job, page); } else { StoppedFollows(s, job, Cleared); }
    case Merge(job) => MergedFollows(s, job);
    case Touch(job, now) => TouchedFollows(s, job, now);
    case TakeOut(job) => TakenOutFollows(s, job);
    case CleanUp(job) => CleanedUpFollows(s, job);
  }

  // ---------------------------------------------------------------- beginning and end

  /** A call begins on the record that its slot has kept, or on an empty one if there is none or the order has changed. */
  ghost predicate BeginsOn(s: Sys, t: Sys, job: nat, pid: nat, key: Key, expectedQty: real) {
    && job in t.jobs && pid in t.objects && t.objects[pid].progress == t.jobs[job].before
    && t.jobs[job].phase.Ready? && t.jobs[job].replies == [] && t.jobs[job].key == key && t.jobs[job].pid == pid
    && t.jobs[job].before ==
         if pid in s.objects && s.objects[pid].progress.expectedQty == expectedQty then s.objects[pid].progress else Fresh(expectedQty)
  }

  /** A call that is admitted runs, and one that is not leaves every call and record as it was. */
  lemma BeginMeans(s: Sys, step: Step)
    requires Enabled(s, step) && step.Begin? && step.expectedQty > 0.0
    ensures var t, (admission, table) := Apply(s, step), Admit(s.table, PollOf(s, step.key, step.revision, step.now), step.victim, s.nextPid);
      && t.table == table && t.clock == step.now
      && match admission
         case Denied(_) => t.jobs == s.jobs && t.objects == s.objects
         case Granted(pid, _) => BeginsOn(s, t, step.job, pid, step.key, step.expectedQty)
  {
  }

  lemma GrantedFollows(s: Sys, t: Sys, job: nat, pid: nat, key: Key, expectedQty: real)
    requires JobsOk(s) && AllFollow(s) && job !in s.jobs && BeginsOn(s, t, job, pid, key, expectedQty)
    requires pid in s.objects ==> s.objects[pid].holder.None?
    requires t.jobs == s.jobs[job := t.jobs[job]] && t.objects == s.objects[pid := t.objects[pid]]
    requires t.jobs[job].initialAdvances == t.jobs[job].before.advances && t.jobs[job].attempt == 0
    ensures AllFollow(t)
  {
    forall other | other in t.jobs ensures FollowsAt(t, other) {
      if other != job {
        assert FollowsAt(s, other) && JobOk(other, s.jobs[other], s.objects[s.jobs[other].pid]);
      }
    }
  }

  lemma BegunFollows(s: Sys, step: Step)
    requires Inv(s) && AllFollow(s) && Enabled(s, step) && step.Begin?
    ensures AllFollow(Apply(s, step))
  {
    var t := Apply(s, step);
    if step.expectedQty > 0.0 {
      var p := PollOf(s, step.key, step.revision, step.now);
      InvGivesPidsOk(s);
      PollKeepsEntries(s, p, step.victim);
      BeginMeans(s, step);
      var admission := Admit(s.table, p, step.victim, s.nextPid).0;
      if admission.Granted? {
        GrantedFollows(s, t, step.job, admission.pid, step.key, step.expectedQty);
      }
    }
  }

  lemma FreedFollows(s: Sys, job: nat)
    requires JobsOk(s) && AllFollow(s) && Enabled(s, Release(job))
    ensures AllFollow(Freed(s, job))
  {
    var t := Freed(s, job);
    forall other | other in t.jobs ensures FollowsAt(t, other) {
      assert FollowsAt(s, other);
    }
  }

  lemma StepFollows(s: Sys, step: Step)
    requires Inv(s) && AllFollow(s) && Enabled(s, step)
    ensures AllFollow(Apply(s, step))
  {
    if OfJob(step) {
      OwnStepFollows(s, step);
      GoingOnFollows(s, Apply(s, step), step.job);
    } else if step.Begin? {
      BegunFollows(s, step);
    } else if step.Release? {
      FreedFollows(s, step.job);
    } else {
      assert forall job | job in s.jobs :: FollowsAt(s, job) ==> FollowsAt(Apply(s, step), job);
    }
  }

  lemma {:induction false} RunFollows(s: Sys, steps: seq<Step>)
    requires Inv(s) && AllFollow(s) && Runs(s, steps)
    ensures AllFollow(After(s, steps))
    decreases |steps|
  {
    if steps != [] {
      StepKeeps(s, steps[0]);
      StepFollows(s, steps[0]);
      RunFollows(Apply(s, steps[0]), steps[1..]);
    }
  }

  /**
   In every reachable state, a call that has ended has made of its record what the uninterrupted call makes of it with
   the same replies, and its cleanup sees the same mark; one that stops without an error has made all its attempts;
   and one that is completing returns the uninterrupted call's result.
   */
  lemma InterleavedCallsAreCalls(steps: seq<Step>, job: nat)
    requires Runs(Initial, steps) && job in After(Initial, steps).jobs
    ensures var s := After(Initial, steps);
      s.jobs[job].pid in s.objects
      && var j, o := s.jobs[job], s.objects[s.jobs[job].pid];
         var r := Attempts(j.before, j.key.orderId, j.replies);
      && |j.replies| <= PAGES_PER_CALL
      && (j.phase.Completing? ==> r.end == Finished(j.phase.result))
      && (j.phase.Ending? || j.phase.Released? ==>
            && o.progress == r.progress && j.failedQuery == r.failedQuery && j.initialAdvances == j.before.advances
            && (r.end.Later? ==> |j.replies| == PAGES_PER_CALL))
  {
    assert Inv(Initial) && AllFollow(Initial);
    RunFollows(Initial, steps);
    assert FollowsAt(After(Initial, steps), job);
  }
}

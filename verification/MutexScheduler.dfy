/** The functions on one control block that the mutex protocol uses are those of the scheduler. */
module MutexScheduler {
  import Scheduler
  import Mutex

  /** What the mutex protocol sees of a task control block. */
  predicate Agrees(s: Scheduler.Sched, t: Scheduler.Task, r: Mutex.Rec) {
    var tcb := Scheduler.T(s, t);
    t in s.tcbs && tcb.base == r.base && tcb.prio == r.prio && tcb.held == r.held
  }

  lemma InheritAgrees(s: Scheduler.Sched, holder: Scheduler.Task, r: Mutex.Rec)
    requires Agrees(s, holder, r)
    ensures Agrees(Scheduler.Inherit(s, holder), holder, Mutex.Raised(r, Scheduler.Prio(s, s.current)))
  {
    hide Scheduler.Unready;
    assert Scheduler.Unready(s, holder, r.prio).tcbs == s.tcbs by { UnreadyTcbs(s, holder, r.prio); }
  }

  lemma UnreadyTcbs(s: Scheduler.Sched, t: Scheduler.Task, p: nat)
    ensures Scheduler.Unready(s, t, p).tcbs == s.tcbs
  {
  }

  lemma DisinheritAgrees(s: Scheduler.Sched, r: Mutex.Rec)
    requires Agrees(s, s.current, r)
    ensures var d := Scheduler.Disinherit(s);
      Agrees(d.s, s.current, Mutex.Returned(r)) && d.switch == Mutex.Drops(r)
  {
    hide Scheduler.Unready, Scheduler.AddReady;
    UnreadyTcbs(s, s.current, r.prio);
    var lowered := Scheduler.T(s, s.current).(held := 0, prio := r.base, eventValue := s.levels - r.base);
    AddedTcbs(Scheduler.SetTcb(Scheduler.Unready(s, s.current, r.prio), s.current, lowered), s.current);
  }

  lemma AddedTcbs(s: Scheduler.Sched, t: Scheduler.Task)
    ensures Scheduler.AddReady(s, t).tcbs == s.tcbs
  {
  }

  lemma TimeoutAgrees(s: Scheduler.Sched, holder: Scheduler.Task, highest: nat, r: Mutex.Rec)
    requires Agrees(s, holder, r)
    ensures Agrees(Scheduler.DisinheritAfterTimeout(s, holder, highest), holder, Mutex.Recomputed(r, highest))
  {
  }
}

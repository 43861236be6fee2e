/** The class Scheduler, its list and counters updated in place. Each method is what runs under
    m_mutex, or one update of an atomic counter. */
module Schedulers {
  import opened Tasks

  /** A fiber or callback pointer of the caller, which scheduleLock empties. */
  class Slot<F, C> {
    var body: Body<F, C>

    constructor (body: Body<F, C>)
      ensures this.body == body
    {
      this.body := body;
    }
  }

  class Scheduler<F, C> {
    var tasks: seq<Task<F, C>>
    var active: nat
    var stop: bool

    ghost predicate Valid()
      reads this
    {
      NoneEmpty(tasks)
    }

    constructor ()
      ensures Valid() && tasks == [] && active == 0 && !stop
    {
      tasks, active, stop := [], 0, false;
    }

    method ScheduleLock(body: Body<F, C>, thread: int) returns (needTickle: bool)
      requires Valid()
      modifies this`tasks
      ensures Valid() && tasks == Submitted(old(tasks), body, thread)
      ensures needTickle <==> old(tasks) == []
    {
      needTickle := |tasks| == 0;
      var task := Task(body, thread);
      if !task.body.Empty? {
        tasks := tasks + [task];
      }
    }

    /** The overloads that take a pointer swap the caller's value out. */
    method ScheduleLockFrom(slot: Slot<F, C>, thread: int) returns (needTickle: bool)
      requires Valid()
      modifies this`tasks, slot
      ensures Valid() && tasks == Submitted(old(tasks), old(slot.body), thread)
      ensures slot.body == Empty && (needTickle <==> old(tasks) == [])
    {
      var body := slot.body;
      slot.body := Empty;
      needTickle := ScheduleLock(body, thread);
    }

    /** The scan of run(). tickleMe tells that a task was skipped or taken. */
    method TakeTask(me: int) returns (task: Task<F, C>, tickleMe: bool)
      requires Valid()
      modifies this`tasks, this`active
      ensures Valid()
      ensures var i := FirstEligible(old(tasks), me);
        if i < |old(tasks)| then
          task == old(tasks)[i] && tasks == Without(old(tasks), i) && active == old(active) + 1
        else task.body.Empty? && tasks == old(tasks) && active == old(active)
      ensures tickleMe <==> old(tasks) != []
    {
      task, tickleMe := Task(Empty, ANY), false;
      var it := 0;
      while it < |tasks|
        invariant it <= |tasks| && tasks == old(tasks) && active == old(active)
        invariant forall j :: 0 <= j < it ==> !Eligible(tasks[j], me)
        invariant task.body.Empty? && (tickleMe <==> it > 0)
      {
        if tasks[it].thread != ANY && tasks[it].thread != me {
          it := it + 1;
          tickleMe := true;
          continue;
        }
        assert !tasks[it].body.Empty?;
        task := tasks[it];
        FirstEligibleIs(tasks, me, it);
        tasks := tasks[..it] + tasks[it + 1..];
        active := active + 1;
        return task, true;
      }
    }

    /** A task is over. */
    method Finished()
      requires active > 0
      modifies this`active
      ensures active == old(active) - 1
    {
      active := active - 1;
    }

    method Stopping() returns (r: bool)
      ensures r <==> stop && tasks == [] && active == 0
    {
      r := stop && |tasks| == 0 && active == 0;
    }

    /** stop() up to the wake-ups: nothing happens when the scheduler has stopped already. */
    method BeginStop() returns (already: bool)
      modifies this`stop
      ensures stop && (already <==> old(stop) && tasks == [] && active == 0)
    {
      already := Stopping();
      if already {
        return;
      }
      stop := true;
    }
  }
}

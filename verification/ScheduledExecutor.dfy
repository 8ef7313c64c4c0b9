/** The executor object: the fields the worker and its callers update under the job lock. Every method is one step of
    the scheduler's state machine and keeps its invariant, so the theorems over runs are theorems about the object. */
module ScheduledExecutor {
  import opened Scheduler
  import opened SchedulerRuns

  function Turns(batch: seq<Job>, behaviour: Job -> Turn): seq<Turn> {
    seq(|batch|, i requires 0 <= i < |batch| => behaviour(batch[i]))
  }

  class Executor {
    var running: bool
    var jobs: map<int, seq<Job>>
    var batch: seq<Job>
    var current: Current
    var tasks: seq<TaskInfo>
    var cancelled: set<nat>
    var emptied: set<nat>
    var clock: int
    var submitted: seq<Job>
    var launches: seq<Launch>
    ghost var dropped: set<Job>

    ghost function Model(): State
      reads this
    {
      State(clock, running, jobs, batch, current, tasks, cancelled, emptied, submitted, launches, dropped)
    }

    ghost predicate Valid()
      reads this
    {
      Inv(Model())
    }

    constructor (now: int)
      ensures Model() == Init(now) && Valid()
    {
      running, jobs, batch, current := true, map[], [], Idle;
      tasks, cancelled, emptied := [], {}, {};
      clock, submitted, launches, dropped := now, [], [], {};
    }

    method Tick(now: int)
      requires Valid()
      modifies this`clock
      ensures Model() == Next(old(Model()), Event.Tick(now)) && Valid()
    {
      NextKeeps(Model(), Event.Tick(now));
      if clock <= now {
        clock := now;
      }
    }

    method Enqueue(due: int, work: Work)
      requires Valid() && Welcome(Model(), due, work)
      modifies this`jobs, this`submitted
      ensures Model() == Push(old(Model()), due, work) && Valid()
    {
      PushKeeps(Model(), due, work);
      var job := Job(|submitted|, due, work);
      if due in jobs {
        jobs := jobs[due := jobs[due] + [job]];
      } else {
        jobs := jobs[due := [job]];
        assert Bucket(old(jobs), due) + [job] == [job];
      }
      submitted := submitted + [job];
    }

    method Run(now: int)
      requires Valid()
      modifies this
      ensures Model() == Next(Next(old(Model()), Event.Tick(now)), RunNow) && Valid()
    {
      Tick(now);
      Enqueue(clock, Plain);
    }

    /** A new task with its first entry. */
    method AddTask(origin: int, period: int, repeated: bool) returns (task: nat)
      requires Valid()
      modifies this`tasks, this`jobs, this`submitted
      ensures Model() == PushTask(old(Model()), origin, period, repeated) && task == old(|tasks|) && Valid()
    {
      NewTaskIsWelcome(Model(), origin, period, repeated);
      task := |tasks|;
      tasks := tasks + [TaskInfo(origin, period, repeated)];
      Enqueue(origin, Entry(task, 0));
    }

    method ScheduleIn(now: int, delay: int) returns (task: nat)
      requires Valid()
      modifies this
      ensures var ticked := Next(old(Model()), Event.Tick(now));
              Model() == Next(ticked, ScheduleAt(ticked.now + delay)) && task == |ticked.tasks|
      ensures Valid()
    {
      Tick(now);
      task := AddTask(clock + delay, 0, false);
    }

    method ScheduleAtFixedRate(now: int, period: int) returns (task: nat)
      requires Valid()
      modifies this
      ensures var ticked := Next(old(Model()), Event.Tick(now));
              Model() == Next(ticked, ScheduleEvery(period)) && task == |ticked.tasks|
      ensures Valid()
    {
      Tick(now);
      task := AddTask(clock, period, true);
    }

    method CancelTask(task: nat)
      requires Valid()
      modifies this`cancelled
      ensures Model() == Next(old(Model()), Cancel(task)) && Valid()
    {
      NextKeeps(Model(), Cancel(task));
      if task < |tasks| {
        cancelled := cancelled + {task};
      }
    }

    /** The second half of RepeatedTask::destroy: the function is released once no call of it is under way. */
    method EmptyTask(task: nat)
      requires Valid()
      modifies this`emptied
      ensures Model() == Next(old(Model()), Reset(task)) && Valid()
    {
      NextKeeps(Model(), Reset(task));
      if task in cancelled && !(current.Calling? && Of(current.job, task)) {
        emptied := emptied + {task};
      }
    }

    method StopWorker()
      requires Valid()
      modifies this
      ensures Model() == Next(old(Model()), Stop) && Valid()
    {
      NextKeeps(Model(), Stop);
      running := false;
      dropped := dropped + Waiting(jobs);
      jobs := map[];
    }

    /** Joins the old worker first, so it starts only once the popped batch is finished. */
    method StartWorker()
      requires Valid() && (running || (batch == [] && current.Idle?))
      modifies this`running
      ensures Model() == (if old(running) then old(Model()) else Next(old(Model()), Start)) && Valid()
    {
      NextKeeps(Model(), Start);
      if !running {
        running := true;
      }
    }

    /** The first key of the ordered map. */
    method FirstKey() returns (first: int)
      requires jobs.Keys != {}
      ensures first == Earliest(jobs.Keys)
    {
      assert (forall k :: k !in jobs.Keys) ==> jobs.Keys == {};
      first :| first in jobs.Keys;
      var rest := jobs.Keys - {first};
      while rest != {}
        invariant rest <= jobs.Keys && first in jobs.Keys
        invariant forall k :: k in jobs.Keys && k !in rest ==> first <= k
        decreases |rest|
      {
        assert (forall k :: k !in rest) ==> rest == {};
        var k :| k in rest;
        if k < first {
          first := k;
        }
        rest := rest - {k};
      }
    }

    method PollDue()
      requires Valid()
      modifies this`batch, this`jobs
      ensures Model() == Next(old(Model()), Poll) && Valid()
    {
      NextKeeps(Model(), Poll);
      if running && batch == [] && current.Idle? && jobs.Keys != {} {
        var first := FirstKey();
        if first <= clock {
          batch := jobs[first];
          jobs := jobs - {first};
        }
      }
    }

    method StartJob()
      requires Valid() && batch != [] && current.Idle?
      modifies this
      ensures Model() == Next(old(Model()), StartNext) && Valid()
    {
      NextKeeps(Model(), StartNext);
      var job := batch[0];
      batch := batch[1..];
      match job.work {
        case Plain =>
          launches := launches + [Launch(job, clock, true)];
        case Entry(task, _) =>
          var repeated := task < |tasks| && tasks[task].repeated;
          var live := task !in cancelled && task !in emptied;
          launches := launches + [Launch(job, clock, live)];
          if repeated {
            if live {
              current := Calling(job);
            } else {
              cancelled, emptied := cancelled + {task}, emptied + {task};
            }
          }
      }
    }

    method ReturnFromTask(outcome: Outcome)
      requires Valid()
      modifies this
      ensures Model() == Next(old(Model()), EndCall(outcome)) && Valid()
    {
      NextKeeps(Model(), EndCall(outcome));
      if current.Calling? && current.job.work.Entry? {
        var task := current.job.work.task;
        if outcome == Continue && task !in emptied {
          current := Renewing(current.job);
        } else {
          if outcome == Finish {
            cancelled, emptied := cancelled + {task}, emptied + {task};
          }
          current := Idle;
        }
      }
    }

    method Reschedule()
      requires Valid()
      modifies this
      ensures Model() == Next(old(Model()), Renew) && Valid()
    {
      if current.Renewing? && current.job.work.Entry? && current.job.work.task < |tasks|
         && tasks[current.job.work.task].repeated {
        var job := current.job;
        var due, work := job.due + tasks[job.work.task].period, Entry(job.work.task, job.work.index + 1);
        ghost var settled := Model().(current := Idle);
        RenewalIsWelcome(Model(), due, work);
        current := Idle;
        assert Model() == settled;
        Enqueue(due, work);
      }
    }

    /** One call by another thread while the worker is busy. */
    method ServeOne(e: Event)
      requires Valid() && FromOutside(e)
      modifies this
      ensures Model() == Next(old(Model()), e) && Valid()
    {
      match e {
        case Tick(to) => Tick(to);
        case RunNow => Run(clock);
        case ScheduleAt(due) => var task := ScheduleIn(clock, due - clock);
        case ScheduleEvery(period) => var task := ScheduleAtFixedRate(clock, period);
        case Cancel(task) => CancelTask(task);
        case Reset(task) => EmptyTask(task);
        case Stop => StopWorker();
      }
    }

    method Serve(es: seq<Event>)
      requires Valid() && AllFromOutside(es)
      modifies this
      ensures Model() == Scheduler.Run(old(Model()), es) && Valid()
      decreases |es|
    {
      if es != [] {
        ServeOne(es[0]);
        Serve(es[1..]);
      }
    }

    /** One job of the batch inside the try block: a throw only skips that job's own rescheduling. */
    method PerformJob(turn: Turn)
      requires Valid() && batch != [] && current.Idle? && Fair(turn)
      modifies this
      ensures Model() == Perform(old(Model()), turn) && Valid()
    {
      StartJob();
      Serve(turn.during);
      ReturnFromTask(turn.outcome);
      Serve(turn.after);
      Reschedule();
    }

    /** One turn of the worker: pop what is due, then run every popped job whether or not an earlier one threw, while
        callers go on submitting, cancelling and stopping. */
    method Loop(now: int, behaviour: Job -> Turn)
      requires Valid() && batch == [] && current.Idle? && forall job :: Fair(behaviour(job))
      modifies this
      ensures var polled := Next(Next(old(Model()), Event.Tick(now)), Poll);
              && Model() == Drain(polled, Turns(polled.batch, behaviour))
              && Jobs(launches) == Jobs(polled.launches) + polled.batch
      ensures batch == [] && current.Idle? && Valid()
    {
      Tick(now);
      PollDue();
      ghost var polled := Model();
      while batch != []
        invariant current.Idle? && Valid()
        invariant Drain(Model(), Turns(batch, behaviour)) == Drain(polled, Turns(polled.batch, behaviour))
        decreases |batch|
      {
        ghost var before := Model();
        var turn := behaviour(batch[0]);
        PerformAdvances(before, turn);
        PerformJob(turn);
        assert Turns(before.batch, behaviour)[1..] == Turns(batch, behaviour);
      }
      ExceptionsAreContained(polled, Turns(polled.batch, behaviour));
    }
  }
}

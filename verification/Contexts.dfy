/**
 * Context switches: Fiber's resume, hold, yield and mainFunc over the thread-local pointers of several threads.
 *
 * A context is the execution it holds, known by the fiber whose execution it is; swapcontext(a, b) puts the thread's
 * execution into a's context and goes on with the one in b's context.
 */
module Contexts {

  datatype State = Ready | Running | Hold | Term

  class Fiber {
    var state: State
    var hasCallback: bool              // cb_ is not empty
    const runInScheduler: bool
    const hasStack: bool               // false for the main fiber of a thread
    var context: Fiber?                // ctx_

    // history, for the specification
    ghost var resumer: Thread?         // the thread that resumed the fiber last

    /** A task fiber; its context starts at mainFunc. */
    constructor (runInScheduler: bool)
      ensures state == Ready && hasCallback && hasStack && this.runInScheduler == runInScheduler
      ensures context == this && resumer == null
    {
      state, hasCallback, hasStack := Ready, true, true;
      this.runInScheduler := runInScheduler;
      resumer := null;
      new;
      context := this;
    }

    /** The main fiber of a thread: it stands for the thread's own execution, which is not saved anywhere yet. */
    constructor Main(ghost t: Thread)
      ensures state == Running && !hasCallback && !hasStack && !runInScheduler && context == null && resumer == t
    {
      state, hasCallback, hasStack, runInScheduler := Running, false, false, false;
      context, resumer := null, t;
    }
  }

  class Thread {
    var fiber: Fiber?                  // t_fiber
    var scheduler: Fiber?              // t_scheduler_fiber
    var main: Fiber?                   // t_thread_fiber
    var execution: Fiber?              // the execution on the processor; null before the thread has a main fiber

    constructor ()
      ensures fiber == scheduler == main == execution == null
    {
      fiber, scheduler, main, execution := null, null, null, null;
    }

    method SwapContext(save: Fiber, load: Fiber)
      modifies save`context, this`execution
      ensures save != load ==> save.context == old(execution) && execution == old(load.context)
    {
      save.context := execution;
      execution := load.context;
    }
  }

  class Process {
    ghost var threads: set<Thread>
    ghost var fibers: set<Fiber>       // the task fibers
    ghost var mains: set<Fiber>        // the main fibers

    constructor ()
      ensures Valid() && threads == {} && fibers == {}
    {
      threads, fibers, mains := {}, {}, {};
    }

    /** The pointers of a thread name its main fiber and the fiber on its processor. */
    ghost predicate ThreadOk(t: Thread)
      reads this, threads, fibers, mains
    {
      t in threads ==>
        && t.scheduler == t.main && t.fiber == t.execution
        && (t.main == null <==> t.execution == null)
        && (t.main != null ==>
              && t.main in mains && t.main.state == Running && t.main.resumer == t
              && (t.execution == t.main || (t.main.context == t.main && t.execution in fibers && On(t.execution))))
    }

    /** A task fiber is being executed, by the thread that resumed it last. */
    ghost predicate On(f: Fiber)
      reads this, threads, fibers, mains
    {
      f in fibers && f.resumer != null && f.resumer in threads && f.resumer.execution == f
    }

    /** The state tells whether a fiber is executing, and otherwise its own execution waits in its context. */
    ghost predicate FiberOk(f: Fiber)
      reads this, threads, fibers, mains
    {
      f in fibers ==>
        && f.hasStack
        && (f.state == Running ==> On(f))
        && (f.state == Ready || f.state == Hold ==> !On(f))
        && (!On(f) ==> f.context == f)
    }

    ghost predicate Valid()
      reads this, threads, fibers, mains
    {
      && fibers !! mains
      && (forall t | t in threads :: ThreadOk(t))
      && (forall f | f in fibers :: FiberOk(f))
      && (forall t | t in threads && t.execution in fibers :: t.execution.resumer == t)
    }

    /** A thread about to enter run(). */
    method NewThread() returns (t: Thread)
      requires Valid()
      modifies this`threads
      ensures Valid() && fresh(t) && threads == old(threads) + {t} && t.main == null
    {
      t := new Thread();
      threads := threads + {t};
    }

    method NewFiber(runInScheduler: bool) returns (f: Fiber)
      requires Valid()
      modifies this`fibers
      ensures Valid() && fresh(f) && fibers == old(fibers) + {f} && f.state == Ready && f.context == f
    {
      f := new Fiber(runInScheduler);
      fibers := fibers + {f};
    }

    /** The first call on a thread makes its main fiber; any other names the fiber that is executing. */
    method RunningFiber(t: Thread) returns (f: Fiber)
      requires Valid() && t in threads
      modifies this`mains, t
      ensures Valid() && f == t.fiber == t.execution
      ensures old(t.fiber) != null ==> unchanged(t) && mains == old(mains)
      ensures old(t.fiber) == null ==> fresh(f) && t.main == t.scheduler == f && f.state == Running
    {
      if t.fiber != null {
        return t.fiber;
      }
      f := new Fiber.Main(t);
      t.fiber, t.execution := f, f;
      t.main := f;
      t.scheduler := f;
      mains := mains + {f};
    }

    /** Called by the main fiber of a thread. */
    method Resume(t: Thread, f: Fiber)
      requires Valid() && t in threads && t.main != null && t.execution == t.main && f in fibers
      requires f.state == Ready || f.state == Hold
      modifies t`fiber, t`execution, t.main`context, f`state, f`resumer
      ensures Valid() && f.state == Running && t.fiber == t.execution == f && f.resumer == t
    {
      f.state := Running;
      f.resumer := t;
      t.fiber := f;
      if f.runInScheduler {
        t.SwapContext(t.scheduler, f);
      } else {
        t.SwapContext(t.main, f);
      }
    }

    /** Called by a task fiber: control goes back to the thread that resumed it. */
    method HoldFiber(f: Fiber, t: Thread)
      requires Valid() && t in threads && f in fibers && t.execution == f && f.state == Running
      modifies t`fiber, t`execution, f`context, f`state
      ensures Valid() && f.state == Hold && f.context == f
      ensures t == f.resumer && t.execution == t.fiber == t.main && t.main.state == Running
    {
      f.state := Hold;
      if f.runInScheduler {
        t.fiber := t.scheduler;
        t.SwapContext(f, t.scheduler);
      } else {
        t.fiber := t.main;
        t.SwapContext(f, t.main);
      }
    }

    method YieldFiber(f: Fiber, t: Thread)
      requires Valid() && t in threads && f in fibers && t.execution == f
      requires f.state == Running || f.state == Term
      modifies t`fiber, t`execution, f`context, f`state
      ensures Valid() && f.state == (if old(f.state) == Term then Term else Ready) && f.context == f
      ensures t == f.resumer && t.execution == t.fiber == t.main && t.main.state == Running
    {
      if f.state != Term {
        f.state := Ready;
      }
      if f.runInScheduler {
        t.fiber := t.scheduler;
        t.SwapContext(f, t.scheduler);
      } else {
        t.fiber := t.main;
        t.SwapContext(f, t.main);
      }
    }

    /** mainFunc up to the callback: it finds itself, not the main fiber, as the running fiber. */
    method MainBegin(t: Thread) returns (f: Fiber)
      requires Valid() && t in threads && t.execution in fibers
      modifies this`mains, t
      ensures Valid() && unchanged(t) && mains == old(mains)
      ensures f == t.execution && f != t.main
    {
      f := RunningFiber(t);
    }

    /** mainFunc after the callback has returned, on whatever thread that happens. */
    method MainEnd(f: Fiber, t: Thread)
      requires Valid() && t in threads && f in fibers && t.execution == f && f.state == Running
      modifies t`fiber, t`execution, f`context, f`state, f`hasCallback
      ensures Valid() && f.state == Term && !f.hasCallback
      ensures t == f.resumer && t.execution == t.fiber == t.main && t.main.state == Running
    {
      f.hasCallback := false;
      f.state := Term;
      YieldFiber(f, t);
    }

    /** A fiber parked on one thread and resumed by another ends on the second and leaves the first where it was. */
    method Migrate(f: Fiber, t: Thread, u: Thread)
      requires Valid() && t in threads && u in threads && t.main != null && u.main != null
      requires t.execution == t.main && u.execution == u.main && f in fibers && (f.state == Ready || f.state == Hold)
      modifies t, u, t.main, u.main, f
      ensures Valid() && f.state == Term
      ensures t.main == old(t.main) && t.execution == t.fiber == t.main
      ensures u.main == old(u.main) && u.execution == u.fiber == u.main
    {
      Resume(t, f);
      HoldFiber(f, t);
      Resume(u, f);
      MainEnd(f, u);
    }

    /** No execution is on two processors. */
    lemma OneProcessor(t: Thread, u: Thread)
      requires Valid() && t in threads && u in threads && t.execution != null && t.execution == u.execution
      ensures t == u
    {
      assert ThreadOk(t) && ThreadOk(u);
    }
  }
}

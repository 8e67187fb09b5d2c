/** A scheduler queue as a value: waiting items, and how many tasks were handed to the executor or
    still wait to be. Each function is one critical section under the queue's mutex. */
module SchedulerQueues {
  import opened SchedulerItems

  datatype Queue = Queue(items: multiset<Item>, pending: int, toAdd: int, running: int)

  predicate IsIdle(q: Queue) {
    q.items == multiset{} && q.pending == 0
  }

  function SetRunning(q: Queue, running: bool): Queue {
    q.(running := q.running + if running then 1 else -1)
  }

  /** How many tasks a collecting section takes: all that wait, if the queue is running. */
  function Collected(q: Queue): int {
    if q.running > 0 then q.toAdd else 0
  }

  function Collect(q: Queue): Queue {
    q.(toAdd := q.toAdd - Collected(q), pending := q.pending + Collected(q))
  }

  function Added(q: Queue, x: Item): Queue {
    q.(items := q.items + multiset{x}, toAdd := q.toAdd + 1)
  }

  function Taken(q: Queue, x: Item): Queue {
    q.(items := q.items - multiset{x})
  }

  function TaskEnded(q: Queue): Queue {
    q.(pending := q.pending - 1)
  }

  function CleanedUp(q: Queue): Queue {
    q.(items := multiset{}, toAdd := 0)
  }

  /** The counters start anew; items stay. */
  function Restarted(q: Queue): Queue {
    q.(pending := 0, toAdd := 0, running := 0)
  }
}

/** The queue object. Every method is one critical section. */
module SchedulerQueueObjects {
  import opened SchedulerItems
  import Q = SchedulerQueues

  class SchedulerQueue {
    var queue: multiset<Item>
    var numPendingTasks: int
    var numTasksToAdd: int
    var runningCount: int

    ghost function Contents(): Q.Queue
      reads this
    {
      Q.Queue(queue, numPendingTasks, numTasksToAdd, runningCount)
    }

    constructor ()
      ensures Contents() == Q.Queue(multiset{}, 0, 0, 0)
    {
      queue, numPendingTasks, numTasksToAdd, runningCount := multiset{}, 0, 0, 0;
    }

    method Reset()
      modifies this
      ensures Contents() == Q.Restarted(old(Contents()))
    {
      numPendingTasks, numTasksToAdd, runningCount := 0, 0, 0;
    }

    method SetRunning(running: bool)
      modifies this
      ensures Contents() == Q.SetRunning(old(Contents()), running)
    {
      runningCount := runningCount + if running then 1 else -1;
    }

    method GetTasksToSubmitToExecutor() returns (tasksToAdd: int)
      modifies this
      ensures tasksToAdd == old(numTasksToAdd)
      ensures Contents() == old(Contents()).(toAdd := 0, pending := old(numPendingTasks) + tasksToAdd)
    {
      tasksToAdd := numTasksToAdd;
      numTasksToAdd := 0;
      numPendingTasks := numPendingTasks + tasksToAdd;
    }

    /** The locked part of `AddItemToQueue`. */
    method AddItem(item: Item) returns (wasIdle: bool, tasksToAdd: int)
      modifies this
      ensures var q := Q.Added(old(Contents()), item);
              Contents() == Q.Collect(q) && tasksToAdd == Q.Collected(q) && wasIdle == Q.IsIdle(old(Contents()))
    {
      wasIdle := queue == multiset{} && numPendingTasks == 0;
      queue := queue + multiset{item};
      numTasksToAdd := numTasksToAdd + 1;
      tasksToAdd := 0;
      if runningCount > 0 { tasksToAdd := GetTasksToSubmitToExecutor(); }
    }

    /** The locked part of `SubmitWaitingTasksToExecutor`. */
    method CollectWaitingTasks() returns (tasksToAdd: int)
      modifies this
      ensures Contents() == Q.Collect(old(Contents())) && tasksToAdd == Q.Collected(old(Contents()))
    {
      tasksToAdd := 0;
      if runningCount > 0 { tasksToAdd := GetTasksToSubmitToExecutor(); }
    }

    /** The first locked part of `RunNextTask`; the queue must not be empty. */
    method TakeNext() returns (item: Item)
      requires queue != multiset{}
      modifies this
      ensures IsTop(old(queue), item) && Contents() == Q.Taken(old(Contents()), item)
    {
      ghost var top := TopExists(queue);
      item :| IsTop(queue, item);
      queue := queue - multiset{item};
    }

    /** The second locked part of `RunNextTask`. */
    method EndTask() returns (isIdle: bool)
      requires numPendingTasks > 0
      modifies this
      ensures Contents() == Q.TaskEnded(old(Contents())) && isIdle == Q.IsIdle(Contents())
    {
      numPendingTasks := numPendingTasks - 1;
      isIdle := queue == multiset{} && numPendingTasks == 0;
    }

    method CleanupAfterRun() returns (wasIdle: bool)
      requires numPendingTasks == 0 && numTasksToAdd == |queue|
      modifies this
      ensures Contents() == Q.CleanedUp(old(Contents())) && wasIdle == Q.IsIdle(old(Contents()))
    {
      wasIdle := queue == multiset{} && numPendingTasks == 0;
      numTasksToAdd := 0;
      while queue != multiset{}
        invariant Contents() == old(Contents()).(items := queue, toAdd := 0)
        decreases |queue|
      {
        ghost var top := TopExists(queue);
        var item :| IsTop(queue, item);
        assert IsTop(queue, item);
        Sizes(queue, item);
        queue := queue - multiset{item};
      }
    }
  }
}

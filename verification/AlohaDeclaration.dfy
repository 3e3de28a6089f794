/** One ALOHA declaration (aloha_declaration.rs): a monitor task, the publishing tasks it spawns, and
    the state they share. The tasks are cut at their awaits: each function below is what one task does
    between two sleeps, which takes no time. Time is counted in nanoseconds, as the source's back-off is. */
module AlohaDeclaration {

  /** A duration the source can divide by: `rand() % period_ns` needs at least one nanosecond. */
  type Period = x: int | 1 <= x witness 1

  /** Where the monitor task is: asleep before its loop head, in the back-off wait, or finished. */
  datatype Monitor = Sleep(until: nat) | Wait(until: nat) | Done

  /** `alive` is `monitor_running`, `sending` is `sending_beacons`, `flag` is `beacon_task_flag`,
      `counter` is `remote_beacons`, and `tasks` holds the wake-up time of every publishing task. */
  datatype Node = Node(
    alive: bool, monitor: Monitor, sending: bool, flag: bool, counter: nat, tasks: multiset<nat>)

  /** A declaration just made: its first publishing task and its loop head are both due at once. */
  function Fresh(now: nat): Node {
    Node(true, Sleep(now), true, true, 0, multiset{now})
  }

  /** The listener's callback; the listener lives as long as the monitor task. */
  function RemoteBeacon(n: Node): Node {
    if n.monitor.Done? then n else n.(counter := n.counter + 1)
  }

  /** The loop head: read and clear the counter, then stop, stay, or begin a back-off. */
  function LoopHead(n: Node, now: nat, p: Period, coin: bool, wait: nat): Node {
    if !n.alive then
      n.(monitor := Done, flag := false)
    else if n.counter == 0 then
      if n.sending then n.(monitor := Sleep(now + p)) else n.(monitor := Wait(now + wait))
    else
      var heard := n.(counter := 0, monitor := Sleep(now + p));
      if n.sending && coin then heard.(sending := false, flag := false) else heard
  }

  /** The back-off is over: restart unless a beacon was heard meanwhile. */
  function BackoffOver(n: Node, now: nat, p: Period): Node {
    if n.counter == 0 then
      n.(flag := true, sending := true, tasks := n.tasks + multiset{now}, monitor := Sleep(now + p))
    else
      n.(monitor := Sleep(now + p))
  }

  /** A publishing task wakes: it puts a beacon and sleeps again, or finds the flag down and ends. */
  function PublisherWake(n: Node, now: nat, p: Period): Node
    requires now in n.tasks
  {
    n.(tasks := n.tasks - multiset{now} + if n.flag then multiset{now + p} else multiset{})
  }

  /** The declaration as the source keeps it, updated in place by the callback and the tasks. */
  class Declaration {
    var alive: bool
    var monitor: Monitor
    var sending: bool
    var flag: bool
    var counter: nat
    var tasks: multiset<nat>

    function State(): Node
      reads this
    {
      Node(alive, monitor, sending, flag, counter, tasks)
    }

    constructor (now: nat)
      ensures State() == Fresh(now)
    {
      alive, monitor, sending, flag, counter := true, Sleep(now), true, true, 0;
      tasks := multiset{now};
    }

    method StartBeaconTask(now: nat)
      modifies `flag, `tasks
      ensures flag && tasks == old(tasks) + multiset{now}
    {
      flag := true;
      tasks := tasks + multiset{now};
    }

    method StopBeaconTask()
      modifies `flag
      ensures !flag
    {
      flag := false;
    }

    method OnRemoteBeacon()
      modifies `counter
      ensures State() == RemoteBeacon(old(State()))
    {
      if !monitor.Done? {
        counter := counter + 1;
      }
    }

    /** One pass of the monitor loop up to its next await. */
    method MonitorLoopHead(now: nat, p: Period, coin: bool, wait: nat)
      requires monitor == Sleep(now) && wait < p
      modifies this
      ensures State() == LoopHead(old(State()), now, p, coin, wait)
    {
      if !alive {
        StopBeaconTask();
        monitor := Done;
        return;
      }
      var beacons := counter;
      counter := 0;
      if beacons == 0 {
        if !sending {
          monitor := Wait(now + wait);
          return;
        }
      } else if sending && coin {
        StopBeaconTask();
        sending := false;
      }
      monitor := Sleep(now + p);
    }

    /** From the end of the back-off wait to the end of the loop body. */
    method MonitorAfterBackoff(now: nat, p: Period)
      requires monitor == Wait(now)
      modifies this
      ensures State() == BackoffOver(old(State()), now, p)
    {
      if counter == 0 {
        StartBeaconTask(now);
        sending := true;
      }
      monitor := Sleep(now + p);
    }

    /** One turn of a publishing task; `put` says whether it sent a beacon. */
    method PublishingTaskTurn(now: nat, p: Period) returns (put: bool)
      requires now in tasks
      modifies `tasks
      ensures State() == PublisherWake(old(State()), now, p)
      ensures put == old(flag)
    {
      put := flag;
      tasks := tasks - multiset{now};
      if put {
        tasks := tasks + multiset{now + p};
      }
    }

    method Drop()
      modifies `alive
      ensures State() == old(State()).(alive := false)
    {
      alive := false;
    }
  }
}

/** The scheduler in place: its in-memory counters and the asset rows it updates. */
module Orchestrator {
  import opened Options
  import opened Scheduler

  class Service {
    const config: Settings
    var assets: seq<Asset>
    var emptyQueueTicks: nat
    var nextStartAttemptAt: int
    var successSeenAt: map<nat, int>

    constructor (config: Settings, assets: seq<Asset>)
      ensures this.config == config && View() == State(assets, 0, 0, map[])
    {
      this.config, this.assets := config, assets;
      emptyQueueTicks, nextStartAttemptAt, successSeenAt := 0, 0, map[];
    }

    function View(): State
      reads this
    {
      State(assets, emptyQueueTicks, nextStartAttemptAt, successSeenAt)
    }

    method Tick(w: World) returns (effect: Effect)
      modifies this
      ensures (View(), effect) == Scheduler.Tick(config, old(View()), w)
    {
      var active := FindActive(assets);
      if active.Some? {
        emptyQueueTicks := 0;
        if assets[active.value].job == Running {
          HandleRunning(active.value, w);
          return NoEffect;
        }
        effect := HandleStarting(active.value, w);
      } else {
        var waiting := FindWaiting(assets);
        if waiting.None? {
          effect := MaybeIdleStop(w);
        } else {
          emptyQueueTicks := 0;
          effect := Promote(waiting.value, w);
        }
      }
    }

    /** Makes sure of the instance, then moves the oldest waiting asset to GPU_STARTING. */
    method Promote(k: nat, w: World) returns (effect: Effect)
      requires k < |assets|
      modifies this
      ensures var next := Scheduler.Promote(old(View()), k, w);
              View() == BackedOff(config, next.0, w) && effect == next.1
    {
      effect := NoEffect;
      if w.instance == Stopped {
        if w.now >= nextStartAttemptAt {
          if w.start == StartOk {
            nextStartAttemptAt := 0;
            assets := assets[k := assets[k].(job := Starting, startedAt := Some(w.now))];
            effect := Started;
          } else if w.start == NoCapacity {
            nextStartAttemptAt := w.now + config.backoff;
          }
        }
      } else if w.instance == Up {
        assets := assets[k := assets[k].(job := Starting, startedAt := Some(w.now))];
      }
    }

    method HandleStarting(k: nat, w: World) returns (effect: Effect)
      requires k < |assets|
      modifies this
      ensures (View(), effect) == Scheduler.HandleStarting(config, old(View()), k, w)
    {
      effect := NoEffect;
      if Elapsed(assets[k], w.now) > config.startTimeout {
        FailJob(k);
      } else if w.online == Some(true) && w.send.Some? {
        assets := assets[k := assets[k].(job := Running, command := w.send, startedAt := Some(w.now), attempts := assets[k].attempts + 1)];
        effect := Dispatched(k);
      }
    }

    method HandleRunning(k: nat, w: World)
      requires k < |assets|
      modifies this
      ensures View() == Scheduler.HandleRunning(config, old(View()), k, w).0
    {
      if Elapsed(assets[k], w.now) > config.jobTimeout {
        FailJob(k);
      } else if assets[k].command.None? || w.command == Lost {
        Requeue(k);
      } else if w.command == Success {
        if k !in successSeenAt {
          successSeenAt := successSeenAt[k := w.now];
        } else if w.now - successSeenAt[k] > config.grace {
          FailJob(k);
        }
      } else {
        successSeenAt := successSeenAt - {k};
        if w.command == CommandFailed {
          if assets[k].attempts < config.maxAttempts {
            Requeue(k);
          } else {
            FailJob(k);
          }
        }
      }
    }

    method MaybeIdleStop(w: World) returns (effect: Effect)
      modifies this
      ensures (View(), effect) == Scheduler.MaybeIdleStop(config, old(View()), w)
    {
      effect := NoEffect;
      if w.instance == DescribeThrows {
      } else if w.instance != Up || config.keepWarm {
        emptyQueueTicks := 0;
      } else {
        emptyQueueTicks := emptyQueueTicks + 1;
        if emptyQueueTicks >= 2 {
          effect := StopRequested;
          if w.stops {
            emptyQueueTicks := 0;
          }
        }
      }
    }

    method FailJob(k: nat)
      requires k < |assets|
      modifies this
      ensures View() == Scheduler.FailJob(old(View()), k)
      ensures successSeenAt == old(successSeenAt) - {k}
    {
      successSeenAt := successSeenAt - {k};
      assets := assets[k := assets[k].(processing := false, job := JobFailed)];
    }

    method Requeue(k: nat)
      requires k < |assets|
      modifies this
      ensures View() == Scheduler.Requeue(old(View()), k)
    {
      successSeenAt := successSeenAt - {k};
      assets := assets[k := assets[k].(job := Queued, command := None, startedAt := None)];
    }
  }
}

/** The runner's own state and critical sections, updated in place.

    Every method is one lock-protected block (or one private dispatcher step) of
    `_run_register`; its contract says which event of DispatchSpec it performs, so the
    theorems of DispatchTheorems hold of every interleaving of calls. */
module RegisterTask {
  import opened Basics
  import opened DispatchSpec

  class Runner {
    const config: Config
    var oauthFiles: seq<string>
    var oauthFileSet: set<string>
    var successCount: nat
    var successEmails: set<string>
    var inflightCounts: map<string, nat>
    var fileCounts: map<string, nat>
    var roundRobinIndex: nat
    var attempts: seq<Attempt>
    var activeFutures: set<nat>
    var control: Control
    var stopRequested: bool
    var stopped: bool

    function View(): State
      reads this
    {
      State(oauthFiles, oauthFileSet, successCount, successEmails,
            Ledger(inflightCounts, fileCounts, roundRobinIndex),
            attempts, activeFutures, control, stopRequested, stopped)
    }

    constructor (config: Config)
      ensures this.config == config && View() == Initial()
    {
      this.config := config;
      oauthFiles, oauthFileSet, successCount, successEmails := [], {}, 0, {};
      inflightCounts, fileCounts, roundRobinIndex := map[], map[], 0;
      attempts, activeFutures, control := [], {}, AtStopCheck;
      stopRequested, stopped := false, false;
    }

    method RequestStop()
      modifies this
      ensures View() == Apply(config, old(View()), Event.RequestStop)
    {
      stopRequested := true;
    }

    // ---- the dispatcher's submission round, one look at a time ----------------------

    method CheckStop()
      requires Enabled(config, View(), StopCheck)
      modifies this
      ensures View() == Apply(config, old(View()), StopCheck)
    {
      if stopped || stopRequested {
        control := AtWait;
      } else {
        control := AtCountRead;
      }
    }

    method ReadProgress()
      requires Enabled(config, View(), ReadCount)
      modifies this
      ensures View() == Apply(config, old(View()), ReadCount)
    {
      var progress := if config.longRun then successCount else |oauthFiles|;
      var remaining := config.count - progress;
      if remaining <= 0 {
        control := AtWait;
      } else {
        control := AtActiveRead(remaining);
      }
    }

    method SubmitIfRoom() returns (submitted: bool)
      requires Enabled(config, View(), CompareActive)
      modifies this
      ensures View() == Apply(config, old(View()), CompareActive)
      ensures submitted <==> |attempts| > |old(attempts)|
    {
      var allowed := control.remaining;
      if config.maxWorkers < allowed {
        allowed := config.maxWorkers;
      }
      if |activeFutures| >= allowed {
        control := AtWait;
        return false;
      }
      activeFutures := activeFutures + {|attempts|};
      attempts := attempts + [Attempt(Queued, "", false)];
      control := AtStopCheck;
      submitted := true;
    }

    /** `wait(...)` returned `done`; each future is popped and its outcome recorded. */
    method RecordDone(done: set<nat>, stoppedOutcomes: set<nat>)
      requires Enabled(config, View(), Harvest(done, done * stoppedOutcomes != {}))
      modifies this
      ensures View() == Apply(config, old(View()), Harvest(done, done * stoppedOutcomes != {}))
    {
      var rest := done;
      while rest != {}
        invariant rest <= done
        invariant activeFutures == old(activeFutures) - (done - rest)
        invariant stopped == (old(stopped) || (done - rest) * stoppedOutcomes != {})
        invariant View() == old(View()).(active := activeFutures, stopped := stopped)
        decreases rest
      {
        var f :| f in rest;
        assert done - (rest - {f}) == (done - rest) + {f};
        activeFutures := activeFutures - {f};
        if f in stoppedOutcomes {
          assert f in (done - (rest - {f})) * stoppedOutcomes;
          stopped := true;
        } else {
          assert (done - (rest - {f})) * stoppedOutcomes == (done - rest) * stoppedOutcomes;
        }
        rest := rest - {f};
      }
      assert done - rest == done;
      control := AtStopPoll;
    }

    method LeaveWhenIdle()
      requires Enabled(config, View(), LeaveLoop)
      modifies this
      ensures View() == Apply(config, old(View()), LeaveLoop)
    {
      control := LoopLeft(false);
    }

    /** After each harvest: on a stop request cancel what is still queued and leave. */
    method PollStopFlag()
      requires Enabled(config, View(), PollStop)
      modifies this
      ensures View() == Apply(config, old(View()), PollStop)
    {
      if !(stopped || stopRequested) {
        control := AtStopCheck;
        return;
      }
      stopped := true;
      CancelQueued();
      control := LoopLeft(true);
    }

    /** `pending.cancel()` for every listed future. */
    method CancelQueued()
      modifies this`attempts
      ensures attempts == Cancelled(old(attempts), activeFutures)
    {
      ghost var before := attempts;
      for i := 0 to |attempts|
        invariant |attempts| == |before|
        invariant forall j :: 0 <= j < i ==> attempts[j] == Cancelled(before, activeFutures)[j]
        invariant forall j :: i <= j < |attempts| ==> attempts[j] == before[j]
      {
        if i in activeFutures && attempts[i].stage == Queued {
          attempts := attempts[i := attempts[i].(stage := Ended)];
        }
      }
    }

    // ---- the worker's critical sections -----------------------------------------------

    /** First domain with room, or round robin when the cap is 0; None stands for the
        "quota exhausted" error. */
    method ReserveDomain(i: nat) returns (domain: Option<string>)
      requires AtStage(View(), i, Unreserved)
      modifies this
      ensures domain == ChooseDomain(config, old(View()).ledger)
      ensures domain.Some? ==> View() == Apply(config, old(View()), Reserve(i))
      ensures domain.None? ==> View() == old(View())
    {
      var domains := config.domains;
      if |domains| == 0 {
        domain := Some("");
      } else if config.cap > 0 {
        var k := 0;
        domain := None;
        while k < |domains|
          invariant 0 <= k <= |domains|
          invariant View() == old(View()) && domain.None?
          invariant FirstOpen(View().ledger, domains, config.cap, 0) == FirstOpen(View().ledger, domains, config.cap, k)
        {
          var reserved := Tally(inflightCounts, domains[k]);
          var collected := Tally(fileCounts, domains[k]);
          if collected + reserved < config.cap {
            domain := Some(domains[k]);
            if domains[k] != "" {
              inflightCounts := inflightCounts[domains[k] := reserved + 1];
            }
            break;
          }
          k := k + 1;
        }
        if domain.None? {
          return;
        }
      } else {
        domain := Some(domains[roundRobinIndex % |domains|]);
        if domain.value != "" {
          roundRobinIndex := roundRobinIndex + 1;
          inflightCounts := inflightCounts[domain.value := Tally(inflightCounts, domain.value) + 1];
        }
      }
      attempts := attempts[i := attempts[i].(stage := Reserved, domain := domain.value)];
    }

    method CollectFile(i: nat, path: string) returns (added: bool)
      requires Enabled(config, View(), Collect(i, path))
      modifies this
      ensures View() == Apply(config, old(View()), Collect(i, path))
      ensures added == attempts[i].filed
    {
      added := false;
      if path != "" && path !in oauthFileSet && |oauthFiles| < config.count {
        oauthFileSet := oauthFileSet + {path};
        oauthFiles := oauthFiles + [path];
        added := true;
      }
      attempts := attempts[i := attempts[i].(stage := FileTried, filed := added)];
    }

    method BumpSuccess(i: nat, text: string) returns (count: nat)
      requires Enabled(config, View(), Bump(i, text))
      modifies this
      ensures View() == Apply(config, old(View()), Bump(i, text))
      ensures count == successCount
    {
      hide NameOf;
      var email := NameOf(text);
      var counted := true;
      if email != "" {
        if email in successEmails {
          counted := false;
        } else {
          successEmails := successEmails + {email};
        }
      }
      if counted {
        successCount := successCount + 1;
      }
      attempts := attempts[i := attempts[i].(stage := FileTried, filed := counted)];
      count := successCount;
    }

    /** The attempt's final block. */
    method FinishDomain(i: nat)
      requires Enabled(config, View(), Settle(i))
      modifies this
      ensures View() == Apply(config, old(View()), Settle(i))
    {
      var domain := attempts[i].domain;
      if domain != "" {
        var inflight := if Tally(inflightCounts, domain) - 1 > 0 then Tally(inflightCounts, domain) - 1 else 0;
        if inflight > 0 {
          inflightCounts := inflightCounts[domain := inflight];
        } else {
          inflightCounts := inflightCounts - {domain};
        }
        if attempts[i].filed {
          fileCounts := fileCounts[domain := Tally(fileCounts, domain) + 1];
        }
      }
      attempts := attempts[i := attempts[i].(stage := Settled)];
    }
  }
}

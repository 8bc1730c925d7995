/** The worker manager as an object (server/io_worker_mgr.cpp). */
module WorkerMgr {
  import opened Jobs
  import S = ServerState

  class IOWorkerMgr {
    // the jobs ever pushed on the queue of each worker in the worker map
    var workers: map<int, seq<Job>>
    // the workers whose kill flag is set
    var killed: set<int>
    var roles: map<int, S.Role>
    var toErase: seq<int>
    var finishFlag: bool
    var nextIx: nat
    // the addresses for which a lookup in the worker map has thrown
    var unknown: set<int>

    function State(): S.Mgr
      reads this
    {
      S.Mgr(workers, roles, killed, toErase, finishFlag, nextIx, unknown)
    }

    constructor ()
      ensures State() == S.Mgr(map[], map[], {}, [], false, 0, {})
    {
      workers, killed, roles, toErase, finishFlag, nextIx, unknown := map[], {}, map[], [], false, 0, {};
    }

    /** workers.at(ix) throws. */
    method Throw(ix: int)
      modifies this
      ensures State() == S.Threw(old(State()), ix)
    {
      unknown := unknown + {ix};
    }

    method SendJob(job: Job, ix: int)
      modifies this
      ensures State() == S.SendJob(old(State()), job, ix)
    {
      if ix in workers {
        workers := workers[ix := workers[ix] + [job]];
      } else {
        Throw(ix);
      }
    }

    method SendKill(ix: int)
      modifies this
      ensures State() == S.SendKill(old(State()), ix)
    {
      if ix in workers {
        killed := killed + {ix};
      } else {
        Throw(ix);
      }
    }

    method ReleaseCleaner()
      modifies this
      ensures State() == old(State()).(finishFlag := true)
    {
      finishFlag := true;
    }

    /** Orders every worker that is not on its way out to quit; the order of the visits does not matter. */
    method Finish()
      modifies this
      ensures State() == old(State()).(killed := old(killed) + (set ix | ix in old(workers) && ix !in old(toErase)))
    {
      var rest: set<int> := workers.Keys;
      while exists ix :: ix in rest
        decreases |rest|
        invariant rest <= workers.Keys
        invariant State() == old(State()).(killed := killed)
        invariant killed == old(killed) + (set ix | ix in workers && ix !in rest && ix !in toErase)
      {
        var ix :| ix in rest;
        rest := rest - {ix};
        if ix !in toErase {
          SendKill(ix);
        }
      }
    }

    /** A worker is queued for erasure at most once. */
    method EraseWorker(ix: int)
      modifies this
      ensures State() == S.EraseWorker(old(State()), ix)
      ensures ix in toErase
    {
      for i := 0 to |toErase|
        invariant ix !in toErase[..i]
        invariant State() == old(State())
      {
        if toErase[i] == ix {
          return;
        }
      }
      toErase := toErase + [ix];
    }

    method SetRole(ix: int, role: S.Role)
      requires ix in roles
      modifies this
      ensures State() == S.SetRole(old(State()), ix, role)
    {
      roles := roles[ix := role];
    }

    method SpawnNewWorker(role: S.Role) returns (ix: int)
      modifies this
      ensures ix == old(nextIx) && State() == S.Spawn(old(State()), role)
    {
      ix := nextIx;
      nextIx := nextIx + 1;
      workers := workers[ix := []];
      roles := roles[ix := role];
    }

    /** One pass of waitForClearing: the last pass is the one after which nobody is left and the game is over. */
    method ClearPass() returns (exitFlag: bool)
      modifies this
      ensures State() == S.Clear(old(State()))
      ensures exitFlag <==> finishFlag && workers == map[]
    {
      while toErase != []
        invariant toErase <= old(toErase)
        invariant workers == old(workers) - (set ix | ix in old(toErase)[|toErase|..])
        invariant State() == old(State()).(mail := workers, toErase := toErase)
        decreases |toErase|
      {
        var ix := toErase[|toErase| - 1];
        workers := workers - {ix};
        toErase := toErase[..|toErase| - 1];
      }
      return finishFlag && workers == map[];
    }
  }
}

/** The worker registry: heartbeats into Redis hashes, and a listing that reads them one at a time. */
module Registry {
  import opened Numbers
  import opened Options

  type WorkerId = string

  /** The hash kept for one worker; HSET adds or overwrites single fields. */
  datatype Fields = Fields(workerId: Option<WorkerId>, lastSeen: Option<int>, startedAt: Option<int>)

  datatype WorkerInfo = WorkerInfo(workerId: WorkerId, lastSeen: int, startedAt: int)

  /** `registered` and `beats` record what happened: who registered last, and when the clock stood where. */
  datatype Db = Db(now: nat, hashes: map<WorkerId, Fields>, registered: set<WorkerId>, beats: map<WorkerId, nat>)

  datatype Step =
    | Tick(dt: nat)
    | Register(w: WorkerId)
    | Heartbeat(w: WorkerId)
    | Deregister(w: WorkerId)

  function HashOf(s: Db, w: WorkerId): Fields
  {
    if w in s.hashes then s.hashes[w] else Fields(None, None, None)
  }

  function Apply(s: Db, step: Step): Db
  {
    match step
    case Tick(dt) => s.(now := s.now + dt)
    case Register(w) =>
      s.(hashes := s.hashes[w := Fields(Some(w), Some(s.now / NANOS), Some(s.now / NANOS))],
         registered := s.registered + {w}, beats := s.beats[w := s.now])
    case Heartbeat(w) =>
      s.(hashes := s.hashes[w := HashOf(s, w).(lastSeen := Some(s.now / NANOS))], beats := s.beats[w := s.now])
    case Deregister(w) =>
      s.(hashes := s.hashes - {w}, registered := s.registered - {w})
  }

  function Exec(steps: seq<Step>): Db
  {
    if steps == [] then Db(0, map[], {}, map[])
    else Apply(Exec(steps[..|steps| - 1]), steps[|steps| - 1])
  }

  /** parseWorkerInfo */
  function Parse(f: Fields): Option<WorkerInfo>
  {
    if f.workerId == None || f.workerId == Some("") || f.lastSeen == None || f.startedAt == None then None
    else Some(WorkerInfo(f.workerId.value, f.lastSeen.value, f.startedAt.value))
  }

  predicate IsAlive(info: WorkerInfo, now: int, threshold: int)
  {
    now - info.lastSeen * NANOS < threshold
  }

  /** A hash has its worker's id exactly while the worker is registered, and tells the last beat in seconds. */
  ghost predicate Ok(s: Db)
  {
    && (forall w :: w in s.registered ==> w in s.hashes)
    && (forall w :: w in s.hashes ==>
         && w in s.beats && s.beats[w] <= s.now
         && s.hashes[w].lastSeen == Some(s.beats[w] / NANOS)
         && (if w in s.registered then s.hashes[w].workerId == Some(w) && s.hashes[w].startedAt.Some?
             else s.hashes[w].workerId == None))
  }

  lemma {:induction false} RunOk(steps: seq<Step>)
    ensures Ok(Exec(steps))
  {
    if steps != [] {
      RunOk(steps[..|steps| - 1]);
    }
  }

  // ---- The hash of a worker, read off the commands alone ----

  function Clock(steps: seq<Step>): nat
  {
    if steps == [] then 0
    else Clock(steps[..|steps| - 1]) + match steps[|steps| - 1] case Tick(dt) => dt case _ => 0
  }

  /** When the worker last registered, unless it deregistered since. */
  function StartOf(steps: seq<Step>, w: WorkerId): Option<nat>
  {
    if steps == [] then None
    else
      var before, last := steps[..|steps| - 1], steps[|steps| - 1];
      if last == Register(w) then Some(Clock(before)) else if last == Deregister(w) then None else StartOf(before, w)
  }

  /** When the worker last registered or sent a heartbeat, unless it deregistered since. */
  function SeenOf(steps: seq<Step>, w: WorkerId): Option<nat>
  {
    if steps == [] then None
    else
      var before, last := steps[..|steps| - 1], steps[|steps| - 1];
      if last == Register(w) || last == Heartbeat(w) then Some(Clock(before))
      else if last == Deregister(w) then None
      else SeenOf(before, w)
  }

  /** When the worker ever last registered or sent a heartbeat. */
  function BeatOf(steps: seq<Step>, w: WorkerId): Option<nat>
  {
    if steps == [] then None
    else
      var before, last := steps[..|steps| - 1], steps[|steps| - 1];
      if last == Register(w) || last == Heartbeat(w) then Some(Clock(before)) else BeatOf(before, w)
  }

  function InSeconds(t: Option<nat>): Option<int>
  {
    match t case Some(at) => Some(at / 1_000_000_000) case None => None
  }

  /** The hash of a worker after any run: a registration writes the id and both times, a heartbeat only the time the
      worker was last seen, and a deregistration removes it all. */
  lemma {:induction false} HashExact(steps: seq<Step>, w: WorkerId)
    ensures var s := Exec(steps);
            && s.now == Clock(steps)
            && (w in s.hashes <==> SeenOf(steps, w).Some?)
            && HashOf(s, w) == Fields(if StartOf(steps, w).Some? then Some(w) else None,
                                      InSeconds(SeenOf(steps, w)), InSeconds(StartOf(steps, w)))
            && (w in s.registered <==> StartOf(steps, w).Some?)
            && (if w in s.beats then BeatOf(steps, w) == Some(s.beats[w]) else BeatOf(steps, w) == None)
  {
    if steps != [] {
      HashExact(steps[..|steps| - 1], w);
    }
  }

  /** A worker with a name can be parsed from its hash exactly while it is registered, to its id, the second of its last
      beat and the second of its registration; a late heartbeat leaves a hash that does not parse. */
  lemma ParsesIffRegistered(steps: seq<Step>, w: WorkerId)
    ensures var s := Exec(steps);
            && (Parse(HashOf(s, w)).Some? <==> w in s.registered && w != "")
            && (w in s.registered && w != "" ==>
                  && StartOf(steps, w).Some? && SeenOf(steps, w).Some?
                  && Parse(HashOf(s, w)) == Some(WorkerInfo(w, SeenOf(steps, w).value / 1_000_000_000,
                                                            StartOf(steps, w).value / 1_000_000_000)))
  {
    RunOk(steps);
    HashExact(steps, w);
    hide Exec, StartOf, SeenOf;
  }

  /** A heartbeat after deregistration never brings the worker back. */
  lemma {:induction false} NotResurrected(steps: seq<Step>, later: seq<Step>, w: WorkerId)
    requires w != "" && Register(w) !in later
    ensures Parse(HashOf(Exec(steps + [Deregister(w)] + later), w)) == None
  {
    StaysDeregistered(steps, later, w);
    ParsesIffRegistered(steps + [Deregister(w)] + later, w);
  }

  lemma {:induction false} StaysDeregistered(steps: seq<Step>, later: seq<Step>, w: WorkerId)
    requires Register(w) !in later
    ensures w !in Exec(steps + [Deregister(w)] + later).registered
  {
    var all := steps + [Deregister(w)] + later;
    if later == [] {
      assert all[..|all| - 1] == steps && all[|all| - 1] == Deregister(w);
    } else {
      var n := |later| - 1;
      StaysDeregistered(steps, later[..n], w);
      assert all[..|all| - 1] == steps + [Deregister(w)] + later[..n];
      assert all[|all| - 1] == later[n];
    }
  }

  /** The Redis database the workers and the control plane share. */
  class Store {
    var db: Db
    ghost var steps: seq<Step>

    ghost predicate Valid()
      reads this
    {
      db == Exec(steps)
    }

    constructor ()
      ensures Valid() && steps == []
    {
      db := Db(0, map[], {}, map[]);
      steps := [];
    }

    method Take(step: Step)
      requires Valid()
      modifies this
      ensures Valid() && steps == old(steps) + [step]
    {
      db := Apply(db, step);
      steps := steps + [step];
      assert steps[..|steps| - 1] == old(steps);
    }

    /** Any number of steps by anyone. */
    method Interfere()
      requires Valid()
      modifies this
      ensures Valid() && old(steps) <= steps
    {
      var n: nat := *;
      while 0 < n
        invariant Valid() && old(steps) <= steps
      {
        var step: Step := *;
        Take(step);
        n := n - 1;
      }
    }

    /** One HGETALL, after whatever the other processes did. */
    method ReadOne(key: WorkerId, errs: bool, ghost begin: nat, ghost left: set<WorkerId>, infos: seq<WorkerInfo>,
                   ghost at: seq<nat>)
      returns (infos': seq<WorkerInfo>, ghost at': seq<nat>)
      requires Valid() && begin <= |steps| && Listed(steps, begin, infos, at)
      requires Covers(steps, begin, left + {key}, infos)
      requires key !in left && forall i :: 0 <= i < |infos| ==> infos[i].workerId !in left + {key}
      modifies this
      ensures Valid() && old(steps) <= steps && Listed(steps, begin, infos', at')
      ensures Covers(steps, begin, if errs then left + {key} else left, infos')
      ensures forall i :: 0 <= i < |infos'| ==> infos'[i].workerId !in if errs then left + {key} else left
      ensures infos <= infos' && (errs ==> infos' == infos)
      ensures forall i :: |infos| <= i < |infos'| ==> infos'[i].workerId == key
    {
      hide Exec, Throughout;
      Interfere();
      ListedStays(old(steps), steps, begin, infos, at);
      CoversStays(old(steps), steps, begin, left + {key}, infos);
      infos', at' := infos, at;
      if !errs {
        var info := Parse(HashOf(db, key));
        ReadCovers(steps, begin, left, key, infos, at);
        if info.Some? {
          infos', at' := infos + [info.value], at + [|steps|];
        }
      }
    }

    /** KEYS, then one HGETALL per key, with the other processes running in between. An error of KEYS fails the
        listing; an error of HGETALL skips its key. Which commands err is given. */
    method ListWorkers(keysErr: bool, erring: set<WorkerId>)
      returns (infos: seq<WorkerInfo>, failed: bool, ghost at: seq<nat>)
      requires Valid()
      modifies this
      ensures Valid() && old(steps) <= steps && failed == keysErr && (failed ==> infos == [])
      // Each listed worker was registered, with exactly this hash, when its hash was read.
      ensures Listed(steps, |old(steps)|, infos, at)
      // Each worker registered throughout the listing is listed, unless its HGETALL errs; then it is not.
      ensures !failed ==> Covers(steps, |old(steps)|, erring, infos)
      ensures forall w :: w in erring ==> !Lists(infos, w)
    {
      hide Exec, Parse, Listed, Covers;
      infos, failed, at := [], keysErr, [];
      StartListed(steps);
      if failed {
        return;
      }
      var keys := db.hashes.Keys;
      ghost var begin, missed := |steps|, {};
      StartCovers(steps);
      while keys != {}
        invariant Valid() && old(steps) <= steps
        invariant Listed(steps, begin, infos, at)
        invariant forall i :: 0 <= i < |infos| ==> infos[i].workerId !in keys + missed && infos[i].workerId !in erring
        invariant missed !! keys && missed <= erring
        invariant Covers(steps, begin, keys + missed, infos)
        decreases |keys|
      {
        var key :| key in keys;
        ghost var left := keys - {key} + missed;
        assert left + {key} == keys + missed;
        infos, at := ReadOne(key, key in erring, begin, left, infos, at);
        keys := keys - {key};
        if key in erring {
          missed := missed + {key};
          assert keys + missed == left + {key};
        }
      }
      assert keys + missed == missed;
      CoversMore(steps, begin, missed, erring, infos);
    }
  }

  lemma CoversMore(steps: seq<Step>, begin: nat, keys: set<WorkerId>, more: set<WorkerId>, infos: seq<WorkerInfo>)
    requires Covers(steps, begin, keys, infos) && keys <= more
    ensures Covers(steps, begin, more, infos)
  {
    hide Throughout;
  }

  ghost predicate Throughout(steps: seq<Step>, begin: nat, w: WorkerId)
  {
    forall k :: begin <= k <= |steps| ==> w in Exec(steps[..k]).registered
  }

  ghost predicate Lists(infos: seq<WorkerInfo>, w: WorkerId)
  {
    exists i :: 0 <= i < |infos| && infos[i].workerId == w
  }

  /** A worker registered throughout is among these keys or already listed. */
  ghost predicate Covers(steps: seq<Step>, begin: nat, keys: set<WorkerId>, infos: seq<WorkerInfo>)
  {
    forall w: WorkerId :: w != "" && Throughout(steps, begin, w) ==> w in keys || Lists(infos, w)
  }

  lemma StartListed(steps: seq<Step>)
    ensures Listed(steps, |steps|, [], [])
  {
  }

  lemma StartCovers(steps: seq<Step>)
    ensures Covers(steps, |steps|, Exec(steps).hashes.Keys, [])
  {
    RunOk(steps);
    assert steps[..|steps|] == steps;
  }

  lemma CoversStays(before: seq<Step>, steps: seq<Step>, begin: nat, keys: set<WorkerId>, infos: seq<WorkerInfo>)
    requires before <= steps && Covers(before, begin, keys, infos)
    ensures Covers(steps, begin, keys, infos)
  {
    forall w: WorkerId | Throughout(steps, begin, w) ensures Throughout(before, begin, w) {
      assert forall k :: 0 <= k <= |before| ==> before[..k] == steps[..k];
    }
  }

  /** Reading one hash either lists its worker or shows that it was not registered just then. */
  lemma ReadCovers(steps: seq<Step>, begin: nat, keys: set<WorkerId>, key: WorkerId, infos: seq<WorkerInfo>,
                   at: seq<nat>)
    requires begin <= |steps| && Covers(steps, begin, keys + {key}, infos) && Listed(steps, begin, infos, at)
    requires key !in keys && forall i :: 0 <= i < |infos| ==> infos[i].workerId !in keys + {key}
    ensures var info := Parse(HashOf(Exec(steps), key));
            if info.Some? then
              && info.value.workerId == key
              && Listed(steps, begin, infos + [info.value], at + [|steps|])
              && Covers(steps, begin, keys, infos + [info.value])
            else Covers(steps, begin, keys, infos)
  {
    RunOk(steps);
    assert steps[..|steps|] == steps;
    var info := Parse(HashOf(Exec(steps), key));
    if info.Some? {
      ListedMore(infos, at, steps, begin, info.value);
      CoversRead(steps, begin, keys, key, infos, info.value);
    } else {
      assert Throughout(steps, begin, key) ==> key in Exec(steps[..|steps|]).registered;
    }
  }

  lemma ListedMore(infos: seq<WorkerInfo>, at: seq<nat>, steps: seq<Step>, begin: nat, info: WorkerInfo)
    requires Listed(steps, begin, infos, at) && begin <= |steps|
    requires info.workerId in Exec(steps).registered && Parse(HashOf(Exec(steps), info.workerId)) == Some(info)
    requires forall i :: 0 <= i < |infos| ==> infos[i].workerId != info.workerId
    ensures Listed(steps, begin, infos + [info], at + [|steps|])
  {
    hide Exec, Parse, HashOf;
    assert steps[..|steps|] == steps;
    assert ReadAt(steps, begin, info, |steps|);
    hide ReadAt;
    var infos', at' := infos + [info], at + [|steps|];
    forall i | 0 <= i < |infos'| ensures ReadAt(steps, begin, infos'[i], at'[i]) {
      assert i < |infos| ==> infos'[i] == infos[i] && at'[i] == at[i];
    }
    forall i, k | 0 <= i < k < |infos'| ensures infos'[i].workerId != infos'[k].workerId {
      assert infos'[i] == infos[i] && (k < |infos| ==> infos'[k] == infos[k]);
    }
  }

  lemma CoversRead(steps: seq<Step>, begin: nat, keys: set<WorkerId>, key: WorkerId, infos: seq<WorkerInfo>,
                   info: WorkerInfo)
    requires Covers(steps, begin, keys + {key}, infos) && info.workerId == key
    ensures Covers(steps, begin, keys, infos + [info])
  {
    hide Throughout;
    var infos' := infos + [info];
    forall w: WorkerId | w != "" && Throughout(steps, begin, w) ensures w in keys || Lists(infos', w) {
      if w == key {
        assert infos'[|infos|].workerId == key;
      } else if Lists(infos, w) {
        var i :| 0 <= i < |infos| && infos[i].workerId == w;
        assert infos'[i].workerId == w;
      }
    }
  }

  /** At moment k of the listing the worker was registered and its hash was this. */
  ghost predicate ReadAt(steps: seq<Step>, begin: nat, info: WorkerInfo, k: nat)
  {
    && begin <= k <= |steps|
    && info.workerId in Exec(steps[..k]).registered
    && Parse(HashOf(Exec(steps[..k]), info.workerId)) == Some(info)
  }

  ghost predicate Listed(steps: seq<Step>, begin: nat, infos: seq<WorkerInfo>, at: seq<nat>)
  {
    && |at| == |infos|
    && (forall i :: 0 <= i < |infos| ==> ReadAt(steps, begin, infos[i], at[i]))
    && (forall i, k :: 0 <= i < k < |infos| ==> infos[i].workerId != infos[k].workerId)
  }

  lemma ListedStays(steps: seq<Step>, steps': seq<Step>, begin: nat, infos: seq<WorkerInfo>, at: seq<nat>)
    requires Listed(steps, begin, infos, at) && steps <= steps'
    ensures Listed(steps', begin, infos, at)
  {
    forall i | 0 <= i < |infos| ensures ReadAt(steps', begin, infos[i], at[i]) {
      assert ReadAt(steps, begin, infos[i], at[i]) && steps'[..at[i]] == steps[..at[i]];
    }
  }

  /** What reconcile concludes about a listed worker, whenever it reads the clock: alive means that the last heartbeat
      before its hash was read, and so the last one of all, is under the threshold old; and a heartbeat at least a
      second younger than the threshold when its hash was read means alive. */
  lemma ListedAlive(steps: seq<Step>, begin: nat, infos: seq<WorkerInfo>, at: seq<nat>, i: nat, now: int,
                    threshold: int)
    requires Listed(steps, begin, infos, at) && i < |infos| && Exec(steps).now <= now
    ensures at[i] <= |steps|
    ensures var w := infos[i].workerId; var read, end := Exec(steps[..at[i]]), Exec(steps);
            && w in read.beats && w in end.beats && read.beats[w] <= end.beats[w] <= now
            && (IsAlive(infos[i], now, threshold) ==> now - read.beats[w] < threshold && now - end.beats[w] < threshold)
            && (now - read.beats[w] + NANOS <= threshold ==> IsAlive(infos[i], now, threshold))
  {
    var w := infos[i].workerId;
    assert ReadAt(steps, begin, infos[i], at[i]);
    RunOk(steps[..at[i]]);
    RunOk(steps);
    BeatsGrow(steps, at[i], w);
    var b := Exec(steps[..at[i]]).beats[w];
    assert b - NANOS < b / NANOS * NANOS <= b;
  }

  lemma {:induction false} BeatsGrow(steps: seq<Step>, k: nat, w: WorkerId)
    requires k <= |steps| && w in Exec(steps[..k]).beats && Exec(steps[..k]).beats[w] <= Exec(steps[..k]).now
    ensures w in Exec(steps).beats && Exec(steps[..k]).beats[w] <= Exec(steps).beats[w] <= Exec(steps).now
    ensures Exec(steps[..k]).now <= Exec(steps).now
  {
    var n := |steps| - 1;
    if k <= n {
      assert steps[..n][..k] == steps[..k];
      BeatsGrow(steps[..n], k, w);
    } else {
      assert steps[..k] == steps;
    }
  }

  function AliveIn(workers: seq<WorkerInfo>, now: int, threshold: int): set<int>
  {
    set i | 0 <= i < |workers| && IsAlive(workers[i], now, threshold)
  }

  /** One of the first n workers has this id and is not alive. */
  ghost predicate DeadIn(workers: seq<WorkerInfo>, n: nat, w: WorkerId, now: int, threshold: int)
    requires n <= |workers|
  {
    exists k :: 0 <= k < n && workers[k].workerId == w && !IsAlive(workers[k], now, threshold)
  }

  /** The ids of those not heard of for the threshold, as listed. */
  function Unheard(workers: seq<WorkerInfo>, now: int, threshold: int): seq<WorkerId>
  {
    if workers == [] then []
    else
      var last := workers[|workers| - 1];
      Unheard(workers[..|workers| - 1], now, threshold)
      + if now - last.lastSeen * 1_000_000_000 >= threshold then [last.workerId] else []
  }

  lemma {:induction false} UnheardIff(workers: seq<WorkerInfo>, now: int, threshold: int, w: WorkerId)
    ensures w in Unheard(workers, now, threshold) <==> DeadIn(workers, |workers|, w, now, threshold)
  {
    if workers != [] {
      var n := |workers| - 1;
      UnheardIff(workers[..n], now, threshold, w);
      if DeadIn(workers[..n], n, w, now, threshold) {
        var k :| 0 <= k < n && workers[..n][k].workerId == w && !IsAlive(workers[..n][k], now, threshold);
        assert workers[k].workerId == w;
      }
    }
  }

  /** The counting loop of reconcile. */
  method Reconcile(workers: seq<WorkerInfo>, now: int, threshold: int) returns (alive: nat, dead: seq<WorkerId>)
    ensures alive == |AliveIn(workers, now, threshold)|
    ensures alive + |dead| == |workers|
    ensures forall w :: w in dead <==> DeadIn(workers, |workers|, w, now, threshold)
    ensures dead == Unheard(workers, now, threshold)
  {
    alive, dead := 0, [];
    for i := 0 to |workers|
      invariant alive == |AliveIn(workers[..i], now, threshold)|
      invariant alive + |dead| == i
      invariant dead == Unheard(workers[..i], now, threshold)
    {
      assert workers[..i + 1][..i] == workers[..i];
      if IsAlive(workers[i], now, threshold) {
        assert AliveIn(workers[..i + 1], now, threshold) == AliveIn(workers[..i], now, threshold) + {i};
        alive := alive + 1;
      } else {
        assert AliveIn(workers[..i + 1], now, threshold) == AliveIn(workers[..i], now, threshold);
        dead := dead + [workers[i].workerId];
      }
    }
    assert workers[..|workers|] == workers;
    forall w ensures w in dead <==> DeadIn(workers, |workers|, w, now, threshold) {
      UnheardIff(workers, now, threshold, w);
    }
  }
}

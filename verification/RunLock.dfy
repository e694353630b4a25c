/**
 The inode-checked run lock (`RunLock` in src/open_trader/daily_premarket.py).

 The lock file is unlinked on every exit, so a process can hold the flock of an
 inode that the path no longer names. Waiting processes compare the two inodes
 before they enter; non-waiting ones do not. The processes interleave one system
 call at a time, and any of them may be killed between two calls.
*/
module RunLock {
  import opened Prelude

  type Pid = nat
  type Inode = nat

  datatype Stage =
    | Idle
    | Opened(ino: Inode)
    | Locked(ino: Inode)
    | Compared(ino: Inode, current: Option<Inode>)
    | Inside(ino: Inode)
    | Leaving(ino: Inode)

  /** `path` is the inode that the lock path names; `unused` has never been used. */
  datatype System = System(path: Option<Inode>, unused: Inode, holder: map<Inode, Pid>, stage: map<Pid, Stage>)

  datatype Action =
    | Open(pid: Pid)
    | Flock(pid: Pid)
    | Stat(pid: Pid)
    | Decide(pid: Pid)
    | Unlink(pid: Pid)
    | Unlock(pid: Pid)
    | Die(pid: Pid)

  const START := System(None, 0, map[], map[])

  function StageOf(s: System, p: Pid): Stage {
    if p in s.stage then s.stage[p] else Idle
  }

  function Move(s: System, p: Pid, to: Stage): System {
    s.(stage := s.stage[p := to])
  }

  predicate Holds(stage: Stage) {
    stage.Locked? || stage.Compared? || stage.Inside? || stage.Leaving?
  }

  /** The kernel drops a process's flock when the descriptor is unlocked or the process ends. */
  function Release(s: System, p: Pid): System {
    var freed := if Holds(StageOf(s, p)) then s.holder - {StageOf(s, p).ino} else s.holder;
    Move(s.(holder := freed), p, Idle)
  }

  /** One system call of one process; a call that its stage does not make leaves the system as it is. */
  function Next(waiters: set<Pid>, s: System, a: Action): System {
    var p := a.pid;
    match (a, StageOf(s, p))
    case (Open(_), Idle) =>
      (match s.path
       case Some(i) => Move(s, p, Opened(i))
       case None => Move(s.(path := Some(s.unused), unused := s.unused + 1), p, Opened(s.unused)))
    case (Flock(_), Opened(i)) =>
      if i !in s.holder then Move(s.(holder := s.holder[i := p]), p, if p in waiters then Locked(i) else Inside(i))
      else if p in waiters then s        // blocked
      else Move(s, p, Idle)              // "already active"
    case (Stat(_), Locked(i)) => Move(s, p, Compared(i, s.path))
    case (Decide(_), Compared(i, current)) => if current == Some(i) then Move(s, p, Inside(i)) else Release(s, p)
    case (Unlink(_), Inside(i)) => Move(s.(path := None), p, Leaving(i))
    case (Unlock(_), Leaving(_)) => Release(s, p)
    case (Die(_), _) => Release(s, p)
    case (_, _) => s
  }

  function Run(waiters: set<Pid>, actions: seq<Action>): System {
    if actions == [] then START
    else Next(waiters, Run(waiters, actions[..|actions| - 1]), actions[|actions| - 1])
  }

  predicate ByParticipants(actions: seq<Action>, participants: set<Pid>) {
    forall i :: 0 <= i < |actions| ==> actions[i].pid in participants
  }

  /** At most one process is between lock entry and exit. */
  ghost predicate MutualExclusion(s: System) {
    forall p, q :: StageOf(s, p).Inside? && StageOf(s, q).Inside? ==> p == q
  }

  // ---------------------------------------------------------------- a lock that is held

  /** A process that waits stays where it is; one that does not gives up, and neither changes anything else. */
  lemma {:induction false} HeldLock(waiters: set<Pid>, s: System, p: Pid, i: Inode)
    requires StageOf(s, p) == Opened(i) && i in s.holder
    ensures var t := Next(waiters, s, Flock(p));
      && t.path == s.path && t.holder == s.holder && t.unused == s.unused
      && StageOf(t, p) == (if p in waiters then Opened(i) else Idle)
      && forall q :: q != p ==> StageOf(t, q) == StageOf(s, q)
  {
  }

  /** A free lock is taken: by a waiter that still has to compare, by anyone else to go in at once. */
  lemma {:induction false} FreeLock(waiters: set<Pid>, s: System, p: Pid, i: Inode)
    requires StageOf(s, p) == Opened(i) && i !in s.holder
    ensures var t := Next(waiters, s, Flock(p));
      && t.path == s.path && t.holder == s.holder[i := p]
      && StageOf(t, p) == (if p in waiters then Locked(i) else Inside(i))
  {
  }

  // ---------------------------------------------------------------- waiters exclude each other

  ghost predicate Bookkeeping(s: System) {
    && (forall p :: Holds(StageOf(s, p)) ==> StageOf(s, p).ino in s.holder && s.holder[StageOf(s, p).ino] == p)
    && (forall i :: i in s.holder ==> Holds(StageOf(s, s.holder[i])) && StageOf(s, s.holder[i]).ino == i)
  }

  /** Whoever is inside, or has seen a matching inode, holds the inode that the path names right now. */
  ghost predicate PathIsHeld(s: System) {
    forall p :: StageOf(s, p).Inside? || (StageOf(s, p).Compared? && StageOf(s, p).current == Some(StageOf(s, p).ino))
           ==> s.path == Some(StageOf(s, p).ino)
  }

  lemma {:induction false} BookkeepingStep(waiters: set<Pid>, s: System, a: Action)
    requires Bookkeeping(s)
    ensures Bookkeeping(Next(waiters, s, a))
  {
    var t := Next(waiters, s, a);
    forall q | q != a.pid ensures StageOf(t, q) == StageOf(s, q) {}
  }

  lemma {:induction false} PathIsHeldStep(waiters: set<Pid>, s: System, a: Action)
    requires Bookkeeping(s) && PathIsHeld(s) && a.pid in waiters
    ensures PathIsHeld(Next(waiters, s, a))
  {
    var t := Next(waiters, s, a);
    forall q | q != a.pid ensures StageOf(t, q) == StageOf(s, q) {}
    if t.path.None? && s.path.Some? {
      // Only the process inside unlinks, and the path names the inode that it alone holds.
      assert StageOf(s, a.pid).Inside?;
    }
  }

  lemma {:induction false} WaitersInvariant(participants: set<Pid>, waiters: set<Pid>, actions: seq<Action>)
    requires participants <= waiters && ByParticipants(actions, participants)
    ensures Bookkeeping(Run(waiters, actions)) && PathIsHeld(Run(waiters, actions))
  {
    if actions == [] {
    } else {
      var before := actions[..|actions| - 1];
      WaitersInvariant(participants, waiters, before);
      BookkeepingStep(waiters, Run(waiters, before), actions[|actions| - 1]);
      PathIsHeldStep(waiters, Run(waiters, before), actions[|actions| - 1]);
    }
  }

  lemma {:induction false} WaitersExclude(participants: set<Pid>, waiters: set<Pid>, actions: seq<Action>)
    requires participants <= waiters && ByParticipants(actions, participants)
    ensures MutualExclusion(Run(waiters, actions))
  {
    WaitersInvariant(participants, waiters, actions);
  }

  // ---------------------------------------------------------------- one process that does not wait is enough

  lemma {:induction false} OnlyParticipantsMove(participants: set<Pid>, waiters: set<Pid>, actions: seq<Action>, p: Pid)
    requires ByParticipants(actions, participants) && p !in participants
    ensures StageOf(Run(waiters, actions), p) == Idle
  {
    if actions == [] {
    } else {
      OnlyParticipantsMove(participants, waiters, actions[..|actions| - 1], p);
      assert actions[|actions| - 1].pid in participants;
    }
  }

  lemma {:induction false} RunExtend(waiters: set<Pid>, actions: seq<Action>, a: Action)
    ensures Run(waiters, actions + [a]) == Next(waiters, Run(waiters, actions), a)
  {
    assert (actions + [a])[..|actions|] == actions;
  }

  /** `q` opens the file while `p` is inside; `p` leaves and comes back through a new file. */
  function Overtake(p: Pid, q: Pid): seq<Action> {
    Enter(p) + [Open(q), Unlink(p), Unlock(p)] + Enter(p) + [Flock(q)]
  }

  function Enter(p: Pid): seq<Action> {
    [Open(p), Flock(p), Stat(p), Decide(p)]
  }

  lemma {:induction false} EnterFrom(waiters: set<Pid>, actions: seq<Action>, p: Pid)
    requires var s := Run(waiters, actions);
      StageOf(s, p) == Idle && s.path.None? && s.unused !in s.holder
    ensures var s := Run(waiters, actions);
      var t := Run(waiters, actions + Enter(p));
      t == System(Some(s.unused), s.unused + 1, s.holder[s.unused := p], s.stage[p := Inside(s.unused)])
  {
    RunExtend(waiters, actions, Open(p));
    RunExtend(waiters, actions + [Open(p)], Flock(p));
    RunExtend(waiters, actions + [Open(p)] + [Flock(p)], Stat(p));
    RunExtend(waiters, actions + [Open(p)] + [Flock(p)] + [Stat(p)], Decide(p));
    assert actions + Enter(p) == actions + [Open(p)] + [Flock(p)] + [Stat(p)] + [Decide(p)];
  }

  /** `q` is left with the old inode open, which nobody holds and no path names. */
  lemma {:induction false} LeaveBehind(waiters: set<Pid>, p: Pid, q: Pid)
    requires p != q
    ensures Run(waiters, Enter(p) + [Open(q), Unlink(p), Unlock(p)])
         == System(None, 1, map[], map[p := Idle, q := Opened(0)])
  {
    var entered := Enter(p);
    EnterFrom(waiters, [], p);
    assert [] + Enter(p) == entered;
    assert Run(waiters, entered) == System(Some(0), 1, map[0 := p], map[p := Inside(0)]);
    RunExtend(waiters, entered, Open(q));
    assert Run(waiters, entered + [Open(q)]) == System(Some(0), 1, map[0 := p], map[p := Inside(0), q := Opened(0)]);
    RunExtend(waiters, entered + [Open(q)], Unlink(p));
    RunExtend(waiters, entered + [Open(q)] + [Unlink(p)], Unlock(p));
    assert entered + [Open(q), Unlink(p), Unlock(p)] == entered + [Open(q)] + [Unlink(p)] + [Unlock(p)];
  }

  lemma {:induction false} NonWaiterOvertakes(waiters: set<Pid>, p: Pid, q: Pid)
    requires p != q && q !in waiters
    ensures ByParticipants(Overtake(p, q), {p, q})
    ensures !MutualExclusion(Run(waiters, Overtake(p, q)))
  {
    var left := Enter(p) + [Open(q), Unlink(p), Unlock(p)];
    LeaveBehind(waiters, p, q);
    EnterFrom(waiters, left, p);
    RunExtend(waiters, left + Enter(p), Flock(q));
    var s := Run(waiters, Overtake(p, q));
    assert StageOf(s, p) == Inside(1) && StageOf(s, q) == Inside(0);
  }

  lemma {:induction false} AtMostOne(participants: set<Pid>, p: Pid, q: Pid)
    requires p in participants && q in participants && |participants| <= 1
    ensures p == q
  {
    assert |participants - {p}| == |participants| - 1;
    assert participants - {p} == {};
  }

  /** Exactly when the lock excludes: everyone waits, or there is nobody to exclude. */
  lemma {:induction false} ExcludesIff(participants: set<Pid>, waiters: set<Pid>)
    ensures (forall actions :: ByParticipants(actions, participants) ==> MutualExclusion(Run(waiters, actions)))
            <==> participants <= waiters || |participants| <= 1
  {
    if participants <= waiters {
      forall actions | ByParticipants(actions, participants) ensures MutualExclusion(Run(waiters, actions)) {
        WaitersExclude(participants, waiters, actions);
      }
    } else if |participants| <= 1 {
      forall actions | ByParticipants(actions, participants) ensures MutualExclusion(Run(waiters, actions)) {
        var s := Run(waiters, actions);
        forall p, q | StageOf(s, p).Inside? && StageOf(s, q).Inside? ensures p == q {
          if p !in participants { OnlyParticipantsMove(participants, waiters, actions, p); }
          if q !in participants { OnlyParticipantsMove(participants, waiters, actions, q); }
          AtMostOne(participants, p, q);
        }
      }
    } else {
      var q :| q in participants && q !in waiters;
      assert |participants - {q}| == |participants| - 1;
      var p :| p in participants - {q};
      NonWaiterOvertakes(waiters, p, q);
      assert ByParticipants(Overtake(p, q), participants);
    }
  }
}

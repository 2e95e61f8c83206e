/**
  Supervised runs whose receipt counts nobody although somebody lives: the two ways in which
  `Supervision.ZeroCount` says that can happen.

  Both runs are given step by step, from launch to receipt, each lemma taking the system one action
  further. The command forks a child and exits, and the child is handed to the root; in one run it
  forks again, onto the command's old pid, and exits too; in the other it denies access whenever the
  supervisor looks.
 */
module ShutdownGaps {
  import opened Wrappers
  import opened Basics
  import opened Runs
  import opened ProcessTree
  import opened OwnedDiscovery
  import opened Supervision

  lemma ReachEvent(k: Kernel, s: Supervisor, c: Command, e: Event)
    requires Reachable(System(k, s, c)) && Possible(k, e) && (e.Fork? ==> e.parent != k.root.pid)
    ensures Reachable(System(After(k, e), s, Ended(k, c, e, 0)))
  {
    ReachStep(System(k, s, c), Env(e, 0));
  }

  lemma ReachLeave(k: Kernel, s: Supervisor, c: Command, p: Pid)
    requires Reachable(System(k, s, c)) && Possible(k, Exit(p, 1))
    requires Possible(After(k, Exit(p, 1)), Reap(p))
    ensures Reachable(System(After(After(k, Exit(p, 1)), Reap(p)), s, Ended(k, c, Exit(p, 1), 0)))
  {
    ReachEvent(k, s, c, Exit(p, 1));
    ReachEvent(After(k, Exit(p, 1)), s, Ended(k, c, Exit(p, 1), 0), Reap(p));
  }

  lemma LookedIs(y: System, listing: seq<Observation>, found: set<Pid>, known: map<Pid, Identity>)
    requires Found(y, listing) == found
    requires var snapshot := Snapshot(y.k.root.pid, listing);
             && found <= snapshot.Keys
             && KnownAfter(y.s.known, snapshot, Seeds(y.k.root, y.s.known, snapshot),
                           Reused(y.s.known, snapshot), found) == known
    ensures Looked(y, listing) == y.s.(known := known, living := found - {y.k.root.pid})
  {
  }

  lemma ReachWatch(y: System, listing: seq<Observation>, deadline: bool, leader: Option<int>,
                   looked: Supervisor)
    requires Reachable(y) && Enabled(y, Watch(listing, deadline, leader)) && !Refuses(y, listing)
    requires Looked(y, listing) == looked
    ensures Reachable(System(y.k, Watched(looked, deadline, leader), y.c))
  {
    ReachStep(y, Watch(listing, deadline, leader));
  }

  lemma ReachClean(y: System, listing: seq<Observation>, cleanupOver: bool, looked: Supervisor)
    requires Reachable(y) && Enabled(y, Clean(listing, false, cleanupOver)) && !Refuses(y, listing)
    requires Looked(y, listing) == looked
    ensures Reachable(System(y.k, Cleaned(looked, false, cleanupOver), y.c))
  {
    ReachStep(y, Clean(listing, false, cleanupOver));
  }

  // A final count of nobody goes into the receipt.
  lemma Ends(y: System, listing: seq<Observation>) returns (z: System)
    requires Reachable(y) && Enabled(y, Drain(listing)) && !Refuses(y, listing)
    requires Looked(y, listing).living == {}
    ensures Reachable(z) && z.k == y.k
    ensures z.s.receipt == Some(Receipt(y.k.root, y.s.returncode, 0))
  {
    ReachStep(y, Drain(listing));
    var w := Apply(y, Drain(listing));
    ReachStep(w, Write);
    z := Apply(w, Write);
  }

  // Without denials of what is known a discovery goes through.
  lemma NobodyRefuses(y: System, listing: seq<Observation>)
    requires Inv(y.k) && Lists(y.k, listing) && Denials(listing) !! y.s.known.Keys
    ensures !Refuses(y, listing)
  {
    ListsFaithful(y.k, listing);
    assert forall o :: o in listing && o.Denied? ==> o.pid in Denials(listing);
  }

  // The supervisor is pid 1, the command pid 2; pid 3 is a child of the command.
  const Top: Identity := Identity(1, 0)
  const Second: Identity := Identity(2, 1)
  const Third: Identity := Identity(3, 2)

  // While the command runs, and when it has exited with 0.
  function Ran(k: Kernel, s: Supervisor): System { System(k, s, Command(Some(Second), None)) }

  function Gone(k: Kernel, s: Supervisor): System { System(k, s, Command(Some(Second), Some(0))) }

  function Early(): Kernel { Kernel(Top, map[1 := Proc(0, 0, false)], {Top}, 1) }

  function Launched(): Kernel {
    Kernel(Top, map[1 := Proc(0, 0, false), 2 := Proc(1, 1, false)], {Top, Second}, 2)
  }

  function Family(): Kernel {
    Kernel(Top, map[1 := Proc(0, 0, false), 2 := Proc(1, 1, false), 3 := Proc(2, 2, false)],
           {Top, Second, Third}, 3)
  }

  // The command is gone, and pid 3 has come to the root.
  function Adopted(): Kernel {
    Family().(procs := map[1 := Proc(0, 0, false), 3 := Proc(2, 1, false)])
  }

  // Pid 3 has forked another pid 2.
  function Renewed(): Kernel {
    Kernel(Top, map[1 := Proc(0, 0, false), 2 := Proc(3, 3, false), 3 := Proc(2, 1, false)],
           {Top, Second, Third, Identity(2, 3)}, 4)
  }

  // That one has come to the root.
  function Recycled(): Kernel {
    Renewed().(procs := map[1 := Proc(0, 0, false), 2 := Proc(3, 1, false)])
  }

  function KnowsCommand(): map<Pid, Identity> { map[1 := Top, 2 := Second] }

  function KnowsBoth(): map<Pid, Identity> { map[1 := Top, 2 := Second, 3 := Third] }

  function Polling(): Supervisor {
    Supervisor(Watching, KnowsCommand(), {}, false, false, 1, false, [], None)
  }

  lemma Launches()
    ensures Reachable(Ran(Launched(), Polling()))
  {
    var y := System(Early(), Supervisor(Ready, map[1 := Top], {}, false, false, 1, false, [], None),
                    Command(None, None));
    assert Chain(y.k.procs, 1, [1], 1);
    assert Init(y);
    LeadsNowhere(Next, y);
    assert Reachable(y);
    ReachStep(y, Launch(2, true));
    assert Apply(y, Launch(2, true)) == Ran(Launched(), Polling());
  }

  lemma Forks()
    ensures Reachable(Ran(Family(), Polling()))
  {
    Launches();
    ReachEvent(Launched(), Polling(), Command(Some(Second), None), Fork(2, 3));
    assert After(Launched(), Fork(2, 3)) == Family();
  }

  // ---- a discovery that finds both

  function Both(): seq<Observation> {
    [Seen(1, 0, 0, false), Seen(2, 1, 1, false), Seen(3, 2, 2, false)]
  }

  lemma ListsBoth()
    ensures Lists(Family(), Both()) && Denials(Both()) == {}
  {
    assert Both()[0] in Both() && Both()[1] in Both() && Both()[2] in Both();
    assert Sightings(Both()) == {1, 2, 3};
  }

  lemma SnapshotBoth()
    requires Inv(Family())
    ensures Snapshot(1, Both())
         == map[1 := Entry(Top, 0), 2 := Entry(Second, 1), 3 := Entry(Third, 2)]
  {
    ListsBoth();
    ListsFaithful(Family(), Both());
  }

  lemma KnowsBothAfter(known: map<Pid, Identity>, snapshot: map<Pid, Entry>)
    requires snapshot == map[1 := Entry(Top, 0), 2 := Entry(Second, 1), 3 := Entry(Third, 2)]
    requires known == KnowsCommand() || known == KnowsBoth()
    ensures KnownAfter(known, snapshot, Seeds(Top, known, snapshot), Reused(known, snapshot), {1, 2, 3})
         == KnowsBoth()
  {
  }

  lemma FindsBoth(k: Kernel, known: map<Pid, Identity>, listing: seq<Observation>)
    requires Inv(k) && KnownMine(k, known) && k == Family()
    requires Lists(k, listing) && Denials(listing) == {}
    requires known == KnowsCommand() || known == KnowsBoth()
    ensures Discovered(Top, known, Snapshot(1, listing)) == {1, 2, 3}
  {
    OwnedIsComplete(k, known, listing);
    assert Descendants(k) == {1, 2, 3};
  }

  lemma LooksBoth(y: System, listing: seq<Observation>)
    requires Inv(y.k) && KnownMine(y.k, y.s.known) && y.k == Family() && listing == Both()
    requires y.s.known == KnowsCommand() || y.s.known == KnowsBoth()
    ensures Looked(y, listing) == y.s.(known := KnowsBoth(), living := {2, 3})
  {
    ListsBoth();
    SnapshotBoth();
    FindsBoth(y.k, y.s.known, listing);
    KnowsBothAfter(y.s.known, Snapshot(1, listing));
    LookedIs(y, listing, {1, 2, 3}, KnowsBoth());
    assert {1, 2, 3} - {1} == {2, 3};
  }

  /** The supervisor sees both. */
  lemma SeesBoth(s: Supervisor)
    requires Reachable(Ran(Family(), s)) && (s.known == KnowsCommand() || s.known == KnowsBoth())
    ensures Lists(Family(), Both()) && !Refuses(Ran(Family(), s), Both())
    ensures Looked(Ran(Family(), s), Both()) == s.(known := KnowsBoth(), living := {2, 3})
  {
    ReachableInv(Ran(Family(), s));
    ListsBoth();
    NobodyRefuses(Ran(Family(), s), Both());
    LooksBoth(Ran(Family(), s), Both());
  }

  function Late(): Supervisor { Polling().(phase := Cleaning, known := KnowsBoth(), living := {2, 3}) }

  function GivenUp(): Supervisor {
    Late().(phase := Draining, termSent := true, rounds := [Round(false, {Second, Third})])
  }

  /** The deadline passes while both live, */
  lemma TooLate()
    ensures Reachable(Ran(Family(), Late()))
  {
    Forks();
    SeesBoth(Polling());
    ReachWatch(Ran(Family(), Polling()), Both(), true, None,
               Polling().(known := KnowsBoth(), living := {2, 3}));
  }

  /** and so does the time for cleanup. */
  lemma GivesUp()
    ensures Reachable(Ran(Family(), GivenUp()))
  {
    TooLate();
    SeesBoth(Late());
    ReachClean(Ran(Family(), Late()), Both(), true, Late());
    CleansBoth();
  }

  lemma CleansBoth()
    ensures Cleaned(Late(), false, true) == GivenUp()
  {
    assert Targets(Late()) == {Second, Third};
  }

  // ---- a pid is recycled

  // Pid 2 exits, and its child comes to the root.
  lemma CommandExits(k: Kernel)
    requires k == Family()
    ensures Possible(k, Exit(2, 1)) && Possible(After(k, Exit(2, 1)), Reap(2))
    ensures After(After(k, Exit(2, 1)), Reap(2)) == Adopted()
  {
    assert Chain(k.procs, 1, [1], 1);
  }

  /** The command leaves, */
  lemma CommandLeaves(s: Supervisor)
    requires Reachable(Ran(Family(), s))
    ensures Reachable(Gone(Adopted(), s))
  {
    CommandExits(Family());
    ReachLeave(Family(), s, Command(Some(Second), None), 2);
  }

  /** pid 3 forks another pid 2 */
  lemma ForksAgain(s: Supervisor)
    requires Reachable(Gone(Adopted(), s))
    ensures Reachable(Gone(Renewed(), s))
  {
    ReachEvent(Adopted(), s, Command(Some(Second), Some(0)), Fork(3, 2));
    assert After(Adopted(), Fork(3, 2)) == Renewed();
  }

  lemma OtherExits(k: Kernel)
    requires k == Renewed()
    ensures Possible(k, Exit(3, 1)) && Possible(After(k, Exit(3, 1)), Reap(3))
    ensures After(After(k, Exit(3, 1)), Reap(3)) == Recycled()
  {
    assert Chain(k.procs, 1, [1], 1);
  }

  /** and leaves too: a grandchild of the command is left, on the command's old pid. */
  lemma Recycles(s: Supervisor)
    requires Reachable(Gone(Renewed(), s))
    ensures Reachable(Gone(Recycled(), s))
  {
    OtherExits(Renewed());
    ReachLeave(Renewed(), s, Command(Some(Second), Some(0)), 3);
  }

  lemma LeavesAnother()
    ensures Reachable(Gone(Recycled(), GivenUp()))
  {
    GivesUp();
    CommandLeaves(GivenUp());
    ForksAgain(GivenUp());
    Recycles(GivenUp());
  }

  function Child(): seq<Observation> { [Seen(1, 0, 0, false), Seen(2, 3, 1, false)] }

  lemma ListsChild()
    requires Inv(Recycled())
    ensures Lists(Recycled(), Child()) && Denials(Child()) == {}
    ensures Snapshot(1, Child()) == map[1 := Entry(Top, 0), 2 := Entry(Identity(2, 3), 1)]
  {
    assert Child()[0] in Child() && Child()[1] in Child();
    assert Sightings(Child()) == {1, 2};
    ListsFaithful(Recycled(), Child());
  }

  lemma OnlyRootFound(snapshot: map<Pid, Entry>)
    requires snapshot == map[1 := Entry(Top, 0), 2 := Entry(Identity(2, 3), 1)]
    ensures Discovered(Top, KnowsBoth(), snapshot) <= {1}
  {
    assert Reused(KnowsBoth(), snapshot) == {2} && Seeds(Top, KnowsBoth(), snapshot) == {1};
    forall p | p in Discovered(Top, KnowsBoth(), snapshot) ensures p == 1 {
      var path :| Lineage(snapshot, {1}, {2}, path, p);
    }
  }

  lemma NobodyLooksAlive()
    requires Inv(Recycled())
    ensures Lists(Recycled(), Child()) && !Refuses(Gone(Recycled(), GivenUp()), Child())
    ensures Looked(Gone(Recycled(), GivenUp()), Child()).living == {}
  {
    ListsChild();
    NobodyRefuses(Gone(Recycled(), GivenUp()), Child());
    OnlyRootFound(Snapshot(1, Child()));
  }

  /**
    A supervised run whose receipt counts nobody although a descendant lives: pid 2 was known, died
    and belongs to a younger child of the root now. The monitor calls the run FAILED, not
    MONITOR_ERROR.
   */
  lemma RecycledPidHides() returns (z: System)
    ensures Reachable(z) && z.s.receipt == Some(Receipt(z.k.root, 1, 0)) && !Alone(z.k)
    ensures EnhancedStatus(z.s.receipt, z.k.root, 1, false, false) == FailedCommand
  {
    LeavesAnother();
    ReachableInv(Gone(Recycled(), GivenUp()));
    NobodyLooksAlive();
    z := Ends(Gone(Recycled(), GivenUp()), Child());
    assert Living(z.k.procs, 2) && IdentityOf(z.k.procs, 2) in z.k.mine;
  }

  // ---------------------------------------------------------------- and one that says COMPLETE

  // Pid 3 denies access.
  function Denial(): seq<Observation> { [Seen(1, 0, 0, false), Denied(3)] }

  lemma ListsDenial()
    requires Inv(Adopted())
    ensures Lists(Adopted(), Denial()) && Denials(Denial()) == {3}
    ensures Snapshot(1, Denial()) == map[1 := Entry(Top, 0)]
  {
    assert Denial()[0] in Denial() && Denial()[1] in Denial();
    assert Sightings(Denial()) == {1} && Denials(Denial()) == {3};
    ListsFaithful(Adopted(), Denial());
  }

  lemma OnlyRootShows(snapshot: map<Pid, Entry>)
    requires snapshot == map[1 := Entry(Top, 0)]
    ensures Discovered(Top, KnowsCommand(), snapshot) == {1}
    ensures KnownAfter(KnowsCommand(), snapshot, Seeds(Top, KnowsCommand(), snapshot),
                       Reused(KnowsCommand(), snapshot), {1})
         == KnowsCommand()
  {
    var known := KnowsCommand();
    assert Reused(known, snapshot) == {} && Seeds(Top, known, snapshot) == {1};
    SeedClaimed(snapshot, {1}, {}, 1);
  }

  /** Whatever the supervisor is at, it finds nobody. */
  lemma NobodyShows(s: Supervisor)
    requires Reachable(Gone(Adopted(), s)) && s.known == KnowsCommand()
    ensures Lists(Adopted(), Denial()) && !Refuses(Gone(Adopted(), s), Denial())
    ensures Looked(Gone(Adopted(), s), Denial()) == s.(living := {})
  {
    ReachableInv(Gone(Adopted(), s));
    ListsDenial();
    NobodyRefuses(Gone(Adopted(), s), Denial());
    OnlyRootShows(Snapshot(1, Denial()));
  }

  /** So it takes the command's own return code */
  lemma TakesReturnCode()
    ensures Reachable(Gone(Adopted(), Polling().(phase := Cleaning, returncode := 0)))
  {
    Forks();
    CommandLeaves(Polling());
    NobodyShows(Polling());
    ReachWatch(Gone(Adopted(), Polling()), Denial(), false, Some(0), Polling());
  }

  /** and has nothing to clean up. */
  lemma CleansNothing()
    ensures Reachable(Gone(Adopted(), Polling().(phase := Draining, returncode := 0)))
  {
    var s := Polling().(phase := Cleaning, returncode := 0);
    TakesReturnCode();
    NobodyShows(s);
    ReachClean(Gone(Adopted(), s), Denial(), false, s);
  }

  /**
    A supervised run that ends COMPLETE with a descendant alive: a child the supervisor has never
    discovered denies access to it.
   */
  lemma DeniedChildHides() returns (z: System)
    ensures Reachable(z) && z.s.receipt == Some(Receipt(z.k.root, 0, 0)) && !Alone(z.k)
    ensures EnhancedStatus(z.s.receipt, z.k.root, 0, false, false) == Complete
  {
    var y := Gone(Adopted(), Polling().(phase := Draining, returncode := 0));
    CleansNothing();
    NobodyShows(y.s);
    z := Ends(y, Denial());
    assert Living(z.k.procs, 3) && IdentityOf(z.k.procs, 3) in z.k.mine;
  }
}

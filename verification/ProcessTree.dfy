/**
  The processes of one host as far as the supervisor of `owned_process.py` depends on them: parent
  links, zombies, pid reuse and reparenting to a child subreaper.

  An identity is a pid with its time of creation, and every fork gets a new one. The state keeps which
  identities descend from the root, independently of the parent links that `psutil` shows; the
  invariant says that the links of the living lead to the root exactly for those.
 */
module ProcessTree {

  type Pid = nat   // 0 is nobody's pid: the parent of whoever has none here

  datatype Identity = Identity(pid: Pid, created: nat)
  datatype Proc = Proc(created: nat, parent: Pid, zombie: bool)

  // `root` is the subreaper; `mine` remembers it and everything ever forked below it.
  datatype Kernel = Kernel(root: Identity, procs: map<Pid, Proc>, mine: set<Identity>, now: nat)

  predicate Living(procs: map<Pid, Proc>, p: Pid) { p in procs && !procs[p].zombie }

  function IdentityOf(procs: map<Pid, Proc>, p: Pid): Identity
    requires p in procs
  {
    Identity(p, procs[p].created)
  }

  /** `path` leads from `root` to `p` along parent links, through living processes only. */
  ghost predicate Chain(procs: map<Pid, Proc>, root: Pid, path: seq<Pid>, p: Pid) {
    && |path| > 0 && path[0] == root && path[|path| - 1] == p
    && (forall i :: 0 <= i < |path| ==> Living(procs, path[i]))
    && (forall i :: 0 < i < |path| ==> procs[path[i]].parent == path[i - 1])
  }

  ghost predicate Linked(procs: map<Pid, Proc>, root: Pid, p: Pid) {
    exists path :: Chain(procs, root, path, p)
  }

  // Linked without passing through `avoid`.
  ghost predicate LinkedAvoiding(procs: map<Pid, Proc>, root: Pid, p: Pid, avoid: Pid) {
    exists path :: Chain(procs, root, path, p) && avoid !in path
  }

  datatype Event =
    | Fork(parent: Pid, child: Pid)
    | Exit(pid: Pid, reaper: Pid)     // becomes a zombie; its children go to `reaper`
    | Reap(pid: Pid)

  // Only processes other than the root exit here: its own exit ends the story. A reaper is never a
  // child of the exiting process. The reaper of a descendant of the subreaper is an ancestor at or
  // below the subreaper; that of anyone else is some other process, or nobody.
  ghost predicate Possible(k: Kernel, e: Event) {
    match e
    case Fork(p, c) => Living(k.procs, p) && c != 0 && c !in k.procs
    case Exit(p, q) =>
      && Living(k.procs, p) && p != k.root.pid && q != p
      && (q in k.procs ==> k.procs[q].parent != p)
      && (if IdentityOf(k.procs, p) in k.mine then LinkedAvoiding(k.procs, k.root.pid, q, p)
          else q == 0 || (Living(k.procs, q) && IdentityOf(k.procs, q) !in k.mine))
    case Reap(p) => p in k.procs && k.procs[p].zombie
  }

  function Orphaned(procs: map<Pid, Proc>, p: Pid, q: Pid): map<Pid, Proc> {
    map c | c in procs ::
      if c == p then procs[c].(zombie := true)
      else if procs[c].parent == p then procs[c].(parent := q)
      else procs[c]
  }

  ghost function After(k: Kernel, e: Event): Kernel
    requires Possible(k, e)
  {
    match e
    case Fork(p, c) =>
      k.(procs := k.procs[c := Proc(k.now, p, false)], now := k.now + 1,
         mine := if IdentityOf(k.procs, p) in k.mine then k.mine + {Identity(c, k.now)} else k.mine)
    case Exit(p, q) => k.(procs := Orphaned(k.procs, p, q))
    case Reap(p) => k.(procs := k.procs - {p})
  }

  // Parents are living; creation times are past; and the living descendants by history are
  // exactly those linked to the root now.
  ghost predicate Inv(k: Kernel) {
    && Living(k.procs, k.root.pid) && IdentityOf(k.procs, k.root.pid) == k.root && k.root in k.mine
    && 0 !in k.procs
    && (forall p :: p in k.procs ==> k.procs[p].created < k.now)
    && (forall p :: p in k.procs ==>
          k.procs[p].parent != p
          && (k.procs[p].parent == 0 || Living(k.procs, k.procs[p].parent)))
    && (forall d :: d in k.mine ==> d.created < k.now)
    && (forall p :: Living(k.procs, p) ==>
          (IdentityOf(k.procs, p) in k.mine <==> Linked(k.procs, k.root.pid, p)))
  }

  // One more link at the end of a chain.
  lemma ChainOn(procs: map<Pid, Proc>, root: Pid, q: Pid, p: Pid)
    requires Linked(procs, root, q) && Living(procs, p) && procs[p].parent == q
    ensures Linked(procs, root, p)
  {
    var path :| Chain(procs, root, path, q);
    assert Chain(procs, root, path + [p], p);
  }

  lemma {:induction false} ForkLinks(k: Kernel, p: Pid, c: Pid, path: seq<Pid>, x: Pid)
    requires Inv(k) && Possible(k, Fork(p, c)) && x != c
    requires Chain(After(k, Fork(p, c)).procs, k.root.pid, path, x)
    ensures Linked(k.procs, k.root.pid, x)
    decreases |path|
  {
    var after := After(k, Fork(p, c)).procs;
    if |path| == 1 {
      assert Chain(k.procs, k.root.pid, path, x);
    } else {
      assert Chain(after, k.root.pid, path[..|path| - 1], after[x].parent);
      ForkLinks(k, p, c, path[..|path| - 1], after[x].parent);
      ChainOn(k.procs, k.root.pid, k.procs[x].parent, x);
    }
  }

  lemma ForkKeeps(k: Kernel, p: Pid, c: Pid)
    requires Inv(k) && Possible(k, Fork(p, c))
    ensures Inv(After(k, Fork(p, c)))
  {
    var k' := After(k, Fork(p, c));
    var root := k.root.pid;
    forall x | Living(k'.procs, x)
      ensures IdentityOf(k'.procs, x) in k'.mine <==> Linked(k'.procs, root, x)
    {
      if Linked(k'.procs, root, x) {
        var path :| Chain(k'.procs, root, path, x);
        if x == c {
          assert Chain(k'.procs, root, path[..|path| - 1], k'.procs[c].parent);
          ForkLinks(k, p, c, path[..|path| - 1], p);
        } else {
          ForkLinks(k, p, c, path, x);
        }
      } else if IdentityOf(k'.procs, x) in k'.mine {
        var y := if x == c then p else x;
        assert Linked(k.procs, root, y);
        var path :| Chain(k.procs, root, path, y);
        assert Chain(k'.procs, root, path, y);
        if x == c { ChainOn(k'.procs, root, p, c); }
      }
    }
  }

  // Whoever was linked still is, if need be through the reaper.
  lemma {:induction false} ExitRelinks(k: Kernel, p: Pid, q: Pid, path: seq<Pid>, x: Pid)
    requires Inv(k) && Possible(k, Exit(p, q)) && x != p
    requires Chain(k.procs, k.root.pid, path, x)
    ensures Linked(Orphaned(k.procs, p, q), k.root.pid, x)
    decreases |path|
  {
    var after := Orphaned(k.procs, p, q);
    var root := k.root.pid;
    if |path| == 1 {
      assert Chain(after, root, path, x);
    } else {
      assert Chain(k.procs, root, path[..|path| - 1], k.procs[x].parent);
      var parent := k.procs[x].parent;
      if parent == p {
        assert Linked(k.procs, root, p);
        var through :| Chain(k.procs, root, through, q) && p !in through;
        assert Chain(Orphaned(k.procs, p, q), k.root.pid, through, q);
        ChainOn(after, root, q, x);
      } else {
        ExitRelinks(k, p, q, path[..|path| - 1], parent);
        ChainOn(after, root, parent, x);
      }
    }
  }

  // Nobody becomes linked by someone else's exit.
  lemma {:induction false} ExitLinks(k: Kernel, p: Pid, q: Pid, path: seq<Pid>, x: Pid)
    requires Inv(k) && Possible(k, Exit(p, q)) && x != p
    requires Chain(Orphaned(k.procs, p, q), k.root.pid, path, x)
    ensures Linked(k.procs, k.root.pid, x)
    decreases |path|
  {
    var after := Orphaned(k.procs, p, q);
    var root := k.root.pid;
    if |path| == 1 {
      assert Chain(k.procs, root, path, x);
    } else {
      assert Chain(after, root, path[..|path| - 1], after[x].parent);
      ExitLinks(k, p, q, path[..|path| - 1], after[x].parent);
      if k.procs[x].parent == p {
        assert Linked(k.procs, root, q);
        assert IdentityOf(k.procs, p) in k.mine;
        ChainOn(k.procs, root, p, x);
      } else {
        ChainOn(k.procs, root, k.procs[x].parent, x);
      }
    }
  }

  lemma ExitKeeps(k: Kernel, p: Pid, q: Pid)
    requires Inv(k) && Possible(k, Exit(p, q))
    ensures Inv(After(k, Exit(p, q)))
  {
    var k' := After(k, Exit(p, q));
    var root := k.root.pid;
    forall x | Living(k'.procs, x)
      ensures IdentityOf(k'.procs, x) in k'.mine <==> Linked(k'.procs, root, x)
    {
      if Linked(k'.procs, root, x) {
        var path :| Chain(k'.procs, root, path, x);
        ExitLinks(k, p, q, path, x);
      }
      if Linked(k.procs, root, x) {
        var path :| Chain(k.procs, root, path, x);
        ExitRelinks(k, p, q, path, x);
      }
    }
    assert q == 0 || Living(k'.procs, q) by {
      if IdentityOf(k.procs, p) in k.mine {
        var through :| Chain(k.procs, root, through, q) && p !in through;
      }
    }
  }

  lemma ReapKeeps(k: Kernel, p: Pid)
    requires Inv(k) && Possible(k, Reap(p))
    ensures Inv(After(k, Reap(p)))
  {
    var k' := After(k, Reap(p));
    var root := k.root.pid;
    forall x | Living(k'.procs, x)
      ensures Linked(k'.procs, root, x) <==> Linked(k.procs, root, x)
    {
      if Linked(k.procs, root, x) {
        var path :| Chain(k.procs, root, path, x);
        assert Chain(k'.procs, root, path, x);
      }
      if Linked(k'.procs, root, x) {
        var path :| Chain(k'.procs, root, path, x);
        assert Chain(k.procs, root, path, x);
      }
    }
  }

  /**
    With a subreaper at the root, forks, exits, reparenting and reaping keep every living
    descendant linked to the root, and nobody else.
   */
  lemma EventKeeps(k: Kernel, e: Event)
    requires Inv(k) && Possible(k, e)
    ensures Inv(After(k, e))
  {
    match e
    case Fork(p, c) => ForkKeeps(k, p, c);
    case Exit(p, q) => ExitKeeps(k, p, q);
    case Reap(p) => ReapKeeps(k, p);
  }

  // ---------------------------------------------------------------- no descendants

  ghost predicate Alone(k: Kernel) {
    forall p :: Living(k.procs, p) && IdentityOf(k.procs, p) in k.mine ==> p == k.root.pid
  }

  /** A root that has no living descendant and does not fork never has one again. */
  lemma AloneStays(k: Kernel, e: Event)
    requires Inv(k) && Possible(k, e) && Alone(k)
    requires e.Fork? ==> e.parent != k.root.pid
    ensures Alone(After(k, e))
  {
    var k' := After(k, e);
    forall p | Living(k'.procs, p) && IdentityOf(k'.procs, p) in k'.mine
      ensures p == k.root.pid
    {
      if !(e.Fork? && p == e.child) {
        assert Living(k.procs, p) && IdentityOf(k.procs, p) in k.mine;
      }
    }
  }
}

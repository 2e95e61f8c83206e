/**
  The files a portable archive takes along with an evaluation index: `_add` and
  `_index_dependencies` of `archive.py`. Indexes may supply evidence to one another.
 */
module Archive {
  import opened Wrappers

  // A member name, part by part.
  type Name = seq<string>
  datatype File = File(directory: Name, base: string)

  datatype Role =
    RunManifest | EvaluationSuite | SurfaceBundle | EvaluationSource | EvaluationResult
    | IndexDependency

  datatype Status = Completed | SkippedReview | Unfinished
  datatype Kind = SurfaceReview | EvidenceReference | Measurement
  datatype Source = Directory(members: seq<Name>, directory: Name) | UnsafeDirectory | Single(file: File)

  // One evaluation of the record beside the suite's item.
  datatype Row = Row(id: string, kind: Kind, status: Status, source: Option<Source>, path: File)

  // `ragged` if record and suite list different numbers of evaluations.
  datatype Index =
    Index(identity: string, manifest: File, suite: File, checkpoint: File, rows: seq<Row>,
          ragged: bool)

  // What the disk holds: the indexes that verify, the regular files, the checkpoint wanted.
  datatype World = World(store: map<File, Index>, regular: set<File>, checkpoint: File)

  datatype Failure =
    Cycle | WrongCheckpoint | RowsDiffer | UnsafeInput | Unverified | UnsafeName | MissingFile
    | DuplicateDestination

  type Entries = map<Name, (File, Role)>

  // ---------------------------------------------------------------- adding one file

  predicate SafePart(part: string) {
    part != "" && part != "." && part != ".." && '\\' !in part && '\0' !in part && '/' !in part
  }

  predicate SafeName(name: Name) { name != [] && forall part :: part in name ==> SafePart(part) }

  datatype Event = Place(name: Name, file: File, role: Role) | Stop(failure: Failure)

  function Apply(w: World, e: Event, inv: Entries): Result<Entries, Failure> {
    match e
    case Stop(failure) => Err(failure)
    case Place(name, file, role) =>
      if !SafeName(name) then Err(UnsafeName)
      else if file !in w.regular then Err(MissingFile)
      else if name in inv && inv[name].0 != file then Err(DuplicateDestination)
      else Ok(inv[name := (file, role)])
  }

  /** Events one after the other, up to the first that fails. */
  function Run(w: World, events: seq<Event>, inv: Entries): Result<Entries, Failure> {
    if events == [] then Ok(inv)
    else
      match Apply(w, events[0], inv)
      case Err(failure) => Err(failure)
      case Ok(next) => Run(w, events[1..], next)
  }

  lemma {:induction false} RunAppend(w: World, events: seq<Event>, more: seq<Event>, inv: Entries)
    ensures Run(w, events + more, inv)
         == match Run(w, events, inv)
            case Err(failure) => Err(failure)
            case Ok(before) => Run(w, more, before)
  {
    if events == [] {
      assert events + more == more;
    } else {
      assert (events + more)[1..] == events[1..] + more;
      var next := Apply(w, events[0], inv);
      if next.Ok? { RunAppend(w, events[1..], more, next.value); }
    }
  }

  // ---------------------------------------------------------------- what a run does

  predicate Addable(w: World, e: Event) { e.Place? && SafeName(e.name) && e.file in w.regular }

  /** No two files, old or new, claim one name. */
  ghost predicate Compatible(events: seq<Event>, inv: Entries) {
    && (forall e :: e in events && e.Place? && e.name in inv ==> inv[e.name].0 == e.file)
    && (forall d, e :: d in events && e in events && d.Place? && e.Place? && d.name == e.name ==>
          d.file == e.file)
  }

  /** The file and role that the last placement under `name` gives it. */
  function Placed(events: seq<Event>, name: Name): Option<(File, Role)> {
    if events == [] then None
    else if Placed(events[1..], name).Some? then Placed(events[1..], name)
    else if events[0].Place? && events[0].name == name then Some((events[0].file, events[0].role))
    else None
  }

  lemma {:induction false} PlacedIs(events: seq<Event>, name: Name)
    ensures match Placed(events, name)
            case Some(v) => exists e :: e in events && e == Place(name, v.0, v.1)
            case None => forall e :: e in events && e.Place? ==> e.name != name
  {
    if events != [] {
      PlacedIs(events[1..], name);
      InHeadOrTail(events);
      if Placed(events[1..], name).None? && Placed(events, name).Some? {
        assert events[0] == Place(name, events[0].file, events[0].role);
      }
    }
  }

  /** What `result` holds: the old names, and for each placement its name with the last role. */
  ghost predicate Holds(result: Entries, inv: Entries, events: seq<Event>) {
    && (forall name :: name in inv ==> name in result && result[name].0 == inv[name].0)
    && (forall e :: e in events && e.Place? ==> e.name in result && result[e.name].0 == e.file)
    && (forall name :: name in result ==>
          match Placed(events, name)
          case Some(v) => result[name] == v
          case None => name in inv && result[name] == inv[name])
  }

  lemma InHeadOrTail(events: seq<Event>)
    requires events != []
    ensures events[0] in events
    ensures forall e :: e in events <==> e == events[0] || e in events[1..]
  {
    assert events == [events[0]] + events[1..];
  }

  lemma {:induction false} RunHolds(w: World, events: seq<Event>, inv: Entries)
    requires Run(w, events, inv).Ok?
    ensures Holds(Run(w, events, inv).value, inv, events)
    ensures (forall e :: e in events ==> Addable(w, e)) && Compatible(events, inv)
  {
    if events != [] {
      var next := Apply(w, events[0], inv).value;
      RunHolds(w, events[1..], next);
      InHeadOrTail(events);
      forall name | name in inv ensures name in next && next[name].0 == inv[name].0 { }
      var e := events[0];
      assert e.name in next && next[e.name].0 == e.file;
    }
  }

  /** Only a stop can keep addable and compatible files out. */
  lemma {:induction false} RunSucceeds(w: World, events: seq<Event>, inv: Entries, failure: Failure)
    requires Compatible(events, inv)
    requires forall e :: e in events ==> Addable(w, e) || e == Stop(failure)
    ensures Run(w, events, inv).Ok? <==> Stop(failure) !in events
    ensures Run(w, events, inv).Err? ==> Run(w, events, inv).error == failure
  {
    if events != [] {
      InHeadOrTail(events);
      if events[0].Place? {
        var next := Apply(w, events[0], inv).value;
        forall e | e in events[1..] && e.Place? && e.name in next ensures next[e.name].0 == e.file { }
        RunSucceeds(w, events[1..], next, failure);
      }
    }
  }

  lemma {:induction false} RunFails(w: World, events: seq<Event>, inv: Entries)
    requires Run(w, events, inv).Err?
    ensures var f := Run(w, events, inv).error;
            f in {UnsafeName, MissingFile, DuplicateDestination} || Stop(f) in events
  {
    InHeadOrTail(events);
    var next := Apply(w, events[0], inv);
    if next.Ok? { RunFails(w, events[1..], next.value); }
  }

  // ---------------------------------------------------------------- the files of one index

  function Evaluation(prefix: Name, row: Row): Name { prefix + ["evaluations", row.id] }

  function Supplied(prefix: Name, row: Row): Name { Evaluation(prefix, row) + ["supplied"] }

  function HeadEvents(w: World, x: Index, prefix: Name): seq<Event> {
    (if x.checkpoint != w.checkpoint then [Stop(WrongCheckpoint)] else [])
    + [Place(prefix + ["run-manifest.json"], x.manifest, RunManifest),
       Place(prefix + ["suite", x.suite.base], x.suite, EvaluationSuite)]
  }

  function MemberFile(directory: Name, member: Name): File
    requires member != []
  {
    File(directory + member[..|member| - 1], member[|member| - 1])
  }

  function MemberEvent(base: Name, directory: Name, member: Name): Event {
    if member == [] then Stop(UnsafeInput)
    else Place(base + ["source"] + member, MemberFile(directory, member), SurfaceBundle)
  }

  function MemberEvents(base: Name, directory: Name, members: seq<Name>): seq<Event> {
    if members == [] then []
    else [MemberEvent(base, directory, members[0])] + MemberEvents(base, directory, members[1..])
  }

  function SourceEvents(row: Row, prefix: Name): seq<Event> {
    var base := Evaluation(prefix, row);
    if row.source.None? || (row.kind == SurfaceReview && row.status == SkippedReview) then []
    else match row.source.value
      case UnsafeDirectory => [Stop(UnsafeInput)]
      case Directory(members, directory) =>
        MemberEvents(base, directory, members)
      case Single(file) => [Place(base + ["source", file.base], file, EvaluationSource)]
  }

  predicate Ends(row: Row) { row.status != Completed || row.kind == SurfaceReview }

  predicate Refers(row: Row) { !Ends(row) && row.kind == EvidenceReference }

  function ResultEvents(w: World, row: Row, prefix: Name): seq<Event> {
    if Ends(row) then []
    else if !Refers(row) then
      [Place(Evaluation(prefix, row) + ["result", row.path.base], row.path, EvaluationResult)]
    else if row.path !in w.store then [Stop(Unverified)]
    else [Place(Supplied(prefix, row) + ["index", row.path.base], row.path, IndexDependency)]
  }

  // ---------------------------------------------------------------- the closure

  function Identities(w: World): set<string> { set f | f in w.store :: w.store[f].identity }

  ghost predicate Known(w: World, x: Index) { x in w.store.Values }

  /** What is done for `x` and everything it refers to, as if nothing stopped it but a cycle. */
  ghost function Events(w: World, x: Index, prefix: Name, ancestors: set<string>): seq<Event>
    requires Known(w, x)
    decreases Identities(w) - ancestors, 0
  {
    if x.identity in ancestors then [Stop(Cycle)]
    else
      HeadEvents(w, x, prefix) + RowsEvents(w, x.rows, prefix, ancestors + {x.identity})
      + (if x.ragged then [Stop(RowsDiffer)] else [])
  }

  ghost function RowsEvents(w: World, rows: seq<Row>, prefix: Name, ancestors: set<string>)
    : seq<Event>
    decreases Identities(w) - ancestors, |rows| + 2
  {
    if rows == [] then []
    else
      RowEvents(w, rows[0], prefix, ancestors) + RowsEvents(w, rows[1..], prefix, ancestors)
  }

  ghost function RowEvents(w: World, row: Row, prefix: Name, ancestors: set<string>): seq<Event>
    decreases Identities(w) - ancestors, 1
  {
    SourceEvents(row, prefix) + ResultEvents(w, row, prefix)
    + (if Refers(row) && row.path in w.store
       then Events(w, w.store[row.path], Supplied(prefix, row), ancestors)
       else [])
  }

  // ---------------------------------------------------------------- the walk

  class Inventory {
    var entries: Entries

    constructor ()
      ensures entries == map[]
    {
      entries := map[];
    }

    method Add(w: World, name: Name, file: File, role: Role) returns (failure: Option<Failure>)
      modifies this
      ensures match Apply(w, Place(name, file, role), old(entries))
              case Ok(after) => failure == None && entries == after
              case Err(e) => failure == Some(e) && entries == old(entries)
    {
      if !SafeName(name) { return Some(UnsafeName); }
      if file !in w.regular { return Some(MissingFile); }
      if name in entries && entries[name].0 != file { return Some(DuplicateDestination); }
      entries := entries[name := (file, role)];
      failure := None;
    }

    /** `events` turned the entries `before` into what they are now, or failed. */
    ghost predicate Ran(w: World, events: seq<Event>, before: Entries, failure: Option<Failure>)
      reads this
    {
      match Run(w, events, before)
      case Ok(after) => failure == None && entries == after
      case Err(e) => failure == Some(e)
    }

    method AddHead(w: World, x: Index, prefix: Name) returns (failure: Option<Failure>)
      modifies this
      ensures Ran(w, HeadEvents(w, x, prefix), old(entries), failure)
    {
      if x.checkpoint != w.checkpoint { return Some(WrongCheckpoint); }
      ghost var m := Place(prefix + ["run-manifest.json"], x.manifest, RunManifest);
      ghost var s := Place(prefix + ["suite", x.suite.base], x.suite, EvaluationSuite);
      assert HeadEvents(w, x, prefix) == [m] + [s];
      RunAppend(w, [m], [s], entries);
      failure := Add(w, prefix + ["run-manifest.json"], x.manifest, RunManifest);
      if failure.Some? { return; }
      failure := Add(w, prefix + ["suite", x.suite.base], x.suite, EvaluationSuite);
    }

    method AddMembers(w: World, base: Name, members: seq<Name>, directory: Name)
      returns (failure: Option<Failure>)
      modifies this
      ensures Ran(w, MemberEvents(base, directory, members), old(entries), failure)
    {
      for i := 0 to |members|
        invariant Run(w, MemberEvents(base, directory, members), old(entries))
               == Run(w, MemberEvents(base, directory, members[i..]), entries)
      {
        var member := members[i];
        if member == [] { return Some(UnsafeInput); }
        failure := Add(w, base + ["source"] + member, MemberFile(directory, member), SurfaceBundle);
        if failure.Some? { return; }
      }
      failure := None;
    }

    method AddSource(w: World, row: Row, prefix: Name) returns (failure: Option<Failure>)
      modifies this
      ensures Ran(w, SourceEvents(row, prefix), old(entries), failure)
    {
      if row.source.None? || (row.kind == SurfaceReview && row.status == SkippedReview) {
        return None;
      }
      var base := Evaluation(prefix, row);
      match row.source.value {
        case UnsafeDirectory => return Some(UnsafeInput);
        case Single(file) => failure := Add(w, base + ["source", file.base], file, EvaluationSource);
        case Directory(members, directory) => failure := AddMembers(w, base, members, directory);
      }
    }

    method AddResult(w: World, row: Row, prefix: Name) returns (failure: Option<Failure>)
      modifies this
      ensures Ran(w, ResultEvents(w, row, prefix), old(entries), failure)
    {
      if row.status != Completed || row.kind == SurfaceReview { return None; }
      var base := Evaluation(prefix, row);
      if row.kind == EvidenceReference {
        if row.path !in w.store { return Some(Unverified); }
        failure := Add(w, base + ["supplied"] + ["index", row.path.base], row.path, IndexDependency);
      } else {
        failure := Add(w, base + ["result", row.path.base], row.path, EvaluationResult);
      }
    }

    method AddRow(w: World, row: Row, prefix: Name, ancestors: set<string>)
      returns (failure: Option<Failure>)
      modifies this
      ensures Ran(w, RowEvents(w, row, prefix, ancestors), old(entries), failure)
      decreases Identities(w) - ancestors, 1
    {
      ghost var own := SourceEvents(row, prefix) + ResultEvents(w, row, prefix);
      RunAppend(w, SourceEvents(row, prefix), ResultEvents(w, row, prefix), entries);
      RunAppend(w, own, RowEvents(w, row, prefix, ancestors)[|own|..], entries);
      assert own + RowEvents(w, row, prefix, ancestors)[|own|..] == RowEvents(w, row, prefix, ancestors);
      failure := AddSource(w, row, prefix);
      if failure.Some? { return; }
      failure := AddResult(w, row, prefix);
      if failure.Some? { return; }
      if row.status == Completed && row.kind == EvidenceReference {
        failure := IndexDependencies(w, Supplied(prefix, row), w.store[row.path], ancestors);
      }
    }

    method IndexDependencies(w: World, prefix: Name, x: Index, ancestors: set<string>)
      returns (failure: Option<Failure>)
      requires Known(w, x)
      modifies this
      ensures Ran(w, Events(w, x, prefix, ancestors), old(entries), failure)
      decreases Identities(w) - ancestors, 0
    {
      if x.identity in ancestors { return Some(Cycle); }
      var below := ancestors + {x.identity};
      ghost var tail := if x.ragged then [Stop(RowsDiffer)] else [];
      ghost var rest := RowsEvents(w, x.rows, prefix, below) + tail;
      RunAppend(w, HeadEvents(w, x, prefix), rest, entries);
      assert Events(w, x, prefix, ancestors) == HeadEvents(w, x, prefix) + rest;
      failure := AddHead(w, x, prefix);
      if failure.Some? { return; }
      for i := 0 to |x.rows|
        invariant Run(w, Events(w, x, prefix, ancestors), old(entries))
               == Run(w, RowsEvents(w, x.rows[i..], prefix, below) + tail, entries)
      {
        SplitRow(w, x.rows, i, prefix, below, tail, entries);
        failure := AddRow(w, x.rows[i], prefix, below);
        if failure.Some? { return; }
      }
      if x.ragged { return Some(RowsDiffer); }
      failure := None;
    }
  }

  lemma SplitRow(w: World, rows: seq<Row>, i: nat, prefix: Name, ancestors: set<string>,
                 tail: seq<Event>, inv: Entries)
    requires i < |rows|
    ensures Run(w, RowsEvents(w, rows[i..], prefix, ancestors) + tail, inv)
         == match Run(w, RowEvents(w, rows[i], prefix, ancestors), inv)
            case Err(failure) => Err(failure)
            case Ok(before) => Run(w, RowsEvents(w, rows[i + 1..], prefix, ancestors) + tail, before)
  {
    var row := RowEvents(w, rows[i], prefix, ancestors);
    var rest := RowsEvents(w, rows[i + 1..], prefix, ancestors);
    assert rows[i..][1..] == rows[i + 1..];
    assert (row + rest) + tail == row + (rest + tail);
    RunAppend(w, row, rest + tail, inv);
  }

  // ---------------------------------------------------------------- ways through the references

  /** Row `i` of `x` refers to an index that verifies. */
  predicate Edge(w: World, x: Index, i: nat) {
    i < |x.rows| && Refers(x.rows[i]) && x.rows[i].path in w.store
  }

  function Child(w: World, x: Index, i: nat): Index
    requires Edge(w, x, i)
  {
    w.store[x.rows[i].path]
  }

  /** The index at the end of `path`, and the name under which it gets there. */
  function Reach(w: World, x: Index, prefix: Name, path: seq<nat>): Option<(Index, Name)>
    decreases |path|
  {
    if path == [] then Some((x, prefix))
    else if Edge(w, x, path[0])
    then Reach(w, Child(w, x, path[0]), Supplied(prefix, x.rows[path[0]]), path[1..])
    else None
  }

  /** `path` exists and comes through no identity twice, nor through an ancestor. */
  ghost predicate Simple(w: World, x: Index, path: seq<nat>, ancestors: set<string>)
    decreases |path|
  {
    && x.identity !in ancestors
    && (path != [] ==>
          Edge(w, x, path[0])
          && Simple(w, Child(w, x, path[0]), path[1..], ancestors + {x.identity}))
  }

  /** `path` exists, and its end is the first identity it comes through again. */
  ghost predicate Loops(w: World, x: Index, path: seq<nat>, ancestors: set<string>)
    decreases |path|
  {
    if path == [] then x.identity in ancestors
    else
      && x.identity !in ancestors && Edge(w, x, path[0])
      && Loops(w, Child(w, x, path[0]), path[1..], ancestors + {x.identity})
  }

  /** What an index itself asks for under `prefix`. */
  ghost predicate Own(w: World, x: Index, prefix: Name, e: Event) {
    || e in HeadEvents(w, x, prefix)
    || (x.ragged && e == Stop(RowsDiffer))
    || (exists i :: 0 <= i < |x.rows| && OwnRow(w, x.rows[i], prefix, e))
  }

  ghost predicate OwnRow(w: World, row: Row, prefix: Name, e: Event) {
    e in SourceEvents(row, prefix) || e in ResultEvents(w, row, prefix)
  }

  lemma {:induction false} OwnIsNoCycle(base: Name, directory: Name, members: seq<Name>)
    ensures Stop(Cycle) !in MemberEvents(base, directory, members)
  {
    if members != [] { OwnIsNoCycle(base, directory, members[1..]); }
  }

  lemma OwnRowIsNoCycle(w: World, row: Row, prefix: Name)
    ensures !OwnRow(w, row, prefix, Stop(Cycle))
  {
    if row.source.Some? && row.source.value.Directory? {
      OwnIsNoCycle(Evaluation(prefix, row), row.source.value.directory, row.source.value.members);
    }
  }

  lemma {:induction false} InRows(w: World, rows: seq<Row>, prefix: Name, ancestors: set<string>,
                                  e: Event)
    ensures e in RowsEvents(w, rows, prefix, ancestors)
       <==> exists i :: 0 <= i < |rows| && e in RowEvents(w, rows[i], prefix, ancestors)
  {
    if rows != [] {
      InRows(w, rows[1..], prefix, ancestors, e);
      assert forall i :: 1 <= i < |rows| ==> rows[i] == rows[1..][i - 1];
      assert forall i :: 0 <= i < |rows[1..]| ==> rows[1..][i] == rows[i + 1];
    }
  }

  /** The event is one of the index that row `i` refers to. */
  ghost predicate InChild(w: World, x: Index, i: nat, prefix: Name, below: set<string>, e: Event) {
    Edge(w, x, i) && e in Events(w, Child(w, x, i), Supplied(prefix, x.rows[i]), below)
  }

  /** An event is the index's own or of an index a row refers to. */
  lemma InEvents(w: World, x: Index, prefix: Name, ancestors: set<string>, e: Event)
    requires Known(w, x) && x.identity !in ancestors
    ensures e in Events(w, x, prefix, ancestors)
       <==> Own(w, x, prefix, e)
            || (exists i: nat :: InChild(w, x, i, prefix, ancestors + {x.identity}, e))
  {
    var below := ancestors + {x.identity};
    InRows(w, x.rows, prefix, below, e);
    forall i: nat | i < |x.rows|
      ensures e in RowEvents(w, x.rows[i], prefix, below)
         <==> OwnRow(w, x.rows[i], prefix, e) || InChild(w, x, i, prefix, below, e)
    {
    }
    var head := HeadEvents(w, x, prefix);
    assert e in Events(w, x, prefix, ancestors)
      <==> e in head || e in RowsEvents(w, x.rows, prefix, below) || (x.ragged && e == Stop(RowsDiffer));
  }

  lemma OwnIsNotCycle(w: World, x: Index, prefix: Name)
    ensures !Own(w, x, prefix, Stop(Cycle))
  {
    forall i | 0 <= i < |x.rows| ensures !OwnRow(w, x.rows[i], prefix, Stop(Cycle)) {
      OwnRowIsNoCycle(w, x.rows[i], prefix);
    }
  }

  /** A cycle is met exactly where some path returns to an identity it came through. */
  lemma {:induction false} CycleMet(w: World, x: Index, prefix: Name, ancestors: set<string>)
    returns (path: seq<nat>)
    requires Known(w, x) && Stop(Cycle) in Events(w, x, prefix, ancestors)
    ensures Loops(w, x, path, ancestors)
    decreases Identities(w) - ancestors
  {
    path := [];
    if x.identity !in ancestors {
      InEvents(w, x, prefix, ancestors, Stop(Cycle));
      OwnIsNotCycle(w, x, prefix);
      var below := ancestors + {x.identity};
      var i: nat :| InChild(w, x, i, prefix, below, Stop(Cycle));
      var more := CycleMet(w, Child(w, x, i), Supplied(prefix, x.rows[i]), below);
      path := [i] + more;
      assert path[1..] == more;
    }
  }

  lemma {:induction false} LoopIsMet(w: World, x: Index, prefix: Name, ancestors: set<string>,
                                     path: seq<nat>)
    requires Known(w, x) && Loops(w, x, path, ancestors)
    ensures Stop(Cycle) in Events(w, x, prefix, ancestors)
    decreases |path|
  {
    if path != [] {
      var below := ancestors + {x.identity};
      LoopIsMet(w, Child(w, x, path[0]), Supplied(prefix, x.rows[path[0]]), below, path[1..]);
      assert InChild(w, x, path[0], prefix, below, Stop(Cycle));
      InEvents(w, x, prefix, ancestors, Stop(Cycle));
    }
  }

  /** Any other event comes from an index that a simple path reaches. */
  lemma {:induction false} EventOrigin(w: World, x: Index, prefix: Name, ancestors: set<string>,
                                       e: Event)
    returns (path: seq<nat>)
    requires Known(w, x) && e in Events(w, x, prefix, ancestors) && e != Stop(Cycle)
    ensures Simple(w, x, path, ancestors) && Reach(w, x, prefix, path).Some?
    ensures var (y, q) := Reach(w, x, prefix, path).value; Own(w, y, q, e)
    decreases Identities(w) - ancestors
  {
    InEvents(w, x, prefix, ancestors, e);
    path := [];
    if !Own(w, x, prefix, e) {
      var below := ancestors + {x.identity};
      var i: nat :| InChild(w, x, i, prefix, below, e);
      var more := EventOrigin(w, Child(w, x, i), Supplied(prefix, x.rows[i]), below, e);
      path := [i] + more;
      assert path[1..] == more;
    }
  }

  lemma {:induction false} OriginEvent(w: World, x: Index, prefix: Name, ancestors: set<string>,
                                       path: seq<nat>, e: Event)
    requires Known(w, x) && Simple(w, x, path, ancestors) && Reach(w, x, prefix, path).Some?
    requires var (y, q) := Reach(w, x, prefix, path).value; Own(w, y, q, e)
    ensures e in Events(w, x, prefix, ancestors)
    decreases |path|
  {
    if path != [] {
      var below := ancestors + {x.identity};
      OriginEvent(w, Child(w, x, path[0]), Supplied(prefix, x.rows[path[0]]), below, path[1..], e);
      assert InChild(w, x, path[0], prefix, below, e);
    }
    InEvents(w, x, prefix, ancestors, e);
  }

  // ---------------------------------------------------------------- cycles as such

  function IdentityAt(w: World, x: Index, path: seq<nat>): Option<string> {
    match Reach(w, x, [], path)
    case Some((y, _)) => Some(y.identity)
    case None => None
  }

  /** The identity at the end of `path` is also that of the index at position `k` on the way. */
  ghost predicate Returns(w: World, x: Index, path: seq<nat>, k: nat) {
    k < |path| && IdentityAt(w, x, path).Some? && IdentityAt(w, x, path[..k]) == IdentityAt(w, x, path)
  }

  ghost predicate Cyclic(w: World, x: Index) { exists path, k :: Returns(w, x, path, k) }

  /** Names do not matter to where a path leads. */
  lemma {:induction false} ReachAnyPrefix(w: World, x: Index, p: Name, q: Name, path: seq<nat>)
    ensures Reach(w, x, p, path).Some? <==> Reach(w, x, q, path).Some?
    ensures Reach(w, x, p, path).Some? ==>
              Reach(w, x, p, path).value.0 == Reach(w, x, q, path).value.0
    decreases |path|
  {
    if path != [] && Edge(w, x, path[0]) {
      var row := x.rows[path[0]];
      ReachAnyPrefix(w, Child(w, x, path[0]), Supplied(p, row), Supplied(q, row), path[1..]);
    }
  }

  lemma IdentityBelow(w: World, x: Index, path: seq<nat>)
    requires path != [] && Edge(w, x, path[0])
    ensures IdentityAt(w, x, path) == IdentityAt(w, Child(w, x, path[0]), path[1..])
  {
    ReachAnyPrefix(w, Child(w, x, path[0]), Supplied([], x.rows[path[0]]), [], path[1..]);
  }

  /** The identity at the end of a loop is an ancestor or stands earlier on the path. */
  lemma {:induction false} LoopReturns(w: World, x: Index, path: seq<nat>, ancestors: set<string>)
    requires Loops(w, x, path, ancestors)
    ensures IdentityAt(w, x, path).Some?
    ensures IdentityAt(w, x, path).value in ancestors || exists k: nat :: Returns(w, x, path, k)
    decreases |path|
  {
    if path != [] {
      var y := Child(w, x, path[0]);
      IdentityBelow(w, x, path);
      LoopReturns(w, y, path[1..], ancestors + {x.identity});
      if IdentityAt(w, x, path).value == x.identity {
        assert Returns(w, x, path, 0);
      } else if k: nat :| Returns(w, y, path[1..], k) {
        assert path[..k + 1][1..] == path[1..][..k];
        IdentityBelow(w, x, path[..k + 1]);
        assert Returns(w, x, path, k + 1);
      }
    }
  }

  /** Without loops every path is simple. */
  lemma {:induction false} PathIsSimple(w: World, x: Index, prefix: Name, path: seq<nat>,
                                        ancestors: set<string>)
    requires Reach(w, x, prefix, path).Some?
    requires forall loop :: !Loops(w, x, loop, ancestors)
    ensures Simple(w, x, path, ancestors)
    decreases |path|
  {
    assert !Loops(w, x, [], ancestors);
    if path != [] {
      var y := Child(w, x, path[0]);
      forall loop ensures !Loops(w, y, loop, ancestors + {x.identity}) {
        assert ([path[0]] + loop)[1..] == loop;
        assert !Loops(w, x, [path[0]] + loop, ancestors);
      }
      PathIsSimple(w, y, Supplied(prefix, x.rows[path[0]]), path[1..], ancestors + {x.identity});
    }
  }

  /** A simple path ends at an identity that is new. */
  lemma {:induction false} SimpleIsNew(w: World, x: Index, path: seq<nat>, ancestors: set<string>)
    requires Simple(w, x, path, ancestors)
    ensures IdentityAt(w, x, path).Some? && IdentityAt(w, x, path).value !in ancestors
    decreases |path|
  {
    if path != [] {
      IdentityBelow(w, x, path);
      SimpleIsNew(w, Child(w, x, path[0]), path[1..], ancestors + {x.identity});
    }
  }

  lemma {:induction false} SimpleDoesNotReturn(w: World, x: Index, path: seq<nat>, k: nat,
                                               ancestors: set<string>)
    requires Simple(w, x, path, ancestors) && k < |path|
    ensures !Returns(w, x, path, k)
    decreases |path|
  {
    var y := Child(w, x, path[0]);
    IdentityBelow(w, x, path);
    SimpleIsNew(w, y, path[1..], ancestors + {x.identity});
    if k > 0 {
      SimpleDoesNotReturn(w, y, path[1..], k - 1, ancestors + {x.identity});
      assert path[..k][1..] == path[1..][..k - 1];
      IdentityBelow(w, x, path[..k]);
    }
  }

  /** The walk meets a cycle exactly when some path from the root repeats an identity. */
  lemma CycleMetExactly(w: World, x: Index, prefix: Name)
    requires Known(w, x)
    ensures Stop(Cycle) in Events(w, x, prefix, {}) <==> Cyclic(w, x)
  {
    if Stop(Cycle) in Events(w, x, prefix, {}) {
      var path := CycleMet(w, x, prefix, {});
      LoopReturns(w, x, path, {});
    }
    if path, k :| Returns(w, x, path, k) {
      if loop :| Loops(w, x, loop, {}) {
        LoopIsMet(w, x, prefix, {}, loop);
      } else {
        ReachAnyPrefix(w, x, [], prefix, path);
        PathIsSimple(w, x, prefix, path, {});
        SimpleDoesNotReturn(w, x, path, k, {});
      }
    }
  }

  // ---------------------------------------------------------------- what the archive gets

  /** `e` belongs to an index that some path reaches, under that path's name. */
  ghost predicate Due(w: World, x: Index, prefix: Name, e: Event) {
    exists path :: DueAt(w, x, prefix, path, e)
  }

  ghost predicate DueAt(w: World, x: Index, prefix: Name, path: seq<nat>, e: Event) {
    match Reach(w, x, prefix, path)
    case Some((y, q)) => Own(w, y, q, e)
    case None => false
  }

  /** Off cycles, what is done is what is due. */
  lemma EventsAreDue(w: World, x: Index, prefix: Name, e: Event)
    requires Known(w, x) && !Cyclic(w, x)
    ensures e in Events(w, x, prefix, {}) <==> Due(w, x, prefix, e)
  {
    CycleMetExactly(w, x, prefix);
    if e in Events(w, x, prefix, {}) {
      var path := EventOrigin(w, x, prefix, {}, e);
      assert DueAt(w, x, prefix, path, e);
    }
    if path :| DueAt(w, x, prefix, path, e) {
      forall loop ensures !Loops(w, x, loop, {}) {
        if Loops(w, x, loop, {}) { LoopIsMet(w, x, prefix, {}, loop); }
      }
      PathIsSimple(w, x, prefix, path, {});
      OriginEvent(w, x, prefix, {}, path, e);
    }
  }

  ghost predicate DueFilesAgree(w: World, x: Index, prefix: Name, inv: Entries) {
    && (forall e :: Due(w, x, prefix, e) && e.Place? && e.name in inv ==> inv[e.name].0 == e.file)
    && (forall d, e | Due(w, x, prefix, d) && Due(w, x, prefix, e) ::
          d.Place? && e.Place? && d.name == e.name ==> d.file == e.file)
  }

  /** Something due gives `name` this file and role. */
  ghost predicate GivenBy(w: World, x: Index, prefix: Name, name: Name, entry: (File, Role)) {
    Due(w, x, prefix, Place(name, entry.0, entry.1))
  }

  /** What the inventory holds once all that is due has been added to `inv`. */
  ghost predicate Complete(w: World, x: Index, prefix: Name, inv: Entries, result: Entries) {
    && (forall name :: name in inv ==> name in result && result[name].0 == inv[name].0)
    && (forall e :: Due(w, x, prefix, e) && e.Place? ==>
          e.name in result && result[e.name].0 == e.file)
    && (forall name :: name in result ==>
          GivenBy(w, x, prefix, name, result[name])
          || (name in inv && result[name] == inv[name]
              && forall e :: Due(w, x, prefix, e) && e.Place? ==> e.name != name))
  }

  /**
    Succeeds exactly if no path repeats an identity, every file due is safe to add and no two claim
    one name; and then every index on every path has its files under that path's name.
   */
  lemma ClosureIsExact(w: World, x: Index, prefix: Name, inv: Entries)
    requires Known(w, x)
    ensures Run(w, Events(w, x, prefix, {}), inv).Ok? <==>
            (!Cyclic(w, x) && (forall e :: Due(w, x, prefix, e) ==> Addable(w, e))
             && DueFilesAgree(w, x, prefix, inv))
    ensures Run(w, Events(w, x, prefix, {}), inv).Ok? ==>
              Complete(w, x, prefix, inv, Run(w, Events(w, x, prefix, {}), inv).value)
  {
    var events := Events(w, x, prefix, {});
    CycleMetExactly(w, x, prefix);
    if Run(w, events, inv).Ok? {
      RunHolds(w, events, inv);
      assert !Addable(w, Stop(Cycle));
    }
    if !Cyclic(w, x) {
      forall e ensures e in events <==> Due(w, x, prefix, e) { EventsAreDue(w, x, prefix, e); }
      forall name | Run(w, events, inv).Ok? && name in Run(w, events, inv).value
        ensures var entry := Run(w, events, inv).value[name];
                GivenBy(w, x, prefix, name, entry)
                || (name in inv && entry == inv[name]
                    && forall e :: Due(w, x, prefix, e) && e.Place? ==> e.name != name)
      {
        PlacedIs(events, name);
      }
      if (forall e :: Due(w, x, prefix, e) ==> Addable(w, e)) && DueFilesAgree(w, x, prefix, inv) {
        RunSucceeds(w, events, inv, Cycle);
      }
    }
  }

  /** A cycle is reported only where there is one, and always unless something else fails. */
  lemma CycleIsReported(w: World, x: Index, prefix: Name, inv: Entries)
    requires Known(w, x)
    ensures Run(w, Events(w, x, prefix, {}), inv) == Err(Cycle) ==> Cyclic(w, x)
    ensures Cyclic(w, x) ==> Run(w, Events(w, x, prefix, {}), inv).Err?
    ensures Cyclic(w, x) && Compatible(Events(w, x, prefix, {}), inv)
            && (forall e :: e in Events(w, x, prefix, {}) ==> Addable(w, e) || e == Stop(Cycle)) ==>
              Run(w, Events(w, x, prefix, {}), inv) == Err(Cycle)
  {
    var events := Events(w, x, prefix, {});
    CycleMetExactly(w, x, prefix);
    if Run(w, events, inv).Ok? { RunHolds(w, events, inv); } else { RunFails(w, events, inv); }
    if Compatible(events, inv) && forall e :: e in events ==> Addable(w, e) || e == Stop(Cycle) {
      RunSucceeds(w, events, inv, Cycle);
    }
  }
}

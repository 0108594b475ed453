/**
 * The lockfile reachability walk: a worklist over specifiers of a possibly
 * cyclic dependency graph, and the least closed set it computes.
 */
module DenoLock {
  import opened Strings

  datatype Kind = Jsr | Npm

  datatype Package = Package(name: string, version: string)

  /** One row of a lock table: its id and the string entries of its dependency list. */
  datatype Row = Row(id: string, dependencies: seq<string>)

  /** The two package tables and the specifier map, in key order. */
  datatype Lockfile = Lockfile(jsr: seq<Row>, npm: seq<Row>, specifiers: seq<(string, string)>)

  datatype Hit = Hit(kind: Kind, package: Package, dependencies: seq<string>)

  // ---------------------------------------------------------------- specifiers and ids

  /** `s.indexOf(c, from)`, `None` for -1. */
  function IndexOfChar(s: string, c: char, from: nat): (r: Option<nat>)
    ensures r.Some? ==> from <= r.value < |s| && s[r.value] == c
    decreases |s| - from
  {
    if from >= |s| then None else if s[from] == c then Some(from) else IndexOfChar(s, c, from + 1)
  }

  function DropPrefix(s: string, prefix: string): string {
    if prefix <= s then s[|prefix|..] else s
  }

  predicate IsBlank(c: char) {
    c == ' ' || '\t' <= c <= '\r'
  }

  function TrimBlanks(s: string): string {
    if s != "" && IsBlank(s[0]) then TrimBlanks(s[1..])
    else if s != "" && IsBlank(s[|s| - 1]) then TrimBlanks(s[..|s| - 1])
    else s
  }

  /** `parseDenoLockId`: scoped names keep their leading `@`; npm versions lose their peer suffix. */
  function ParseId(kind: Kind, id: string): Option<Package> {
    var nameEnd := IndexOfChar(id, '@', if "@" <= id then 1 else 0);
    if nameEnd.None? || nameEnd.value == 0 then None
    else
      var name, full := id[..nameEnd.value], TrimBlanks(id[nameEnd.value + 1..]);
      var peer := IndexOfChar(full, '_', 0);
      var version := if kind == Npm && peer.Some? then full[..peer.value] else full;
      if version == "" then None else Some(Package(name, version))
  }

  /** `noticePackageKey`. */
  function PackageKey(p: Package): string {
    p.name + "@" + p.version
  }

  /** `nameFromJsrNpmSpec`. */
  function SpecName(spec: string): string {
    var rest := DropPrefix(DropPrefix(spec, "jsr:"), "npm:");
    match IndexOfChar(rest, '@', if "@" <= rest then 1 else 0)
    case None => rest
    case Some(at) => rest[..at]
  }

  function TableOf(lock: Lockfile, kind: Kind): seq<Row> {
    if kind == Jsr then lock.jsr else lock.npm
  }

  function FindRow(rows: seq<Row>, id: string): Option<Row> {
    if rows == [] then None else if rows[0].id == id then Some(rows[0]) else FindRow(rows[1..], id)
  }

  function FindParsed(rows: seq<Row>, kind: Kind, p: Package): Option<Row> {
    if rows == [] then None
    else if ParseId(kind, rows[0].id) == Some(p) then Some(rows[0])
    else FindParsed(rows[1..], kind, p)
  }

  /** `denoLockHit`: the row under the package key, else the first row that parses to the package. */
  function LookUp(lock: Lockfile, kind: Kind, p: Package): Option<Hit> {
    var direct := FindRow(TableOf(lock, kind), PackageKey(p));
    var row := if direct.Some? then direct else FindParsed(TableOf(lock, kind), kind, p);
    match row
    case None => None
    case Some(r) => Some(Hit(kind, p, r.dependencies))
  }

  /** `findDenoLockByName`. */
  function ByName(rows: seq<Row>, kind: Kind, name: string): seq<Hit> {
    if rows == [] || name == "" then []
    else
      var p := ParseId(kind, rows[0].id);
      (if p.Some? && p.value.name == name then [Hit(kind, p.value, rows[0].dependencies)] else [])
        + ByName(rows[1..], kind, name)
  }

  function SpecifierAt(specifiers: seq<(string, string)>, spec: string): Option<string> {
    if specifiers == [] then None
    else if specifiers[0].0 == spec then Some(specifiers[0].1)
    else SpecifierAt(specifiers[1..], spec)
  }

  function SpecifierLike(specifiers: seq<(string, string)>, spec: string): Option<string> {
    if specifiers == [] then None
    else
      var key := specifiers[0].0;
      if key == spec || spec + "@" <= key || spec + "/" <= key then Some(specifiers[0].1)
      else SpecifierLike(specifiers[1..], spec)
  }

  /** `specifierValue`: an exact entry that is not empty, else the first that extends the specifier. */
  function SpecifierValue(lock: Lockfile, spec: string): Option<string> {
    var exact := SpecifierAt(lock.specifiers, spec);
    if exact.Some? && exact.value != "" then exact else SpecifierLike(lock.specifiers, spec)
  }

  function ParsedFromSpecifier(kind: Kind, spec: string, resolved: string): Option<Package> {
    var stripped := DropPrefix(DropPrefix(resolved, "jsr:"), "npm:");
    if '@' in stripped then ParseId(kind, stripped)
    else if SpecName(spec) == "" then None
    else Some(Package(SpecName(spec), stripped))
  }

  function ResolvePrefixed(lock: Lockfile, spec: string): seq<Hit> {
    var kind := if "jsr:" <= spec then Jsr else Npm;
    var resolved := SpecifierValue(lock, spec);
    var parsed := if resolved.Some? && resolved.value != "" then ParsedFromSpecifier(kind, spec, resolved.value)
      else None;
    var hit := if parsed.Some? then LookUp(lock, kind, parsed.value) else None;
    if hit.Some? then [hit.value] else ByName(TableOf(lock, kind), kind, SpecName(spec))
  }

  function ResolveBare(lock: Lockfile, spec: string): Option<Hit> {
    var jsr := ParseId(Jsr, DropPrefix(spec, "jsr:"));
    var jsrHit := if jsr.Some? then LookUp(lock, Jsr, jsr.value) else None;
    if jsrHit.Some? then jsrHit
    else
      var npm := ParseId(Npm, DropPrefix(spec, "npm:"));
      if npm.Some? then LookUp(lock, Npm, npm.value) else None
  }

  /** `resolveDenoLockSpec`. */
  function Resolve(lock: Lockfile, spec: string): seq<Hit> {
    if "jsr:" <= spec || "npm:" <= spec then ResolvePrefixed(lock, spec)
    else
      var bare := if '@' in spec then ResolveBare(lock, spec) else None;
      if bare.Some? then [bare.value]
      else ByName(lock.npm, Npm, spec) + ByName(lock.jsr, Jsr, DropPrefix(spec, "jsr:"))
  }

  /** `qualifyDenoDependency`. */
  function Qualify(kind: Kind, dep: string): string {
    if "jsr:" <= dep || "npm:" <= dep || "https:" <= dep then dep
    else if kind == Jsr && "@" <= dep && ':' !in dep then "jsr:" + dep
    else dep
  }

  // ---------------------------------------------------------------- the graph

  function QualifyAll(kind: Kind, deps: seq<string>): seq<string> {
    seq(|deps|, i requires 0 <= i < |deps| => Qualify(kind, deps[i]))
  }

  function DepsOf(hits: seq<Hit>): seq<string> {
    if hits == [] then [] else QualifyAll(hits[0].kind, hits[0].dependencies) + DepsOf(hits[1..])
  }

  function KeysOf(hits: seq<Hit>): seq<string> {
    seq(|hits|, i requires 0 <= i < |hits| => PackageKey(hits[i].package))
  }

  /** Every dependency any row names. */
  function RowDeps(rows: seq<Row>, kind: Kind): seq<string> {
    if rows == [] then [] else QualifyAll(kind, rows[0].dependencies) + RowDeps(rows[1..], kind)
  }

  function AllDeps(lock: Lockfile): seq<string> {
    RowDeps(lock.jsr, Jsr) + RowDeps(lock.npm, Npm)
  }

  /** A hit whose dependencies are those of some row of its own table. */
  predicate FromTable(lock: Lockfile, h: Hit) {
    exists r :: r in TableOf(lock, h.kind) && r.dependencies == h.dependencies
  }

  lemma {:induction false} FindRowIn(rows: seq<Row>, id: string)
    ensures FindRow(rows, id).Some? ==> FindRow(rows, id).value in rows
  {
    if rows != [] { FindRowIn(rows[1..], id); }
  }

  lemma {:induction false} FindParsedIn(rows: seq<Row>, kind: Kind, p: Package)
    ensures FindParsed(rows, kind, p).Some? ==> FindParsed(rows, kind, p).value in rows
  {
    if rows != [] { FindParsedIn(rows[1..], kind, p); }
  }

  lemma LookUpFromTable(lock: Lockfile, kind: Kind, p: Package)
    ensures LookUp(lock, kind, p).Some? ==> FromTable(lock, LookUp(lock, kind, p).value)
  {
    FindRowIn(TableOf(lock, kind), PackageKey(p));
    FindParsedIn(TableOf(lock, kind), kind, p);
  }

  lemma {:induction false} ByNameFromTable(lock: Lockfile, rows: seq<Row>, kind: Kind, name: string)
    requires forall i :: 0 <= i < |rows| ==> rows[i] in TableOf(lock, kind)
    ensures forall i :: 0 <= i < |ByName(rows, kind, name)| ==> FromTable(lock, ByName(rows, kind, name)[i])
  {
    if rows != [] && name != "" {
      ByNameFromTable(lock, rows[1..], kind, name);
      assert rows[0] in TableOf(lock, kind);
    }
  }

  lemma ResolveFromTable(lock: Lockfile, spec: string)
    ensures forall i :: 0 <= i < |Resolve(lock, spec)| ==> FromTable(lock, Resolve(lock, spec)[i])
  {
    ByNameFromTable(lock, lock.jsr, Jsr, SpecName(spec));
    ByNameFromTable(lock, lock.npm, Npm, SpecName(spec));
    ByNameFromTable(lock, lock.npm, Npm, spec);
    ByNameFromTable(lock, lock.jsr, Jsr, DropPrefix(spec, "jsr:"));
    var kind := if "jsr:" <= spec then Jsr else Npm;
    var resolved := SpecifierValue(lock, spec);
    if resolved.Some? {
      var parsed := ParsedFromSpecifier(kind, spec, resolved.value);
      if parsed.Some? { LookUpFromTable(lock, kind, parsed.value); }
    }
    var jsr, npm := ParseId(Jsr, DropPrefix(spec, "jsr:")), ParseId(Npm, DropPrefix(spec, "npm:"));
    if jsr.Some? { LookUpFromTable(lock, Jsr, jsr.value); }
    if npm.Some? { LookUpFromTable(lock, Npm, npm.value); }
  }

  lemma {:induction false} RowDepsHas(rows: seq<Row>, kind: Kind, r: Row, i: nat)
    requires r in rows && i < |r.dependencies|
    ensures Qualify(kind, r.dependencies[i]) in RowDeps(rows, kind)
  {
    if rows[0] == r {
      assert QualifyAll(kind, r.dependencies)[i] == Qualify(kind, r.dependencies[i]);
    } else {
      RowDepsHas(rows[1..], kind, r, i);
    }
  }

  lemma {:induction false} DepsAreKnown(lock: Lockfile, hits: seq<Hit>, dep: string)
    requires forall i :: 0 <= i < |hits| ==> FromTable(lock, hits[i])
    requires dep in DepsOf(hits)
    ensures dep in AllDeps(lock)
  {
    var first := QualifyAll(hits[0].kind, hits[0].dependencies);
    if dep in first {
      var i :| 0 <= i < |first| && first[i] == dep;
      assert FromTable(lock, hits[0]);
      var r :| r in TableOf(lock, hits[0].kind) && r.dependencies == hits[0].dependencies;
      RowDepsHas(TableOf(lock, hits[0].kind), hits[0].kind, r, i);
    } else {
      DepsAreKnown(lock, hits[1..], dep);
    }
  }

  function Next(lock: Lockfile, spec: string): seq<string> {
    DepsOf(Resolve(lock, spec))
  }

  lemma NextIsKnown(lock: Lockfile, spec: string, dep: string)
    requires dep in Next(lock, spec)
    ensures dep in AllDeps(lock)
  {
    ResolveFromTable(lock, spec);
    DepsAreKnown(lock, Resolve(lock, spec), dep);
  }

  // ---------------------------------------------------------------- reachability

  /** What the walk sees of a lockfile: where a specifier leads, and the package keys it stands for. */
  datatype Graph = Graph(next: string -> seq<string>, keys: string -> seq<string>)

  function GraphOf(lock: Lockfile): Graph {
    Graph((spec: string) => Next(lock, spec), (spec: string) => KeysOf(Resolve(lock, spec)))
  }

  /** Reached from a root in exactly `n` dependency steps; an empty specifier is never followed. */
  ghost predicate Reaches(g: Graph, roots: seq<string>, spec: string, n: nat)
    decreases n
  {
    spec != "" &&
    if n == 0 then spec in roots
    else exists via :: Reaches(g, roots, via, n - 1) && spec in g.next(via)
  }

  ghost predicate Reachable(g: Graph, roots: seq<string>, spec: string) {
    exists n: nat :: Reaches(g, roots, spec, n)
  }

  /** The key belongs to a package that some reachable specifier resolves to. */
  ghost predicate Used(g: Graph, roots: seq<string>, key: string) {
    exists spec :: Reachable(g, roots, spec) && key in g.keys(spec)
  }

  /** A set of specifiers that holds the roots and the dependencies of its members. */
  ghost predicate Closed(g: Graph, roots: seq<string>, specs: set<string>) {
    && (forall r :: r in roots && r != "" ==> r in specs)
    && (forall s, d :: s in specs && d in g.next(s) && d != "" ==> d in specs)
  }

  lemma {:induction false} ReachesStaysInside(g: Graph, roots: seq<string>, specs: set<string>, spec: string, n: nat)
    requires Closed(g, roots, specs) && Reaches(g, roots, spec, n)
    ensures spec in specs
    decreases n
  {
    if n > 0 {
      var via :| Reaches(g, roots, via, n - 1) && spec in g.next(via);
      ReachesStaysInside(g, roots, specs, via, n - 1);
    }
  }

  /** What is reachable lies in every closed set: it is the least of them. */
  lemma ReachableIsLeast(g: Graph, roots: seq<string>, specs: set<string>, spec: string)
    requires Closed(g, roots, specs) && Reachable(g, roots, spec)
    ensures spec in specs
  {
    var n: nat :| Reaches(g, roots, spec, n);
    ReachesStaysInside(g, roots, specs, spec, n);
  }

  /** And it is closed itself. */
  lemma ReachableIsClosed(g: Graph, roots: seq<string>, specs: set<string>)
    requires forall s :: s in specs <==> Reachable(g, roots, s)
    ensures Closed(g, roots, specs)
  {
    forall r | r in roots && r != "" ensures r in specs {
      assert Reaches(g, roots, r, 0);
    }
    forall s, d | s in specs && d in g.next(s) && d != "" ensures d in specs {
      Follow(g, roots, s, d);
    }
  }

  lemma {:induction false} ReachesMonotone(g: Graph, roots: seq<string>, more: seq<string>, spec: string, n: nat)
    requires (forall r :: r in roots ==> r in more) && Reaches(g, roots, spec, n)
    ensures Reaches(g, more, spec, n)
    decreases n
  {
    if n > 0 {
      var via :| Reaches(g, roots, via, n - 1) && spec in g.next(via);
      ReachesMonotone(g, roots, more, via, n - 1);
    }
  }

  /** More roots never lose a key, so the result does not depend on the order or repetition of the roots. */
  lemma UsedMonotone(g: Graph, roots: seq<string>, more: seq<string>, key: string)
    requires (forall r :: r in roots ==> r in more) && Used(g, roots, key)
    ensures Used(g, more, key)
  {
    var spec :| Reachable(g, roots, spec) && key in g.keys(spec);
    var n: nat :| Reaches(g, roots, spec, n);
    ReachesMonotone(g, roots, more, spec, n);
  }

  // ---------------------------------------------------------------- the walk

  /** Everything seen or queued is reachable. */
  ghost predicate Grounded(g: Graph, roots: seq<string>, seen: set<string>, queue: seq<string>) {
    && (forall s :: s in seen ==> Reachable(g, roots, s))
    && (forall s :: s in queue && s != "" ==> Reachable(g, roots, s))
  }

  /** Nothing that has to be visited is forgotten. */
  ghost predicate Awaited(g: Graph, roots: seq<string>, seen: set<string>, queue: seq<string>) {
    && (forall r :: r in roots && r != "" ==> r in seen || r in queue)
    && (forall s, d :: s in seen && d in g.next(s) && d != "" ==> d in seen || d in queue)
  }

  ghost predicate Collected(g: Graph, seen: set<string>, keys: set<string>) {
    forall k :: k in keys <==> exists s :: s in seen && k in g.keys(s)
  }

  ghost predicate OnTrack(g: Graph, roots: seq<string>, known: set<string>, seen: set<string>, queue: seq<string>,
                          keys: set<string>) {
    && Grounded(g, roots, seen, queue) && Awaited(g, roots, seen, queue) && Collected(g, seen, keys)
    && (forall s :: s in queue ==> s in known)
  }

  lemma Start(g: Graph, roots: seq<string>, known: set<string>)
    requires forall s :: s in roots ==> s in known
    ensures OnTrack(g, roots, known, {}, roots, {})
  {
    forall s | s in roots && s != "" ensures Reachable(g, roots, s) {
      assert Reaches(g, roots, s, 0);
    }
  }

  lemma Follow(g: Graph, roots: seq<string>, via: string, dep: string)
    requires Reachable(g, roots, via) && dep in g.next(via) && dep != ""
    ensures Reachable(g, roots, dep)
  {
    var n: nat :| Reaches(g, roots, via, n);
    assert Reaches(g, roots, dep, n + 1);
  }

  /** Dropping an empty or repeated specifier loses nothing. */
  lemma Dropped(g: Graph, roots: seq<string>, known: set<string>, seen: set<string>, queue: seq<string>,
                keys: set<string>, spec: string)
    requires OnTrack(g, roots, known, seen, queue + [spec], keys) && (spec == "" || spec in seen)
    ensures OnTrack(g, roots, known, seen, queue, keys)
  {
    assert forall s :: s in queue ==> s in queue + [spec];
    assert forall s :: s in queue + [spec] ==> s in queue || s == spec;
  }

  /** Visiting one new specifier keeps what the loop relies on. */
  lemma Visited(g: Graph, roots: seq<string>, known: set<string>, seen: set<string>, queue: seq<string>,
                keys: set<string>, spec: string)
    requires OnTrack(g, roots, known, seen, queue + [spec], keys) && spec != ""
    requires forall d :: d in g.next(spec) ==> d in known
    ensures spec in known
    ensures OnTrack(g, roots, known, seen + {spec}, queue + g.next(spec), keys + SetOf(g.keys(spec)))
  {
    assert spec in queue + [spec];
    forall d | d in g.next(spec) && d != "" ensures Reachable(g, roots, d) {
      Follow(g, roots, spec, d);
    }
    assert forall s :: s in queue ==> s in queue + [spec];
    assert forall s :: s in queue + [spec] ==> s in queue || s == spec;
  }

  /** An empty queue: the keys collected are exactly the used ones. */
  lemma Finished(g: Graph, roots: seq<string>, known: set<string>, seen: set<string>, keys: set<string>)
    requires OnTrack(g, roots, known, seen, [], keys)
    ensures forall k :: k in keys <==> Used(g, roots, k)
  {
    assert Closed(g, roots, seen);
    forall k ensures k in keys <==> Used(g, roots, k) {
      if Used(g, roots, k) {
        var s :| Reachable(g, roots, s) && k in g.keys(s);
        ReachableIsLeast(g, roots, seen, s);
      }
    }
  }

  function SetOf(s: seq<string>): set<string> {
    set x | x in s
  }

  /** The inner loops: collect the keys of the hits and queue their dependencies. */
  method Expand(hits: seq<Hit>, keys: set<string>, queue: seq<string>) returns (keys2: set<string>, queue2: seq<string>)
    ensures keys2 == keys + SetOf(KeysOf(hits))
    ensures queue2 == queue + DepsOf(hits)
  {
    keys2, queue2 := keys, queue;
    var i := 0;
    while i < |hits|
      invariant 0 <= i <= |hits|
      invariant keys2 == keys + SetOf(KeysOf(hits[..i]))
      invariant queue2 + DepsOf(hits[i..]) == queue + DepsOf(hits)
    {
      var hit := hits[i];
      keys2 := keys2 + {PackageKey(hit.package)};
      assert KeysOf(hits[..i + 1]) == KeysOf(hits[..i]) + [PackageKey(hit.package)];
      ghost var before := queue2;
      var deps := QualifyAll(hit.kind, hit.dependencies);
      var j := 0;
      while j < |hit.dependencies|
        invariant 0 <= j <= |hit.dependencies|
        invariant queue2 == before + deps[..j]
      {
        queue2 := queue2 + [Qualify(hit.kind, hit.dependencies[j])];
        j := j + 1;
      }
      assert deps[..j] == deps;
      assert hits[i..][1..] == hits[i + 1..];
      i := i + 1;
    }
    assert hits[..i] == hits;
  }

  /** Every specifier the walk can meet. */
  function Known(lock: Lockfile, roots: seq<string>): set<string> {
    SetOf(roots) + SetOf(AllDeps(lock))
  }

  lemma NextInKnown(lock: Lockfile, roots: seq<string>, spec: string)
    ensures forall d :: d in GraphOf(lock).next(spec) ==> d in Known(lock, roots)
  {
    forall d | d in Next(lock, spec) ensures d in Known(lock, roots) {
      NextIsKnown(lock, spec, d);
    }
  }

  /** Collect the keys of a specifier and queue its dependencies. */
  method Visit(lock: Lockfile, ghost g: Graph, spec: string, keys: set<string>, queue: seq<string>)
    returns (keys2: set<string>, queue2: seq<string>)
    requires g == GraphOf(lock)
    ensures keys2 == keys + SetOf(g.keys(spec)) && queue2 == queue + g.next(spec)
  {
    keys2, queue2 := Expand(Resolve(lock, spec), keys, queue);
  }

  lemma Shrinks(known: set<string>, seen: set<string>, spec: string)
    requires spec in known && spec !in seen
    ensures known - (seen + {spec}) < known - seen
  {
    assert spec in known - seen && spec !in known - (seen + {spec});
  }

  lemma Popped(queue: seq<string>)
    requires |queue| > 0
    ensures queue == queue[..|queue| - 1] + [queue[|queue| - 1]]
  {
  }

  /**
   * `walkDenoLockReachableKeys`: it ends on every lockfile, cycles included,
   * and returns exactly the keys of the least closed set of specifiers.
   */
  method Walk(lock: Lockfile, roots: seq<string>) returns (keys: set<string>)
    ensures forall k :: k in keys <==> Used(GraphOf(lock), roots, k)
  {
    keys := {};
    var queue := roots;
    var seen: set<string> := {};
    ghost var g := GraphOf(lock);
    Start(g, roots, Known(lock, roots));
    while |queue| > 0
      invariant OnTrack(g, roots, Known(lock, roots), seen, queue, keys)
      decreases Known(lock, roots) - seen, |queue|
    {
      Popped(queue);
      var spec := queue[|queue| - 1];
      queue := queue[..|queue| - 1];
      if spec == "" || spec in seen {
        Dropped(g, roots, Known(lock, roots), seen, queue, keys, spec);
      } else {
        NextInKnown(lock, roots, spec);
        Visited(g, roots, Known(lock, roots), seen, queue, keys, spec);
        Shrinks(Known(lock, roots), seen, spec);
        seen := seen + {spec};
        keys, queue := Visit(lock, g, spec, keys, queue);
      }
    }
    Finished(g, roots, Known(lock, roots), seen, keys);
  }
}

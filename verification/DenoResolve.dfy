/**
 * What a specifier resolves to in a lockfile, told from the rows of the two
 * tables and the entries of the specifier map, and what that means for the walk.
 */
module DenoResolve {
  import opened Strings
  import opened DenoLock

  // ---------------------------------------------------------------- ids and names

  /** A package name: the only at sign it may hold comes first. */
  predicate PackageName(name: string) {
    name != "" && name != "@" && '@' !in name[1..]
  }

  /** A version as an id spells it. */
  predicate Version(version: string) {
    version != "" && !IsBlank(version[0]) && !IsBlank(version[|version| - 1])
  }

  lemma {:induction false} IndexFound(s: string, c: char, from: nat, at: nat)
    requires from <= at < |s| && s[at] == c && c !in s[from..at]
    ensures IndexOfChar(s, c, from) == Some(at)
    decreases at - from
  {
    if from < at {
      assert s[from] == s[from..at][0] && s[from + 1..at] == s[from..at][1..];
      IndexFound(s, c, from + 1, at);
    }
  }

  lemma {:induction false} IndexMissing(s: string, c: char, from: nat)
    requires from <= |s| && c !in s[from..]
    ensures IndexOfChar(s, c, from) == None
    decreases |s| - from
  {
    if from < |s| {
      assert s[from] == s[from..][0] && s[from + 1..] == s[from..][1..];
      IndexMissing(s, c, from + 1);
    }
  }

  /** The at sign after the name is the one that is found, scoped name or not. */
  lemma NameEnds(name: string, rest: string)
    requires PackageName(name)
    ensures var id := name + "@" + rest;
            IndexOfChar(id, '@', if "@" <= id then 1 else 0) == Some(|name|)
  {
    var id := name + "@" + rest;
    var from := if "@" <= id then 1 else 0;
    assert id[from..|name|] == name[from..];
    assert from == 0 ==> name == [name[0]] + name[1..];
    IndexFound(id, '@', from, |name|);
  }

  lemma TightTrims(s: string)
    requires Version(s)
    ensures TrimBlanks(s) == s
  {
  }

  /** What an id says after its name: all of it for jsr, and for npm what comes before the peers. */
  lemma IdSays(kind: Kind, name: string, full: string)
    requires PackageName(name) && Version(full)
    ensures var peer := IndexOfChar(full, '_', 0);
            var version := if kind == Npm && peer.Some? then full[..peer.value] else full;
            ParseId(kind, name + "@" + full) == if version == "" then None else Some(Package(name, version))
  {
    var id := name + "@" + full;
    NameEnds(name, full);
    assert id[..|name|] == name && id[|name| + 1..] == full;
    TightTrims(full);
  }

  /** A locked id is its name and version; an npm id may name the peers it was resolved with. */
  lemma IdParses(kind: Kind, name: string, version: string, peers: string)
    requires PackageName(name) && Version(version + peers) && version != ""
    requires kind == Jsr ==> peers == ""
    requires kind == Npm ==> '_' !in version && (peers == "" || peers[0] == '_')
    ensures ParseId(kind, name + "@" + (version + peers)) == Some(Package(name, version))
  {
    var full := version + peers;
    IdSays(kind, name, full);
    if kind == Npm && peers != "" {
      assert full[0..|version|] == version && full[|version|] == '_';
      IndexFound(full, '_', 0, |version|);
    } else {
      assert full == version && full[0..] == version;
      if kind == Npm {
        IndexMissing(full, '_', 0);
      }
    }
  }

  function Prefix(kind: Kind): string {
    match kind
    case Jsr => "jsr:"
    case Npm => "npm:"
  }

  lemma DropPrefixes(kind: Kind, rest: string)
    requires !("npm:" <= rest)
    ensures DropPrefix(DropPrefix(Prefix(kind) + rest, "jsr:"), "npm:") == rest
  {
    var s := Prefix(kind) + rest;
    assert s[4..] == rest;
    if kind == Npm {
      assert s[0] == 'n';
    }
  }

  lemma NameOfRanged(kind: Kind, name: string, range: string)
    requires PackageName(name) && ':' !in name
    ensures SpecName(Prefix(kind) + (name + "@" + range)) == name
  {
    var rest := name + "@" + range;
    assert rest == name + ("@" + range);
    NotPrefixed(name, "@" + range);
    DropPrefixes(kind, rest);
    NameEnds(name, range);
    assert rest[..|name|] == name;
  }

  lemma NameOfPlain(kind: Kind, name: string)
    requires PackageName(name) && ':' !in name
    ensures SpecName(Prefix(kind) + name) == name
  {
    NotPrefixed(name, "");
    assert name + "" == name;
    DropPrefixes(kind, name);
    var from := if "@" <= name then 1 else 0;
    assert name == [name[0]] + name[1..] && name[0..] == name;
    IndexMissing(name, '@', from);
  }

  /** The name in a prefixed specifier, with a version range or without. */
  lemma SpecNames(kind: Kind, name: string, range: string)
    requires PackageName(name) && ':' !in name
    ensures SpecName(Prefix(kind) + name + "@" + range) == name && SpecName(Prefix(kind) + name) == name
  {
    assert Prefix(kind) + name + "@" + range == Prefix(kind) + (name + "@" + range);
    NameOfRanged(kind, name, range);
    NameOfPlain(kind, name);
  }

  lemma NotPrefixed(name: string, rest: string)
    requires ':' !in name && name != "" && (rest == "" || rest[0] == '@')
    ensures !("npm:" <= name + rest) && !("jsr:" <= name + rest)
  {
    var s := name + rest;
    if |s| >= 4 {
      if |name| > 3 {
        assert s[3] == name[3];
      } else {
        assert s[|name|] == '@';
      }
    }
  }

  /** A dependency of a jsr package that names a scope without a prefix is a jsr package; any other stays as it is. */
  lemma QualifyLooks(kind: Kind, dep: string)
    ensures Qualify(kind, dep) == if kind == Jsr && "@" <= dep && ':' !in dep then "jsr:" + dep else dep
  {
    assert "jsr:" <= dep ==> dep[0] == 'j';
    assert "npm:" <= dep ==> dep[0] == 'n';
    assert "https:" <= dep ==> dep[0] == 'h';
  }

  // ---------------------------------------------------------------- rows

  predicate Parses(kind: Kind, rows: seq<Row>, i: nat, p: Package) {
    i < |rows| && ParseId(kind, rows[i].id) == Some(p)
  }

  predicate HasKey(rows: seq<Row>, i: nat, p: Package) {
    i < |rows| && rows[i].id == p.name + "@" + p.version
  }

  /** The row for a package: the first under its key, or, when there is none, the first whose id parses to it. */
  ghost predicate RowFor(rows: seq<Row>, kind: Kind, p: Package, i: nat) {
    || (HasKey(rows, i, p) && forall j :: 0 <= j < i ==> !HasKey(rows, j, p))
    || (Parses(kind, rows, i, p) && (forall j: nat :: !HasKey(rows, j, p))
        && forall j :: 0 <= j < i ==> !Parses(kind, rows, j, p))
  }

  ghost predicate NoRowFor(rows: seq<Row>, kind: Kind, p: Package) {
    forall j: nat :: !HasKey(rows, j, p) && !Parses(kind, rows, j, p)
  }

  lemma {:induction false} FindRowFirst(rows: seq<Row>, p: Package, i: nat)
    requires HasKey(rows, i, p) && forall j :: 0 <= j < i ==> !HasKey(rows, j, p)
    ensures FindRow(rows, PackageKey(p)) == Some(rows[i])
  {
    if i > 0 {
      assert !HasKey(rows, 0, p);
      forall j | 0 <= j < i - 1 ensures !HasKey(rows[1..], j, p) {
        assert !HasKey(rows, j + 1, p);
      }
      FindRowFirst(rows[1..], p, i - 1);
    }
  }

  lemma {:induction false} FindRowNone(rows: seq<Row>, p: Package)
    requires forall j: nat :: !HasKey(rows, j, p)
    ensures FindRow(rows, PackageKey(p)) == None
  {
    if rows != [] {
      assert !HasKey(rows, 0, p);
      forall j: nat ensures !HasKey(rows[1..], j, p) {
        assert !HasKey(rows, j + 1, p);
      }
      FindRowNone(rows[1..], p);
    }
  }

  lemma {:induction false} FindParsedFirst(rows: seq<Row>, kind: Kind, p: Package, i: nat)
    requires Parses(kind, rows, i, p) && forall j :: 0 <= j < i ==> !Parses(kind, rows, j, p)
    ensures FindParsed(rows, kind, p) == Some(rows[i])
  {
    if i > 0 {
      assert !Parses(kind, rows, 0, p);
      forall j | 0 <= j < i - 1 ensures !Parses(kind, rows[1..], j, p) {
        assert !Parses(kind, rows, j + 1, p);
      }
      FindParsedFirst(rows[1..], kind, p, i - 1);
    }
  }

  lemma {:induction false} FindParsedNone(rows: seq<Row>, kind: Kind, p: Package)
    requires forall j: nat :: !Parses(kind, rows, j, p)
    ensures FindParsed(rows, kind, p) == None
  {
    if rows != [] {
      assert !Parses(kind, rows, 0, p);
      forall j: nat ensures !Parses(kind, rows[1..], j, p) {
        assert !Parses(kind, rows, j + 1, p);
      }
      FindParsedNone(rows[1..], kind, p);
    }
  }

  /** The two tables of a lockfile. */
  predicate IsTable(lock: Lockfile, kind: Kind, rows: seq<Row>) {
    match kind
    case Jsr => rows == lock.jsr
    case Npm => rows == lock.npm
  }

  lemma LookUpFinds(lock: Lockfile, kind: Kind, rows: seq<Row>, p: Package, i: nat)
    requires IsTable(lock, kind, rows) && RowFor(rows, kind, p, i)
    ensures LookUp(lock, kind, p) == Some(Hit(kind, p, rows[i].dependencies))
  {
    if HasKey(rows, i, p) && forall j :: 0 <= j < i ==> !HasKey(rows, j, p) {
      FindRowFirst(rows, p, i);
    } else {
      FindRowNone(rows, p);
      FindParsedFirst(rows, kind, p, i);
    }
  }

  lemma LookUpNone(lock: Lockfile, kind: Kind, rows: seq<Row>, p: Package)
    requires IsTable(lock, kind, rows) && NoRowFor(rows, kind, p)
    ensures LookUp(lock, kind, p) == None
  {
    FindRowNone(rows, p);
    FindParsedNone(rows, kind, p);
  }

  // ---------------------------------------------------------------- all rows of a name

  predicate Named(kind: Kind, rows: seq<Row>, i: nat, name: string) {
    i < |rows| && ParseId(kind, rows[i].id).Some? && ParseId(kind, rows[i].id).value.name == name
  }

  /** How many of the first `n` rows have the name. */
  function Rank(kind: Kind, rows: seq<Row>, name: string, n: nat): nat {
    if n == 0 then 0 else Rank(kind, rows, name, n - 1) + if Named(kind, rows, n - 1, name) then 1 else 0
  }

  function HitOf(kind: Kind, rows: seq<Row>, i: nat): Hit
    requires i < |rows| && ParseId(kind, rows[i].id).Some?
  {
    Hit(kind, ParseId(kind, rows[i].id).value, rows[i].dependencies)
  }

  /** A row of the name has its hit at its rank. */
  predicate Ranked(kind: Kind, rows: seq<Row>, name: string, hits: seq<Hit>, i: nat) {
    Named(kind, rows, i, name) ==>
      Rank(kind, rows, name, i) < |hits| && hits[Rank(kind, rows, name, i)] == HitOf(kind, rows, i)
  }

  /** One hit for each row of the name and no other, in table order. */
  ghost predicate AllNamed(kind: Kind, rows: seq<Row>, name: string, hits: seq<Hit>) {
    |hits| == Rank(kind, rows, name, |rows|) && forall i: nat :: Ranked(kind, rows, name, hits, i)
  }

  lemma ByNameOne(row: Row, kind: Kind, name: string)
    requires name != ""
    ensures var p := ParseId(kind, row.id);
            ByName([row], kind, name) ==
              if p.Some? && p.value.name == name then [Hit(kind, p.value, row.dependencies)] else []
  {
    assert [row][1..] == [];
  }

  lemma ByNameCons(rows: seq<Row>, kind: Kind, name: string, row: Row)
    requires name != ""
    ensures ByName([row] + rows, kind, name) == ByName([row], kind, name) + ByName(rows, kind, name)
  {
    assert ([row] + rows)[1..] == rows;
    ByNameOne(row, kind, name);
  }

  lemma {:induction false} ByNameSnoc(rows: seq<Row>, kind: Kind, name: string, row: Row)
    requires name != ""
    ensures ByName(rows + [row], kind, name) == ByName(rows, kind, name) + ByName([row], kind, name)
    decreases |rows|
  {
    if rows == [] {
      assert rows + [row] == [row];
    } else {
      var first, rest := rows[0], rows[1..];
      ByNameSnoc(rest, kind, name, row);
      ByNameCons(rest, kind, name, first);
      ByNameCons(rest + [row], kind, name, first);
      assert rows == [first] + rest && rows + [row] == [first] + (rest + [row]);
      Regrouped(ByName([first], kind, name), ByName(rest, kind, name), ByName([row], kind, name));
    }
  }

  lemma Regrouped(a: seq<Hit>, b: seq<Hit>, c: seq<Hit>)
    ensures a + (b + c) == a + b + c
  {
  }

  lemma {:induction false} RankFront(kind: Kind, rows: seq<Row>, name: string, row: Row, n: nat)
    requires n <= |rows|
    ensures Rank(kind, rows + [row], name, n) == Rank(kind, rows, name, n)
  {
    if n > 0 {
      RankFront(kind, rows, name, row, n - 1);
    }
  }

  lemma {:induction false} ByNameAll(rows: seq<Row>, kind: Kind, name: string)
    requires name != ""
    ensures AllNamed(kind, rows, name, ByName(rows, kind, name))
    decreases |rows|
  {
    if rows != [] {
      var front, row := rows[..|rows| - 1], rows[|rows| - 1];
      assert rows == front + [row];
      ByNameAll(front, kind, name);
      ByNameSnoc(front, kind, name, row);
      ByNameOne(row, kind, name);
      OneMoreRow(front, kind, name, row, ByName(front, kind, name), ByName([row], kind, name));
    }
  }

  lemma RankedFront(front: seq<Row>, kind: Kind, name: string, row: Row, hits: seq<Hit>, more: seq<Hit>, i: nat)
    requires i < |front| && Ranked(kind, front, name, hits, i)
    ensures Ranked(kind, front + [row], name, hits + more, i)
  {
    RankFront(kind, front, name, row, i);
    assert (front + [row])[i] == front[i];
  }

  lemma OneMoreRow(front: seq<Row>, kind: Kind, name: string, row: Row, hits: seq<Hit>, more: seq<Hit>)
    requires AllNamed(kind, front, name, hits)
    requires var p := ParseId(kind, row.id);
             more == if p.Some? && p.value.name == name then [Hit(kind, p.value, row.dependencies)] else []
    ensures AllNamed(kind, front + [row], name, hits + more)
  {
    var rows := front + [row];
    RankFront(kind, front, name, row, |front|);
    assert Named(kind, rows, |front|, name) <==> more != [];
    forall i: nat ensures Ranked(kind, rows, name, hits + more, i) {
      if i < |front| {
        RankedFront(front, kind, name, row, hits, more, i);
      }
    }
  }

  // ---------------------------------------------------------------- the specifier map

  /** An entry for the specifier with a value, or one for a version or a path under it. */
  predicate Exact(specifiers: seq<(string, string)>, spec: string, i: nat) {
    i < |specifiers| && specifiers[i].0 == spec
  }

  predicate Under(specifiers: seq<(string, string)>, spec: string, i: nat) {
    i < |specifiers|
    && (specifiers[i].0 == spec || spec + "@" <= specifiers[i].0 || spec + "/" <= specifiers[i].0)
  }

  /** The entry that decides: the one for the specifier itself unless it is empty, else the first under it. */
  ghost predicate Decides(specifiers: seq<(string, string)>, spec: string, i: nat) {
    || (Exact(specifiers, spec, i) && specifiers[i].1 != "" && forall j :: 0 <= j < i ==> !Exact(specifiers, spec, j))
    || (Under(specifiers, spec, i) && (forall j :: 0 <= j < i ==> !Under(specifiers, spec, j))
        && forall j: nat :: Exact(specifiers, spec, j) && (forall k :: 0 <= k < j ==> !Exact(specifiers, spec, k)) ==>
             specifiers[j].1 == "")
  }

  lemma {:induction false} SpecifierAtFirst(specifiers: seq<(string, string)>, spec: string, i: nat)
    requires Exact(specifiers, spec, i) && forall j :: 0 <= j < i ==> !Exact(specifiers, spec, j)
    ensures SpecifierAt(specifiers, spec) == Some(specifiers[i].1)
  {
    if i > 0 {
      assert !Exact(specifiers, spec, 0);
      forall j | 0 <= j < i - 1 ensures !Exact(specifiers[1..], spec, j) {
        assert !Exact(specifiers, spec, j + 1);
      }
      SpecifierAtFirst(specifiers[1..], spec, i - 1);
    }
  }

  lemma {:induction false} SpecifierAtIs(specifiers: seq<(string, string)>, spec: string) returns (i: nat)
    ensures SpecifierAt(specifiers, spec).Some? ==>
              && Exact(specifiers, spec, i) && (forall j :: 0 <= j < i ==> !Exact(specifiers, spec, j))
              && SpecifierAt(specifiers, spec) == Some(specifiers[i].1)
  {
    if specifiers == [] || specifiers[0].0 == spec {
      i := 0;
    } else {
      var k := SpecifierAtIs(specifiers[1..], spec);
      i := k + 1;
      if SpecifierAt(specifiers, spec).Some? {
        forall j | 0 <= j < i ensures !Exact(specifiers, spec, j) {
          if j > 0 {
            assert !Exact(specifiers[1..], spec, j - 1);
          }
        }
      }
    }
  }

  lemma {:induction false} SpecifierLikeFirst(specifiers: seq<(string, string)>, spec: string, i: nat)
    requires Under(specifiers, spec, i) && forall j :: 0 <= j < i ==> !Under(specifiers, spec, j)
    ensures SpecifierLike(specifiers, spec) == Some(specifiers[i].1)
  {
    if i > 0 {
      assert !Under(specifiers, spec, 0);
      forall j | 0 <= j < i - 1 ensures !Under(specifiers[1..], spec, j) {
        assert !Under(specifiers, spec, j + 1);
      }
      SpecifierLikeFirst(specifiers[1..], spec, i - 1);
    }
  }

  lemma {:induction false} SpecifierLikeNone(specifiers: seq<(string, string)>, spec: string)
    requires forall j: nat :: !Under(specifiers, spec, j)
    ensures SpecifierLike(specifiers, spec) == None
  {
    if specifiers != [] {
      assert !Under(specifiers, spec, 0);
      forall j: nat ensures !Under(specifiers[1..], spec, j) {
        assert !Under(specifiers, spec, j + 1);
      }
      SpecifierLikeNone(specifiers[1..], spec);
    }
  }

  lemma SpecifierDecides(lock: Lockfile, spec: string, i: nat)
    requires Decides(lock.specifiers, spec, i)
    ensures SpecifierValue(lock, spec) == Some(lock.specifiers[i].1)
  {
    var all := lock.specifiers;
    if Exact(all, spec, i) && all[i].1 != "" && forall j :: 0 <= j < i ==> !Exact(all, spec, j) {
      SpecifierAtFirst(all, spec, i);
    } else {
      var k := SpecifierAtIs(all, spec);
      SpecifierLikeFirst(all, spec, i);
    }
  }

  lemma NothingDecides(lock: Lockfile, spec: string)
    requires forall i: nat :: !Under(lock.specifiers, spec, i)
    ensures SpecifierValue(lock, spec) == None
  {
    var k := SpecifierAtIs(lock.specifiers, spec);
    if SpecifierAt(lock.specifiers, spec).Some? {
      assert Under(lock.specifiers, spec, k);
    }
    SpecifierLikeNone(lock.specifiers, spec);
  }

  // ---------------------------------------------------------------- prefixed specifiers

  /** A value without the prefix it may carry. */
  function Unprefixed(value: string): string {
    if "npm:" <= value then value[4..]
    else if "jsr:npm:" <= value then value[8..]
    else if "jsr:" <= value then value[4..]
    else value
  }

  lemma UnprefixedDrops(value: string)
    ensures DropPrefix(DropPrefix(value, "jsr:"), "npm:") == Unprefixed(value)
  {
    BothPrefixes(value);
    if "npm:" <= value {
      assert value[0] == 'n';
    } else if "jsr:npm:" <= value {
      assert value[4..][4..] == value[8..];
    }
  }

  lemma BothPrefixes(value: string)
    ensures "jsr:" <= value && "npm:" <= value[4..] <==> "jsr:npm:" <= value
  {
    if |value| >= 8 {
      assert value[..8] == value[..4] + value[4..][..4];
      assert "jsr:npm:" == "jsr:" + "npm:";
    }
  }

  /** The package an entry of the specifier map means: `name@version`, or a version of the specifier's own name. */
  predicate Means(kind: Kind, spec: string, value: string, p: Package) {
    if '@' in Unprefixed(value) then ParseId(kind, Unprefixed(value)) == Some(p)
    else p == Package(SpecName(spec), Unprefixed(value)) && p.name != ""
  }

  predicate IsPrefixed(kind: Kind, spec: string) {
    Prefix(kind) <= spec
  }

  lemma PrefixKind(kind: Kind, spec: string)
    requires IsPrefixed(kind, spec)
    ensures ("jsr:" <= spec || "npm:" <= spec) && ("jsr:" <= spec <==> kind == Jsr)
  {
    assert spec[0] == Prefix(kind)[0];
  }

  lemma MeansParsed(kind: Kind, spec: string, value: string, p: Package)
    ensures ParsedFromSpecifier(kind, spec, value) == Some(p) <==> Means(kind, spec, value, p)
  {
    UnprefixedDrops(value);
  }

  /** An entry that means a locked package: the specifier is that package, and nothing else. */
  lemma ResolvedBySpecifier(lock: Lockfile, kind: Kind, rows: seq<Row>, spec: string, e: nat, p: Package, i: nat)
    requires IsPrefixed(kind, spec) && IsTable(lock, kind, rows)
    requires Decides(lock.specifiers, spec, e) && lock.specifiers[e].1 != ""
    requires Means(kind, spec, lock.specifiers[e].1, p) && RowFor(rows, kind, p, i)
    ensures Resolve(lock, spec) == [Hit(kind, p, rows[i].dependencies)]
  {
    PrefixKind(kind, spec);
    SpecifierDecides(lock, spec, e);
    MeansParsed(kind, spec, lock.specifiers[e].1, p);
    LookUpFinds(lock, kind, rows, p, i);
  }

  /** No entry decides, or the one that does is empty or means no locked package. */
  ghost predicate Unresolved(lock: Lockfile, kind: Kind, rows: seq<Row>, spec: string) {
    || (forall i: nat :: !Under(lock.specifiers, spec, i))
    || (exists e: nat ::
          && Decides(lock.specifiers, spec, e)
          && (lock.specifiers[e].1 == ""
              || forall p :: Means(kind, spec, lock.specifiers[e].1, p) ==> NoRowFor(rows, kind, p)))
  }

  lemma UnresolvedByName(lock: Lockfile, kind: Kind, rows: seq<Row>, spec: string)
    requires IsPrefixed(kind, spec) && IsTable(lock, kind, rows) && Unresolved(lock, kind, rows, spec)
    ensures Resolve(lock, spec) == ByName(rows, kind, SpecName(spec))
  {
    PrefixKind(kind, spec);
    if forall i: nat :: !Under(lock.specifiers, spec, i) {
      NothingDecides(lock, spec);
    } else {
      var e: nat :|
        && Decides(lock.specifiers, spec, e)
        && (lock.specifiers[e].1 == ""
            || forall p :: Means(kind, spec, lock.specifiers[e].1, p) ==> NoRowFor(rows, kind, p));
      SpecifierDecides(lock, spec, e);
      var parsed := ParsedFromSpecifier(kind, spec, lock.specifiers[e].1);
      if lock.specifiers[e].1 != "" && parsed.Some? {
        MeansParsed(kind, spec, lock.specifiers[e].1, parsed.value);
        LookUpNone(lock, kind, rows, parsed.value);
      }
    }
  }

  /** Otherwise it is every row of the name it gives, in table order, and none is missed. */
  lemma ResolvedByName(lock: Lockfile, kind: Kind, rows: seq<Row>, spec: string)
    requires IsPrefixed(kind, spec) && IsTable(lock, kind, rows) && Unresolved(lock, kind, rows, spec)
    ensures SpecName(spec) != "" ==> AllNamed(kind, rows, SpecName(spec), Resolve(lock, spec))
    ensures SpecName(spec) == "" ==> Resolve(lock, spec) == []
  {
    UnresolvedByName(lock, kind, rows, spec);
    if SpecName(spec) != "" {
      ByNameAll(rows, kind, SpecName(spec));
    }
  }

  /** Either of the two cases holds of every prefixed specifier. */
  lemma ResolvedOrNot(lock: Lockfile, kind: Kind, rows: seq<Row>, spec: string)
    requires !Unresolved(lock, kind, rows, spec)
    ensures exists e: nat, p: Package, i: nat ::
              && Decides(lock.specifiers, spec, e) && lock.specifiers[e].1 != ""
              && Means(kind, spec, lock.specifiers[e].1, p) && RowFor(rows, kind, p, i)
  {
    var u: nat :| Under(lock.specifiers, spec, u);
    var e := SomeDecides(lock.specifiers, spec, u);
    var p :| Means(kind, spec, lock.specifiers[e].1, p) && !NoRowFor(rows, kind, p);
    var i := SomeRowFor(rows, kind, p);
    assert RowFor(rows, kind, p, i);
  }

  lemma {:induction false} FirstExact(specifiers: seq<(string, string)>, spec: string, u: nat) returns (i: nat)
    requires Exact(specifiers, spec, u)
    ensures i <= u && Exact(specifiers, spec, i) && forall j :: 0 <= j < i ==> !Exact(specifiers, spec, j)
    decreases u
  {
    if j :| 0 <= j < u && Exact(specifiers, spec, j) {
      i := FirstExact(specifiers, spec, j);
    } else {
      i := u;
    }
  }

  lemma {:induction false} FirstUnder(specifiers: seq<(string, string)>, spec: string, u: nat) returns (i: nat)
    requires Under(specifiers, spec, u)
    ensures i <= u && Under(specifiers, spec, i) && forall j :: 0 <= j < i ==> !Under(specifiers, spec, j)
    decreases u
  {
    if j :| 0 <= j < u && Under(specifiers, spec, j) {
      i := FirstUnder(specifiers, spec, j);
    } else {
      i := u;
    }
  }

  lemma SomeDecides(specifiers: seq<(string, string)>, spec: string, u: nat) returns (e: nat)
    requires Under(specifiers, spec, u)
    ensures Decides(specifiers, spec, e)
  {
    if x: nat :| Exact(specifiers, spec, x) {
      var first := FirstExact(specifiers, spec, x);
      if specifiers[first].1 != "" {
        e := first;
        return;
      }
      e := FirstUnder(specifiers, spec, u);
      forall j: nat | Exact(specifiers, spec, j) && (forall k :: 0 <= k < j ==> !Exact(specifiers, spec, k))
        ensures specifiers[j].1 == ""
      {
        assert j == first;
      }
    } else {
      e := FirstUnder(specifiers, spec, u);
    }
  }

  lemma {:induction false} FirstKeyed(rows: seq<Row>, p: Package, u: nat) returns (i: nat)
    requires HasKey(rows, u, p)
    ensures HasKey(rows, i, p) && forall j :: 0 <= j < i ==> !HasKey(rows, j, p)
    decreases u
  {
    if j :| 0 <= j < u && HasKey(rows, j, p) {
      i := FirstKeyed(rows, p, j);
    } else {
      i := u;
    }
  }

  lemma {:induction false} FirstParsed(rows: seq<Row>, kind: Kind, p: Package, u: nat) returns (i: nat)
    requires Parses(kind, rows, u, p)
    ensures Parses(kind, rows, i, p) && forall j :: 0 <= j < i ==> !Parses(kind, rows, j, p)
    decreases u
  {
    if j :| 0 <= j < u && Parses(kind, rows, j, p) {
      i := FirstParsed(rows, kind, p, j);
    } else {
      i := u;
    }
  }

  lemma SomeRowFor(rows: seq<Row>, kind: Kind, p: Package) returns (i: nat)
    requires !NoRowFor(rows, kind, p)
    ensures RowFor(rows, kind, p, i)
  {
    if k: nat :| HasKey(rows, k, p) {
      i := FirstKeyed(rows, p, k);
    } else {
      var u: nat :| Parses(kind, rows, u, p);
      i := FirstParsed(rows, kind, p, u);
    }
  }

  // ---------------------------------------------------------------- bare specifiers

  predicate IsBare(spec: string) {
    !("jsr:" <= spec) && !("npm:" <= spec)
  }

  /** An id of a locked jsr package is that package, whatever npm has. */
  lemma BareJsr(lock: Lockfile, spec: string, p: Package, i: nat)
    requires IsBare(spec) && '@' in spec && ParseId(Jsr, spec) == Some(p) && RowFor(lock.jsr, Jsr, p, i)
    ensures Resolve(lock, spec) == [Hit(Jsr, p, lock.jsr[i].dependencies)]
  {
    LookUpFinds(lock, Jsr, lock.jsr, p, i);
  }

  ghost predicate NotIn(rows: seq<Row>, kind: Kind, spec: string) {
    forall p :: ParseId(kind, spec) == Some(p) ==> NoRowFor(rows, kind, p)
  }

  lemma BareNone(lock: Lockfile, kind: Kind, rows: seq<Row>, spec: string)
    requires IsBare(spec) && IsTable(lock, kind, rows) && NotIn(rows, kind, spec) && ParseId(kind, spec).Some?
    ensures LookUp(lock, kind, ParseId(kind, spec).value) == None
  {
    LookUpNone(lock, kind, rows, ParseId(kind, spec).value);
  }

  /** An id of a locked npm package is that package when jsr does not have it. */
  lemma BareNpm(lock: Lockfile, spec: string, p: Package, i: nat)
    requires IsBare(spec) && '@' in spec && NotIn(lock.jsr, Jsr, spec)
    requires ParseId(Npm, spec) == Some(p) && RowFor(lock.npm, Npm, p, i)
    ensures Resolve(lock, spec) == [Hit(Npm, p, lock.npm[i].dependencies)]
  {
    if ParseId(Jsr, spec).Some? {
      BareNone(lock, Jsr, lock.jsr, spec);
    }
    LookUpFinds(lock, Npm, lock.npm, p, i);
  }

  /** Anything else is a name: every npm row of that name, then every jsr row, in table order. */
  lemma BareName(lock: Lockfile, spec: string) returns (npm: seq<Hit>, jsr: seq<Hit>)
    requires IsBare(spec) && spec != ""
    requires '@' in spec ==> NotIn(lock.jsr, Jsr, spec) && NotIn(lock.npm, Npm, spec)
    ensures Resolve(lock, spec) == npm + jsr
    ensures AllNamed(Npm, lock.npm, spec, npm) && AllNamed(Jsr, lock.jsr, spec, jsr)
  {
    if '@' in spec && ParseId(Jsr, spec).Some? {
      BareNone(lock, Jsr, lock.jsr, spec);
    }
    if '@' in spec && ParseId(Npm, spec).Some? {
      BareNone(lock, Npm, lock.npm, spec);
    }
    npm, jsr := ByName(lock.npm, Npm, spec), ByName(lock.jsr, Jsr, spec);
    ByNameAll(lock.npm, Npm, spec);
    ByNameAll(lock.jsr, Jsr, spec);
  }

  // ---------------------------------------------------------------- the walk, on rows

  /** A hit of a reachable specifier: its key is used, and its dependencies are reached. */
  lemma HitIsUsed(lock: Lockfile, roots: seq<string>, spec: string, k: nat)
    requires Reachable(GraphOf(lock), roots, spec) && k < |Resolve(lock, spec)|
    ensures var p := Resolve(lock, spec)[k].package; Used(GraphOf(lock), roots, p.name + "@" + p.version)
  {
    var h := Resolve(lock, spec)[k];
    assert KeysOf(Resolve(lock, spec))[k] == PackageKey(h.package);
    assert PackageKey(h.package) in GraphOf(lock).keys(spec);
  }

  lemma {:induction false} DepIsNext(hits: seq<Hit>, k: nat, d: nat)
    requires k < |hits| && d < |hits[k].dependencies|
    ensures Qualify(hits[k].kind, hits[k].dependencies[d]) in DepsOf(hits)
  {
    if k == 0 {
      assert QualifyAll(hits[0].kind, hits[0].dependencies)[d] == Qualify(hits[0].kind, hits[0].dependencies[d]);
    } else {
      DepIsNext(hits[1..], k - 1, d);
    }
  }

  lemma DependencyIsReached(lock: Lockfile, roots: seq<string>, spec: string, k: nat, d: nat)
    requires Reachable(GraphOf(lock), roots, spec) && k < |Resolve(lock, spec)|
    requires d < |Resolve(lock, spec)[k].dependencies|
    requires Qualify(Resolve(lock, spec)[k].kind, Resolve(lock, spec)[k].dependencies[d]) != ""
    ensures var h := Resolve(lock, spec)[k];
            Reachable(GraphOf(lock), roots, Qualify(h.kind, h.dependencies[d]))
  {
    var h := Resolve(lock, spec)[k];
    DepIsNext(Resolve(lock, spec), k, d);
    Follow(GraphOf(lock), roots, spec, Qualify(h.kind, h.dependencies[d]));
  }

  /**
   * End to end: a root `npm:name@range` or `jsr:name@range` that the specifier
   * map locks to a version puts the locked row's key among the keys of the walk,
   * and every dependency of that row among the specifiers it visits.
   */
  lemma LockedRootIsUsed(lock: Lockfile, kind: Kind, rows: seq<Row>, roots: seq<string>, name: string, range: string,
                         version: string, e: nat, i: nat)
    requires IsTable(lock, kind, rows) && PackageName(name) && ':' !in name
    requires Version(version) && '@' !in version && ':' !in version && (kind == Npm ==> '_' !in version)
    requires var spec := Prefix(kind) + name + "@" + range;
             spec in roots && Exact(lock.specifiers, spec, e) && lock.specifiers[e].1 == version
             && forall j :: 0 <= j < e ==> !Exact(lock.specifiers, spec, j)
    requires HasKey(rows, i, Package(name, version))
    requires forall j :: 0 <= j < i ==> !HasKey(rows, j, Package(name, version))
    ensures Used(GraphOf(lock), roots, name + "@" + version)
    ensures forall d :: 0 <= d < |rows[i].dependencies| && Qualify(kind, rows[i].dependencies[d]) != "" ==>
              Reachable(GraphOf(lock), roots, Qualify(kind, rows[i].dependencies[d]))
  {
    var spec, p := Prefix(kind) + name + "@" + range, Package(name, version);
    SpecNames(kind, name, range);
    VersionUnprefixed(version);
    assert spec[..4] == Prefix(kind);
    ResolvedBySpecifier(lock, kind, rows, spec, e, p, i);
    assert Reaches(GraphOf(lock), roots, spec, 0);
    HitIsUsed(lock, roots, spec, 0);
    forall d | 0 <= d < |rows[i].dependencies| && Qualify(kind, rows[i].dependencies[d]) != ""
      ensures Reachable(GraphOf(lock), roots, Qualify(kind, rows[i].dependencies[d]))
    {
      DependencyIsReached(lock, roots, spec, 0, d);
    }
  }

  /** A root that only gives a name puts every locked row of that name among the keys. */
  lemma NamedRootIsUsed(lock: Lockfile, kind: Kind, rows: seq<Row>, roots: seq<string>, spec: string, i: nat)
    requires IsPrefixed(kind, spec) && IsTable(lock, kind, rows) && Unresolved(lock, kind, rows, spec) && spec in roots
    requires SpecName(spec) != "" && Named(kind, rows, i, SpecName(spec))
    ensures var p := ParseId(kind, rows[i].id).value; Used(GraphOf(lock), roots, p.name + "@" + p.version)
  {
    ResolvedByName(lock, kind, rows, spec);
    assert Ranked(kind, rows, SpecName(spec), Resolve(lock, spec), i);
    assert Reaches(GraphOf(lock), roots, spec, 0);
    HitIsUsed(lock, roots, spec, Rank(kind, rows, SpecName(spec), i));
  }

  lemma VersionUnprefixed(version: string)
    requires ':' !in version
    ensures Unprefixed(version) == version
  {
    if |version| > 3 {
      assert version[3] in version;
    }
  }
}

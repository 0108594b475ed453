/** The filter on the feature names a daemon advertises in its `hello`. */
module CellFeatures {
  import opened Strings
  import opened CellJson

  const MAX_DAEMON_WS_FEATURES := 4096
  const MAX_DAEMON_WS_FEATURE_CHARS := 64

  /** The ignored entries, counted by cause, with up to three samples. */
  datatype Note = Note(received: nat, kept: nat, ignored: nat, unknown: nat, malformed: nat, duplicate: nat,
                       unscanned: nat, samples: seq<string>)

  datatype Filtered = Filtered(features: seq<string>, note: Option<Note>)

  datatype Verdict = Keep | Unknown | Malformed | Duplicate

  predicate WellFormedName(entry: Json) {
    entry.Str? && 0 < |entry.s| <= MAX_DAEMON_WS_FEATURE_CHARS
  }

  function FeatureVerdict(entry: Json, known: set<string>, seen: set<string>): Verdict {
    if !WellFormedName(entry) then Malformed
    else if entry.s !in known then Unknown
    else if entry.s in seen then Duplicate
    else Keep
  }

  function TypeOf(entry: Json): string {
    match entry
    case Bool(_) => "boolean"
    case Num(_) => "number"
    case Str(_) => "string"
    case _ => "object"
  }

  function Printable(s: string): string {
    seq(|s|, i requires 0 <= i < |s| => if ' ' <= s[i] <= '~' then s[i] else '?')
  }

  function FeatureSample(entry: Json): string {
    if !entry.Str? then TypeOf(entry) else Printable(if |entry.s| <= 24 then entry.s else entry.s[..24])
  }

  /**
   * A sample is short and printable ASCII, safe in a log line; of a text it shows
   * the first characters, the others as question marks.
   */
  lemma SampleIsPrintable(entry: Json)
    ensures |FeatureSample(entry)| <= 24
    ensures forall i :: 0 <= i < |FeatureSample(entry)| ==> ' ' <= FeatureSample(entry)[i] <= '~'
    ensures entry.Str? ==>
              && |FeatureSample(entry)| == (if |entry.s| < 24 then |entry.s| else 24)
              && (forall i :: 0 <= i < |FeatureSample(entry)| ==>
                    FeatureSample(entry)[i] == if ' ' <= entry.s[i] <= '~' then entry.s[i] else '?')
  {
  }

  // ---------------------------------------------------------------- the scan

  datatype Scan = Scan(features: seq<string>, unknown: nat, malformed: nat, duplicate: nat, samples: seq<string>)

  function Elements(s: seq<string>): set<string> {
    set x | x in s
  }

  function Ignore(scan: Scan, verdict: Verdict, entry: Json): Scan {
    var samples := if |scan.samples| < 3 then scan.samples + [FeatureSample(entry)] else scan.samples;
    match verdict
    case Unknown => scan.(unknown := scan.unknown + 1, samples := samples)
    case Malformed => scan.(malformed := scan.malformed + 1, samples := samples)
    case _ => scan.(duplicate := scan.duplicate + 1, samples := samples)
  }

  function ScanOne(scan: Scan, entry: Json, known: set<string>): Scan {
    var verdict := FeatureVerdict(entry, known, Elements(scan.features));
    if verdict.Keep? then scan.(features := scan.features + [entry.s]) else Ignore(scan, verdict, entry)
  }

  function ScanAll(entries: seq<Json>, known: set<string>): Scan {
    if entries == [] then Scan([], 0, 0, 0, [])
    else ScanOne(ScanAll(entries[..|entries| - 1], known), entries[|entries| - 1], known)
  }

  function Scanned(entries: seq<Json>): (prefix: seq<Json>)
    ensures |prefix| <= MAX_DAEMON_WS_FEATURES
  {
    if |entries| <= MAX_DAEMON_WS_FEATURES then entries else entries[..MAX_DAEMON_WS_FEATURES]
  }

  function Filter(entries: seq<Json>, known: set<string>): Filtered {
    var scan := ScanAll(Scanned(entries), known);
    var unscanned := |entries| - |Scanned(entries)|;
    var ignored := scan.unknown + scan.malformed + scan.duplicate + unscanned;
    Filtered(scan.features,
             if ignored == 0 then None
             else Some(Note(|entries|, |scan.features|, ignored, scan.unknown, scan.malformed, scan.duplicate,
               unscanned, scan.samples)))
  }

  /** `filterHelloFeatures`: the loop with its counters, the seen names and the output list. */
  method FilterHelloFeatures(entries: seq<Json>, known: set<string>) returns (r: Filtered)
    ensures r == Filter(entries, known)
  {
    var features: seq<string> := [];
    var seen: set<string> := {};
    var unknown, malformed, duplicate := 0, 0, 0;
    var samples: seq<string> := [];
    var scanned := if |entries| < MAX_DAEMON_WS_FEATURES then |entries| else MAX_DAEMON_WS_FEATURES;
    ghost var prefix := Scanned(entries);
    assert prefix == entries[..scanned];
    var index := 0;
    while index < scanned
      invariant 0 <= index <= scanned
      invariant seen == Elements(features)
      invariant unknown >= 0 && malformed >= 0 && duplicate >= 0
      invariant Scan(features, unknown, malformed, duplicate, samples) == ScanAll(prefix[..index], known)
    {
      var entry := entries[index];
      assert prefix[..index + 1][..index] == prefix[..index];
      var verdict := FeatureVerdict(entry, known, seen);
      if verdict == Keep {
        seen := seen + {entry.s};
        features := features + [entry.s];
      } else {
        match verdict {
          case Unknown => unknown := unknown + 1;
          case Malformed => malformed := malformed + 1;
          case Duplicate => duplicate := duplicate + 1;
        }
        if |samples| < 3 {
          samples := samples + [FeatureSample(entry)];
        }
      }
      index := index + 1;
    }
    assert prefix[..index] == prefix;
    var unscanned := |entries| - scanned;
    var ignored := unknown + malformed + duplicate + unscanned;
    if ignored == 0 {
      return Filtered(features, None);
    }
    r := Filtered(features,
                  Some(Note(|entries|, |features|, ignored, unknown, malformed, duplicate, unscanned, samples)));
  }

  // ---------------------------------------------------------------- what is kept

  predicate Good(s: string, known: set<string>) {
    s in known && WellFormedName(Str(s))
  }

  ghost predicate Distinct(s: seq<string>) {
    forall i, j :: 0 <= i < j < |s| ==> s[i] != s[j]
  }

  /** The position of the first occurrence. */
  function FirstIndex(entries: seq<Json>, entry: Json): (i: nat)
    requires entry in entries
    ensures i < |entries| && entries[i] == entry && forall j :: 0 <= j < i ==> entries[j] != entry
  {
    var front := entries[..|entries| - 1];
    if entry in front then FirstIndex(front, entry) else |entries| - 1
  }

  /** Exactly the known, well-formed names, each once. */
  lemma {:induction false} ScanMembers(entries: seq<Json>, known: set<string>)
    ensures var f := ScanAll(entries, known).features;
            Distinct(f) && forall s :: s in f <==> Good(s, known) && Str(s) in entries
  {
    if entries != [] {
      var front, last := entries[..|entries| - 1], entries[|entries| - 1];
      ScanMembers(front, known);
      assert entries == front + [last];
    }
  }

  lemma FirstIndexFront(front: seq<Json>, last: Json, entry: Json)
    requires entry in front
    ensures FirstIndex(front + [last], entry) == FirstIndex(front, entry)
  {
    assert (front + [last])[..|front|] == front;
  }

  /** The last entry's effect: nothing, or itself as one new name. */
  lemma ScanLast(entries: seq<Json>, known: set<string>)
    requires entries != []
    ensures var front, last := entries[..|entries| - 1], entries[|entries| - 1];
            var f, g := ScanAll(entries, known).features, ScanAll(front, known).features;
            f == g || (last.Str? && f == g + [last.s] && last !in front)
  {
    var front, last := entries[..|entries| - 1], entries[|entries| - 1];
    ScanMembers(front, known);
  }

  /** In the order of their first occurrences. */
  lemma {:induction false} ScanOrder(entries: seq<Json>, known: set<string>, j: nat, k: nat)
    requires j < k < |ScanAll(entries, known).features|
    ensures var f := ScanAll(entries, known).features;
            && Str(f[j]) in entries && Str(f[k]) in entries
            && FirstIndex(entries, Str(f[j])) < FirstIndex(entries, Str(f[k]))
  {
    var front, last := entries[..|entries| - 1], entries[|entries| - 1];
    var f, g := ScanAll(entries, known).features, ScanAll(front, known).features;
    ScanLast(entries, known);
    assert entries == front + [last];
    ScanMember(front, known, j);
    FirstIndexFront(front, last, Str(g[j]));
    if k < |g| {
      ScanOrder(front, known, j, k);
      FirstIndexFront(front, last, Str(g[k]));
    }
  }

  lemma ScanMember(entries: seq<Json>, known: set<string>, j: nat)
    requires j < |ScanAll(entries, known).features|
    ensures Str(ScanAll(entries, known).features[j]) in entries
  {
    ScanMembers(entries, known);
    assert ScanAll(entries, known).features[j] in ScanAll(entries, known).features;
  }

  /** Every scanned entry is kept or counted once; at most three samples, fewer only when fewer were ignored. */
  lemma {:induction false} ScanCounts(entries: seq<Json>, known: set<string>)
    ensures var scan := ScanAll(entries, known);
            var ignored := scan.unknown + scan.malformed + scan.duplicate;
            && |scan.features| + ignored == |entries|
            && |scan.samples| == if ignored < 3 then ignored else 3
  {
    if entries != [] {
      ScanCounts(entries[..|entries| - 1], known);
    }
  }

  lemma DistinctSize(s: seq<string>, within: set<string>)
    requires Distinct(s) && forall x :: x in s ==> x in within
    ensures |s| <= |within|
    decreases |s|
  {
    if s != [] {
      var last := s[|s| - 1];
      assert last in s;
      forall x | x in s[..|s| - 1] ensures x in within - {last} {
      }
      DistinctSize(s[..|s| - 1], within - {last});
    }
  }

  function AsEntries(features: seq<string>): (r: seq<Json>)
    ensures |r| == |features|
  {
    seq(|features|, i requires 0 <= i < |features| => Str(features[i]))
  }

  lemma {:induction false} ScanOfGood(features: seq<string>, known: set<string>)
    requires Distinct(features) && forall s :: s in features ==> Good(s, known)
    ensures ScanAll(AsEntries(features), known) == Scan(features, 0, 0, 0, [])
  {
    if features != [] {
      var front, last := features[..|features| - 1], features[|features| - 1];
      assert forall s :: s in front ==> s in features;
      assert last in features;
      ScanOfGood(front, known);
      assert AsEntries(features)[..|features| - 1] == AsEntries(front);
      assert features == front + [last];
      KeepsNew(Scan(front, 0, 0, 0, []), last, known);
    }
  }

  lemma KeepsNew(scan: Scan, s: string, known: set<string>)
    requires Good(s, known) && s !in scan.features
    ensures ScanOne(scan, Str(s), known) == scan.(features := scan.features + [s])
  {
  }

  /**
   * The filter keeps the first occurrences, in order, of the known well-formed
   * names among the first 4096 entries, never more than the known list holds;
   * the counts add up to what was received, and a note is given exactly when
   * something was ignored.
   */
  lemma FilterKeepsKnown(entries: seq<Json>, known: set<string>)
    ensures var r := Filter(entries, known);
            && Distinct(r.features) && |r.features| <= |known|
            && (forall s :: s in r.features <==> Good(s, known) && Str(s) in Scanned(entries))
            && (r.note.None? <==> |r.features| == |entries|)
  {
    ScanMembers(Scanned(entries), known);
    ScanCounts(Scanned(entries), known);
    var f := Filter(entries, known).features;
    assert forall s :: s in f ==> s in known;
    DistinctSize(f, known);
  }

  lemma FilterOrder(entries: seq<Json>, known: set<string>, j: nat, k: nat)
    requires j < k < |Filter(entries, known).features|
    ensures var f := Filter(entries, known).features;
            && Str(f[j]) in Scanned(entries) && Str(f[k]) in Scanned(entries)
            && FirstIndex(Scanned(entries), Str(f[j])) < FirstIndex(Scanned(entries), Str(f[k]))
  {
    ScanOrder(Scanned(entries), known, j, k);
  }

  lemma NoteAddsUp(entries: seq<Json>, known: set<string>)
    requires Filter(entries, known).note.Some?
    ensures var n := Filter(entries, known).note.value;
            && n.received == |entries| && n.kept == |Filter(entries, known).features|
            && n.kept + n.unknown + n.malformed + n.duplicate + n.unscanned == n.received
            && n.ignored == n.received - n.kept && n.unscanned == |entries| - |Scanned(entries)|
            && |n.samples| <= 3
  {
    ScanCounts(Scanned(entries), known);
  }

  /** Filtering the output again changes nothing and gives no note. */
  lemma FilterIdempotent(entries: seq<Json>, known: set<string>)
    ensures var f := Filter(entries, known).features;
            Filter(AsEntries(f), known) == Filtered(f, None)
  {
    var f := Filter(entries, known).features;
    ScanMembers(Scanned(entries), known);
    ScanCounts(Scanned(entries), known);
    ScanOfGood(f, known);
    assert Scanned(AsEntries(f)) == AsEntries(f);
  }

  // ---------------------------------------------------------------- what is ignored, by cause

  predicate IsMalformed(entries: seq<Json>, i: nat) {
    i < |entries| && !(entries[i].Str? && 1 <= |entries[i].s| <= 64)
  }

  predicate IsUnknown(entries: seq<Json>, known: set<string>, i: nat) {
    i < |entries| && !IsMalformed(entries, i) && entries[i].s !in known
  }

  predicate IsRepeated(entries: seq<Json>, known: set<string>, i: nat) {
    i < |entries| && !IsMalformed(entries, i) && entries[i].s in known && entries[i] in entries[..i]
  }

  /** How many of the first `n` positions have the property. */
  function CountTo(has: nat -> bool, n: nat): nat {
    if n == 0 then 0 else CountTo(has, n - 1) + if has(n - 1) then 1 else 0
  }

  function MalformedAt(entries: seq<Json>): nat -> bool {
    (i: nat) => IsMalformed(entries, i)
  }

  function UnknownAt(entries: seq<Json>, known: set<string>): nat -> bool {
    (i: nat) => IsUnknown(entries, known, i)
  }

  function RepeatedAt(entries: seq<Json>, known: set<string>): nat -> bool {
    (i: nat) => IsRepeated(entries, known, i)
  }

  lemma {:induction false} CountToSame(a: nat -> bool, b: nat -> bool, n: nat)
    requires forall i: nat :: i < n ==> a(i) == b(i)
    ensures CountTo(a, n) == CountTo(b, n)
  {
    if n > 0 {
      CountToSame(a, b, n - 1);
    }
  }

  lemma CountsFront(front: seq<Json>, last: Json, known: set<string>)
    ensures var entries, n := front + [last], |front|;
            && CountTo(MalformedAt(entries), n) == CountTo(MalformedAt(front), n)
            && CountTo(UnknownAt(entries, known), n) == CountTo(UnknownAt(front, known), n)
            && CountTo(RepeatedAt(entries, known), n) == CountTo(RepeatedAt(front, known), n)
  {
    var entries, n := front + [last], |front|;
    forall i: nat | i < n
      ensures entries[i] == front[i] && entries[..i] == front[..i]
    {
    }
    CountToSame(MalformedAt(entries), MalformedAt(front), n);
    CountToSame(UnknownAt(entries, known), UnknownAt(front, known), n);
    CountToSame(RepeatedAt(entries, known), RepeatedAt(front, known), n);
  }

  /** Each count is the number of entries of its cause. */
  ghost predicate CountedByCause(entries: seq<Json>, known: set<string>, scan: Scan) {
    && scan.malformed == CountTo(MalformedAt(entries), |entries|)
    && scan.unknown == CountTo(UnknownAt(entries, known), |entries|)
    && scan.duplicate == CountTo(RepeatedAt(entries, known), |entries|)
  }

  lemma {:induction false} ScanByCause(entries: seq<Json>, known: set<string>)
    ensures CountedByCause(entries, known, ScanAll(entries, known))
  {
    if entries != [] {
      var front, last := entries[..|entries| - 1], entries[|entries| - 1];
      ScanByCause(front, known);
      ScanMembers(front, known);
      assert entries == front + [last];
      CountsFront(front, last, known);
      OneByCause(front, last, known, ScanAll(front, known));
    }
  }

  lemma OneByCause(front: seq<Json>, last: Json, known: set<string>, scan: Scan)
    requires CountedByCause(front, known, scan)
    requires forall s :: s in scan.features <==> Good(s, known) && Str(s) in front
    requires var entries, n := front + [last], |front|;
             && CountTo(MalformedAt(entries), n) == CountTo(MalformedAt(front), n)
             && CountTo(UnknownAt(entries, known), n) == CountTo(UnknownAt(front, known), n)
             && CountTo(RepeatedAt(entries, known), n) == CountTo(RepeatedAt(front, known), n)
    ensures CountedByCause(front + [last], known, ScanOne(scan, last, known))
  {
    var entries, n := front + [last], |front|;
    assert entries[..n] == front && entries[n] == last;
    assert IsMalformed(entries, n) <==> !WellFormedName(last);
    if last.Str? {
      assert last == Str(last.s);
      assert last.s in Elements(scan.features) <==> last.s in scan.features;
    }
  }

  /** The note says of how many scanned entries each cause is true. */
  lemma NoteByCause(entries: seq<Json>, known: set<string>)
    requires Filter(entries, known).note.Some?
    ensures var note, scanned := Filter(entries, known).note.value, Scanned(entries);
            && note.malformed == CountTo(MalformedAt(scanned), |scanned|)
            && note.unknown == CountTo(UnknownAt(scanned, known), |scanned|)
            && note.duplicate == CountTo(RepeatedAt(scanned, known), |scanned|)
  {
    ScanByCause(Scanned(entries), known);
  }
}

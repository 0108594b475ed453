/**
 * Hit counts of an LCOV record: reading them from its rows, merging two sets
 * of them, and printing them. Line counts and branch counts are read, merged
 * and printed alike, with a different key. A row is modelled as already split
 * into its fields.
 */
module LcovHits {
  import opened Strings

  /** A source line, ordered by its number. */
  datatype Line = Line(no: int)

  /** The last field of a branch row: `-` for a branch never reached, or how often it was taken. */
  datatype Taken = Dash | Times(n: nat)

  datatype Row =
    | Sf(name: string)
    | Da(line: Line, count: int)
    | Lf(n: nat)
    | Lh(n: nat)
    | Brda(branch: string, taken: Taken)
    | Brf(n: nat)
    | Brh(n: nat)
    | End
    | Other(text: string)

  type Record = seq<Row>
  type Hits<K> = map<K, nat>

  /** What a row says about a key, if anything. */
  type Mark<K> = Option<(K, int)>

  function Max(a: int, b: int): int {
    if a < b then b else a
  }

  /** The hit count of a key, absent keys counting 0. */
  function Get<K(==)>(hits: Hits<K>, key: K): nat {
    if key in hits then hits[key] else 0
  }

  // ---------------------------------------------------------------- reading

  function Raised<K(==)>(hits: Hits<K>, mark: Mark<K>): Hits<K> {
    match mark
    case None => hits
    case Some(m) => hits[m.0 := Max(Get(hits, m.0), m.1)]
  }

  /** The counts that the rows give, each key with the largest one. */
  function Reading<K(==)>(rows: Record, at: Row -> Mark<K>): Hits<K> {
    if rows == [] then map[] else Raised(Reading(rows[..|rows| - 1], at), at(rows[|rows| - 1]))
  }

  /** The largest count the rows give the key, at least 0. */
  ghost predicate IsLargest<K>(rows: Record, at: Row -> Mark<K>, key: K, hit: nat) {
    && (forall i :: 0 <= i < |rows| && at(rows[i]).Some? && at(rows[i]).value.0 == key ==> at(rows[i]).value.1 <= hit)
    && (hit == 0 || exists i :: 0 <= i < |rows| && at(rows[i]) == Some((key, hit)))
  }

  ghost predicate Mentions<K>(rows: Record, at: Row -> Mark<K>, key: K) {
    exists i :: 0 <= i < |rows| && at(rows[i]).Some? && at(rows[i]).value.0 == key
  }

  /** A key has an entry exactly when it has a row, and the entry is the largest count of its rows. */
  lemma {:induction false} HitIsLargest<K>(rows: Record, at: Row -> Mark<K>, key: K)
    ensures IsLargest(rows, at, key, Get(Reading(rows, at), key))
    ensures key in Reading(rows, at) <==> Mentions(rows, at, key)
  {
    if rows != [] {
      var front, row := rows[..|rows| - 1], rows[|rows| - 1];
      HitIsLargest(front, at, key);
      assert forall i :: 0 <= i < |front| ==> front[i] == rows[i];
      if at(row).Some? && at(row).value.0 == key {
        assert at(rows[|rows| - 1]).Some?;
      }
    }
  }

  predicate Silent<K(==)>(rows: Record, at: Row -> Mark<K>) {
    forall i :: 0 <= i < |rows| ==> at(rows[i]).None?
  }

  lemma {:induction false} ReadingAppend<K>(front: Record, back: Record, at: Row -> Mark<K>)
    requires Silent(back, at)
    ensures Reading(front + back, at) == Reading(front, at)
  {
    if back == [] {
      assert front + back == front;
    } else {
      ReadingAppend(front, back[..|back| - 1], at);
      assert (front + back)[..|front + back| - 1] == front + back[..|back| - 1];
    }
  }

  lemma {:induction false} ReadingPrepend<K>(front: Record, rows: Record, at: Row -> Mark<K>)
    requires Silent(front, at)
    ensures Reading(front + rows, at) == Reading(rows, at)
  {
    if rows == [] {
      ReadingAppend([], front, at);
      assert front + rows == [] + front;
    } else {
      ReadingPrepend(front, rows[..|rows| - 1], at);
      assert (front + rows)[..|front + rows| - 1] == front + rows[..|rows| - 1];
    }
  }

  /** Rows that say nothing, before and after, change nothing. */
  lemma Framed<K>(front: Record, rows: Record, back: Record, at: Row -> Mark<K>)
    requires Silent(front, at) && Silent(back, at)
    ensures Reading(front + rows + back, at) == Reading(rows, at)
  {
    ReadingPrepend(front, rows, at);
    ReadingAppend(front + rows, back, at);
  }

  // ---------------------------------------------------------------- merging

  function Positive<K(==)>(hits: Hits<K>): set<K> {
    set key | key in hits && hits[key] > 0
  }

  /** The primary's keys and the secondary's executed keys, each with the larger count. */
  function Smart<K(==)>(primary: Hits<K>, secondary: Hits<K>): Hits<K> {
    map key | key in primary.Keys + Positive(secondary) :: Max(Get(primary, key), Get(secondary, key))
  }

  /** The secondary's keys outside `todo` have been merged. */
  ghost predicate SmartSoFar<K>(primary: Hits<K>, secondary: Hits<K>, todo: set<K>, merged: Hits<K>) {
    todo <= secondary.Keys && merged == Smart(primary, secondary - todo)
  }

  lemma SmartStart<K>(primary: Hits<K>, secondary: Hits<K>)
    ensures SmartSoFar(primary, secondary, secondary.Keys, primary)
  {
    assert secondary - secondary.Keys == map[];
    assert Positive<K>(map[]) == {};
    assert Smart(primary, map[]) == primary;
  }

  lemma SmartNext<K>(primary: Hits<K>, secondary: Hits<K>, todo: set<K>, merged: Hits<K>, key: K)
    requires SmartSoFar(primary, secondary, todo, merged) && key in todo
    ensures SmartSoFar(primary, secondary, todo - {key}, SmartItem(merged, key, secondary[key]))
  {
    SmartStep(primary, secondary - todo, key, secondary[key]);
    assert secondary - (todo - {key}) == (secondary - todo)[key := secondary[key]];
  }

  lemma SmartEnd<K>(primary: Hits<K>, secondary: Hits<K>, todo: set<K>, merged: Hits<K>)
    requires SmartSoFar(primary, secondary, todo, merged) && todo == {}
    ensures merged == Smart(primary, secondary)
  {
    assert secondary - todo == secondary;
  }

  /** `smart_merge_hits`, and the loop over branches in `merge_sf_records`, which is the same. */
  method SmartMergeHits<K(==)>(primary: Hits<K>, secondary: Hits<K>) returns (merged: Hits<K>)
    ensures merged == Smart(primary, secondary)
  {
    merged := primary;
    var todo := secondary.Keys;
    SmartStart(primary, secondary);
    while |todo| > 0
      invariant SmartSoFar(primary, secondary, todo, merged)
      decreases |todo|
    {
      var key :| key in todo;
      var count := secondary[key];
      SmartNext(primary, secondary, todo, merged, key);
      if key in merged {
        merged := merged[key := Max(merged[key], count)];
      } else if count > 0 {
        merged := merged[key := count];
      }
      todo := todo - {key};
    }
    SmartEnd(primary, secondary, todo, merged);
  }

  /** One item of the secondary, as the loop body handles it. */
  function SmartItem<K(==)>(merged: Hits<K>, key: K, count: nat): Hits<K> {
    if key in merged then merged[key := Max(merged[key], count)]
    else if count > 0 then merged[key := count] else merged
  }

  lemma SmartStep<K>(primary: Hits<K>, done: Hits<K>, key: K, count: nat)
    requires key !in done
    ensures Smart(primary, done[key := count]) == SmartItem(Smart(primary, done), key, count)
  {
    var more := done[key := count];
    var next, item := Smart(primary, more), SmartItem(Smart(primary, done), key, count);
    forall k ensures (k in next <==> k in item) && Get(next, k) == Get(item, k) {
      SmartKeys(primary, done, k);
      SmartKeys(primary, more, k);
      SmartIsMax(primary, done, k);
      SmartIsMax(primary, more, k);
    }
    SameHits(next, item);
  }

  lemma SameHits<K>(a: Hits<K>, b: Hits<K>)
    requires forall k :: (k in a <==> k in b) && Get(a, k) == Get(b, k)
    ensures a == b
  {
    assert a.Keys == b.Keys;
    forall k | k in a ensures a[k] == b[k] {
      assert Get(a, k) == Get(b, k);
    }
  }

  /** Pointwise maximum, with absent keys as 0. */
  lemma SmartIsMax<K>(primary: Hits<K>, secondary: Hits<K>, key: K)
    ensures Get(Smart(primary, secondary), key) == Max(Get(primary, key), Get(secondary, key))
  {
    if key !in primary && key !in Positive(secondary) {
      assert Get(secondary, key) == 0;
    }
  }

  /** Nothing is added but executed keys, and nothing of the primary is lost. */
  lemma SmartKeys<K>(primary: Hits<K>, secondary: Hits<K>, key: K)
    ensures key in Smart(primary, secondary) <==> key in primary || Get(secondary, key) > 0
  {
  }

  /** Covered keys are the union of both sides' covered keys. */
  lemma SmartCovers<K>(primary: Hits<K>, secondary: Hits<K>)
    ensures Positive(Smart(primary, secondary)) == Positive(primary) + Positive(secondary)
  {
    var merged := Smart(primary, secondary);
    forall key ensures key in Positive(merged) <==> key in Positive(primary) + Positive(secondary) {
      SmartIsMax(primary, secondary, key);
    }
  }

  /** Cross products with `added` more keys, all of them covered. */
  lemma RatioArithmetic(found: nat, hit: nat, added: nat, hit': nat)
    requires hit <= found && hit + added <= hit'
    ensures hit' * found >= hit * (found + added)
  {
    assert hit' * found >= (hit + added) * found;
    assert (hit + added) * found - hit * (found + added) == added * (found - hit);
    assert added * (found - hit) >= 0;
  }

  lemma SetRatio<K>(found: set<K>, covered: set<K>, executed: set<K>)
    requires covered <= found
    ensures |covered + executed| * |found| >= |covered| * |found + executed|
  {
    var added := executed - found;
    assert found + executed == found + added && |found + added| == |found| + |added|;
    SubsetSize(covered, found);
    assert |covered + added| == |covered| + |added|;
    SubsetSize(covered + added, covered + executed);
    RatioArithmetic(|found|, |covered|, |added|, |covered + executed|);
  }

  /** The coverage ratio never drops below the primary's: LH'/LF' >= LH/LF, multiplied out. */
  lemma RatioNeverDrops<K>(primary: Hits<K>, secondary: Hits<K>)
    ensures var merged := Smart(primary, secondary);
            |Positive(merged)| * |primary.Keys| >= |Positive(primary)| * |merged.Keys|
  {
    SmartCovers(primary, secondary);
    assert Smart(primary, secondary).Keys == primary.Keys + Positive(secondary);
    SetRatio(primary.Keys, Positive(primary), Positive(secondary));
  }

  // ---------------------------------------------------------------- sorting

  /** A strict total order. */
  ghost predicate Orders<K(!new)>(before: (K, K) -> bool) {
    && (forall a, b :: before(a, b) || before(b, a) || a == b)
    && (forall a, b :: before(a, b) ==> !before(b, a))
    && (forall a, b, c :: before(a, b) && before(b, c) ==> before(a, c))
  }

  predicate LineBefore(a: Line, b: Line) {
    a.no < b.no
  }

  lemma LineOrder()
    ensures Orders(LineBefore)
  {
  }

  lemma TextOrder()
    ensures Orders(Less)
  {
    forall a, b ensures Less(a, b) || Less(b, a) || a == b {
      LessTotal(a, b);
    }
    forall a, b | Less(a, b) ensures !Less(b, a) {
      LessAsymmetric(a, b);
    }
    forall a, b, c | Less(a, b) && Less(b, c) ensures Less(a, c) {
      LessTransitive(a, b, c);
    }
  }

  ghost predicate IsLeast<K>(keys: set<K>, before: (K, K) -> bool, least: K) {
    least in keys && forall key :: key in keys ==> key == least || before(least, key)
  }

  lemma {:induction false} HasLeast<K(!new)>(keys: set<K>, before: (K, K) -> bool) returns (least: K)
    requires Orders(before) && |keys| > 0
    ensures IsLeast(keys, before, least)
  {
    var some :| some in keys;
    var rest := keys - {some};
    if |rest| == 0 {
      assert keys == {some};
      least := some;
    } else {
      var lower := HasLeast(rest, before);
      least := if before(lower, some) then lower else some;
      assert keys == rest + {some};
    }
  }

  function Least<K(!new)>(keys: set<K>, before: (K, K) -> bool): (least: K)
    requires Orders(before) && |keys| > 0
    ensures IsLeast(keys, before, least)
  {
    assert exists least :: least in keys && forall key :: key in keys ==> key == least || before(least, key) by {
      var least := HasLeast(keys, before);
    }
    var least :| least in keys && forall key :: key in keys ==> key == least || before(least, key);
    least
  }

  /** `sorted(keys)` */
  function Sorted<K(!new)>(keys: set<K>, before: (K, K) -> bool): seq<K>
    requires Orders(before)
  {
    if |keys| == 0 then []
    else
      var least := Least(keys, before);
      [least] + Sorted(keys - {least}, before)
  }

  ghost predicate Ascending<K>(keys: seq<K>, before: (K, K) -> bool) {
    forall i, j :: 0 <= i < j < |keys| ==> before(keys[i], keys[j])
  }

  lemma {:induction false} SortedHolds<K(!new)>(keys: set<K>, before: (K, K) -> bool)
    requires Orders(before)
    ensures |Sorted(keys, before)| == |keys|
    ensures forall key :: key in Sorted(keys, before) <==> key in keys
    ensures Ascending(Sorted(keys, before), before)
  {
    if |keys| > 0 {
      var least := Least(keys, before);
      var rest := Sorted(keys - {least}, before);
      SortedHolds(keys - {least}, before);
      assert forall i :: 0 <= i < |rest| ==> rest[i] in keys && rest[i] != least;
    }
  }

  // ---------------------------------------------------------------- printing

  /** One row for each key, in the order given. */
  function Listed<K(==)>(hits: Hits<K>, keys: seq<K>, row: (K, nat) -> Row): Record
    requires Has(hits, keys)
  {
    if keys == [] then []
    else Listed(hits, keys[..|keys| - 1], row) + [row(keys[|keys| - 1], hits[keys[|keys| - 1]])]
  }

  /** Whoever reads such a row learns the key and the count. */
  ghost predicate Tells<K(!new)>(row: (K, nat) -> Row, at: Row -> Mark<K>) {
    forall key, n: nat :: at(row(key, n)) == Some((key, n))
  }

  predicate Has<K(==)>(hits: Hits<K>, keys: seq<K>) {
    forall i :: 0 <= i < |keys| ==> keys[i] in hits
  }

  predicate Distinct<K(==)>(keys: seq<K>) {
    forall i, j :: 0 <= i < j < |keys| ==> keys[i] != keys[j]
  }

  function Chosen<K(==)>(hits: Hits<K>, keys: seq<K>): Hits<K>
    requires Has(hits, keys)
  {
    map key | key in keys :: hits[key]
  }

  lemma {:induction false} ListedReads<K(!new)>(hits: Hits<K>, keys: seq<K>, row: (K, nat) -> Row, at: Row -> Mark<K>)
    requires Has(hits, keys) && Distinct(keys) && Tells(row, at)
    ensures Reading(Listed(hits, keys, row), at) == Chosen(hits, keys)
    ensures |Listed(hits, keys, row)| == |keys|
  {
    if keys != [] {
      var front, last := keys[..|keys| - 1], keys[|keys| - 1];
      assert Has(hits, front) && Distinct(front);
      ListedReads(hits, front, row, at);
      var n: nat := hits[last];
      assert at(row(last, n)) == Some((last, n));
      ReadingOneMore(Listed(hits, front, row), row(last, n), at);
      OneMoreKey(hits, keys, front, last, Chosen(hits, front));
    }
  }

  lemma ReadingOneMore<K>(front: Record, row: Row, at: Row -> Mark<K>)
    ensures Reading(front + [row], at) == Raised(Reading(front, at), at(row))
  {
    assert (front + [row])[..|front|] == front;
  }

  lemma OneMoreKey<K>(hits: Hits<K>, keys: seq<K>, front: seq<K>, last: K, chosen: Hits<K>)
    requires keys == front + [last] && Has(hits, keys) && Distinct(keys) && Has(hits, front)
    requires last in hits && chosen == Chosen(hits, front)
    ensures Chosen(hits, keys) == Raised(chosen, Some((last, hits[last])))
  {
    assert forall i :: 0 <= i < |front| ==> front[i] == keys[i] && keys[i] != keys[|keys| - 1];
    assert last !in chosen;
  }

  lemma {:induction false} ListedRows<K>(hits: Hits<K>, keys: seq<K>, row: (K, nat) -> Row, i: nat) returns (key: K)
    requires Has(hits, keys) && i < |Listed(hits, keys, row)|
    ensures key in hits && Listed(hits, keys, row)[i] == row(key, hits[key])
  {
    if i == |Listed(hits, keys, row)| - 1 {
      key := keys[|keys| - 1];
    } else {
      key := ListedRows(hits, keys[..|keys| - 1], row, i);
    }
  }

  /** All counts, in ascending order of their keys. */
  function Printed<K(!new, ==)>(hits: Hits<K>, before: (K, K) -> bool, row: (K, nat) -> Row): Record
    requires Orders(before)
  {
    SortedHolds(hits.Keys, before);
    Listed(hits, Sorted(hits.Keys, before), row)
  }

  /** Reading printed counts gives them back. */
  lemma PrintedReads<K(!new)>(hits: Hits<K>, before: (K, K) -> bool, row: (K, nat) -> Row, at: Row -> Mark<K>)
    requires Orders(before) && Tells(row, at)
    ensures Reading(Printed(hits, before, row), at) == hits && |Printed(hits, before, row)| == |hits.Keys|
  {
    SortedHolds(hits.Keys, before);
    var keys := Sorted(hits.Keys, before);
    forall i, j | 0 <= i < j < |keys| ensures keys[i] != keys[j] {
      assert before(keys[i], keys[j]);
    }
    ListedReads(hits, keys, row, at);
    assert hits == Chosen(hits, keys);
  }

  lemma PrintedRows<K(!new)>(hits: Hits<K>, before: (K, K) -> bool, row: (K, nat) -> Row, i: nat) returns (key: K)
    requires Orders(before) && i < |Printed(hits, before, row)|
    ensures key in hits && Printed(hits, before, row)[i] == row(key, hits[key])
  {
    SortedHolds(hits.Keys, before);
    key := ListedRows(hits, Sorted(hits.Keys, before), row, i);
  }

  /** The loop `for key in sorted(hits)` that appends a row for each key. */
  method PrintHits<K(!new, ==)>(hits: Hits<K>, before: (K, K) -> bool, row: (K, nat) -> Row) returns (rows: Record)
    requires Orders(before)
    ensures rows == Printed(hits, before, row)
  {
    SortedHolds(hits.Keys, before);
    rows := ListHits(hits, Sorted(hits.Keys, before), row);
  }

  method ListHits<K(==)>(hits: Hits<K>, keys: seq<K>, row: (K, nat) -> Row) returns (rows: Record)
    requires Has(hits, keys)
    ensures rows == Listed(hits, keys, row)
  {
    rows := [];
    var i := 0;
    while i < |keys|
      invariant 0 <= i <= |keys|
      invariant rows == Listed(hits, keys[..i], row)
    {
      assert keys[..i + 1][..i] == keys[..i];
      rows := rows + [row(keys[i], hits[keys[i]])];
      i := i + 1;
    }
    assert keys[..i] == keys;
  }
}

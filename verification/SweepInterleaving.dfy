/**
 * Any number of sweep calls running at once among any writers, lease or no
 * lease: one history of database operations, in the order they took effect.
 */
module SweepInterleaving {
  import opened Strings
  import opened Envelopes
  import opened SweepModel
  import opened SweepSafety

  /** Actor 0 stands for every writer; actor n + 1 is call n. */
  datatype Event = Event(actor: nat, op: Op, heard: bool)

  /** One sweep call: the stretch of the history it spans, how it was made, and how it ended. */
  datatype Call = Call(lo: nat, hi: nat, world: World, cursor: Cursor, limit: nat, after: World, result: Result)

  /** The history as the log of one actor has it. */
  function SeenBy(h: seq<Event>, actor: nat): seq<Entry> {
    seq(|h|, i requires 0 <= i < |h| => Entry(h[i].actor == actor, h[i].op, h[i].actor != actor || h[i].heard))
  }

  ghost function RowsAfter(base: Rows, h: seq<Event>): Rows {
    Replay(base, SeenBy(h, 0)).rows
  }

  /** Call number `n` is what actor `n + 1` does in the history. */
  ghost predicate Takes(s: Keyring, base: Rows, h: seq<Event>, c: Call, n: nat) {
    && c.lo <= c.hi <= |h| && c.limit > 0
    && c.world.log == [] && c.world.rows == RowsAfter(base, h[..c.lo])
    && Advance(s, c.world, c.cursor, c.limit, EMPTY_SUMMARY) == (c.after, c.result)
    && c.after.log == SeenBy(h[c.lo..c.hi], n + 1)
  }

  ghost predicate Interleaving(s: Keyring, base: Rows, h: seq<Event>, calls: seq<Call>) {
    && (forall n :: 0 <= n < |calls| ==> Takes(s, base, h, calls[n], n))
    && (forall i :: 0 <= i < |h| ==> h[i].actor <= |calls|)
    && (forall i :: 0 <= i < |h| && h[i].actor > 0 ==> calls[h[i].actor - 1].lo <= i < calls[h[i].actor - 1].hi)
  }

  /** Envelopes written in the history by all calls together. */
  ghost function Written(base: Rows, h: seq<Event>): nat {
    if h == [] then 0
    else
      var front := h[..|h| - 1];
      var e := h[|h| - 1];
      Written(base, front) + if e.actor > 0 && Hits(RowsAfter(base, front), e.op) then Weight(e.op) else 0
  }

  /** What the calls report as re-encrypted, added up. */
  function Reported(calls: seq<Call>): nat {
    if calls == [] then 0 else Reported(calls[..|calls| - 1]) + calls[|calls| - 1].result.sum.reencrypted
  }

  // ---------------------------------------------------------------- replaying in pieces

  /** Books kept over a stretch that follows `a`. */
  lemma {:induction false} ReplayAppend(base: Rows, a: seq<Entry>, b: seq<Entry>)
    ensures var first := Replay(base, a);
            var second := Replay(first.rows, b);
            Replay(base, a + b) == Books(second.rows, first.written + second.written, first.unheard + second.unheard)
    decreases |b|
  {
    if b == [] {
      assert a + b == a;
    } else {
      var front := b[..|b| - 1];
      ReplayAppend(base, a, front);
      assert (a + b)[..|a + b| - 1] == a + front;
    }
  }

  /** Whose eyes the history is seen through makes no difference to the rows. */
  lemma {:induction false} RowsForAll(base: Rows, h: seq<Event>, n: nat)
    ensures Replay(base, SeenBy(h, n)).rows == RowsAfter(base, h)
  {
    if h != [] {
      var front := h[..|h| - 1];
      RowsForAll(base, front, n);
      assert SeenBy(h, n)[..|h| - 1] == SeenBy(front, n);
      assert SeenBy(h, 0)[..|h| - 1] == SeenBy(front, 0);
    }
  }

  /** A stretch without the actor's own operations adds nothing to its books. */
  lemma {:induction false} NothingWritten(base: Rows, log: seq<Entry>)
    requires forall i :: 0 <= i < |log| ==> !log[i].own
    ensures Replay(base, log).written == 0 && Replay(base, log).unheard == 0
  {
    if log != [] {
      NothingWritten(base, log[..|log| - 1]);
    }
  }

  /** An actor that acts only between `lo` and `hi` has the books of that stretch. */
  lemma StretchBooks(base: Rows, h: seq<Event>, lo: nat, hi: nat, actor: nat)
    requires lo <= hi <= |h|
    requires forall i :: 0 <= i < |h| && h[i].actor == actor ==> lo <= i < hi
    ensures var stretch := Replay(RowsAfter(base, h[..lo]), SeenBy(h[lo..hi], actor));
            && Replay(base, SeenBy(h, actor)).written == stretch.written
            && Replay(base, SeenBy(h, actor)).unheard == stretch.unheard
  {
    var a, b, d := SeenBy(h[..lo], actor), SeenBy(h[lo..hi], actor), SeenBy(h[hi..], actor);
    assert SeenBy(h, actor) == (a + b) + d;
    ReplayAppend(base, a + b, d);
    ReplayAppend(base, a, b);
    RowsForAll(base, h[..lo], actor);
    NothingWritten(base, a);
    NothingWritten(Replay(base, a + b).rows, d);
  }

  /** Over the whole history, actor `n + 1` wrote what its call reports, up to unheard replies. */
  ghost predicate Settles(base: Rows, h: seq<Event>, c: Call, n: nat) {
    var books := Replay(base, SeenBy(h, n + 1));
    books.written == c.result.sum.reencrypted + books.unheard
  }

  /** What a call's soundness says about the history. */
  ghost predicate Explained(s: Keyring, base: Rows, h: seq<Event>, c: Call, n: nat) {
    && c.lo <= c.hi <= |h| && c.after.log == SeenBy(h[c.lo..c.hi], n + 1)
    && OwnReseals(s, c.after.log)
    && Settles(base, h, c, n)
  }

  lemma CallExplained(s: Keyring, base: Rows, h: seq<Event>, c: Call, n: nat)
    requires Lawful(s) && Takes(s, base, h, c, n)
    requires forall i :: 0 <= i < |h| && h[i].actor == n + 1 ==> c.lo <= i < c.hi
    ensures Explained(s, base, h, c, n)
  {
    CallIsSound(s, c.world, c.cursor, c.limit);
    StretchBooks(base, h, c.lo, c.hi, n + 1);
  }

  // ---------------------------------------------------------------- all calls together

  /** The books of the first `n` calls, added up. */
  ghost function SumOfBooks(base: Rows, h: seq<Event>, n: nat): nat {
    if n == 0 then 0 else SumOfBooks(base, h, n - 1) + Replay(base, SeenBy(h, n)).written
  }

  lemma {:induction false} SumGrows(base: Rows, h: seq<Event>, n: nat)
    requires h != []
    ensures var e := h[|h| - 1];
            SumOfBooks(base, h, n) == SumOfBooks(base, h[..|h| - 1], n)
              + if 0 < e.actor <= n && Hits(RowsAfter(base, h[..|h| - 1]), e.op) then Weight(e.op) else 0
  {
    if n > 0 {
      SumGrows(base, h, n - 1);
      RowsForAll(base, h[..|h| - 1], n);
      assert SeenBy(h, n)[..|h| - 1] == SeenBy(h[..|h| - 1], n);
    }
  }

  lemma {:induction false} EmptySum(base: Rows, n: nat)
    ensures SumOfBooks(base, [], n) == 0
  {
    if n > 0 {
      EmptySum(base, n - 1);
    }
  }

  lemma {:induction false} WrittenIsSum(base: Rows, h: seq<Event>, n: nat)
    requires forall i :: 0 <= i < |h| ==> h[i].actor <= n
    ensures Written(base, h) == SumOfBooks(base, h, n)
  {
    if h == [] {
      EmptySum(base, n);
    } else {
      WrittenIsSum(base, h[..|h| - 1], n);
      SumGrows(base, h, n);
    }
  }

  lemma {:induction false} HeardInFull(base: Rows, log: seq<Entry>)
    requires forall i :: 0 <= i < |log| ==> log[i].heard
    ensures Replay(base, log).unheard == 0
  {
    if log != [] {
      HeardInFull(base, log[..|log| - 1]);
    }
  }

  lemma {:induction false} BooksAreReported(base: Rows, h: seq<Event>, calls: seq<Call>, n: nat)
    requires n <= |calls| && forall i :: 0 <= i < |calls| ==> Settles(base, h, calls[i], i)
    ensures Reported(calls[..n]) <= SumOfBooks(base, h, n)
    ensures (forall i :: 0 <= i < |h| ==> h[i].heard) ==> Reported(calls[..n]) == SumOfBooks(base, h, n)
  {
    if n > 0 {
      BooksAreReported(base, h, calls, n - 1);
      assert Settles(base, h, calls[n - 1], n - 1);
      assert calls[..n][..n - 1] == calls[..n - 1];
      if forall i :: 0 <= i < |h| ==> h[i].heard {
        HeardInFull(base, SeenBy(h, n));
      }
    }
  }

  lemma SweepsReseal(s: Keyring, base: Rows, h: seq<Event>, c: Call, n: nat, i: nat)
    requires Explained(s, base, h, c, n) && c.lo <= i < c.hi && h[i].actor == n + 1
    ensures IsReseal(s, h[i].op)
  {
    assert c.after.log[i - c.lo] == SeenBy(h[c.lo..c.hi], n + 1)[i - c.lo];
  }

  lemma ExplainedHistory(s: Keyring, base: Rows, h: seq<Event>, calls: seq<Call>)
    requires forall n :: 0 <= n < |calls| ==> Explained(s, base, h, calls[n], n)
    requires forall i :: 0 <= i < |h| ==> h[i].actor <= |calls|
    requires forall i :: 0 <= i < |h| && h[i].actor > 0 ==> calls[h[i].actor - 1].lo <= i < calls[h[i].actor - 1].hi
    ensures forall i :: 0 <= i < |h| && h[i].actor > 0 ==> IsReseal(s, h[i].op)
    ensures View(s, RowsAfter(base, h)) == View(s, WritersOnly(s, base, SeenBy(h, 0)))
    ensures Reported(calls) <= Written(base, h)
    ensures (forall i :: 0 <= i < |h| ==> h[i].heard) ==> Reported(calls) == Written(base, h)
  {
    forall i | 0 <= i < |h| && h[i].actor > 0 ensures IsReseal(s, h[i].op) {
      SweepsReseal(s, base, h, calls[h[i].actor - 1], h[i].actor - 1, i);
    }
    OnlyWritersShow(s, base, SeenBy(h, 0));
    BooksAreReported(base, h, calls, |calls|);
    assert calls[..|calls|] == calls;
    WrittenIsSum(base, h, |calls|);
  }

  /**
   * However many sweep calls overlap, and whatever the writers do among them,
   * every sweep operation is a re-seal, a reader sees exactly what the writers
   * alone would have left, and the envelopes written are those the calls
   * reported, up to the ones whose reply was lost.
   */
  lemma ConcurrentSweeps(s: Keyring, base: Rows, h: seq<Event>, calls: seq<Call>)
    requires Lawful(s) && Interleaving(s, base, h, calls)
    ensures forall i :: 0 <= i < |h| && h[i].actor > 0 ==> IsReseal(s, h[i].op)
    ensures View(s, RowsAfter(base, h)) == View(s, WritersOnly(s, base, SeenBy(h, 0)))
    ensures Reported(calls) <= Written(base, h)
    ensures (forall i :: 0 <= i < |h| ==> h[i].heard) ==> Reported(calls) == Written(base, h)
  {
    forall n | 0 <= n < |calls| ensures Explained(s, base, h, calls[n], n) {
      CallExplained(s, base, h, calls[n], n);
    }
    ExplainedHistory(s, base, h, calls);
  }
}

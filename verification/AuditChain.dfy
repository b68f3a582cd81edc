/** The audit hash chain (daimon-anchor verify.rs, canonical.rs, snapshot.rs).
    The hash is any function from byte strings to 32 bytes; nothing is assumed of
    it.  Where a digest is said to pin something down, the alternative is an
    explicit pair of inputs it confuses, computed from the data at hand. */
module AuditChain {
  newtype byte = x: int | 0 <= x < 256

  type Bytes = seq<byte>

  const ZEROS: Bytes := [0, 0, 0, 0, 0, 0, 0, 0, 0, 0, 0, 0, 0, 0, 0, 0, 0, 0, 0, 0, 0, 0, 0, 0, 0, 0, 0, 0, 0, 0, 0, 0]

  type Digest = d: Bytes | |d| == 32 witness ZEROS

  type Hash = Bytes -> Digest

  const GENESIS: Digest := ZEROS

  lemma GenesisIsZero()
    ensures |GENESIS| == 32 && forall i :: 0 <= i < 32 ==> GENESIS[i] == 0
  {
  }

  /** One row of the chain in (ts, id) order: its canonical payload and the hash
      stored with it. */
  datatype ChainRow = ChainRow(id: nat, payload: Bytes, stored: Digest)

  function RowHash(h: Hash, canonical: Bytes, prev: Digest): Digest
  {
    h(canonical + prev)
  }

  function Head(rows: seq<ChainRow>): Digest
  {
    if rows == [] then GENESIS else rows[|rows| - 1].stored
  }

  function Prev(rows: seq<ChainRow>, i: nat): Digest
    requires i < |rows|
  {
    if i == 0 then GENESIS else rows[i - 1].stored
  }

  predicate Broken(h: Hash, rows: seq<ChainRow>, i: nat)
    requires i < |rows|
  {
    rows[i].stored != RowHash(h, rows[i].payload, Prev(rows, i))
  }

  ghost predicate Clean(h: Hash, rows: seq<ChainRow>)
  {
    forall i: nat :: i < |rows| ==> !Broken(h, rows, i)
  }

  datatype ChainBreak = ChainBreak(index: nat, id: nat, expected: Digest, found: Digest)

  /** A break says what is wrong with its row. */
  predicate Reports(h: Hash, rows: seq<ChainRow>, b: ChainBreak)
  {
    && b.index < |rows| && Broken(h, rows, b.index)
    && b.id == rows[b.index].id && b.found == rows[b.index].stored
    && b.expected == RowHash(h, rows[b.index].payload, Prev(rows, b.index))
  }

  predicate Reported(breaks: seq<ChainBreak>, i: nat)
  {
    exists k :: 0 <= k < |breaks| && breaks[k].index == i
  }

  /** The breaks are those of the first `n` rows, each once, in order. */
  ghost predicate ReportTo(h: Hash, rows: seq<ChainRow>, n: nat, breaks: seq<ChainBreak>)
    requires n <= |rows|
  {
    && (forall k :: 0 <= k < |breaks| ==> Reports(h, rows, breaks[k]) && breaks[k].index < n)
    && (forall i: nat :: i < n && Broken(h, rows, i) ==> Reported(breaks, i))
    && (forall a, b :: 0 <= a < b < |breaks| ==> breaks[a].index < breaks[b].index)
  }

  lemma ReportOneMore(h: Hash, rows: seq<ChainRow>, n: nat, breaks: seq<ChainBreak>, b: ChainBreak)
    requires n < |rows| && ReportTo(h, rows, n, breaks) && Reports(h, rows, b) && b.index == n
    ensures ReportTo(h, rows, n + 1, breaks + [b])
  {
    var after := breaks + [b];
    assert after[|breaks|].index == n;
    forall i: nat | i < n + 1 && Broken(h, rows, i)
      ensures Reported(after, i)
    {
      if i < n {
        var k :| 0 <= k < |breaks| && breaks[k].index == i;
        assert after[k].index == i;
      }
    }
  }

  /** The chain walk: it resynchronises on the stored hash after each row. */
  method Verify(h: Hash, rows: seq<ChainRow>) returns (rowsChecked: nat, breaks: seq<ChainBreak>)
    ensures rowsChecked == |rows|
    ensures ReportTo(h, rows, |rows|, breaks)
    ensures breaks == [] <==> Clean(h, rows)
  {
    var expectedPrev: Digest := GENESIS;
    breaks := [];
    rowsChecked := |rows|;
    for n := 0 to |rows|
      invariant expectedPrev == if n == 0 then GENESIS else rows[n - 1].stored
      invariant ReportTo(h, rows, n, breaks)
    {
      var computed := RowHash(h, rows[n].payload, expectedPrev);
      if computed != rows[n].stored {
        var b := ChainBreak(n, rows[n].id, computed, rows[n].stored);
        ReportOneMore(h, rows, n, breaks, b);
        breaks := breaks + [b];
      }
      expectedPrev := rows[n].stored;
    }
    if breaks != [] {
      assert Reports(h, rows, breaks[0]);
    }
  }

  // ----- clean means folded from genesis ------------------------------------

  function LastDigest(ds: seq<Digest>): Digest
  {
    if ds == [] then GENESIS else ds[|ds| - 1]
  }

  /** The hashes a chain over these payloads must carry. */
  function Fold(h: Hash, payloads: seq<Bytes>): (ds: seq<Digest>)
    ensures |ds| == |payloads|
  {
    if payloads == [] then []
    else
      var init := Fold(h, payloads[..|payloads| - 1]);
      init + [RowHash(h, payloads[|payloads| - 1], LastDigest(init))]
  }

  function Payloads(rows: seq<ChainRow>): seq<Bytes>
  {
    seq(|rows|, i requires 0 <= i < |rows| => rows[i].payload)
  }

  function StoredHashes(rows: seq<ChainRow>): seq<Digest>
  {
    seq(|rows|, i requires 0 <= i < |rows| => rows[i].stored)
  }

  lemma PrefixClean(h: Hash, rows: seq<ChainRow>, n: nat)
    requires Clean(h, rows) && n <= |rows|
    ensures Clean(h, rows[..n])
  {
    forall i: nat | i < n
      ensures !Broken(h, rows[..n], i)
    {
      assert !Broken(h, rows, i);
      assert Prev(rows[..n], i) == Prev(rows, i);
    }
  }

  /** No breaks exactly when the stored hashes are the fold of the payloads. */
  lemma {:induction false} CleanIffFold(h: Hash, rows: seq<ChainRow>)
    ensures Clean(h, rows) <==> StoredHashes(rows) == Fold(h, Payloads(rows))
  {
    if rows == [] {
    } else {
      var n := |rows| - 1;
      var front := rows[..n];
      CleanIffFold(h, front);
      assert Payloads(rows)[..n] == Payloads(front);
      assert StoredHashes(rows) == StoredHashes(front) + [rows[n].stored];
      assert Head(front) == Prev(rows, n);
      assert n > 0 ==> StoredHashes(front)[n - 1] == rows[n - 1].stored;
      if Clean(h, rows) {
        PrefixClean(h, rows, n);
        assert !Broken(h, rows, n);
      }
      if StoredHashes(rows) == Fold(h, Payloads(rows)) {
        FoldEqualsClean(h, rows);
      }
    }
  }

  lemma FoldEqualsClean(h: Hash, rows: seq<ChainRow>)
    requires rows != [] && StoredHashes(rows) == Fold(h, Payloads(rows))
    requires StoredHashes(rows[..|rows| - 1]) == Fold(h, Payloads(rows[..|rows| - 1])) ==> Clean(h, rows[..|rows| - 1])
    ensures Clean(h, rows)
  {
    var n := |rows| - 1;
    var front := rows[..n];
    var init := Fold(h, Payloads(front));
    assert Payloads(rows)[..n] == Payloads(front);
    assert StoredHashes(front) == StoredHashes(rows)[..n] == init;
    assert n > 0 ==> init[n - 1] == rows[n - 1].stored;
    forall i: nat | i < |rows|
      ensures !Broken(h, rows, i)
    {
      if i < n {
        assert !Broken(h, front, i) && Prev(front, i) == Prev(rows, i);
      } else {
        assert StoredHashes(rows)[n] == rows[n].stored && Fold(h, Payloads(rows))[n] == rows[n].stored;
      }
    }
  }

  // ----- one edit of a clean chain ------------------------------------------

  /** Changing one payload can break only that row, and goes unnoticed only when
      the two payloads collide behind the same previous hash. */
  lemma EditPayload(h: Hash, rows: seq<ChainRow>, k: nat, payload: Bytes)
    requires Clean(h, rows) && k < |rows|
    ensures var rows' := rows[k := rows[k].(payload := payload)];
            && (forall i: nat :: i < |rows'| && Broken(h, rows', i) ==> i == k)
            && (Broken(h, rows', k) <==> h(payload + Prev(rows, k)) != h(rows[k].payload + Prev(rows, k)))
  {
    var rows' := rows[k := rows[k].(payload := payload)];
    forall i: nat | i < |rows| && i != k
      ensures !Broken(h, rows', i)
    {
      assert !Broken(h, rows, i);
    }
    assert !Broken(h, rows, k);
  }

  /** Changing one stored hash always breaks that row, and besides it at most the
      next. */
  lemma EditStored(h: Hash, rows: seq<ChainRow>, k: nat, stored: Digest)
    requires Clean(h, rows) && k < |rows| && stored != rows[k].stored
    ensures var rows' := rows[k := rows[k].(stored := stored)];
            && Broken(h, rows', k)
            && (forall i: nat :: i < |rows'| && Broken(h, rows', i) ==> i == k || i == k + 1)
            && (k + 1 < |rows| ==>
                 (Broken(h, rows', k + 1) <==>
                   h(rows[k + 1].payload + stored) != h(rows[k + 1].payload + rows[k].stored)))
  {
    var rows' := rows[k := rows[k].(stored := stored)];
    forall i: nat | i < |rows| && i != k && i != k + 1
      ensures !Broken(h, rows', i)
    {
      assert !Broken(h, rows, i);
    }
    assert !Broken(h, rows, k);
    assert k + 1 < |rows| ==> !Broken(h, rows, k + 1);
  }

  /** Deleting a row can break only its successor; deleting the last breaks
      nothing, which is what the anchor's row count is for. */
  lemma DeleteRow(h: Hash, rows: seq<ChainRow>, k: nat)
    requires Clean(h, rows) && k < |rows|
    ensures var rows' := rows[..k] + rows[k + 1..];
            && (forall i: nat :: i < |rows'| && Broken(h, rows', i) ==> i == k)
            && (k < |rows'| ==>
                 (Broken(h, rows', k) <==>
                   h(rows[k + 1].payload + Prev(rows, k)) != h(rows[k + 1].payload + rows[k].stored)))
  {
    var rows' := rows[..k] + rows[k + 1..];
    forall i: nat | i < |rows'| && i != k
      ensures !Broken(h, rows', i)
    {
      if i < k {
        assert !Broken(h, rows, i) && Prev(rows', i) == Prev(rows, i);
      } else {
        assert !Broken(h, rows, i + 1) && Prev(rows', i) == Prev(rows, i + 1);
      }
    }
    if k < |rows'| {
      assert !Broken(h, rows, k + 1) && Prev(rows', k) == Prev(rows, k);
    }
  }

  // ----- anchors ------------------------------------------------------------

  datatype Anchor = Anchor(head: Digest, count: nat)

  function Snapshot(rows: seq<ChainRow>): Anchor
  {
    Anchor(Head(rows), |rows|)
  }

  /** What two chains with the same head amount to. */
  datatype Evidence = Agree | Collision(x: Bytes, y: Bytes) | GenesisPreimage(x: Bytes)

  predicate ValidEvidence(h: Hash, e: Evidence)
  {
    match e
    case Agree => true
    case Collision(x, y) => x != y && h(x) == h(y)
    case GenesisPreimage(x) => h(x) == GENESIS
  }

  /** A 32-byte suffix makes payload-then-hash unambiguous. */
  lemma SuffixUnambiguous(p: Bytes, d: Digest, q: Bytes, e: Digest)
    requires p + d == q + e
    ensures p == q && d == e
  {
    assert |p| == |q|;
    assert p == (p + d)[..|p|] && q == (q + e)[..|q|];
    assert d == (p + d)[|p|..] && e == (q + e)[|q|..];
  }

  lemma SuffixDistinguishes(p: Bytes, d: Digest, e: Digest)
    requires d != e
    ensures p + d != p + e
  {
    if p + d == p + e {
      SuffixUnambiguous(p, d, p, e);
    }
  }

  function HeadInput(rows: seq<ChainRow>): Bytes
    requires rows != []
  {
    rows[|rows| - 1].payload + Prev(rows, |rows| - 1)
  }

  lemma SplitLast(rows: seq<ChainRow>)
    requires rows != []
    ensures var n := |rows| - 1;
            && Payloads(rows) == Payloads(rows[..n]) + [rows[n].payload]
            && StoredHashes(rows) == StoredHashes(rows[..n]) + [rows[n].stored]
            && Head(rows[..n]) == Prev(rows, n)
  {
  }

  /** Two clean chains with one head: their head inputs hash alike, and when the
      inputs are equal so are the payloads and the heads of the chains before. */
  lemma CommonHead(h: Hash, a: seq<ChainRow>, b: seq<ChainRow>)
    requires Clean(h, a) && Clean(h, b) && Head(a) == Head(b) && a != [] && b != []
    ensures h(HeadInput(a)) == h(HeadInput(b))
    ensures var a', b' := a[..|a| - 1], b[..|b| - 1];
            && Clean(h, a') && Clean(h, b')
            && Payloads(a) == Payloads(a') + [a[|a'|].payload] && Payloads(b) == Payloads(b') + [b[|b'|].payload]
            && StoredHashes(a) == StoredHashes(a') + [Head(a)] && StoredHashes(b) == StoredHashes(b') + [Head(b)]
            && (HeadInput(a) == HeadInput(b) ==> a[|a'|].payload == b[|b'|].payload && Head(a') == Head(b'))
  {
    var n, m := |a| - 1, |b| - 1;
    assert !Broken(h, a, n) && !Broken(h, b, m);
    PrefixClean(h, a, n);
    PrefixClean(h, b, m);
    SplitLast(a);
    SplitLast(b);
    if HeadInput(a) == HeadInput(b) {
      SuffixUnambiguous(a[n].payload, Prev(a, n), b[m].payload, Prev(b, m));
    }
  }

  /** Walk two clean chains back from their common head: they hold the same
      payloads and hashes, or the walk ends on inputs the hash confuses, or one of
      them is longer and starts from a preimage of the genesis hash. */
  function Compare(h: Hash, a: seq<ChainRow>, b: seq<ChainRow>): (e: Evidence)
    requires Clean(h, a) && Clean(h, b) && Head(a) == Head(b)
    ensures ValidEvidence(h, e)
    ensures e == Agree ==> Payloads(a) == Payloads(b) && StoredHashes(a) == StoredHashes(b)
    ensures e.GenesisPreimage? ==> |a| != |b|
    decreases |a|
  {
    if a == [] && b == [] then Agree
    else if a == [] then
      assert !Broken(h, b, |b| - 1);
      GenesisPreimage(HeadInput(b))
    else if b == [] then
      assert !Broken(h, a, |a| - 1);
      GenesisPreimage(HeadInput(a))
    else
      CommonHead(h, a, b);
      if HeadInput(a) != HeadInput(b) then Collision(HeadInput(a), HeadInput(b))
      else Compare(h, a[..|a| - 1], b[..|b| - 1])
  }

  /** An anchor pins the history it was taken over: a later chain that verifies and
      still carries the anchored head at the anchored count has the same payloads
      up to there, or `Compare` yields a collision. */
  lemma AnchorPinsHistory(h: Hash, anchored: seq<ChainRow>, now: seq<ChainRow>)
    requires Clean(h, anchored) && Clean(h, now)
    requires Snapshot(anchored).count <= |now|
    requires Head(now[..Snapshot(anchored).count]) == Snapshot(anchored).head
    ensures var n := Snapshot(anchored).count;
            && Clean(h, now[..n])
            && (Compare(h, anchored, now[..n]).Collision? || Payloads(now)[..n] == Payloads(anchored))
  {
    var n := |anchored|;
    PrefixClean(h, now, n);
    PrefixPayloads(now, n);
    SameCountNeedsNoPreimage(h, anchored, now[..n]);
  }

  lemma PrefixPayloads(rows: seq<ChainRow>, n: nat)
    requires n <= |rows|
    ensures Payloads(rows)[..n] == Payloads(rows[..n])
  {
  }

  /** With equal heads and equal counts only agreement or a collision is left. */
  lemma SameCountNeedsNoPreimage(h: Hash, a: seq<ChainRow>, b: seq<ChainRow>)
    requires Clean(h, a) && Clean(h, b) && Snapshot(a) == Snapshot(b)
    ensures Compare(h, a, b).Collision? || Payloads(a) == Payloads(b)
  {
    var e := Compare(h, a, b);
    assert e == Agree || e.Collision?;
  }

  // ----- inserting ----------------------------------------------------------

  /** The insert trigger chains a row behind the current head; verification then
      finds it at its place `k` in (ts, id) order. */
  function TriggerInsert(h: Hash, rows: seq<ChainRow>, k: nat, id: nat, payload: Bytes): seq<ChainRow>
    requires k <= |rows|
  {
    rows[..k] + [ChainRow(id, payload, RowHash(h, payload, Head(rows)))] + rows[k..]
  }

  /** Appending last keeps the chain clean. */
  lemma AppendStaysClean(h: Hash, rows: seq<ChainRow>, id: nat, payload: Bytes)
    requires Clean(h, rows)
    ensures Clean(h, TriggerInsert(h, rows, |rows|, id, payload))
  {
    var rows' := TriggerInsert(h, rows, |rows|, id, payload);
    forall i: nat | i < |rows'|
      ensures !Broken(h, rows', i)
    {
      if i < |rows| {
        assert !Broken(h, rows, i) && Prev(rows', i) == Prev(rows, i);
      }
    }
  }

  /** A row that sorts before the head it was chained behind breaks the chain; if
      it does not, here is what the hash confused. */
  function MisplacedInsert(h: Hash, rows: seq<ChainRow>, k: nat, id: nat, payload: Bytes): (e: Evidence)
    requires Clean(h, rows) && k < |rows|
    requires Clean(h, TriggerInsert(h, rows, k, id, payload))
    ensures ValidEvidence(h, e) && e != Agree
  {
    MisplacedHash(h, rows, k, id, payload);
    if Prev(rows, k) != Head(rows) then Collision(payload + Head(rows), payload + Prev(rows, k))
    else Compare(h, rows[..k], rows)
  }

  lemma MisplacedHash(h: Hash, rows: seq<ChainRow>, k: nat, id: nat, payload: Bytes)
    requires Clean(h, rows) && k < |rows| && Clean(h, TriggerInsert(h, rows, k, id, payload))
    ensures h(payload + Head(rows)) == h(payload + Prev(rows, k))
    ensures Prev(rows, k) != Head(rows) ==> payload + Head(rows) != payload + Prev(rows, k)
    ensures Clean(h, rows[..k]) && Head(rows[..k]) == Prev(rows, k)
    ensures |Payloads(rows[..k])| != |Payloads(rows)|
  {
    var rows' := TriggerInsert(h, rows, k, id, payload);
    assert !Broken(h, rows', k) && Prev(rows', k) == Prev(rows, k);
    PrefixClean(h, rows, k);
    if Prev(rows, k) != Head(rows) {
      SuffixDistinguishes(payload, Head(rows), Prev(rows, k));
    }
  }
}

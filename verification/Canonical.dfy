/** The canonical payload of an audit row (daimon-anchor canonical.rs): nine
    components joined by bars.  A Rust string is modelled by its UTF-8 bytes, in
    which the bar stands only for itself. */
module Canonical {
  import opened Wrappers
  import opened Text
  import opened AuditChain

  const BAR: byte := 0x7c

  /** A UTC time at microsecond precision, years 0 to 9999. */
  datatype Timestamp = Timestamp(year: nat, month: nat, day: nat, hour: nat, minute: nat, second: nat, micros: nat)

  predicate ValidTime(t: Timestamp)
  {
    && t.year <= 9999 && 1 <= t.month <= 12 && 1 <= t.day <= 31
    && t.hour < 24 && t.minute < 60 && t.second <= 60 && t.micros < 1000000
  }

  /** A signed 64-bit integer. */
  type I64 = n: int | -0x8000_0000_0000_0000 <= n < 0x8000_0000_0000_0000

  datatype AuditRow = AuditRow(
    ts: Timestamp,
    actor: Bytes,
    action: Bytes,
    target: Option<Bytes>,
    credential: Option<Bytes>,
    opSummary: Option<Bytes>,
    result: Bytes,
    latency: Option<I64>,
    metadata: Bytes)

  // ----- numbers ------------------------------------------------------------

  function Digit(d: nat): byte
    requires d < 10
  {
    (0x30 + d) as byte
  }

  /** The lowest `w` decimal digits of `n`. */
  function Pad(n: nat, w: nat): (s: Bytes)
    ensures |s| == w && BAR !in s
  {
    if w == 0 then [] else Pad(n / 10, w - 1) + [Digit(n % 10)]
  }

  function Dec(n: nat): (s: Bytes)
    ensures s != [] && BAR !in s && forall i :: 0 <= i < |s| ==> 0x30 <= s[i] <= 0x39
  {
    (if n < 10 then [] else Dec(n / 10)) + [Digit(n % 10)]
  }

  function DecInt(n: int): (s: Bytes)
    ensures s != [] && BAR !in s
  {
    if n < 0 then [0x2d] + Dec(-n) else Dec(n)
  }

  function Pow10(w: nat): nat
  {
    if w == 0 then 1 else 10 * Pow10(w - 1)
  }

  lemma {:induction false} PadInjective(n: nat, m: nat, w: nat)
    requires n < Pow10(w) && m < Pow10(w) && Pad(n, w) == Pad(m, w)
    ensures n == m
  {
    if w > 0 {
      assert Pad(n, w)[..w - 1] == Pad(n / 10, w - 1) && Pad(m, w)[..w - 1] == Pad(m / 10, w - 1);
      assert Pad(n, w)[w - 1] == Digit(n % 10) && Pad(m, w)[w - 1] == Digit(m % 10);
      PadInjective(n / 10, m / 10, w - 1);
    }
  }

  lemma {:induction false} DecInjective(n: nat, m: nat)
    requires Dec(n) == Dec(m)
    ensures n == m
  {
    var s, t := Dec(n), Dec(m);
    var k := |s| - 1;
    assert s[k] == Digit(n % 10) && t[k] == Digit(m % 10);
    assert s[..k] == if n < 10 then [] else Dec(n / 10);
    assert t[..k] == if m < 10 then [] else Dec(m / 10);
    if n >= 10 && m >= 10 {
      DecInjective(n / 10, m / 10);
    }
  }

  lemma DecIntInjective(n: int, m: int)
    requires DecInt(n) == DecInt(m)
    ensures n == m
  {
    assert n >= 0 ==> Dec(n)[0] >= 0x30;
    assert m >= 0 ==> Dec(m)[0] >= 0x30;
    if n < 0 && m < 0 {
      assert DecInt(n)[1..] == Dec(-n) && DecInt(m)[1..] == Dec(-m);
      DecInjective(-n, -m);
    } else if n >= 0 && m >= 0 {
      DecInjective(n, m);
    }
  }

  // ----- time, as section 5.6 of RFC 3339 prints it --------------------------

  function TimeOfDay(t: Timestamp): (s: Bytes)
    ensures BAR !in s
  {
    Pad(t.hour, 2) + ([0x3a] + (Pad(t.minute, 2) + ([0x3a] + (Pad(t.second, 2)
    + ([0x2e] + (Pad(t.micros, 6) + [0x5a]))))))
  }

  function Rfc3339(t: Timestamp): (s: Bytes)
    ensures BAR !in s
  {
    Pad(t.year, 4) + ([0x2d] + (Pad(t.month, 2) + ([0x2d] + (Pad(t.day, 2) + ([0x54] + TimeOfDay(t))))))
  }

  /** The number a run of decimal digits stands for. */
  function Number(s: Bytes): int
  {
    if s == [] then 0 else 10 * Number(s[..|s| - 1]) + (s[|s| - 1] as int - 0x30)
  }

  lemma {:induction false} PadReads(n: nat, w: nat)
    requires n < Pow10(w)
    ensures Number(Pad(n, w)) == n
  {
    if w > 0 {
      var s := Pad(n, w);
      PadReads(n / 10, w - 1);
      assert s[..|s| - 1] == Pad(n / 10, w - 1);
    }
  }

  lemma {:induction false} DecReads(n: nat)
    ensures Number(Dec(n)) == n
  {
    var s := Dec(n);
    if n < 10 {
      assert s[..|s| - 1] == [];
    } else {
      DecReads(n / 10);
      assert s[..|s| - 1] == Dec(n / 10);
    }
  }

  /** The latency text is the number, with a minus sign in front when negative. */
  lemma DecIntReads(n: int)
    ensures n >= 0 ==> Number(DecInt(n)) == n
    ensures n < 0 ==> DecInt(n)[0] == 0x2d && Number(DecInt(n)[1..]) == -n
  {
    if n >= 0 {
      DecReads(n);
    } else {
      DecReads(-n);
      assert DecInt(n)[1..] == Dec(-n);
    }
  }

  /** A number of `w` digits stands at `i`, and a separator behind it. */
  predicate FieldAt(s: Bytes, i: nat, w: nat, n: nat, sep: byte)
  {
    i + w < |s| && Number(s[i..i + w]) == n && s[i + w] == sep
  }

  lemma FieldFirst(s: Bytes, n: nat, w: nat, sep: byte, rest: Bytes)
    requires n < Pow10(w) && s == Pad(n, w) + ([sep] + rest)
    ensures FieldAt(s, 0, w, n, sep) && s[w + 1..] == rest
  {
    PadReads(n, w);
    assert s[0..w] == Pad(n, w);
  }

  lemma FieldLater(s: Bytes, k: nat, rest: Bytes, i: nat, w: nat, n: nat, sep: byte)
    requires k <= |s| && s[k..] == rest && FieldAt(rest, i, w, n, sep)
    ensures FieldAt(s, k + i, w, n, sep)
  {
    var x, y := s[k + i..k + i + w], rest[i..i + w];
    forall j | 0 <= j < w
      ensures x[j] == y[j]
    {
      assert x[j] == s[k + (i + j)] && y[j] == rest[i + j];
    }
    assert x == y && s[k + (i + w)] == rest[i + w];
  }

  lemma TimeLayout(t: Timestamp)
    requires ValidTime(t)
    ensures var s := TimeOfDay(t);
            && |s| == 16
            && FieldAt(s, 0, 2, t.hour, 0x3a) && FieldAt(s, 3, 2, t.minute, 0x3a)
            && FieldAt(s, 6, 2, t.second, 0x2e) && FieldAt(s, 9, 6, t.micros, 0x5a)
  {
    PowersOfTen();
    var s := TimeOfDay(t);
    var s4 := Pad(t.micros, 6) + ([0x5a] + []);
    var s3 := Pad(t.second, 2) + ([0x2e] + s4);
    var s2 := Pad(t.minute, 2) + ([0x3a] + s3);
    assert [0x5a as byte] + [] == [0x5a] && s == Pad(t.hour, 2) + ([0x3a] + s2);
    FieldFirst(s, t.hour, 2, 0x3a, s2);
    FieldFirst(s2, t.minute, 2, 0x3a, s3);
    FieldFirst(s3, t.second, 2, 0x2e, s4);
    FieldFirst(s4, t.micros, 6, 0x5a, []);
    FieldLater(s3, 3, s4, 0, 6, t.micros, 0x5a);
    FieldLater(s2, 3, s3, 0, 2, t.second, 0x2e);
    FieldLater(s2, 3, s3, 3, 6, t.micros, 0x5a);
    FieldLater(s, 3, s2, 0, 2, t.minute, 0x3a);
    FieldLater(s, 3, s2, 3, 2, t.second, 0x2e);
    FieldLater(s, 3, s2, 6, 6, t.micros, 0x5a);
  }

  /** Year, month, day, hour, minute, second and microseconds can be read off their
      places: yyyy-mm-ddThh:mm:ss.uuuuuuZ. */
  lemma Rfc3339Layout(t: Timestamp)
    requires ValidTime(t)
    ensures var s := Rfc3339(t);
            && |s| == 27
            && FieldAt(s, 0, 4, t.year, 0x2d) && FieldAt(s, 5, 2, t.month, 0x2d) && FieldAt(s, 8, 2, t.day, 0x54)
            && FieldAt(s, 11, 2, t.hour, 0x3a) && FieldAt(s, 14, 2, t.minute, 0x3a)
            && FieldAt(s, 17, 2, t.second, 0x2e) && FieldAt(s, 20, 6, t.micros, 0x5a)
  {
    PowersOfTen();
    TimeLayout(t);
    var s, s3 := Rfc3339(t), TimeOfDay(t);
    var s2 := Pad(t.day, 2) + ([0x54] + s3);
    var s1 := Pad(t.month, 2) + ([0x2d] + s2);
    FieldFirst(s, t.year, 4, 0x2d, s1);
    FieldFirst(s1, t.month, 2, 0x2d, s2);
    FieldFirst(s2, t.day, 2, 0x54, s3);
    FieldLater(s, 5, s1, 0, 2, t.month, 0x2d);
    FieldLater(s1, 3, s2, 0, 2, t.day, 0x54);
    FieldLater(s, 5, s1, 3, 2, t.day, 0x54);
    assert s[11..] == s3 by {
      assert s[11..] == s[5..][3..][3..];
    }
    FieldLater(s, 11, s3, 0, 2, t.hour, 0x3a);
    FieldLater(s, 11, s3, 3, 2, t.minute, 0x3a);
    FieldLater(s, 11, s3, 6, 2, t.second, 0x2e);
    FieldLater(s, 11, s3, 9, 6, t.micros, 0x5a);
  }

  lemma FixedCons<T>(a: seq<T>, c: seq<T>, b: seq<T>, d: seq<T>)
    requires |a| == |b| && a + c == b + d
    ensures a == b && c == d
  {
    assert a == (a + c)[..|a|] && b == (b + d)[..|b|];
    assert c == (a + c)[|a|..] && d == (b + d)[|b|..];
  }

  /** A fixed-width number and a separator in front of the rest. */
  lemma FieldInjective(n: nat, m: nat, w: nat, sep: byte, c: Bytes, d: Bytes)
    requires n < Pow10(w) && m < Pow10(w) && Pad(n, w) + ([sep] + c) == Pad(m, w) + ([sep] + d)
    ensures n == m && c == d
  {
    FixedCons(Pad(n, w), [sep] + c, Pad(m, w), [sep] + d);
    FixedCons([sep], c, [sep], d);
    PadInjective(n, m, w);
  }

  lemma PowersOfTen()
    ensures Pow10(2) == 100 && Pow10(4) == 10000 && Pow10(6) == 1000000
  {
    assert Pow10(3) == 10 * Pow10(2) && Pow10(5) == 10 * Pow10(4);
  }

  lemma TimeOfDayInjective(t: Timestamp, u: Timestamp)
    requires ValidTime(t) && ValidTime(u) && TimeOfDay(t) == TimeOfDay(u)
    ensures t.hour == u.hour && t.minute == u.minute && t.second == u.second && t.micros == u.micros
  {
    PowersOfTen();
    var t3, u3 := Pad(t.micros, 6) + [0x5a], Pad(u.micros, 6) + [0x5a];
    var t2, u2 := Pad(t.second, 2) + ([0x2e] + t3), Pad(u.second, 2) + ([0x2e] + u3);
    var t1, u1 := Pad(t.minute, 2) + ([0x3a] + t2), Pad(u.minute, 2) + ([0x3a] + u2);
    FieldInjective(t.hour, u.hour, 2, 0x3a, t1, u1);
    FieldInjective(t.minute, u.minute, 2, 0x3a, t2, u2);
    FieldInjective(t.second, u.second, 2, 0x2e, t3, u3);
    FixedCons(Pad(t.micros, 6), [0x5a], Pad(u.micros, 6), [0x5a]);
    PadInjective(t.micros, u.micros, 6);
  }

  lemma Rfc3339Injective(t: Timestamp, u: Timestamp)
    requires ValidTime(t) && ValidTime(u) && Rfc3339(t) == Rfc3339(u)
    ensures t == u
  {
    PowersOfTen();
    var t3, u3 := TimeOfDay(t), TimeOfDay(u);
    var t2, u2 := Pad(t.day, 2) + ([0x54] + t3), Pad(u.day, 2) + ([0x54] + u3);
    var t1, u1 := Pad(t.month, 2) + ([0x2d] + t2), Pad(u.month, 2) + ([0x2d] + u2);
    FieldInjective(t.year, u.year, 4, 0x2d, t1, u1);
    FieldInjective(t.month, u.month, 2, 0x2d, t2, u2);
    FieldInjective(t.day, u.day, 2, 0x54, t3, u3);
    TimeOfDayInjective(t, u);
  }

  // ----- the payload --------------------------------------------------------

  function OrEmpty(o: Option<Bytes>): Bytes
  {
    if o.Some? then o.value else []
  }

  /** The six components that are free text. */
  function TextFields(r: AuditRow): seq<Bytes>
  {
    [r.actor, r.action, OrEmpty(r.target), OrEmpty(r.credential), OrEmpty(r.opSummary), r.result]
  }

  function LatencyText(r: AuditRow): Bytes
  {
    if r.latency.Some? then DecInt(r.latency.value) else []
  }

  function MetadataText(r: AuditRow): Bytes
  {
    if r.metadata == [] then [0x7b, 0x7d] else r.metadata
  }

  function Parts(r: AuditRow): (ps: seq<Bytes>)
    ensures |ps| == 9
  {
    [Rfc3339(r.ts)] + TextFields(r) + [LatencyText(r), MetadataText(r)]
  }

  function Canonicalize(r: AuditRow): Bytes
  {
    Join(Parts(r), BAR)
  }

  /** The nine components stand in this order. */
  lemma PayloadLayout(r: AuditRow)
    ensures Canonicalize(r) ==
            Rfc3339(r.ts) + [BAR] + (r.actor + [BAR] + (r.action + [BAR]
            + ((if r.target.Some? then r.target.value else []) + [BAR]
            + ((if r.credential.Some? then r.credential.value else []) + [BAR]
            + ((if r.opSummary.Some? then r.opSummary.value else []) + [BAR] + (r.result + [BAR]
            + ((if r.latency.Some? then DecInt(r.latency.value) else []) + [BAR]
            + (if r.metadata == [] then [0x7b, 0x7d] else r.metadata))))))))
  {
    var ps := Parts(r);
    JoinFrom(ps, 0);
    assert JoinTail(ps, 7) == ps[7] + [BAR] + ps[8];
    assert JoinTail(ps, 6) == ps[6] + [BAR] + JoinTail(ps, 7);
    assert JoinTail(ps, 5) == ps[5] + [BAR] + JoinTail(ps, 6);
    assert JoinTail(ps, 4) == ps[4] + [BAR] + JoinTail(ps, 5);
    assert JoinTail(ps, 3) == ps[3] + [BAR] + JoinTail(ps, 4);
    assert JoinTail(ps, 2) == ps[2] + [BAR] + JoinTail(ps, 3);
    assert JoinTail(ps, 1) == ps[1] + [BAR] + JoinTail(ps, 2);
    assert JoinTail(ps, 0) == ps[0] + [BAR] + JoinTail(ps, 1);
  }

  function JoinTail(ps: seq<Bytes>, i: nat): Bytes
    requires i < |ps|
    decreases |ps| - i
  {
    if i == |ps| - 1 then ps[i] else ps[i] + [BAR] + JoinTail(ps, i + 1)
  }

  lemma {:induction false} JoinFrom(ps: seq<Bytes>, i: nat)
    requires i < |ps|
    ensures Join(ps[i..], BAR) == JoinTail(ps, i)
    ensures i == 0 ==> Join(ps, BAR) == JoinTail(ps, 0)
    decreases |ps| - i
  {
    assert ps[0..] == ps;
    if i < |ps| - 1 {
      JoinFrom(ps, i + 1);
      assert ps[i..][1..] == ps[i + 1..];
    }
  }

  /** None and empty are the same on paper, and so are empty metadata and `{}`. */
  predicate SameRow(a: AuditRow, b: AuditRow)
  {
    a.ts == b.ts && TextFields(a) == TextFields(b) && a.latency == b.latency && MetadataText(a) == MetadataText(b)
  }

  predicate BarFree(r: AuditRow)
  {
    forall i :: 0 <= i < 6 ==> BAR !in TextFields(r)[i]
  }

  /** Cut at the first `n` separators only. */
  function SplitN<T(==)>(s: seq<T>, c: T, n: nat): seq<seq<T>>
  {
    var k := Find(s, c);
    if n == 0 || k == |s| then [s] else [s[..k]] + SplitN(s[k + 1..], c, n - 1)
  }

  lemma SplitNCons<T>(a: seq<T>, c: T, b: seq<T>, n: nat)
    requires c !in a && n > 0
    ensures SplitN(a + [c] + b, c, n) == [a] + SplitN(b, c, n - 1)
  {
    FindAt(a, c, b);
    var s := a + [c] + b;
    assert s[..|a|] == a && s[|a| + 1..] == b;
  }

  lemma {:induction false} SplitNJoin(front: seq<Bytes>, last: Bytes)
    requires forall p :: p in front ==> BAR !in p
    ensures SplitN(Join(front + [last], BAR), BAR, |front|) == front + [last]
  {
    var parts := front + [last];
    if front != [] {
      var rest := front[1..];
      SplitNJoin(rest, last);
      var tail := Join(rest + [last], BAR);
      assert parts[1..] == rest + [last] && parts[0] == front[0] && |parts| > 1;
      assert Join(parts, BAR) == front[0] + [BAR] + tail;
      SplitNCons(front[0], BAR, tail, |front|);
      assert [front[0]] + (rest + [last]) == parts;
    }
  }

  /** The first eight bars separate the nine components, even when the metadata
      has bars of its own, provided the six text fields have none. */
  lemma FieldsRecoverable(r: AuditRow)
    requires BarFree(r)
    ensures SplitN(Canonicalize(r), BAR, 8) == Parts(r)
  {
    var front := [Rfc3339(r.ts)] + TextFields(r) + [LatencyText(r)];
    forall p | p in front
      ensures BAR !in p
    {
      if p in TextFields(r) {
        var i :| 0 <= i < 6 && p == TextFields(r)[i];
      }
    }
    SplitNJoin(front, MetadataText(r));
    assert Parts(r) == front + [MetadataText(r)];
  }

  lemma PartsDetermineRow(a: AuditRow, b: AuditRow)
    requires ValidTime(a.ts) && ValidTime(b.ts) && Parts(a) == Parts(b)
    ensures SameRow(a, b)
  {
    var p, q := Parts(a), Parts(b);
    assert p[0] == Rfc3339(a.ts) && q[0] == Rfc3339(b.ts);
    Rfc3339Injective(a.ts, b.ts);
    assert TextFields(a) == p[1..7] && TextFields(b) == q[1..7];
    assert p[7] == LatencyText(a) && q[7] == LatencyText(b);
    assert p[8] == MetadataText(a) && q[8] == MetadataText(b);
    if a.latency.Some? && b.latency.Some? {
      DecIntInjective(a.latency.value, b.latency.value);
    }
  }

  /** Among rows without bars in their text fields, equal payloads mean equal rows. */
  lemma CanonicalInjective(a: AuditRow, b: AuditRow)
    requires ValidTime(a.ts) && ValidTime(b.ts) && BarFree(a) && BarFree(b)
    ensures Canonicalize(a) == Canonicalize(b) <==> SameRow(a, b)
  {
    if Canonicalize(a) == Canonicalize(b) {
      FieldsRecoverable(a);
      FieldsRecoverable(b);
      PartsDetermineRow(a, b);
    }
  }

  // ----- with a bar the payload is ambiguous --------------------------------

  function WithFields(r: AuditRow, fs: seq<Bytes>): AuditRow
    requires |fs| == 6
  {
    r.(actor := fs[0], action := fs[1], target := Some(fs[2]), credential := Some(fs[3]),
       opSummary := Some(fs[4]), result := fs[5])
  }

  /** Moving the text after a bar into the next component leaves the join alone. */
  lemma {:induction false} ShiftBar(parts: seq<Bytes>, i: nat, x: Bytes, y: Bytes)
    requires i + 1 < |parts| && parts[i] == x + [BAR] + y
    ensures Join(parts, BAR) == Join(parts[i := x][i + 1 := y + [BAR] + parts[i + 1]], BAR)
  {
    var moved := parts[i := x][i + 1 := y + [BAR] + parts[i + 1]];
    if i == 0 {
      var tail := parts[2..];
      assert parts[1..] == [parts[1]] + tail && moved[1..] == [y + [BAR] + parts[1]] + tail;
      JoinHead(y + [BAR], parts[1], tail);
      assert x + [BAR] + y + [BAR] + Join(parts[1..], BAR) == x + [BAR] + (y + [BAR] + Join(parts[1..], BAR));
    } else {
      assert moved[1..] == parts[1..][i - 1 := x][i := y + [BAR] + parts[1..][i]];
      ShiftBar(parts[1..], i - 1, x, y);
    }
  }

  lemma JoinHead(front: Bytes, p: Bytes, tail: seq<Bytes>)
    ensures Join([front + p] + tail, BAR) == front + Join([p] + tail, BAR)
  {
    assert ([front + p] + tail)[1..] == tail && ([p] + tail)[1..] == tail;
    if tail != [] {
      assert front + p + [BAR] + Join(tail, BAR) == front + (p + [BAR] + Join(tail, BAR));
    }
  }

  lemma PartsWithFields(r: AuditRow, fs: seq<Bytes>)
    requires |fs| == 6
    ensures TextFields(WithFields(r, fs)) == fs
    ensures Parts(WithFields(r, fs)) == [Parts(r)[0]] + fs + Parts(r)[7..]
  {
  }

  /** The first field with a bar. */
  function BarField(fs: seq<Bytes>): (i: nat)
    requires exists k :: 0 <= k < |fs| && BAR in fs[k]
    ensures i < |fs| && BAR in fs[i]
  {
    if BAR in fs[0] then 0
    else
      assert forall k :: 0 < k < |fs| ==> fs[k] == fs[1..][k - 1];
      1 + BarField(fs[1..])
  }

  function Before(s: Bytes): Bytes
  {
    s[..Find(s, BAR)]
  }

  function After(s: Bytes): Bytes
    requires BAR in s
  {
    s[Find(s, BAR) + 1..]
  }

  /** The text behind the bar moves to the next field, or, in the last field, the
      text before the bar to the previous one. */
  function Moved(fs: seq<Bytes>, i: nat): (gs: seq<Bytes>)
    requires |fs| == 6 && i < 6 && BAR in fs[i]
    ensures |gs| == 6 && gs != fs
  {
    if i < 5 then
      var gs := fs[i := Before(fs[i])][i + 1 := After(fs[i]) + [BAR] + fs[i + 1]];
      assert gs[i] != fs[i];
      gs
    else
      var gs := fs[4 := fs[4] + [BAR] + Before(fs[5])][5 := After(fs[5])];
      assert gs[5] != fs[5];
      gs
  }

  lemma MovedKeepsJoin(front: Bytes, fs: seq<Bytes>, i: nat, back: seq<Bytes>)
    requires |fs| == 6 && i < 6 && BAR in fs[i]
    ensures Join([front] + Moved(fs, i) + back, BAR) == Join([front] + fs + back, BAR)
  {
    var x, y := Before(fs[i]), After(fs[i]);
    assert fs[i] == x + [BAR] + y;
    var ps, qs := [front] + fs + back, [front] + Moved(fs, i) + back;
    if i < 5 {
      ShiftBar(ps, i + 1, x, y);
      assert qs == ps[i + 1 := x][i + 2 := y + [BAR] + ps[i + 2]];
    } else {
      ShiftBar(qs, 5, fs[4], x);
      assert qs[5 := fs[4]][6 := x + [BAR] + qs[6]] == ps;
    }
  }

  /** Another row with the same payload, for any row with a bar in a text field. */
  function Twin(r: AuditRow): AuditRow
    requires !BarFree(r)
  {
    WithFields(r, Moved(TextFields(r), BarField(TextFields(r))))
  }

  lemma TwinSharesPayload(r: AuditRow)
    requires !BarFree(r)
    ensures Canonicalize(Twin(r)) == Canonicalize(r) && !SameRow(Twin(r), r)
  {
    var fs := TextFields(r);
    var i := BarField(fs);
    var ps := Parts(r);
    PartsWithFields(r, Moved(fs, i));
    MovedKeepsJoin(ps[0], fs, i, ps[7..]);
    assert ps == [ps[0]] + fs + ps[7..];
  }

  // ----- the exact condition ------------------------------------------------

  function CountAll(parts: seq<Bytes>): nat
  {
    if parts == [] then 0 else Count(parts[0], BAR) + CountAll(parts[1..])
  }

  lemma {:induction false} CountJoin(parts: seq<Bytes>)
    requires parts != []
    ensures Count(Join(parts, BAR), BAR) == |parts| - 1 + CountAll(parts)
  {
    if |parts| > 1 {
      CountConcat(parts[0] + [BAR], Join(parts[1..], BAR), BAR);
      CountConcat(parts[0], [BAR], BAR);
      CountJoin(parts[1..]);
    }
  }

  lemma {:induction false} CountAllZero(parts: seq<Bytes>)
    ensures CountAll(parts) == 0 <==> forall i :: 0 <= i < |parts| ==> BAR !in parts[i]
  {
    if parts != [] {
      CountZero(parts[0], BAR);
      CountAllZero(parts[1..]);
      assert forall i :: 0 < i < |parts| ==> parts[i] == parts[1..][i - 1];
    }
  }

  ghost predicate ReadsAsLatency(s: Bytes)
  {
    s == [] || exists n: I64 :: DecInt(n) == s
  }

  /** A number no latency can be does not read as one. */
  lemma OutOfRangeIsNoLatency(n: int)
    requires !(-0x8000_0000_0000_0000 <= n < 0x8000_0000_0000_0000)
    ensures !ReadsAsLatency(DecInt(n))
  {
    if ReadsAsLatency(DecInt(n)) {
      var m: I64 :| DecInt(m) == DecInt(n);
      DecIntInjective(m, n);
    }
  }

  /** A latency text, possibly empty, that stands in the metadata right at its start
      or behind a bar, with a bar and some text after it. */
  ghost predicate LatencyInside(m: Bytes, pre: Bytes, lat: Bytes, rest: Bytes)
  {
    && m == pre + lat + [BAR] + rest
    && (pre == [] || pre[|pre| - 1] == BAR)
    && ReadsAsLatency(lat) && rest != []
  }

  ghost predicate HidesLatency(r: AuditRow)
  {
    exists pre: Bytes, lat: Bytes, rest: Bytes :: LatencyInside(MetadataText(r), pre, lat, rest)
  }

  // A hidden latency makes a second row: the fields before it move up.

  /** Two neighbouring components joined into one leave the join alone. */
  lemma {:induction false} MergeAt(parts: seq<Bytes>, i: nat, merged: seq<Bytes>)
    requires i + 1 < |parts| && merged == parts[..i] + [parts[i] + [BAR] + parts[i + 1]] + parts[i + 2..]
    ensures Join(merged, BAR) == Join(parts, BAR)
  {
    if i == 0 {
      var tail := parts[2..];
      assert parts[1..] == [parts[1]] + tail && merged == [parts[0] + [BAR] + parts[1]] + tail;
      JoinHead(parts[0] + [BAR], parts[1], tail);
    } else {
      assert merged[1..] == parts[1..][..i - 1] + [parts[1..][i - 1] + [BAR] + parts[1..][i]] + parts[1..][i + 1..];
      assert merged[0] == parts[0];
      MergeAt(parts[1..], i - 1, merged[1..]);
    }
  }

  /** What stands between the six fields and the hidden latency. */
  function Skipped(old_: Bytes, pre: Bytes): Bytes
  {
    if pre == [] then old_ else old_ + [BAR] + pre[..|pre| - 1]
  }

  /** The row with the same payload that takes the hidden latency for its own. */
  function Shifted(r: AuditRow, pre: Bytes, rest: Bytes, latency: Option<I64>): AuditRow
  {
    var fs := TextFields(r);
    WithFields(r, [fs[0] + [BAR] + fs[1], fs[2], fs[3], fs[4], fs[5], Skipped(LatencyText(r), pre)])
    .(latency := latency, metadata := rest)
  }

  lemma MergeIn(front: seq<Bytes>, a: Bytes, b: Bytes, back: seq<Bytes>)
    ensures Join(front + [a + [BAR] + b] + back, BAR) == Join(front + [a, b] + back, BAR)
  {
    var parts, k := front + [a, b] + back, |front|;
    assert parts[..k] == front && parts[k] == a && parts[k + 1] == b && parts[k + 2..] == back;
    MergeAt(parts, k, front + [a + [BAR] + b] + back);
  }

  /** The hidden latency and the rest, read in two ways. */
  lemma FieldsMoveUp(t: Bytes, a: Bytes, b: Bytes, mid: seq<Bytes>, lat: Bytes, rest: Bytes)
    ensures Join([t] + [a + [BAR] + b] + (mid + [lat, rest]), BAR) == Join([t, a, b] + mid + [lat + [BAR] + rest], BAR)
  {
    MergeIn([t], a, b, mid + [lat, rest]);
    MergeIn([t, a, b] + mid, lat, rest, []);
    assert [t] + [a, b] + (mid + [lat, rest]) == [t, a, b] + mid + [lat, rest] + [];
    assert [t, a, b] + mid + [lat + [BAR] + rest] + [] == [t, a, b] + mid + [lat + [BAR] + rest];
  }

  lemma GapMovesBack(front: seq<Bytes>, l: Bytes, pre: Bytes, tail: Bytes)
    requires pre == [] || pre[|pre| - 1] == BAR
    ensures Join(front + [Skipped(l, pre)] + [tail], BAR) == Join(front + [l] + [pre + tail], BAR)
  {
    if pre == [] {
      assert pre + tail == tail;
    } else {
      var p := pre[..|pre| - 1];
      assert pre == p + [BAR] && p + [BAR] + tail == pre + tail;
      MergeIn(front, l, p, [tail]);
      MergeIn(front + [l], p, tail, []);
      assert front + [l, p] + [tail] == front + [l] + [p, tail] + [];
      assert front + [l] + [pre + tail] + [] == front + [l] + [pre + tail];
    }
  }

  lemma TwoReadings(t: Bytes, a: Bytes, b: Bytes, mid: seq<Bytes>, l: Bytes, pre: Bytes, lat: Bytes, rest: Bytes)
    requires pre == [] || pre[|pre| - 1] == BAR
    ensures Join([t] + [a + [BAR] + b] + (mid + [Skipped(l, pre)] + [lat, rest]), BAR) ==
            Join([t, a, b] + mid + [l] + [pre + (lat + [BAR] + rest)], BAR)
  {
    var front, gap, tail := [t, a, b] + mid, Skipped(l, pre), lat + [BAR] + rest;
    FieldsMoveUp(t, a, b, mid + [gap], lat, rest);
    assert [t, a, b] + (mid + [gap]) == front + [gap];
    GapMovesBack(front, l, pre, tail);
  }

  lemma PartsInPieces(r: AuditRow)
    ensures var fs := TextFields(r);
            Parts(r) == [Rfc3339(r.ts), fs[0], fs[1]] + fs[2..] + [LatencyText(r)] + [MetadataText(r)]
  {
  }

  lemma ShiftedSharesPayload(r: AuditRow, pre: Bytes, lat: Bytes, rest: Bytes, latency: Option<I64>)
    requires LatencyInside(MetadataText(r), pre, lat, rest)
    requires lat == if latency.Some? then DecInt(latency.value) else []
    ensures Canonicalize(Shifted(r, pre, rest, latency)) == Canonicalize(r)
  {
    var fs := TextFields(r);
    ShiftedParts(r, pre, lat, rest, latency);
    PartsInPieces(r);
    TwoReadings(Rfc3339(r.ts), fs[0], fs[1], fs[2..], LatencyText(r), pre, lat, rest);
    Reassociate(pre + lat, [BAR], rest);
    Reassociate(pre, lat, [BAR] + rest);
    Reassociate(lat, [BAR], rest);
  }

  lemma ShiftedParts(r: AuditRow, pre: Bytes, lat: Bytes, rest: Bytes, latency: Option<I64>)
    requires rest != [] && lat == if latency.Some? then DecInt(latency.value) else []
    ensures var t, fs := Rfc3339(r.ts), TextFields(r);
            Parts(Shifted(r, pre, rest, latency)) ==
            [t] + [fs[0] + [BAR] + fs[1]] + (fs[2..] + [Skipped(LatencyText(r), pre)] + [lat, rest])
  {
    var q, fs, gap := Shifted(r, pre, rest, latency), TextFields(r), Skipped(LatencyText(r), pre);
    var first := fs[0] + [BAR] + fs[1];
    assert TextFields(q) == [first, fs[2], fs[3], fs[4], fs[5], gap];
    Regroup(first, fs, gap, TextFields(q));
    RegroupParts(Rfc3339(r.ts), first, fs[2..] + [gap], lat, rest);
  }

  lemma Regroup(first: Bytes, fs: seq<Bytes>, gap: Bytes, gs: seq<Bytes>)
    requires |fs| == 6 && gs == [first, fs[2], fs[3], fs[4], fs[5], gap]
    ensures gs == [first] + (fs[2..] + [gap])
  {
    assert fs[2..] == [fs[2], fs[3], fs[4], fs[5]];
  }

  lemma RegroupParts(t: Bytes, first: Bytes, mid: seq<Bytes>, lat: Bytes, rest: Bytes)
    ensures [t] + ([first] + mid) + [lat, rest] == [t] + [first] + (mid + [lat, rest])
  {
  }

  lemma HiddenLatencyIsAmbiguous(r: AuditRow) returns (q: AuditRow)
    requires BarFree(r) && HidesLatency(r)
    ensures q.ts == r.ts && Canonicalize(q) == Canonicalize(r) && !SameRow(q, r)
  {
    var pre: Bytes, lat: Bytes, rest: Bytes :| LatencyInside(MetadataText(r), pre, lat, rest);
    var latency: Option<I64> := None;
    if lat != [] {
      var n: I64 :| DecInt(n) == lat;
      latency := Some(n);
    }
    q := Shifted(r, pre, rest, latency);
    ShiftedSharesPayload(r, pre, lat, rest, latency);
    assert TextFields(q)[0][|TextFields(r)[0]|] == BAR;
    assert BAR !in TextFields(r)[0];
  }

  // Without one, a second row has nowhere to come from.

  /** All but the metadata. */
  function Front(r: AuditRow): Bytes
  {
    Join([Rfc3339(r.ts)] + TextFields(r) + [LatencyText(r)], BAR)
  }

  lemma {:induction false} JoinSnoc(parts: seq<Bytes>, last: Bytes)
    requires parts != []
    ensures Join(parts + [last], BAR) == Join(parts, BAR) + [BAR] + last
  {
    var all := parts + [last];
    assert all[1..] == parts[1..] + [last] && all[0] == parts[0];
    if |parts| == 1 {
      assert all[1..] == [last];
    } else {
      JoinSnoc(parts[1..], last);
    }
  }

  lemma FrontThenMetadata(r: AuditRow)
    ensures Canonicalize(r) == Front(r) + [BAR] + MetadataText(r)
  {
    var parts := [Rfc3339(r.ts)] + TextFields(r) + [LatencyText(r)];
    JoinSnoc(parts, MetadataText(r));
    assert Parts(r) == parts + [MetadataText(r)];
  }

  /** The front ends in the latency text, behind a bar. */
  lemma FrontEnds(r: AuditRow)
    ensures var f, l := Front(r), LatencyText(r);
            |f| > |l| && f[|f| - |l|..] == l && f[|f| - |l| - 1] == BAR
  {
    var parts := [Rfc3339(r.ts)] + TextFields(r);
    JoinSnoc(parts, LatencyText(r));
  }

  /** The bars of the front: seven, and those in text fields. */
  lemma FrontBars(r: AuditRow)
    ensures Count(Front(r), BAR) >= 7
    ensures Count(Front(r), BAR) == 7 <==> BarFree(r)
  {
    var parts := [Rfc3339(r.ts)] + TextFields(r) + [LatencyText(r)];
    CountJoin(parts);
    CountAllZero(parts);
    assert forall i :: 0 <= i < 6 ==> parts[i + 1] == TextFields(r)[i];
    if BarFree(r) {
      forall i | 0 <= i < 8
        ensures BAR !in parts[i]
      {
        if 1 <= i <= 6 {
          assert parts[i] == TextFields(r)[i - 1];
        }
      }
    }
  }

  lemma PrefixCounts(g: Bytes, f: Bytes)
    requires g <= f
    ensures Count(g, BAR) <= Count(f, BAR)
  {
    CountConcat(g, f[|g|..], BAR);
    assert f == g + f[|g|..];
  }

  lemma CutAt(s: Bytes, j: nat)
    requires j < |s|
    ensures s == s[..j] + [s[j]] + s[j + 1..]
  {
  }

  lemma CutTwice(s: Bytes, i: nat, j: nat)
    requires i < j < |s|
    ensures s[..j] == s[..i] + [s[i]] + s[i + 1..j]
    ensures s[i + 1..] == s[i + 1..j] + [s[j]] + s[j + 1..]
  {
    var t, k := s[i + 1..], j - i - 1;
    CutAt(t, k);
    assert t[..k] == s[i + 1..j] && t[k + 1..] == s[j + 1..];
    CutAt(s[..j], i);
    assert s[..j][..i] == s[..i] && s[..j][i + 1..] == s[i + 1..j];
  }

  lemma CutHere(f: Bytes, m: Bytes, s: Bytes)
    requires s == f + [BAR] + m
    ensures |f| < |s| && s[..|f|] == f && s[|f|] == BAR && s[|f| + 1..] == m
  {
  }

  /** Of two ways to cut one text at a bar, the one with more bars in front reaches
      further, and what it adds stands in the other's rest. */
  lemma LongerFront(f: Bytes, m: Bytes, g: Bytes, n: Bytes, s: Bytes) returns (z: Bytes)
    requires s == f + [BAR] + m && s == g + [BAR] + n && Count(f, BAR) < Count(g, BAR)
    ensures g == f + [BAR] + z && m == z + [BAR] + n
  {
    CutHere(f, m, s);
    CutHere(g, n, s);
    if |g| <= |f| {
      PrefixCounts(g, f);
      assert false;
    }
    CutTwice(s, |f|, |g|);
    z := s[|f| + 1..|g|];
  }

  lemma SecondRowHidesLatency(r: AuditRow, q: AuditRow)
    requires BarFree(r) && !BarFree(q) && Canonicalize(q) == Canonicalize(r)
    ensures HidesLatency(r)
  {
    FrontThenMetadata(r);
    FrontThenMetadata(q);
    FrontBars(r);
    FrontBars(q);
    FrontEnds(q);
    var f, g, l := Front(r), Front(q), LatencyText(q);
    var z := LongerFront(f, MetadataText(r), g, MetadataText(q), Canonicalize(r));
    LatencyAtEnd(f, z, g, l);
    var pre := z[..|z| - |l|];
    assert z == pre + l;
    assert MetadataText(r) == pre + l + [BAR] + MetadataText(q);
    assert LatencyInside(MetadataText(r), pre, l, MetadataText(q));
  }

  lemma LatencyAtEnd(f: Bytes, z: Bytes, g: Bytes, l: Bytes)
    requires g == f + [BAR] + z && BAR !in l
    requires |g| > |l| && g[|g| - |l|..] == l && g[|g| - |l| - 1] == BAR
    ensures |l| <= |z| && z[|z| - |l|..] == l
    ensures var pre := z[..|z| - |l|]; pre == [] || pre[|pre| - 1] == BAR
  {
    assert g[|f|] == BAR;
    if |l| > |z| {
      assert false;
    }
    assert z[|z| - |l|..] == g[|g| - |l|..];
    if |z| > |l| {
      assert z[|z| - |l| - 1] == g[|g| - |l| - 1];
    }
  }

  /** A row's payload is its own alone exactly when none of its text fields has a
      bar and its metadata hides no latency. */
  lemma UnambiguousIff(r: AuditRow)
    requires ValidTime(r.ts)
    ensures (BarFree(r) && !HidesLatency(r)) <==>
            forall q: AuditRow :: ValidTime(q.ts) && Canonicalize(q) == Canonicalize(r) ==> SameRow(q, r)
  {
    if !BarFree(r) {
      TwinSharesPayload(r);
      assert ValidTime(Twin(r).ts);
    } else if HidesLatency(r) {
      var q := HiddenLatencyIsAmbiguous(r);
      assert ValidTime(q.ts);
    } else {
      forall q: AuditRow | ValidTime(q.ts) && Canonicalize(q) == Canonicalize(r)
        ensures SameRow(q, r)
      {
        if BarFree(q) {
          CanonicalInjective(q, r);
        } else {
          SecondRowHidesLatency(r, q);
          assert false;
        }
      }
    }
  }

  // ----- anchored rows ------------------------------------------------------

  function Payload(rows: seq<AuditRow>): seq<Bytes>
  {
    seq(|rows|, i requires 0 <= i < |rows| => Canonicalize(rows[i]))
  }

  /** Can another row pass for `a`?  Not when its payload is its own alone, and not
      `b` when neither has a bar in a text field. */
  ghost predicate Separable(a: AuditRow, b: AuditRow)
  {
    ValidTime(a.ts) && ValidTime(b.ts) && BarFree(a) && (!HidesLatency(a) || BarFree(b))
  }

  lemma SeparableRows(a: AuditRow, b: AuditRow)
    requires Separable(a, b) && Canonicalize(a) == Canonicalize(b)
    ensures SameRow(b, a)
  {
    if BarFree(b) {
      CanonicalInjective(b, a);
    } else {
      UnambiguousIff(a);
    }
  }

  /** An anchor pins rows, not only payloads: when a chain of audit rows verifies and
      still carries the anchored head at the anchored count, its rows up to there are
      the anchored ones, or `Compare` yields a collision. */
  lemma AnchorPinsRows(h: Hash, anchored: seq<ChainRow>, now: seq<ChainRow>, old_: seq<AuditRow>, new_: seq<AuditRow>)
    requires Clean(h, anchored) && Clean(h, now)
    requires Payloads(anchored) == Payload(old_) && Payloads(now) == Payload(new_)
    requires Snapshot(anchored).count <= |now| && Head(now[..Snapshot(anchored).count]) == Snapshot(anchored).head
    requires forall i :: 0 <= i < |old_| && i < |new_| ==> Separable(old_[i], new_[i])
    ensures var n := Snapshot(anchored).count;
            && Clean(h, now[..n])
            && (Compare(h, anchored, now[..n]).Collision?
                || (|old_| == n <= |new_| && forall i :: 0 <= i < n ==> SameRow(new_[i], old_[i])))
  {
    var n := Snapshot(anchored).count;
    AnchorPinsHistory(h, anchored, now);
    assert |Payloads(anchored)| == |old_| && |Payloads(now)| == |new_|;
    if Payloads(now)[..n] == Payloads(anchored) {
      forall i | 0 <= i < n
        ensures SameRow(new_[i], old_[i])
      {
        assert Payloads(now)[..n][i] == Payload(new_)[i] && Payloads(anchored)[i] == Payload(old_)[i];
        SeparableRows(old_[i], new_[i]);
      }
    }
  }
}

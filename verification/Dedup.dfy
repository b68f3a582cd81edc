/** The alert router's admit cache (daimon-app alert_router.rs).  Times are
    readings of a monotonic clock. */
module Dedup {

  type Seen = map<string, nat>

  /** `duration_since`, which saturates. */
  function Age(now: nat, t: nat): nat
  {
    if now >= t then now - t else 0
  }

  function Evict(seen: Seen, now: nat, ttl: nat): Seen
  {
    map s | s in seen && Age(now, seen[s]) < ttl :: seen[s]
  }

  predicate Answer(seen: Seen, sig: string, now: nat, ttl: nat)
  {
    !(sig in Evict(seen, now, ttl) && Age(now, seen[sig]) < ttl)
  }

  function Next(seen: Seen, sig: string, now: nat, ttl: nat): Seen
  {
    if Answer(seen, sig, now, ttl) then Evict(seen, now, ttl)[sig := now] else Evict(seen, now, ttl)
  }

  // ----- the reference: every admission is remembered forever ----------------

  datatype Admission = Admission(sig: string, at: nat)

  predicate Recent(log: seq<Admission>, sig: string, now: nat, ttl: nat)
  {
    exists i :: 0 <= i < |log| && log[i].sig == sig && Age(now, log[i].at) < ttl
  }

  function Logged(log: seq<Admission>, sig: string, now: nat, ttl: nat): seq<Admission>
  {
    if Recent(log, sig, now, ttl) then log else log + [Admission(sig, now)]
  }

  /** The cache holds real admissions, and the newest of those that are not yet
      `ttl` old. */
  ghost predicate Tracks(seen: Seen, log: seq<Admission>, now: nat, ttl: nat)
  {
    && (forall i :: 0 <= i < |log| ==> log[i].at <= now)
    && (forall s :: s in seen ==> Admission(s, seen[s]) in log)
    && (forall i :: 0 <= i < |log| && now - log[i].at < ttl ==> log[i].sig in seen && log[i].at <= seen[log[i].sig])
  }

  /** Any two admissions of one signature are at least `ttl` apart. */
  predicate Spaced(log: seq<Admission>, ttl: nat)
  {
    forall i, j :: 0 <= i < j < |log| && log[i].sig == log[j].sig ==> log[i].at + ttl <= log[j].at
  }

  /** The cache knows an admission that is not yet `ttl` old exactly when there is
      one. */
  lemma AnswerAgrees(seen: Seen, log: seq<Admission>, last: nat, sig: string, now: nat, ttl: nat)
    requires Tracks(seen, log, last, ttl) && last <= now
    ensures Answer(seen, sig, now, ttl) <==> !Recent(log, sig, now, ttl)
  {
    if !Answer(seen, sig, now, ttl) {
      var a := Admission(sig, seen[sig]);
      assert a in log;
      var i :| 0 <= i < |log| && log[i] == a;
      assert Recent(log, sig, now, ttl);
    }
  }

  lemma EvictTracks(seen: Seen, log: seq<Admission>, last: nat, now: nat, ttl: nat)
    requires Tracks(seen, log, last, ttl) && last <= now
    ensures Tracks(Evict(seen, now, ttl), log, now, ttl)
  {
  }

  lemma InsertTracks(seen: Seen, log: seq<Admission>, sig: string, now: nat, ttl: nat)
    requires Tracks(seen, log, now, ttl)
    ensures Tracks(seen[sig := now], log + [Admission(sig, now)], now, ttl)
  {
    var log' := log + [Admission(sig, now)];
    assert log'[|log|] == Admission(sig, now);
    forall s | s in seen
      ensures Admission(s, seen[s]) in log'
    {
      assert Admission(s, seen[s]) in log;
    }
  }

  lemma OneCall(seen: Seen, log: seq<Admission>, last: nat, sig: string, now: nat, ttl: nat)
    requires Tracks(seen, log, last, ttl) && last <= now
    ensures Answer(seen, sig, now, ttl) <==> !Recent(log, sig, now, ttl)
    ensures Tracks(Next(seen, sig, now, ttl), Logged(log, sig, now, ttl), now, ttl)
    ensures Spaced(log, ttl) ==> Spaced(Logged(log, sig, now, ttl), ttl)
  {
    AnswerAgrees(seen, log, last, sig, now, ttl);
    EvictTracks(seen, log, last, now, ttl);
    InsertTracks(Evict(seen, now, ttl), log, sig, now, ttl);
  }

  /** After a call every entry is younger than the window, unless the window is
      empty. */
  lemma EntriesAreYoung(seen: Seen, sig: string, now: nat, ttl: nat)
    ensures (forall s :: s in Next(seen, sig, now, ttl) ==> Age(now, Next(seen, sig, now, ttl)[s]) < ttl) <==> ttl > 0
  {
    if ttl == 0 {
      assert sig in Next(seen, sig, now, ttl);
    }
  }

  // ----- whole call sequences -----------------------------------------------

  datatype Call = Call(sig: string, now: nat)

  function CacheAnswers(seen: Seen, calls: seq<Call>, ttl: nat): seq<bool>
    decreases |calls|
  {
    if calls == [] then []
    else [Answer(seen, calls[0].sig, calls[0].now, ttl)]
         + CacheAnswers(Next(seen, calls[0].sig, calls[0].now, ttl), calls[1..], ttl)
  }

  function ReferenceAnswers(log: seq<Admission>, calls: seq<Call>, ttl: nat): seq<bool>
    decreases |calls|
  {
    if calls == [] then []
    else [!Recent(log, calls[0].sig, calls[0].now, ttl)]
         + ReferenceAnswers(Logged(log, calls[0].sig, calls[0].now, ttl), calls[1..], ttl)
  }

  function Admissions(log: seq<Admission>, calls: seq<Call>, ttl: nat): seq<Admission>
    decreases |calls|
  {
    if calls == [] then log
    else Admissions(Logged(log, calls[0].sig, calls[0].now, ttl), calls[1..], ttl)
  }

  predicate Nondecreasing(calls: seq<Call>, from: nat)
  {
    && (forall i :: 0 <= i < |calls| ==> from <= calls[i].now)
    && (forall i, j :: 0 <= i < j < |calls| ==> calls[i].now <= calls[j].now)
  }

  lemma {:induction false} AgreesFrom(seen: Seen, log: seq<Admission>, last: nat, calls: seq<Call>, ttl: nat)
    requires Tracks(seen, log, last, ttl) && Nondecreasing(calls, last) && Spaced(log, ttl)
    ensures CacheAnswers(seen, calls, ttl) == ReferenceAnswers(log, calls, ttl)
    ensures Spaced(Admissions(log, calls, ttl), ttl)
    decreases |calls|
  {
    if calls != [] {
      var c := calls[0];
      OneCall(seen, log, last, c.sig, c.now, ttl);
      AgreesFrom(Next(seen, c.sig, c.now, ttl), Logged(log, c.sig, c.now, ttl), c.now, calls[1..], ttl);
    }
  }

  /** The cache, which forgets, answers every call sequence as unbounded memory
      would, and admissions of one signature are a full window apart. */
  lemma CacheAgreesWithMemory(calls: seq<Call>, ttl: nat)
    requires Nondecreasing(calls, 0)
    ensures CacheAnswers(map[], calls, ttl) == ReferenceAnswers([], calls, ttl)
    ensures Spaced(Admissions([], calls, ttl), ttl)
  {
    AgreesFrom(map[], [], 0, calls, ttl);
  }

  /** The cache object.  `log` is all it ever admitted, `last` its latest call. */
  class DedupCache {
    var seen: Seen
    const ttl: nat
    ghost var log: seq<Admission>
    ghost var last: nat

    ghost predicate Valid()
      reads this
    {
      Tracks(seen, log, last, ttl) && Spaced(log, ttl)
    }

    constructor (ttl: nat)
      ensures Valid() && log == [] && last == 0 && this.ttl == ttl
    {
      this.ttl := ttl;
      seen, log, last := map[], [], 0;
    }

    /** Refused exactly when this signature was admitted less than `ttl` ago. */
    method Admit(sig: string, now: nat) returns (admitted: bool)
      requires Valid() && last <= now
      modifies this
      ensures Valid() && last == now
      ensures admitted <==> !Recent(old(log), sig, now, ttl)
      ensures log == if admitted then old(log) + [Admission(sig, now)] else old(log)
      ensures seen == Next(old(seen), sig, now, ttl)
    {
      OneCall(seen, log, last, sig, now, ttl);
      log, last := Logged(log, sig, now, ttl), now;
      seen := Evict(seen, now, ttl);
      if sig in seen && Age(now, seen[sig]) < ttl {
        return false;
      }
      seen := seen[sig := now];
      return true;
    }
  }
}

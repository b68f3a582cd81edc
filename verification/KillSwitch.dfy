/** The kill switch (daimon-guard kill_switch.rs) as an interleaving of three
    parties over a shared flag and a shared file: the operator, who creates and
    removes the file; the watcher task, whose tick observes the file, then acts on
    the flag, then records what it saw; and the SIGUSR1 task, which writes the file
    and then raises the flag.  A file test is assumed to report the truth. */
module KillSwitch {
  import opened Wrappers

  /** Where the watcher stands in its loop. */
  datatype Watcher =
    | AtTick
    | Observed(present: bool)
    | Applied(present: bool)

  datatype SignalTask = Listening | Received | Wrote

  datatype Kill = Kill(engaged: bool, file: bool, last: bool, watcher: Watcher, signal: SignalTask)

  datatype Action =
    | Touch | Remove
    | Observe | Skip | Apply | Settle
    | SignalArrives | SignalWrites(ok: bool) | SignalEngages

  predicate Init(k: Kill)
  {
    !k.engaged && !k.last && k.watcher == AtTick && k.signal == Listening
  }

  predicate Enabled(k: Kill, a: Action)
  {
    match a
    case Touch => true
    case Remove => true
    case Observe => k.watcher == AtTick
    case Skip => k.watcher.Observed? && k.watcher.present == k.last
    case Apply => k.watcher.Observed? && k.watcher.present != k.last
    case Settle => k.watcher.Applied?
    case SignalArrives => k.signal == Listening
    case SignalWrites(_) => k.signal == Received
    case SignalEngages => k.signal == Wrote
  }

  function Next(k: Kill, a: Action): Kill
    requires Enabled(k, a)
  {
    match a
    case Touch => k.(file := true)
    case Remove => k.(file := false)
    case Observe => k.(watcher := Observed(k.file))
    case Skip => k.(watcher := AtTick)
    case Apply => k.(engaged := k.watcher.present, watcher := Applied(k.watcher.present))
    case Settle => k.(last := k.watcher.present, watcher := AtTick)
    case SignalArrives => k.(signal := Received)
    case SignalWrites(ok) => k.(file := k.file || ok, signal := Wrote)
    case SignalEngages => k.(engaged := true, signal := Listening)
  }

  /** A run: actions interleaved with stutters, the steps other parties take. */
  ghost predicate IsRun(ks: seq<Kill>, acts: seq<Option<Action>>)
  {
    && |ks| == |acts| + 1
    && Init(ks[0])
    && forall i :: 0 <= i < |acts| ==> IsStep(ks[i], acts[i], ks[i + 1])
  }

  predicate IsStep(k: Kill, a: Option<Action>, k': Kill)
  {
    if a.Some? then Enabled(k, a.value) && k' == Next(k, a.value) else k' == k
  }

  // ----- what the watcher remembers -----------------------------------------

  /** The latest observation before position i, or -1. */
  ghost function LastObs(acts: seq<Option<Action>>, i: int): (o: int)
    requires i <= |acts|
    ensures -1 <= o && (o < i || o == -1)
    ensures o >= 0 ==> acts[o] == Some(Observe)
    ensures forall m :: 0 <= m < i && o < m ==> acts[m] != Some(Observe)
  {
    if i <= 0 then -1
    else if acts[i - 1] == Some(Observe) then i - 1
    else LastObs(acts, i - 1)
  }

  ghost predicate Saw(ks: seq<Kill>, o: int)
    requires o < |ks|
  {
    o >= 0 && ks[o].file
  }

  /** `last` is exactly what the latest finished tick saw, an unfinished tick
      still holds what it saw, and between ticks `last` implies the flag. */
  ghost predicate Remembers(ks: seq<Kill>, acts: seq<Option<Action>>, i: nat)
    requires i <= |acts| && |ks| == |acts| + 1
  {
    var k := ks[i];
    var o := LastObs(acts, i);
    if k.watcher == AtTick then
      k.last == Saw(ks, o) && (k.last ==> k.engaged)
    else
      && o >= 0
      && k.watcher.present == ks[o].file
      && k.last == Saw(ks, LastObs(acts, o))
      && (k.watcher.Observed? && k.last ==> k.engaged)
      && (k.watcher.Applied? ==> k.watcher.present != k.last)
      && (k.watcher == Applied(true) ==> k.engaged)
  }

  lemma {:induction false} LastIsWhatTheTickSaw(ks: seq<Kill>, acts: seq<Option<Action>>, i: nat)
    requires IsRun(ks, acts) && i <= |acts|
    ensures Remembers(ks, acts, i)
  {
    if i > 0 {
      LastIsWhatTheTickSaw(ks, acts, i - 1);
      assert IsStep(ks[i - 1], acts[i - 1], ks[i]);
    }
  }

  /** At the head of the watcher's loop, `last` implies engaged. */
  lemma LoopHeadEngaged(ks: seq<Kill>, acts: seq<Option<Action>>, i: nat)
    requires IsRun(ks, acts) && i <= |acts|
    ensures ks[i].watcher == AtTick && ks[i].last ==> ks[i].engaged
  {
    LastIsWhatTheTickSaw(ks, acts, i);
  }

  /** The flag falls only when the watcher acts on a tick that saw the file absent
      while the tick before it saw the file present. */
  lemma OnlyPresentThenAbsentReleases(ks: seq<Kill>, acts: seq<Option<Action>>, i: nat)
    requires IsRun(ks, acts) && i < |acts|
    requires ks[i].engaged && !ks[i + 1].engaged
    ensures acts[i] == Some(Apply)
    ensures var absent := LastObs(acts, i);
            && absent >= 0 && !ks[absent].file
            && LastObs(acts, absent) >= 0 && ks[LastObs(acts, absent)].file
  {
    assert IsStep(ks[i], acts[i], ks[i + 1]);
    LastIsWhatTheTickSaw(ks, acts, i);
  }

  // ----- the protected window -----------------------------------------------

  /** From a finished tick that saw the file, for as long as the file stays, the
      flag is up. */
  lemma {:induction false} EngagedWhileFileStays(ks: seq<Kill>, acts: seq<Option<Action>>, i: nat, j: nat)
    requires IsRun(ks, acts) && i <= j <= |acts|
    requires ks[i].watcher == AtTick && ks[i].last
    requires forall m :: i <= m <= j ==> ks[m].file
    ensures ks[j].engaged && ks[j].last && (ks[j].watcher == AtTick || ks[j].watcher == Observed(true))
  {
    if i == j {
      LoopHeadEngaged(ks, acts, i);
    } else {
      EngagedWhileFileStays(ks, acts, i, j - 1);
      assert IsStep(ks[j - 1], acts[j - 1], ks[j]);
    }
  }

  // ----- releasing ----------------------------------------------------------

  ghost predicate Ticked(acts: seq<Option<Action>>, i: nat, j: nat)
    requires i <= j <= |acts|
  {
    exists m :: i <= m < j && acts[m] == Some(Observe)
  }

  /** Where a window that starts between ticks, with the file absent and no signal
      about, can be at position j. */
  ghost predicate ReleasePhase(k: Kill, start: Kill, ticked: bool)
  {
    var afterTick := !k.last && k.engaged == (start.engaged && !start.last);
    match k.watcher
    case AtTick => if ticked then afterTick else k.last == start.last && k.engaged == start.engaged
    case Observed(p) =>
      !p && ticked && (afterTick || (k.last == start.last && k.engaged == start.engaged))
    case Applied(p) => !p && ticked && start.last && !k.engaged
  }

  lemma {:induction false} ReleasePhases(ks: seq<Kill>, acts: seq<Option<Action>>, i: nat, j: nat)
    requires IsRun(ks, acts) && i <= j <= |acts|
    requires ks[i].watcher == AtTick
    requires forall m :: i <= m <= j ==> !ks[m].file && ks[m].signal == Listening
    ensures ReleasePhase(ks[j], ks[i], Ticked(acts, i, j))
  {
    if i < j {
      ReleasePhases(ks, acts, i, j - 1);
      assert IsStep(ks[j - 1], acts[j - 1], ks[j]);
      assert Ticked(acts, i, j) <==> Ticked(acts, i, j - 1) || acts[j - 1] == Some(Observe);
      assert ks[j].signal == Listening && ks[j - 1].signal == Listening;
    }
  }

  /** Removing the file resumes the system exactly when some earlier tick had seen
      the file: after a whole tick without it, and without a signal, the flag is
      up iff it was up and `last` was down. */
  lemma RemovalReleasesIffSeen(ks: seq<Kill>, acts: seq<Option<Action>>, i: nat, j: nat)
    requires IsRun(ks, acts) && i <= j <= |acts|
    requires ks[i].watcher == AtTick && ks[j].watcher == AtTick && Ticked(acts, i, j)
    requires forall m :: i <= m <= j ==> !ks[m].file && ks[m].signal == Listening
    ensures ks[j].engaged <==> ks[i].engaged && !Saw(ks, LastObs(acts, i))
  {
    ReleasePhases(ks, acts, i, j);
    LastIsWhatTheTickSaw(ks, acts, i);
  }

  /** A flag raised behind the watcher's back, with the file already gone, never
      falls while no file appears, whatever else happens. */
  lemma {:induction false} UnseenEngageIsStuck(ks: seq<Kill>, acts: seq<Option<Action>>, i: nat, j: nat)
    requires IsRun(ks, acts) && i <= j <= |acts|
    requires ks[i].engaged && !ks[i].last && (ks[i].watcher == AtTick || ks[i].watcher == Observed(false))
    requires forall m :: i <= m <= j ==> !ks[m].file
    ensures ks[j].engaged && !ks[j].last && (ks[j].watcher == AtTick || ks[j].watcher == Observed(false))
  {
    if i < j {
      UnseenEngageIsStuck(ks, acts, i, j - 1);
      assert IsStep(ks[j - 1], acts[j - 1], ks[j]);
    }
  }

  /** Such a flag is reachable: SIGUSR1 followed by a removal before the next tick. */
  lemma SignalThenQuickRemoval() returns (ks: seq<Kill>, acts: seq<Option<Action>>)
    ensures IsRun(ks, acts)
    ensures var k := ks[|acts|]; k.engaged && !k.last && !k.file && k.watcher == AtTick && k.signal == Listening
    ensures Some(Remove) in acts && Some(SignalArrives) in acts
  {
    var k0 := Kill(false, false, false, AtTick, Listening);
    var k1 := Next(k0, SignalArrives);
    var k2 := Next(k1, SignalWrites(true));
    var k3 := Next(k2, SignalEngages);
    var k4 := Next(k3, Remove);
    ks := [k0, k1, k2, k3, k4];
    acts := [Some(SignalArrives), Some(SignalWrites(true)), Some(SignalEngages), Some(Remove)];
    assert acts[3] == Some(Remove) && acts[0] == Some(SignalArrives);
  }

  lemma {:induction false} FileStays(ks: seq<Kill>, acts: seq<Option<Action>>, i: nat, j: nat)
    requires IsRun(ks, acts) && i <= j <= |acts| && ks[i].file
    requires forall m :: i <= m < j ==> acts[m] != Some(Remove)
    ensures ks[j].file
  {
    if i < j {
      FileStays(ks, acts, i, j - 1);
      assert IsStep(ks[j - 1], acts[j - 1], ks[j]);
    }
  }

  /** A signal whose file is left alone until a whole tick has passed is seen: the flag is
      up, and a removal from then on is one the watcher will act on. */
  lemma SignalIsSeen(ks: seq<Kill>, acts: seq<Option<Action>>, i: nat, o: nat, j: nat)
    requires IsRun(ks, acts) && i < o < j <= |acts|
    requires acts[i] == Some(SignalWrites(true)) && acts[o] == Some(Observe) && ks[j].watcher == AtTick
    requires forall m :: i < m < j ==> acts[m] != Some(Remove)
    ensures ks[j].last && ks[j].engaged && ks[j].file
  {
    assert IsStep(ks[i], acts[i], ks[i + 1]);
    LastIsWhatTheTickSaw(ks, acts, j);
    FileStays(ks, acts, i + 1, LastObs(acts, j));
    FileStays(ks, acts, i + 1, j);
  }

  /** The signal task raises the flag itself, whether or not it could write the file. */
  lemma SignalEngagesAtOnce(ks: seq<Kill>, acts: seq<Option<Action>>, i: nat)
    requires IsRun(ks, acts) && i < |acts| && acts[i] == Some(SignalEngages)
    ensures ks[i + 1].engaged
  {
    assert IsStep(ks[i], acts[i], ks[i + 1]);
  }
}

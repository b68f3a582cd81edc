/** Packing recalled entries into a token budget (daimon-memory dmem_http.rs). */
module Recall {
  import opened Wrappers
  import opened Text

  datatype Entry = Entry(uri: string, kind: string, title: string, body: string)

  datatype PreTurnContext = PreTurnContext(block: string, degraded: bool, hits: nat)

  predicate IsTypedKind(kind: string)
  {
    kind in {"decision", "incident_summary", "incident", "agent_lesson", "lesson"}
  }

  lemma TypedKinds(kind: string)
    ensures IsTypedKind(kind) <==>
            || kind == "decision" || kind == "incident_summary" || kind == "incident"
            || kind == "agent_lesson" || kind == "lesson"
  {
  }

  function TypedOne(e: Entry): seq<Entry>
  {
    if IsTypedKind(e.kind) then [e] else []
  }

  function Typed(es: seq<Entry>): seq<Entry>
  {
    if es == [] then [] else TypedOne(es[0]) + Typed(es[1..])
  }

  /** Filtering keeps exactly the entries of a typed kind. */
  lemma {:induction false} TypedMembers(es: seq<Entry>, e: Entry)
    ensures e in Typed(es) <==> e in es && IsTypedKind(e.kind)
  {
    if es != [] {
      TypedMembers(es[1..], e);
      assert e in es <==> e == es[0] || e in es[1..];
    }
  }

  /** And it goes part by part, so the order is kept. */
  lemma {:induction false} TypedConcat(a: seq<Entry>, b: seq<Entry>)
    ensures Typed(a + b) == Typed(a) + Typed(b)
  {
    if a == [] {
      assert a + b == b;
    } else {
      assert (a + b)[1..] == a[1..] + b && (a + b)[0] == a[0];
      TypedConcat(a[1..], b);
      Reassociate(TypedOne(a[0]), Typed(a[1..]), Typed(b));
    }
  }

  /** About four characters to a token, and never free. */
  function EstTokens(s: string): (r: nat)
    ensures r >= 1
    ensures if |s| < 8 then r == 1 else 4 * r <= |s| < 4 * r + 4
  {
    if |s| / 4 > 1 then |s| / 4 else 1
  }

  function Line(e: Entry): string
  {
    "- (" + e.kind + ") " + e.title + ": " + e.body
  }

  /** A line shows kind, title and body, in this order. */
  lemma LineShows(uri: string, kind: string, title: string, body: string)
    ensures Line(Entry(uri, kind, title, body)) == "- (" + kind + ") " + title + ": " + body
  {
  }

  /** The entries as text, for a given way to show one. */
  function Lines(show: Entry -> string, es: seq<Entry>): (r: seq<string>)
    ensures |r| == |es|
  {
    if es == [] then [] else Lines(show, es[..|es| - 1]) + [show(es[|es| - 1])]
  }

  function Cost(lines: seq<string>): nat
  {
    if lines == [] then 0 else Cost(lines[..|lines| - 1]) + EstTokens(lines[|lines| - 1])
  }

  function Uris(es: seq<Entry>): set<string>
  {
    if es == [] then {} else Uris(es[..|es| - 1]) + {es[|es| - 1].uri}
  }

  lemma UrisSnoc(es: seq<Entry>, e: Entry)
    ensures Uris(es + [e]) == Uris(es) + {e.uri}
  {
    assert (es + [e])[..|es|] == es;
  }

  lemma {:induction false} UrisAre(es: seq<Entry>)
    ensures forall u :: u in Uris(es) <==> exists i :: 0 <= i < |es| && es[i].uri == u
  {
    if es != [] {
      UrisAre(es[..|es| - 1]);
    }
  }

  /** Deduplication by uri: an entry stays when no earlier one has its uri. */
  function KeepFirst(es: seq<Entry>): seq<Entry>
  {
    if es == [] then []
    else
      var front, last := es[..|es| - 1], es[|es| - 1];
      if last.uri in Uris(front) then KeepFirst(front) else KeepFirst(front) + [last]
  }

  predicate Distinct(es: seq<Entry>)
  {
    forall i, j :: 0 <= i < j < |es| ==> es[i].uri != es[j].uri
  }

  lemma DistinctSnoc(es: seq<Entry>, e: Entry)
    requires Distinct(es) && e.uri !in Uris(es)
    ensures Distinct(es + [e])
  {
    UrisAre(es);
  }

  /** It loses no uri and repeats none. */
  lemma {:induction false} KeepFirstDistinct(es: seq<Entry>)
    ensures Uris(KeepFirst(es)) == Uris(es) && Distinct(KeepFirst(es))
  {
    if es != [] {
      var front, last := es[..|es| - 1], es[|es| - 1];
      KeepFirstDistinct(front);
      if last.uri in Uris(front) {
        assert KeepFirst(es) == KeepFirst(front) && Uris(es) == Uris(front);
      } else {
        UrisSnoc(KeepFirst(front), last);
        DistinctSnoc(KeepFirst(front), last);
      }
    }
  }

  /** What is kept of the beginning comes first. */
  lemma {:induction false} KeepFirstPrefix(es: seq<Entry>, i: nat)
    requires i <= |es|
    ensures KeepFirst(es[..i]) <= KeepFirst(es)
  {
    if i < |es| {
      var front := es[..|es| - 1];
      KeepFirstPrefix(front, i);
      assert front[..i] == es[..i];
    } else {
      assert es[..i] == es;
    }
  }

  lemma {:induction false} LinesPrefix(show: Entry -> string, a: seq<Entry>, b: seq<Entry>)
    requires a <= b
    ensures Lines(show, a) <= Lines(show, b)
  {
    if |a| < |b| {
      var front := b[..|b| - 1];
      LinesPrefix(show, a, front);
    } else {
      assert a == b;
    }
  }

  lemma LinesSnoc(show: Entry -> string, es: seq<Entry>, e: Entry)
    ensures Lines(show, es + [e]) == Lines(show, es) + [show(e)]
  {
    assert (es + [e])[..|es|] == es;
  }

  lemma KeepFirstSnoc(es: seq<Entry>, e: Entry)
    ensures KeepFirst(es + [e]) == if e.uri in Uris(es) then KeepFirst(es) else KeepFirst(es) + [e]
  {
    assert (es + [e])[..|es|] == es;
  }

  /** One more entry: nothing new when its uri has come up, else one more line. */
  lemma KeepFirstStep(show: Entry -> string, es: seq<Entry>, e: Entry)
    ensures Lines(show, KeepFirst(es + [e])) ==
            if e.uri in Uris(es) then Lines(show, KeepFirst(es)) else Lines(show, KeepFirst(es)) + [show(e)]
  {
    KeepFirstSnoc(es, e);
    LinesSnoc(show, KeepFirst(es), e);
  }

  lemma CostSnoc(lines: seq<string>, line: string)
    ensures Cost(lines + [line]) == Cost(lines) + EstTokens(line)
  {
    assert (lines + [line])[..|lines|] == lines;
  }

  lemma {:induction false} CostGrows(lines: seq<string>, j: nat, k: nat)
    requires j <= k <= |lines|
    ensures Cost(lines[..j]) <= Cost(lines[..k])
    decreases k
  {
    if j < k {
      CostGrows(lines, j, k - 1);
      assert lines[..k] == lines[..k - 1] + [lines[k - 1]];
      CostSnoc(lines[..k - 1], lines[k - 1]);
    }
  }

  /** The joined block is bounded by what its lines were charged. */
  lemma {:induction false} BlockBound(lines: seq<string>)
    requires lines != []
    ensures |Join(lines, '\n')| <= 4 * (Cost(lines) + |lines|) - 1
    ensures |lines| <= Cost(lines)
    decreases |lines|
  {
    CostFront(lines);
    if |lines| == 1 {
      assert lines == [lines[0]];
    } else {
      BlockBound(lines[1..]);
    }
  }

  lemma {:induction false} CostFront(lines: seq<string>)
    requires lines != []
    ensures Cost(lines) == EstTokens(lines[0]) + Cost(lines[1..])
  {
    if |lines| > 1 {
      CostFront(lines[..|lines| - 1]);
      assert lines[1..][..|lines| - 2] == lines[..|lines| - 1][1..];
    }
  }

  /** The first `k` lines are the longest run from the front that fits. */
  ghost predicate LongestFit(lines: seq<string>, k: nat, budget: nat)
  {
    k <= |lines| && Cost(lines[..k]) <= budget
    && forall j: nat :: k < j <= |lines| ==> Cost(lines[..j]) > budget
  }

  lemma StopIsLongest(lines: seq<string>, k: nat, budget: nat)
    requires k < |lines| && Cost(lines[..k]) <= budget < Cost(lines[..k]) + EstTokens(lines[k])
    ensures LongestFit(lines, k, budget)
  {
    assert lines[..k + 1] == lines[..k] + [lines[k]];
    CostSnoc(lines[..k], lines[k]);
    forall j: nat | k < j <= |lines|
      ensures Cost(lines[..j]) > budget
    {
      CostGrows(lines, k + 1, j);
    }
  }

  /** What the turn is given for the two recalls; either one failing degrades. */
  ghost predicate Packs(r: PreTurnContext, lines: seq<string>, budget: nat)
  {
    && !r.degraded
    && LongestFit(lines, r.hits, budget)
    && r.block == Join(lines[..r.hits], '\n')
  }

  method PreTurnRecall(all: Option<seq<Entry>>, typedPool: Option<seq<Entry>>, maxTokens: nat)
    returns (r: PreTurnContext)
    ensures all.None? || typedPool.None? ==> r == PreTurnContext("", true, 0)
    ensures all.Some? && typedPool.Some? ==>
              Packs(r, Lines(Line, KeepFirst(Typed(typedPool.value) + all.value)), maxTokens)
    ensures r.hits > 0 ==> |r.block| < 8 * maxTokens
  {
    if all.None? || typedPool.None? { return PreTurnContext("", true, 0); }
    r := Pack(Line, Typed(typedPool.value) + all.value, maxTokens);
  }

  method Pack(show: Entry -> string, es: seq<Entry>, maxTokens: nat) returns (r: PreTurnContext)
    ensures Packs(r, Lines(show, KeepFirst(es)), maxTokens)
    ensures r.hits > 0 ==> |r.block| < 8 * maxTokens
  {
    var seen: set<string>, packed: seq<string>, budgetLeft, hits := {}, [], maxTokens, 0;
    for i := 0 to |es|
      invariant Progress(show, es[..i], seen, packed) && hits == |packed|
      invariant Cost(packed) + budgetLeft == maxTokens
    {
      var e := es[i];
      assert es[..i + 1] == es[..i] + [e];
      ProgressSnoc(show, es[..i], e, seen, packed);
      if e.uri in seen { continue; }
      seen := seen + {e.uri};
      var line := show(e);
      var cost := EstTokens(line);
      ProgressPrefix(show, es, i + 1, seen, packed + [line]);
      if cost > budgetLeft {
        StoppedAt(Lines(show, KeepFirst(es)), packed, line, maxTokens);
        return PreTurnContext(Join(packed, '\n'), false, hits);
      }
      CostSnoc(packed, line);
      budgetLeft := budgetLeft - cost;
      packed := packed + [line];
      hits := hits + 1;
    }
    AllTaken(show, es, seen, packed, maxTokens);
    return PreTurnContext(Join(packed, '\n'), false, hits);
  }

  /** Everything kept of these entries has been packed. */
  ghost predicate Progress(show: Entry -> string, done: seq<Entry>, seen: set<string>, packed: seq<string>)
  {
    seen == Uris(done) && packed == Lines(show, KeepFirst(done))
  }

  lemma ProgressSnoc(show: Entry -> string, done: seq<Entry>, e: Entry, seen: set<string>, packed: seq<string>)
    requires Progress(show, done, seen, packed)
    ensures if e.uri in seen then Progress(show, done + [e], seen, packed)
            else Progress(show, done + [e], seen + {e.uri}, packed + [show(e)])
  {
    UrisSnoc(done, e);
    KeepFirstStep(show, done, e);
    assert e.uri in seen ==> seen + {e.uri} == seen;
  }

  lemma ProgressPrefix(show: Entry -> string, es: seq<Entry>, i: nat, seen: set<string>, packed: seq<string>)
    requires i <= |es| && Progress(show, es[..i], seen, packed)
    ensures packed <= Lines(show, KeepFirst(es))
  {
    KeepFirstPrefix(es, i);
    LinesPrefix(show, KeepFirst(es[..i]), KeepFirst(es));
  }

  lemma AllTaken(show: Entry -> string, es: seq<Entry>, seen: set<string>, packed: seq<string>, budget: nat)
    requires Progress(show, es[..|es|], seen, packed) && Cost(packed) <= budget
    ensures LongestFit(packed, |packed|, budget) && packed == Lines(show, KeepFirst(es)) == packed[..|packed|]
    ensures packed != [] ==> |Join(packed, '\n')| < 8 * budget
  {
    assert es[..|es|] == es;
    assert packed[..|packed|] == packed;
    Bounded(packed, budget);
  }

  lemma StoppedAt(lines: seq<string>, packed: seq<string>, line: string, budget: nat)
    requires packed + [line] <= lines && Cost(packed) <= budget < Cost(packed) + EstTokens(line)
    ensures LongestFit(lines, |packed|, budget) && lines[..|packed|] == packed
    ensures packed != [] ==> |Join(packed, '\n')| < 8 * budget
  {
    assert lines[|packed|] == (packed + [line])[|packed|];
    assert lines[..|packed|] == packed;
    StopIsLongest(lines, |packed|, budget);
    Bounded(packed, budget);
  }

  lemma Bounded(packed: seq<string>, budget: nat)
    requires Cost(packed) <= budget
    ensures packed != [] ==> |Join(packed, '\n')| < 8 * budget
  {
    if packed != [] {
      BlockBound(packed);
    }
  }
}

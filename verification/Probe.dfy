/** Probe regions: grading samples and electing a winner by repeated verdicts. */
module Probe {
  import opened Ranks

  /** Nanoseconds. */
  type Time = int

  const AGE := 300_000_000_000
  const LEAST_MARGIN := 10_000_000
  const REPLIES := 20
  const KEPT := 64

  datatype Sample = Sample(at: Time, duration: int, ok: bool)

  /** `p95` is 0 without replies; losses are reals. */
  datatype Grade = Grade(count: nat, total: nat, p95: int, loss: real)

  datatype Region = Region(samples: map<string, seq<Sample>>, winner: string, challenger: string,
                           votes: int, revision: nat, lastVote: nat)

  const NEW_REGION := Region(map[], "", "", 0, 0, 0)

  // ---- Grading ----

  predicate Fresh(s: Sample, now: Time) {
    now - s.at <= AGE
  }

  /** The durations of the recent replies, in order. */
  function Replies(window: seq<Sample>, now: Time): seq<int> {
    if window == [] then []
    else
      var rest, s := Replies(window[..|window| - 1], now), window[|window| - 1];
      if Fresh(s, now) && s.ok then rest + [s.duration] else rest
  }

  function Recent(window: seq<Sample>, now: Time): (n: nat)
    ensures |Replies(window, now)| <= n
  {
    if window == [] then 0
    else Recent(window[..|window| - 1], now) + (if Fresh(window[|window| - 1], now) then 1 else 0)
  }

  function GradeOf(window: seq<Sample>, now: Time): Grade {
    var values, n := Replies(window, now), Recent(window, now);
    Grade(|values|, n, if values == [] then 0 else Percentile(values, 95),
          if n == 0 then 0.0 else (n - |values|) as real / n as real)
  }

  function Window(r: Region, name: string): seq<Sample> {
    if name in r.samples then r.samples[name] else []
  }

  function Graded(r: Region, name: string, now: Time): Grade {
    GradeOf(Window(r, name), now)
  }

  method GradeWindow(window: seq<Sample>, now: Time) returns (g: Grade)
    ensures g == GradeOf(window, now)
  {
    var values := [];
    var n := 0;
    for k := 0 to |window|
      invariant values == Replies(window[..k], now) && n == Recent(window[..k], now)
    {
      assert window[..k + 1][..k] == window[..k];
      if now - window[k].at <= AGE {
        n := n + 1;
        if window[k].ok {
          values := values + [window[k].duration];
        }
      }
    }
    assert window[..|window|] == window;
    var loss := 0.0;
    if n > 0 {
      loss := (n - |values|) as real / n as real;
    }
    var p95 := 0;
    if |values| > 0 {
      NearestRankInRange(|values|, 95);
      var sorted := Sort(values);
      p95 := sorted[(95 * |values| + 99) / 100 - 1];
    }
    return Grade(|values|, n, p95, loss);
  }

  lemma FractionInRange(k: nat, n: nat)
    requires k <= n && n > 0
    ensures 0.0 <= k as real / n as real <= 1.0
  {
  }

  /** A loss is a fraction, and the graded time is that of a recent reply which 95 in 100 are at most. */
  lemma GradeIsFair(window: seq<Sample>, now: Time)
    ensures var g := GradeOf(window, now);
      && 0.0 <= g.loss <= 1.0 && g.count <= g.total
      && (g.count > 0 ==> g.p95 in Replies(window, now) && 95 * g.count <= 100 * AtMost(Replies(window, now), g.p95))
  {
    hide Replies, Recent, Percentile, AtMost;
    var values, n := Replies(window, now), Recent(window, now);
    if n > 0 {
      FractionInRange(n - |values|, n);
    }
    if values != [] {
      PercentileIs(values, 95);
      assert Percentile(values, 95) <= Percentile(values, 95);
    }
  }

  // ---- Electing ----

  function Margin(x: Grade): int {
    if x.p95 * 15 / 100 < LEAST_MARGIN then LEAST_MARGIN else x.p95 * 15 / 100
  }

  /** Whether `y` beats `x`: clearly fewer losses, or not clearly more and a clearly smaller time. */
  predicate Better(y: Grade, x: Grade) {
    y.loss + 0.05 < x.loss || (y.loss <= x.loss + 0.05 && y.p95 + Margin(x) <= x.p95)
  }

  lemma BetterIsAsymmetric(y: Grade, x: Grade)
    requires Better(y, x)
    ensures !Better(x, y)
  {
  }

  /** The verdict of a comparison, if both sides have enough replies. */
  datatype Verdict = NoVerdict | Verdict(champion: string, candidate: string, favourable: bool)

  /**
   The clock as a comparison reads it: for the grades of its two sides, for that of the winner, and
   once more for the winner when it is neither side.
   */
  datatype Clock = Clock(first: Time, second: Time, winner: Time, champion: Time)

  predicate WinnerIsSilent(r: Region, c: Clock) {
    r.winner == "" || Graded(r, r.winner, c.winner).count < REPLIES
  }

  /** The winner a comparison starts from: without enough replies of its own it gives way to `a`. */
  function Champion(r: Region, a: string, c: Clock): string {
    if WinnerIsSilent(r, c) then a else r.winner
  }

  function VerdictOf(r: Region, a: string, b: string, c: Clock): Verdict {
    var x, y := Graded(r, a, c.first), Graded(r, b, c.second);
    if x.count < REPLIES || y.count < REPLIES then NoVerdict
    else
      var champion := Champion(r, a, c);
      if champion == b then Verdict(b, a, Better(x, y))
      else Verdict(champion, b, Better(y, if champion == a then x else Graded(r, champion, c.champion)))
  }

  function Record(r: Region, name: string, s: Sample): Region {
    var v := Window(r, name) + [s];
    r.(revision := r.revision + 1, samples := r.samples[name := if |v| > KEPT then v[|v| - KEPT..] else v])
  }

  /** What a verdict does to the votes. */
  function Vote(r: Region, v: Verdict): Region {
    match v
    case NoVerdict => r
    case Verdict(champion, candidate, favourable) =>
      var s := r.(winner := champion);
      if !favourable then (if s.challenger == candidate then s.(challenger := "", votes := 0) else s)
      else if s.challenger == candidate && s.revision == s.lastVote then s
      else
        var votes := if s.challenger == candidate then s.votes + 1 else 1;
        if votes >= 2 then s.(winner := candidate, challenger := "", votes := 0, lastVote := s.revision)
        else s.(challenger := candidate, votes := votes, lastVote := s.revision)
  }

  class AntiRegion {
    var samples: map<string, seq<Sample>>
    var winner: string
    var challenger: string
    var votes: int
    var revision: nat
    var lastVote: nat

    function View(): Region
      reads this
    {
      Region(samples, winner, challenger, votes, revision, lastVote)
    }

    constructor ()
      ensures View() == NEW_REGION
    {
      samples, winner, challenger, votes, revision, lastVote := map[], "", "", 0, 0, 0;
    }

    method RecordSample(name: string, s: Sample)
      modifies `samples, `revision
      ensures View() == Record(old(View()), name, s)
    {
      revision := revision + 1;
      var v := (if name in samples then samples[name] else []) + [s];
      if |v| > KEPT {
        v := v[|v| - KEPT..];
      }
      samples := samples[name := v];
    }

    method GradeNamed(name: string, now: Time) returns (g: Grade)
      ensures g == Graded(View(), name, now)
    {
      g := GradeWindow(if name in samples then samples[name] else [], now);
    }

    method Compare(first: string, second: string, clock: Clock)
      modifies `winner, `challenger, `votes, `lastVote
      ensures View() == Vote(old(View()), VerdictOf(old(View()), first, second, clock))
    {
      hide GradeOf, Better;
      var a, b := first, second;
      var x := GradeNamed(a, clock.first);
      var y := GradeNamed(b, clock.second);
      if x.count < REPLIES || y.count < REPLIES {
        return;
      }
      if winner == "" {
        winner := a;
      } else {
        var w := GradeNamed(winner, clock.winner);
        if w.count < REPLIES {
          winner := a;
        }
      }
      if winner == b {
        a, b := b, a;
        x, y := y, x;
      }
      if winner != a {
        a := winner;
        x := GradeNamed(a, clock.champion);
      }
      if !Better(y, x) {
        if challenger == b {
          challenger, votes := "", 0;
        }
        return;
      }
      if challenger != b {
        challenger, votes := b, 0;
      } else if revision == lastVote {
        return;
      }
      lastVote := revision;
      votes := votes + 1;
      if votes >= 2 {
        winner, votes, challenger := b, 0, "";
      }
    }
  }
}

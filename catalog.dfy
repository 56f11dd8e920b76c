/** The course records the pages share (a course holds modules, a module holds videos),
    the counts the pages derive from them, and the percentage they display. */
module Catalog {

  datatype Level = Beginner | Intermediate | Advanced

  datatype Video = Video(id: int, title: string, url: string)

  datatype Module = Module(id: int, title: string, videos: seq<Video>)

  datatype Course = Course(id: int, title: string, description: string, level: Level,
                           createdAt: string, modules: seq<Module>)

  /** Per-video completion flags, keyed by video id (the stored keys are the ids written
      as strings, which identifies them one to one). */
  type Progress = map<int, bool>

  // ---------------------------------------------------------------------------
  // Counting videos

  /** `modules.reduce((a, m) => a + m.videos.length, 0)`. */
  function VideoCount(modules: seq<Module>): nat
  {
    if modules == [] then 0 else |modules[0].videos| + VideoCount(modules[1..])
  }

  /** The videos of all modules, in playing order. */
  function AllVideos(modules: seq<Module>): seq<Video>
  {
    if modules == [] then [] else modules[0].videos + AllVideos(modules[1..])
  }

  /** The count is the number of videos in playing order. */
  lemma {:induction false} VideoCountIsAllVideos(modules: seq<Module>)
    ensures VideoCount(modules) == |AllVideos(modules)|
  {
    if modules != [] {
      VideoCountIsAllVideos(modules[1..]);
    }
  }

  /** Counting works module list by module list. */
  lemma {:induction false} VideoCountConcat(a: seq<Module>, b: seq<Module>)
    ensures VideoCount(a + b) == VideoCount(a) + VideoCount(b)
  {
    if a == [] {
      assert a + b == b;
    } else {
      assert (a + b)[1..] == a[1..] + b;
      VideoCountConcat(a[1..], b);
    }
  }

  /** The videos before module `m`, then those of `m`: counting up to `m + 1`. */
  lemma VideoCountStep(modules: seq<Module>, m: int)
    requires 0 <= m < |modules|
    ensures VideoCount(modules[..m + 1]) == VideoCount(modules[..m]) + |modules[m].videos|
  {
    assert modules[..m + 1] == modules[..m] + [modules[m]];
    VideoCountConcat(modules[..m], [modules[m]]);
  }

  // ---------------------------------------------------------------------------
  // Completion

  /** `!!progress[String(id)]`. */
  predicate IsVideoComplete(p: Progress, id: int) {
    id in p && p[id]
  }

  /** `Object.values(progress).filter(Boolean).length`: the entries set to true. */
  function CompletedCount(p: Progress): nat {
    |set id | id in p && p[id]|
  }

  /** Marking a video adds one to the count, or nothing if it was already complete. */
  lemma CompletedCountAfterMark(p: Progress, id: int)
    ensures CompletedCount(p[id := true])
            == CompletedCount(p) + (if IsVideoComplete(p, id) then 0 else 1)
  {
    var before := set k | k in p && p[k];
    var q := p[id := true];
    var after := set k | k in q && q[k];
    if IsVideoComplete(p, id) {
      assert after == before;
    } else {
      assert after == before + {id};
    }
  }

  // ---------------------------------------------------------------------------
  // Percentages

  /** `Math.round(c / d * 100)` in exact arithmetic: the integer nearest to 100c/d, halves
      rounded up. */
  function RoundPercent(c: nat, d: nat): (r: nat)
    requires d > 0
    ensures r * (2 * d) <= 200 * c + d < r * (2 * d) + 2 * d
  {
    (200 * c + d) / (2 * d)
  }

  /** Multiplying both sides of `a <= b` by the same non-negative number. */
  lemma MulMono(a: int, b: int, m: nat)
    requires a <= b
    ensures a * m <= b * m
  {
    assert b * m - a * m == (b - a) * m;
  }

  /** A count within the total gives a percentage between 0 and 100, all of the total
      gives 100 and none of it gives 0. */
  lemma PercentBounds(c: nat, d: nat)
    requires 0 < d && c <= d
    ensures RoundPercent(c, d) <= 100
    ensures c == d ==> RoundPercent(c, d) == 100
    ensures c == 0 ==> RoundPercent(c, d) == 0
  {
    var n, m := 200 * c + d, 2 * d;
    var r := RoundPercent(c, d);
    assert r * m <= n < r * m + m;
    if r >= 101 {
      MulMono(101, r, m);
      assert false;
    }
    if c == d && r <= 99 {
      MulMono(r, 99, m);
      assert false;
    }
    if c == 0 && r >= 1 {
      MulMono(1, r, m);
      assert false;
    }
  }

  /** More completed videos never show a smaller percentage. */
  lemma PercentMonotone(c1: nat, c2: nat, d: nat)
    requires 0 < d && c1 <= c2
    ensures RoundPercent(c1, d) <= RoundPercent(c2, d)
  {
    var m := 2 * d;
    var r1, r2 := RoundPercent(c1, d), RoundPercent(c2, d);
    assert r1 * m <= 200 * c1 + d && 200 * c2 + d < r2 * m + m;
    if r1 > r2 {
      MulMono(r2 + 1, r1, m);
      assert false;
    }
  }

  /** The percentage shown for a course: completed entries over the video count, a course
      with no videos counting as one (the player's overall progress and the course list's
      progress figure use the same formula). */
  function OverallProgress(modules: seq<Module>, p: Progress): nat {
    RoundPercent(CompletedCount(p), if VideoCount(modules) > 0 then VideoCount(modules) else 1)
  }

  /** With no more completed entries than videos the overall progress is a percentage, 100
      exactly when all are complete. */
  lemma OverallProgressBounds(modules: seq<Module>, p: Progress)
    requires CompletedCount(p) <= VideoCount(modules)
    ensures OverallProgress(modules, p) <= 100
    ensures VideoCount(modules) > 0 && CompletedCount(p) == VideoCount(modules) ==> OverallProgress(modules, p) == 100
  {
    PercentBounds(CompletedCount(p), if VideoCount(modules) > 0 then VideoCount(modules) else 1);
  }
}

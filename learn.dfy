/** The Learn page's lesson cursor: the index of the lesson on screen, stepped forward
    and back around the ten lessons, and the colour of each lesson's level badge. */
module Learn {

  /** The levels of the ten lessons, in order. */
  const LessonLevels: seq<string> := ["Beginner", "Beginner", "Beginner", "Beginner", "Beginner",
                                      "Intermediate", "Intermediate", "Intermediate",
                                      "Advanced", "Advanced"]

  /** `lessons.length`. */
  const LessonCount := 10

  /** A valid cursor. */
  predicate InRange(i: int) {
    0 <= i < LessonCount
  }

  /** nextLesson: `(prev + 1) % lessons.length`. */
  function Next(i: nat): (r: nat)
    ensures InRange(r)
  {
    (i + 1) % LessonCount
  }

  /** prevLesson: `(prev - 1 + lessons.length) % lessons.length`; for a cursor `prev >= 0`
      the dividend is positive, so JavaScript's `%` and Dafny's agree. */
  function Prev(i: nat): (r: nat)
    ensures InRange(r)
  {
    (i - 1 + LessonCount) % LessonCount
  }

  /** Forward steps one past the cursor, wrapping from the last lesson to the first. */
  lemma NextSteps(i: nat)
    requires InRange(i)
    ensures Next(i) == if i == LessonCount - 1 then 0 else i + 1
  {
  }

  /** Back steps one before the cursor, wrapping from the first lesson to the last. */
  lemma PrevSteps(i: nat)
    requires InRange(i)
    ensures Prev(i) == if i == 0 then LessonCount - 1 else i - 1
  {
  }

  /** Back undoes forward and forward undoes back. */
  lemma RoundTrips(i: nat)
    requires InRange(i)
    ensures Prev(Next(i)) == i && Next(Prev(i)) == i
  {
    NextSteps(i);
    PrevSteps(i);
    NextSteps(Prev(i));
    PrevSteps(Next(i));
  }

  /** `k` presses of "next" from `i`. */
  function NextTimes(i: nat, k: nat): (r: nat)
    ensures InRange(r) || (k == 0 && r == i)
  {
    if k == 0 then i else Next(NextTimes(i, k - 1))
  }

  /** The remainder is the one in range: `n == 10 q + r` with `r` in range gives `n % 10 == r`. */
  lemma ModOf(n: int, q: int, r: int)
    requires n == LessonCount * q + r && 0 <= r < LessonCount
    ensures n % LessonCount == r
  {
  }

  /** `k` presses move the cursor `k` places around the circle. */
  lemma {:induction false} NextTimesIsAdd(i: nat, k: nat)
    requires InRange(i)
    ensures NextTimes(i, k) == (i + k) % LessonCount
  {
    if k == 0 {
      ModOf(i, 0, i);
    } else {
      NextTimesIsAdd(i, k - 1);
      var n := i + k - 1;
      var q, j := n / LessonCount, n % LessonCount;
      NextSteps(j);
      if j < LessonCount - 1 {
        ModOf(n + 1, q, j + 1);
      } else {
        ModOf(n + 1, q + 1, 0);
      }
    }
  }

  /** Ten presses of "next" come back to the same lesson, and no other number of presses
      short of a multiple of ten does. */
  lemma FullCircle(i: nat, k: nat)
    requires InRange(i)
    ensures NextTimes(i, k) == i <==> k % LessonCount == 0
  {
    NextTimesIsAdd(i, k);
    var q, r := k / LessonCount, k % LessonCount;
    if i + r < LessonCount {
      ModOf(i + k, q, i + r);
    } else {
      ModOf(i + k, q + 1, i + r - LessonCount);
    }
  }

  // ---------------------------------------------------------------------------
  // Level badges

  const Green := "bg-green-500"
  const Yellow := "bg-yellow-500"
  const Red := "bg-red-500"
  const Gray := "bg-gray-500"

  /** getLevelColor. */
  function LevelColor(level: string): string {
    if level == "Beginner" then Green
    else if level == "Intermediate" then Yellow
    else if level == "Advanced" then Red
    else Gray
  }

  /** Every lesson has a coloured badge (none falls through to gray), and the badge
      changes colour exactly where the level changes. */
  lemma LessonBadges(i: nat, j: nat)
    requires InRange(i) && InRange(j)
    ensures LevelColor(LessonLevels[i]) != Gray
    ensures LevelColor(LessonLevels[i]) == LevelColor(LessonLevels[j]) <==> LessonLevels[i] == LessonLevels[j]
  {
  }
}

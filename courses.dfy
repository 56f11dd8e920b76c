/** The course list and course details pages: filtering the catalogue by search text and
    level, the progress figure of each course, the "enrolled courses" panel, and enrolment,
    which both pages perform the same way on the stored enrolment list and progress table. */
module Courses {
  import opened Text
  import opened Wrappers
  import opened Lists
  import opened Catalog

  // ---------------------------------------------------------------------------
  // Filtering

  /** The level drop-down: "All levels" or one level. */
  datatype LevelFilter = AllLevels | OnlyLevel(level: Level)

  /** The search test: the lower-cased query occurs in the lower-cased title or
      description. */
  predicate MatchesQuery(c: Course, q: string) {
    Contains(ToLower(c.title), q) || Contains(ToLower(c.description), q)
  }

  predicate MatchesLevel(c: Course, f: LevelFilter) {
    f.AllLevels? || c.level == f.level
  }

  /** `list.filter(c => title or description includes q)`. */
  function SearchFilter(cs: seq<Course>, q: string): (r: seq<Course>)
    ensures |r| <= |cs|
    ensures forall i :: 0 <= i < |r| ==> r[i] in cs && MatchesQuery(r[i], q)
    ensures forall i :: 0 <= i < |cs| && MatchesQuery(cs[i], q) ==> cs[i] in r
  {
    if cs == [] then []
    else (if MatchesQuery(cs[0], q) then [cs[0]] else []) + SearchFilter(cs[1..], q)
  }

  /** `list.filter(c => c.level === levelFilter)`, skipped for "All". */
  function LevelFilterOf(cs: seq<Course>, f: LevelFilter): (r: seq<Course>)
    ensures |r| <= |cs|
    ensures forall i :: 0 <= i < |r| ==> r[i] in cs && MatchesLevel(r[i], f)
    ensures forall i :: 0 <= i < |cs| && MatchesLevel(cs[i], f) ==> cs[i] in r
  {
    if cs == [] then []
    else (if MatchesLevel(cs[0], f) then [cs[0]] else []) + LevelFilterOf(cs[1..], f)
  }

  /** The list shown, before sorting: the search applies only when it is not blank, and
      then with the query lower-cased but not trimmed; the level filter applies after it. */
  function Filtered(courses: seq<Course>, search: string, f: LevelFilter): seq<Course> {
    LevelFilterOf(if Trim(search) != [] then SearchFilter(courses, ToLower(search)) else courses, f)
  }

  /** Whether a course passes both filters. */
  predicate Shown(c: Course, search: string, f: LevelFilter) {
    (Trim(search) == [] || MatchesQuery(c, ToLower(search))) && MatchesLevel(c, f)
  }

  /** A course is listed exactly when it is in the catalogue and passes both filters. */
  lemma FilteredIff(courses: seq<Course>, search: string, f: LevelFilter, c: Course)
    ensures c in Filtered(courses, search, f) <==> c in courses && Shown(c, search, f)
  {
    var mid := if Trim(search) != [] then SearchFilter(courses, ToLower(search)) else courses;
    var r := Filtered(courses, search, f);
    if c in r {
      var i :| 0 <= i < |r| && r[i] == c;
      var j :| 0 <= j < |mid| && mid[j] == c;
    }
    if c in courses && Shown(c, search, f) {
      var i :| 0 <= i < |courses| && courses[i] == c;
      if Trim(search) != [] {
        var j :| 0 <= j < |mid| && mid[j] == c;
      }
    }
  }

  /** The search keeps courses and never adds one: each course is listed at most as often
      as the catalogue holds it. */
  lemma {:induction false} SearchFilterSub(cs: seq<Course>, q: string)
    ensures multiset(SearchFilter(cs, q)) <= multiset(cs)
    decreases |cs|
  {
    if cs != [] {
      SearchFilterSub(cs[1..], q);
      assert cs == [cs[0]] + cs[1..];
    }
  }

  lemma {:induction false} LevelFilterSub(cs: seq<Course>, f: LevelFilter)
    ensures multiset(LevelFilterOf(cs, f)) <= multiset(cs)
    decreases |cs|
  {
    if cs != [] {
      LevelFilterSub(cs[1..], f);
      assert cs == [cs[0]] + cs[1..];
    }
  }

  /** Filtering never invents courses: what is listed is a sub-multiset of the catalogue. */
  lemma FilteredSub(courses: seq<Course>, search: string, f: LevelFilter)
    ensures multiset(Filtered(courses, search, f)) <= multiset(courses)
  {
    if Trim(search) != [] {
      SearchFilterSub(courses, ToLower(search));
      LevelFilterSub(SearchFilter(courses, ToLower(search)), f);
    } else {
      LevelFilterSub(courses, f);
    }
  }

  lemma {:induction false} SearchFilterConcat(a: seq<Course>, b: seq<Course>, q: string)
    ensures SearchFilter(a + b, q) == SearchFilter(a, q) + SearchFilter(b, q)
  {
    if a == [] {
      assert a + b == b;
    } else {
      assert (a + b)[1..] == a[1..] + b;
      SearchFilterConcat(a[1..], b, q);
    }
  }

  lemma {:induction false} LevelFilterConcat(a: seq<Course>, b: seq<Course>, f: LevelFilter)
    ensures LevelFilterOf(a + b, f) == LevelFilterOf(a, f) + LevelFilterOf(b, f)
  {
    if a == [] {
      assert a + b == b;
    } else {
      assert (a + b)[1..] == a[1..] + b;
      LevelFilterConcat(a[1..], b, f);
    }
  }

  /** Filtering works piece by piece, so the courses listed keep their catalogue order. */
  lemma FilteredConcat(a: seq<Course>, b: seq<Course>, search: string, f: LevelFilter)
    ensures Filtered(a + b, search, f) == Filtered(a, search, f) + Filtered(b, search, f)
  {
    if Trim(search) != [] {
      SearchFilterConcat(a, b, ToLower(search));
      LevelFilterConcat(SearchFilter(a, ToLower(search)), SearchFilter(b, ToLower(search)), f);
    } else {
      LevelFilterConcat(a, b, f);
    }
  }

  lemma {:induction false} AllLevelsKeepsAll(cs: seq<Course>)
    ensures LevelFilterOf(cs, AllLevels) == cs
  {
    if cs != [] {
      AllLevelsKeepsAll(cs[1..]);
    }
  }

  /** With a blank search and "All levels" the whole catalogue is listed. */
  lemma BlankSearchListsAll(courses: seq<Course>, search: string)
    requires AllSpace(search)
    ensures Filtered(courses, search, AllLevels) == courses
  {
    TrimEmptyIffAllSpace(search);
    AllLevelsKeepsAll(courses);
  }

  /** A one-course catalogue lists its course exactly when the course passes the filters. */
  lemma FilteredSingle(c: Course, search: string, f: LevelFilter)
    ensures Filtered([c], search, f) == if Shown(c, search, f) then [c] else []
  {
    assert [c][1..] == [];
  }

  /** A query longer than both title and description matches neither. */
  lemma LongQueryMisses(c: Course, q: string)
    requires |c.title| < |q| && |c.description| < |q|
    ensures !MatchesQuery(c, ToLower(q))
  {
    ContainsTooLong(ToLower(c.title), ToLower(q));
    ContainsTooLong(ToLower(c.description), ToLower(q));
  }

  /** The query is not trimmed: a title found by a search is no longer found once a
      trailing space is typed after it (when the description is no longer than the query). */
  lemma SearchIsNotTrimmed(c: Course, q: string)
    requires Trim(q) != [] && ToLower(c.title) == ToLower(q) && |c.description| <= |q|
    ensures Filtered([c], q, AllLevels) == [c]
    ensures Filtered([c], q + " ", AllLevels) == []
  {
    ContainsPrefix(ToLower(c.title), ToLower(q));
    FilteredSingle(c, q, AllLevels);
    NonBlankExtended(q, " ");
    LongQueryMisses(c, q + " ");
    FilteredSingle(c, q + " ", AllLevels);
  }

  // ---------------------------------------------------------------------------
  // Progress figures

  /** The stored progress of one course: `courseProgress[String(id)] || {}`. */
  function StoredProgress(store: map<int, Progress>, id: int): Progress {
    if id in store then store[id] else map[]
  }

  /** The progress figure of one course. */
  function PercentOf(c: Course, store: map<int, Progress>): nat {
    OverallProgress(c.modules, StoredProgress(store, c.id))
  }

  /** The figure table after the loop has gone through `courses`: one entry per course id,
      a later course with the same id overwriting an earlier one. */
  function ProgressOf(courses: seq<Course>, store: map<int, Progress>): map<int, nat>
    decreases |courses|
  {
    if courses == [] then map[]
    else ProgressOf(courses[..|courses| - 1], store)[courses[|courses| - 1].id := PercentOf(courses[|courses| - 1], store)]
  }

  /** progressMap: the loop over the catalogue that fills the table. */
  method ProgressMap(courses: seq<Course>, store: map<int, Progress>) returns (m: map<int, nat>)
    ensures m == ProgressOf(courses, store)
  {
    m := map[];
    for i := 0 to |courses|
      invariant m == ProgressOf(courses[..i], store)
    {
      assert courses[..i + 1][..i] == courses[..i];
      m := m[courses[i].id := PercentOf(courses[i], store)];
    }
    assert courses[..|courses|] == courses;
  }

  /** The table has an entry for exactly the ids of the catalogue. */
  lemma {:induction false} ProgressOfKeys(courses: seq<Course>, store: map<int, Progress>, k: int)
    ensures k in ProgressOf(courses, store) <==> exists i :: 0 <= i < |courses| && courses[i].id == k
    decreases |courses|
  {
    if courses != [] {
      var init := courses[..|courses| - 1];
      ProgressOfKeys(init, store, k);
      if exists i :: 0 <= i < |init| && init[i].id == k {
        var i :| 0 <= i < |init| && init[i].id == k;
        assert courses[i].id == k;
      }
      if exists i :: 0 <= i < |courses| && courses[i].id == k {
        var i :| 0 <= i < |courses| && courses[i].id == k;
        if i < |init| {
          assert init[i].id == k;
        }
      }
    }
  }

  /** The entry for an id is the figure of the last course carrying that id. */
  lemma {:induction false} ProgressOfLast(courses: seq<Course>, store: map<int, Progress>, i: int)
    requires 0 <= i < |courses|
    requires forall j :: i < j < |courses| ==> courses[j].id != courses[i].id
    ensures courses[i].id in ProgressOf(courses, store)
    ensures ProgressOf(courses, store)[courses[i].id] == PercentOf(courses[i], store)
    decreases |courses|
  {
    var n := |courses| - 1;
    if i < n {
      var init := courses[..n];
      assert init[i] == courses[i];
      ProgressOfLast(init, store, i);
    }
  }

  // ---------------------------------------------------------------------------
  // The "Your Enrolled Courses" panel

  /** `courses.find(x => x.id === id)`: the first course carrying the id. */
  function Find(courses: seq<Course>, id: int): (r: Option<Course>)
    ensures r.None? <==> forall i :: 0 <= i < |courses| ==> courses[i].id != id
    ensures r.Some? ==> exists i :: 0 <= i < |courses| && courses[i] == r.value && r.value.id == id
                                    && forall j :: 0 <= j < i ==> courses[j].id != id
  {
    if courses == [] then None
    else if courses[0].id == id then Some(courses[0])
    else
      var r := Find(courses[1..], id);
      assert r.Some? ==> exists i :: 1 <= i < |courses| && courses[i] == r.value && r.value.id == id
                                     && forall j :: 0 <= j < i ==> courses[j].id != id by {
        if r.Some? {
          var i :| 0 <= i < |courses[1..]| && courses[1..][i] == r.value && r.value.id == id
                   && forall j :: 0 <= j < i ==> courses[1..][j].id != id;
          assert courses[i + 1] == r.value;
          assert forall j :: 1 <= j < i + 1 ==> courses[j].id == courses[1..][j - 1].id;
        }
      }
      r
  }

  /** One line of the panel: the course and the figure shown (`progressMap[id] ?? 0`). */
  datatype Row = Row(course: Course, percent: nat)

  /** The panel: one line per enrolled id, in enrolment order, skipping ids that are no
      longer in the catalogue. */
  function EnrolledPanel(enrollments: seq<int>, courses: seq<Course>, figures: map<int, nat>): (r: seq<Row>)
    ensures |r| <= |enrollments|
    ensures forall i :: 0 <= i < |r| ==> r[i].course in courses && r[i].course.id in enrollments
  {
    if enrollments == [] then []
    else
      var id := enrollments[0];
      (match Find(courses, id)
       case None => []
       case Some(c) => [Row(c, if id in figures then figures[id] else 0)])
      + EnrolledPanel(enrollments[1..], courses, figures)
  }

  /** Every enrolled id that the catalogue still has gets a line, with that course's
      figure. */
  lemma {:induction false} EnrolledPanelComplete(enrollments: seq<int>, courses: seq<Course>, figures: map<int, nat>, id: int)
    requires id in enrollments && Find(courses, id).Some?
    ensures Row(Find(courses, id).value, if id in figures then figures[id] else 0) in EnrolledPanel(enrollments, courses, figures)
    decreases |enrollments|
  {
    if enrollments[0] != id {
      EnrolledPanelComplete(enrollments[1..], courses, figures, id);
    }
  }

  // ---------------------------------------------------------------------------
  // Enrolment

  /** The two storage entries enrolment touches: `enrollments` and `courseProgress`. */
  datatype Stored = Stored(enrollments: seq<int>, courseProgress: map<int, Progress>)

  /** `if (!cp[id]) cp[id] = {}`: an empty progress record for the course unless it has one. */
  function WithEmptyProgress(cp: map<int, Progress>, id: int): (r: map<int, Progress>)
    ensures id in r && r.Keys == cp.Keys + {id}
    ensures forall k :: k in cp ==> r[k] == cp[k]
    ensures id !in cp ==> r[id] == map[]
  {
    if id in cp then cp else cp[id := map[]]
  }

  /** handleEnroll: a course not yet enrolled is appended to the list and given a progress
      record if it has none; an enrolled course changes nothing. */
  function Enroll(s: Stored, id: int): Stored {
    if id in s.enrollments then s
    else Stored(AddIfAbsent(s.enrollments, id), WithEmptyProgress(s.courseProgress, id))
  }

  /** After enrolling the course is enrolled, the list keeps its earlier entries in order, no
      id is listed twice if none was, and no course's progress is lost or changed. */
  lemma EnrollProperties(s: Stored, id: int)
    ensures id in Enroll(s, id).enrollments
    ensures id !in s.enrollments ==> Enroll(s, id).enrollments == s.enrollments + [id]
    ensures NoDup(s.enrollments) ==> NoDup(Enroll(s, id).enrollments)
    ensures forall k :: k in s.courseProgress ==> k in Enroll(s, id).courseProgress
                                                  && Enroll(s, id).courseProgress[k] == s.courseProgress[k]
    ensures id !in s.enrollments ==> id in Enroll(s, id).courseProgress
  {
    AddIfAbsentProperties(s.enrollments, id);
  }

  /** Enrolling twice is enrolling once. */
  lemma EnrollIdempotent(s: Stored, id: int)
    ensures Enroll(Enroll(s, id), id) == Enroll(s, id)
  {
    AddIfAbsentProperties(s.enrollments, id);
  }

  /** The stored entries, read once and written back by every enrolment. */
  class Store {
    var enrollments: seq<int>
    var courseProgress: map<int, Progress>

    function Contents(): Stored
      reads this
    {
      Stored(enrollments, courseProgress)
    }

    /** Missing keys read as `[]` and `{}`. */
    constructor (storedEnrollments: Option<seq<int>>, storedProgress: Option<map<int, Progress>>)
      ensures enrollments == OrEmpty(storedEnrollments)
      ensures courseProgress == if storedProgress.Some? then storedProgress.value else map[]
    {
      enrollments := OrEmpty(storedEnrollments);
      courseProgress := if storedProgress.Some? then storedProgress.value else map[];
    }

    /** Whether the course is enrolled: the "Enroll" / "Go to course" label. */
    predicate IsEnrolled(id: int)
      reads this
    {
      id in enrollments
    }

    /** handleEnroll, on either page. */
    method HandleEnroll(id: int)
      modifies this
      ensures Contents() == Enroll(old(Contents()), id) && IsEnrolled(id)
    {
      if id !in enrollments {
        enrollments := enrollments + [id];
        if id !in courseProgress {
          courseProgress := courseProgress[id := map[]];
        }
      }
    }
  }
}

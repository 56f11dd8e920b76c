/** The course player: which modules are expanded in the sidebar, the (module, video)
    cursor, the completion flags and the auto-next switch. The handlers are functions of a
    `PlayerState` value here and methods of the class `CoursePlayer` below, which update
    the fields step by step and are proved to agree with the functions. */
module Player {
  import opened Wrappers
  import opened Lists
  import opened Catalog

  datatype PlayerState = PlayerState(expanded: seq<int>, moduleIndex: nat, videoIndex: nat,
                                     progress: Progress, autoNext: bool)

  // ---------------------------------------------------------------------------
  // What is on screen

  /** `course.modules[currentModuleIndex] || course.modules[0]`. */
  function CurrentModule(modules: seq<Module>, mi: nat): Option<Module> {
    if mi < |modules| then Some(modules[mi])
    else if modules != [] then Some(modules[0])
    else None
  }

  /** `currentModule?.videos[currentVideoIndex]`. */
  function CurrentVideo(modules: seq<Module>, mi: nat, vi: nat): Option<Video> {
    match CurrentModule(modules, mi)
    case None => None
    case Some(m) => if vi < |m.videos| then Some(m.videos[vi]) else None
  }

  /** An out-of-range module index shows the video at the same position of module 0. */
  lemma OutOfRangeModuleFallsBack(modules: seq<Module>, mi: nat, vi: nat)
    requires modules != [] && |modules| <= mi
    ensures CurrentVideo(modules, mi, vi) == CurrentVideo(modules, 0, vi)
  {
  }

  /** The position of video `v` of module `m` in playing order. */
  function Position(modules: seq<Module>, m: nat, v: nat): nat
    requires m <= |modules|
  {
    VideoCount(modules[..m]) + v
  }

  /** The video at (m, v) is the one at its position in playing order. */
  lemma {:induction false} VideoAtPosition(modules: seq<Module>, m: nat, v: nat)
    requires m < |modules| && v < |modules[m].videos|
    ensures Position(modules, m, v) < |AllVideos(modules)|
    ensures AllVideos(modules)[Position(modules, m, v)] == modules[m].videos[v]
    decreases m
  {
    VideoCountIsAllVideos(modules[1..]);
    assert AllVideos(modules) == modules[0].videos + AllVideos(modules[1..]);
    if m == 0 {
      assert modules[..0] == [];
    } else {
      VideoAtPosition(modules[1..], m - 1, v);
      assert modules[..m] == [modules[0]] + modules[1..][..m - 1];
      VideoCountConcat([modules[0]], modules[1..][..m - 1]);
    }
  }

  // ---------------------------------------------------------------------------
  // Expanded modules

  /** toggleModule: remove the id when present, append it otherwise. */
  function Toggle(xs: seq<int>, id: int): seq<int> {
    if id in xs then Remove(xs, id) else xs + [id]
  }

  /** Toggling flips the membership of `id` and of no other id, and keeps the list
      without duplicates. */
  lemma ToggleFlips(xs: seq<int>, id: int)
    ensures forall y :: y in Toggle(xs, id) <==> (if y == id then id !in xs else y in xs)
    ensures NoDup(xs) ==> NoDup(Toggle(xs, id))
  {
    if NoDup(xs) {
      if id in xs {
        RemoveNoDup(xs, id);
      } else {
        AppendFreshNoDup(xs, id);
      }
    }
  }

  /** Toggling twice restores which modules are expanded; when the module was collapsed
      it restores the list itself, but an expanded module moves to the end. */
  lemma ToggleTwice(xs: seq<int>, id: int)
    ensures forall y :: y in Toggle(Toggle(xs, id), id) <==> y in xs
    ensures id !in xs ==> Toggle(Toggle(xs, id), id) == xs
    ensures id in xs ==> Toggle(Toggle(xs, id), id) == Remove(xs, id) + [id]
  {
    ToggleFlips(xs, id);
    ToggleFlips(Toggle(xs, id), id);
    if id !in xs {
      RemoveConcat(xs, [id], id);
      RemoveAbsent(xs, id);
    }
  }

  // ---------------------------------------------------------------------------
  // The handlers

  /** selectVideo: move the cursor and make sure the module is expanded. */
  function Select(modules: seq<Module>, st: PlayerState, mi: nat, vi: nat): PlayerState
    requires mi < |modules|
  {
    st.(moduleIndex := mi, videoIndex := vi, expanded := AddIfAbsent(st.expanded, modules[mi].id))
  }

  /** handlePlayNext: the next video of the module, else the first video of the next module
      (expanding it), else stay on the last video. */
  function Advance(modules: seq<Module>, st: PlayerState): PlayerState
    requires st.moduleIndex < |modules|
  {
    var m, v := st.moduleIndex, st.videoIndex;
    if v + 1 < |modules[m].videos| then st.(videoIndex := v + 1)
    else if m + 1 < |modules| then
      st.(moduleIndex := m + 1, videoIndex := 0, expanded := AddIfAbsent(st.expanded, modules[m + 1].id))
    else st
  }

  /** markVideoComplete. */
  function Mark(st: PlayerState, id: int): PlayerState {
    st.(progress := st.progress[id := true])
  }

  /** "Mark complete" and the first step of handleVideoEnded: the current video is marked
      when there is one and its id is truthy (not 0). */
  function MarkCurrent(modules: seq<Module>, st: PlayerState): PlayerState {
    match CurrentVideo(modules, st.moduleIndex, st.videoIndex)
    case Some(v) => if v.id != 0 then Mark(st, v.id) else st
    case None => st
  }

  /** handleVideoEnded. */
  function AfterVideoEnded(modules: seq<Module>, st: PlayerState): PlayerState
    requires st.moduleIndex < |modules|
  {
    var marked := MarkCurrent(modules, st);
    if !st.autoNext then marked else Advance(modules, marked)
  }

  /** The state when the player opens a course: the first module expanded, the cursor at
      its start, the stored flags loaded, auto-next on. */
  function Opened(modules: seq<Module>, stored: Progress): PlayerState {
    PlayerState(if modules != [] then [modules[0].id] else [], 0, 0, stored, true)
  }

  // ---------------------------------------------------------------------------
  // Properties

  /** What every handler keeps: the cursor's module exists and no module id is listed
      twice among the expanded ones. */
  predicate PlayerInvariant(modules: seq<Module>, st: PlayerState) {
    (modules != [] ==> st.moduleIndex < |modules|) && NoDup(st.expanded)
  }

  lemma OpenedKeepsInvariant(modules: seq<Module>, stored: Progress)
    ensures PlayerInvariant(modules, Opened(modules, stored))
  {
  }

  lemma HandlersKeepInvariant(modules: seq<Module>, st: PlayerState, id: int, mi: nat, vi: nat)
    requires PlayerInvariant(modules, st)
    ensures PlayerInvariant(modules, st.(expanded := Toggle(st.expanded, id)))
    ensures mi < |modules| ==> PlayerInvariant(modules, Select(modules, st, mi, vi))
    ensures modules != [] ==> PlayerInvariant(modules, Advance(modules, st))
    ensures modules != [] ==> PlayerInvariant(modules, AfterVideoEnded(modules, st))
    ensures PlayerInvariant(modules, MarkCurrent(modules, st))
  {
    ToggleFlips(st.expanded, id);
    if mi < |modules| {
      AddIfAbsentProperties(st.expanded, modules[mi].id);
    }
    if modules != [] && st.moduleIndex + 1 < |modules| {
      AddIfAbsentProperties(st.expanded, modules[st.moduleIndex + 1].id);
    }
  }

  /** Selecting a video puts the cursor on it and shows it. */
  lemma SelectShows(modules: seq<Module>, st: PlayerState, mi: nat, vi: nat)
    requires mi < |modules| && vi < |modules[mi].videos|
    ensures var t := Select(modules, st, mi, vi);
      CurrentVideo(modules, t.moduleIndex, t.videoIndex) == Some(modules[mi].videos[vi])
      && modules[mi].id in t.expanded && t.progress == st.progress
  {
  }

  /** Next plays the next video in playing order, when it is in the same module or is the
      first video of the following module. */
  lemma AdvancePlaysNextInOrder(modules: seq<Module>, st: PlayerState)
    requires st.moduleIndex < |modules| && st.videoIndex < |modules[st.moduleIndex].videos|
    requires st.videoIndex + 1 < |modules[st.moduleIndex].videos|
             || (st.moduleIndex + 1 < |modules| && modules[st.moduleIndex + 1].videos != [])
    ensures var t, p := Advance(modules, st), Position(modules, st.moduleIndex, st.videoIndex);
      && t.moduleIndex < |modules| && Position(modules, t.moduleIndex, t.videoIndex) == p + 1
      && p + 1 < |AllVideos(modules)|
      && CurrentVideo(modules, t.moduleIndex, t.videoIndex) == Some(AllVideos(modules)[p + 1])
      && t.progress == st.progress && t.autoNext == st.autoNext
  {
    var m, v := st.moduleIndex, st.videoIndex;
    var t := Advance(modules, st);
    if v + 1 < |modules[m].videos| {
      VideoAtPosition(modules, m, v + 1);
    } else {
      VideoCountStep(modules, m);
      VideoAtPosition(modules, m + 1, 0);
    }
  }

  /** From the last video of a module Next moves to the start of the following module,
      whether or not that module has videos, and expands it without listing it twice;
      every module that was expanded stays expanded. */
  lemma AdvanceToNextModule(modules: seq<Module>, st: PlayerState)
    requires PlayerInvariant(modules, st) && st.moduleIndex < |modules|
    requires st.videoIndex + 1 >= |modules[st.moduleIndex].videos| && st.moduleIndex + 1 < |modules|
    ensures var t := Advance(modules, st);
      && t.moduleIndex == st.moduleIndex + 1 && t.videoIndex == 0
      && modules[st.moduleIndex + 1].id in t.expanded && NoDup(t.expanded)
      && (forall y :: y in st.expanded ==> y in t.expanded)
      && t.progress == st.progress && t.autoNext == st.autoNext
  {
    AddIfAbsentProperties(st.expanded, modules[st.moduleIndex + 1].id);
  }

  /** At the last video of the last module Next leaves everything as it is. */
  lemma AdvanceAtEndStays(modules: seq<Module>, st: PlayerState)
    requires st.moduleIndex == |modules| - 1 && st.videoIndex + 1 >= |modules[st.moduleIndex].videos|
    ensures Advance(modules, st) == st
  {
  }

  /** Marking sets the entry of that video and no other, and marking twice is marking
      once. */
  lemma MarkSetsOneEntry(st: PlayerState, id: int)
    ensures IsVideoComplete(Mark(st, id).progress, id)
    ensures forall k :: k != id ==> (k in Mark(st, id).progress <==> k in st.progress)
    ensures forall k :: k != id && k in st.progress ==> Mark(st, id).progress[k] == st.progress[k]
    ensures Mark(Mark(st, id), id) == Mark(st, id)
  {
  }

  /** With auto-next off a finished video only updates the completion flags. */
  lemma VideoEndedWithoutAutoNext(modules: seq<Module>, st: PlayerState)
    requires st.moduleIndex < |modules| && !st.autoNext
    ensures AfterVideoEnded(modules, st) == st.(progress := MarkCurrent(modules, st).progress)
  {
  }

  /** With auto-next on a finished video is marked and the cursor moves as Next moves it. */
  lemma VideoEndedWithAutoNext(modules: seq<Module>, st: PlayerState)
    requires st.moduleIndex < |modules| && st.autoNext
    ensures AfterVideoEnded(modules, st) == Advance(modules, st).(progress := MarkCurrent(modules, st).progress)
  {
  }

  /** A video with id 0 is never marked: its id is falsy. */
  lemma VideoZeroNotMarked(modules: seq<Module>, st: PlayerState)
    requires CurrentVideo(modules, st.moduleIndex, st.videoIndex).Some?
    requires CurrentVideo(modules, st.moduleIndex, st.videoIndex).value.id == 0
    ensures MarkCurrent(modules, st) == st
  {
  }

  /** `module.videos.every(v => !!progress[String(v.id)])`, scanning left to right. */
  function AllComplete(videos: seq<Video>, p: Progress): bool {
    if videos == [] then true else IsVideoComplete(p, videos[0].id) && AllComplete(videos[1..], p)
  }

  /** isModuleComplete. */
  predicate IsModuleComplete(m: Module, p: Progress) {
    AllComplete(m.videos, p)
  }

  /** The scan accepts exactly when every video of the module is marked. */
  lemma {:induction false} AllCompleteIff(videos: seq<Video>, p: Progress)
    ensures AllComplete(videos, p) <==> forall i :: 0 <= i < |videos| ==> IsVideoComplete(p, videos[i].id)
  {
    if videos != [] {
      AllCompleteIff(videos[1..], p);
      assert forall i :: 1 <= i < |videos| ==> videos[i] == videos[1..][i - 1];
    }
  }

  // ---------------------------------------------------------------------------
  // The component

  class CoursePlayer {
    const modules: seq<Module>
    var expanded: seq<int>
    var moduleIndex: nat
    var videoIndex: nat
    var progress: Progress
    var autoNext: bool

    function State(): PlayerState
      reads this
    {
      PlayerState(expanded, moduleIndex, videoIndex, progress, autoNext)
    }

    ghost predicate Valid()
      reads this
    {
      PlayerInvariant(modules, State())
    }

    /** The course is found and its stored flags are loaded. */
    constructor (course: seq<Module>, stored: Progress)
      ensures modules == course && State() == Opened(course, stored) && Valid()
    {
      modules := course;
      expanded := if course != [] then [course[0].id] else [];
      moduleIndex := 0;
      videoIndex := 0;
      progress := stored;
      autoNext := true;
    }

    method ToggleModule(id: int)
      requires Valid()
      modifies this
      ensures State() == old(State()).(expanded := Toggle(old(expanded), id)) && Valid()
    {
      ToggleFlips(expanded, id);
      if id in expanded {
        expanded := Remove(expanded, id);
      } else {
        expanded := expanded + [id];
      }
    }

    method SelectVideo(mi: nat, vi: nat)
      requires Valid() && mi < |modules|
      modifies this
      ensures State() == Select(modules, old(State()), mi, vi) && Valid()
    {
      HandlersKeepInvariant(modules, State(), 0, mi, vi);
      moduleIndex := mi;
      videoIndex := vi;
      var mid := modules[mi].id;
      if mid !in expanded {
        expanded := expanded + [mid];
      }
    }

    method MarkVideoComplete(id: int)
      modifies this
      ensures State() == Mark(old(State()), id)
    {
      progress := progress[id := true];
    }

    /** The "Mark complete" button. */
    method MarkCurrentComplete()
      requires Valid()
      modifies this
      ensures State() == MarkCurrent(modules, old(State())) && Valid()
    {
      var current := CurrentVideo(modules, moduleIndex, videoIndex);
      if current.Some? && current.value.id != 0 {
        MarkVideoComplete(current.value.id);
      }
    }

    /** The cursor move shared by handlePlayNext and handleVideoEnded. */
    method MoveToNext()
      requires Valid() && modules != []
      modifies this
      ensures State() == Advance(modules, old(State())) && Valid()
    {
      HandlersKeepInvariant(modules, State(), 0, 0, 0);
      var m := moduleIndex;
      var v := videoIndex;
      if v + 1 < |modules[m].videos| {
        videoIndex := v + 1;
      } else if m + 1 < |modules| {
        moduleIndex := m + 1;
        videoIndex := 0;
        var nextMid := modules[m + 1].id;
        if nextMid !in expanded {
          expanded := expanded + [nextMid];
        }
      }
    }

    /** handlePlayNext; with no modules at all the source fails on `module.videos`. */
    method PlayNext()
      requires Valid() && modules != []
      modifies this
      ensures State() == Advance(modules, old(State())) && Valid()
    {
      MoveToNext();
    }

    method VideoEnded()
      requires Valid() && modules != []
      modifies this
      ensures State() == AfterVideoEnded(modules, old(State())) && Valid()
    {
      MarkCurrentComplete();
      if !autoNext {
        return;
      }
      MoveToNext();
    }

    method ToggleAutoNext()
      modifies this
      ensures State() == old(State()).(autoNext := !old(autoNext))
    {
      autoNext := !autoNext;
    }
  }
}

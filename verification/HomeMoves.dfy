/** Why moves of home volumes rely on the job queue: runs in which a boot does not wait for its sandbox's other job. */
module HomeMoves {
  import opened Options
  import opened HomeVolumes

  ghost predicate LooseNext(s: State, t: State) {
    Next(s, t) || exists id :: PostPod(s, t, id)
  }

  ghost predicate LooseTrace(states: seq<State>) {
    && |states| > 0 && Initial(states[0])
    && forall i, j :: 0 <= i < j < |states| && j == i + 1 ==> LooseNext(states[i], states[j])
  }

  lemma LooseKeeps(s: State, t: State)
    requires Ownership(s) && LooseNext(s, t)
    ensures Ownership(t) && CopyKept(s, t)
  {
    if id :| PostPod(s, t, id) {
      PostPodOwns(s, t, id);
    } else {
      NextKeeps(s, t);
    }
  }

  lemma {:induction false} LooseTraceOwns(states: seq<State>, i: nat)
    requires LooseTrace(states) && i < |states|
    ensures Ownership(states[i])
  {
    if i > 0 {
      LooseTraceOwns(states, i - 1);
      LooseKeeps(states[i - 1], states[i]);
    }
  }

  /** Mover m has a copy of id's home with this content. */
  ghost predicate Carries(s: State, m: nat, id: Id, content: Content) {
    && m in s.movers && s.movers[m].id == id && !s.movers[m].at.Begun? && s.movers[m].at.content == content
    && id in s.latest
  }

  lemma KeptAt(states: seq<State>, k: nat)
    requires LooseTrace(states) && 0 < k < |states|
    ensures CopyKept(states[k - 1], states[k])
  {
    LooseTraceOwns(states, k - 1);
    LooseKeeps(states[k - 1], states[k]);
  }

  lemma {:induction false} CarriesAlong(states: seq<State>, i: nat, j: nat, m: nat, id: Id, content: Content)
    requires i <= j < |states| && Carries(states[i], m, id, content)
    requires forall k :: i < k <= j ==> CopyKept(states[k - 1], states[k]) && m in states[k].movers
    ensures Carries(states[j], m, id, content)
    decreases j
  {
    if i < j {
      CarriesAlong(states, i, j - 1, m, id, content);
      assert CopyKept(states[j - 1], states[j]) && m in states[j].movers;
    }
  }

  lemma SwitchedHome(s: State, t: State, m: nat, id: Id, content: Content, copied: nat)
    requires TargetsHold(s) && MoveSwitch(s, t, m) && Carries(s, m, id, content) && Holds(content, id, copied)
    ensures id in t.rows && (HomeSafe(t, id) <==> s.latest[id] == copied)
  {
  }

  lemma CopiedHome(s: State, t: State, m: nat)
    requires MoveCopy(s, t, m) && HomeSafe(t, t.movers[m].id)
    ensures var v := t.movers[m]; Carries(t, m, v.id, v.at.content) && Holds(v.at.content, v.id, t.latest[v.id])
  {
  }

  /** However boots, writes and moves interleave, a switch keeps the home exactly when the latest version is the one
      that was copied: nothing was written between the copy and the switch. */
  lemma SwitchKeepsHomeExactly(states: seq<State>, i: nat, j: nat, m: nat, id: Id)
    requires LooseTrace(states) && 0 < i <= j && j + 1 < |states|
    requires MoveCopy(states[i - 1], states[i], m) && states[i].movers[m].id == id && HomeSafe(states[i], id)
    requires forall k :: i <= k <= j ==> m in states[k].movers
    requires MoveSwitch(states[j], states[j + 1], m)
    ensures id in states[j].latest && id in states[j + 1].rows
    ensures HomeSafe(states[j + 1], id) <==> states[i].latest[id] == states[j].latest[id]
  {
    var content := states[i].movers[m].at.content;
    CopiedHome(states[i - 1], states[i], m);
    forall k | i < k <= j ensures CopyKept(states[k - 1], states[k]) && m in states[k].movers {
      KeptAt(states, k);
    }
    CarriesAlong(states, i, j, m, id, content);
    LooseTraceOwns(states, j);
    SwitchedHome(states[j], states[j + 1], m, id, content, states[i].latest[id]);
  }

  lemma {:induction false} NewerAlong(states: seq<State>, i: nat, j: nat, id: Id)
    requires i <= j < |states| && id in states[i].latest
    requires forall k :: i < k <= j ==> CopyKept(states[k - 1], states[k])
    ensures id in states[j].latest && states[i].latest[id] <= states[j].latest[id]
    decreases j
  {
    if i < j {
      NewerAlong(states, i, j - 1, id);
      assert CopyKept(states[j - 1], states[j]);
    }
  }

  lemma WriteShows(states: seq<State>, i: nat, j: nat, id: Id, w: nat)
    requires i <= w < j < |states| && id in states[i].latest && Write(states[w], states[w + 1], id)
    requires forall k :: i < k <= j ==> CopyKept(states[k - 1], states[k])
    ensures id in states[j].latest && states[i].latest[id] < states[j].latest[id]
  {
    NewerAlong(states, i, w, id);
    NewerAlong(states, w + 1, j, id);
  }

  lemma WriteShowsInTrace(states: seq<State>, i: nat, j: nat, id: Id, w: nat)
    requires LooseTrace(states) && i <= w < j < |states| && id in states[i].latest && Write(states[w], states[w + 1], id)
    ensures id in states[j].latest && states[i].latest[id] < states[j].latest[id]
  {
    forall k | i < k <= j ensures CopyKept(states[k - 1], states[k]) {
      KeptAt(states, k);
    }
    WriteShows(states, i, j, id, w);
  }

  /** Whatever a sandbox writes between a move's copy and its switch is lost. */
  lemma WriteDuringMoveIsLost(states: seq<State>, i: nat, j: nat, m: nat, id: Id, w: nat)
    requires LooseTrace(states) && 0 < i <= w < j && j + 1 < |states|
    requires MoveCopy(states[i - 1], states[i], m) && states[i].movers[m].id == id && HomeSafe(states[i], id)
    requires forall k :: i <= k <= j ==> m in states[k].movers
    requires Write(states[w], states[w + 1], id) && MoveSwitch(states[j], states[j + 1], m)
    ensures id in states[j + 1].rows && !HomeSafe(states[j + 1], id)
  {
    SwitchKeepsHomeExactly(states, i, j, m, id);
    WriteShowsInTrace(states, i, j, id, w);
  }

  // Such a run: a sandbox is booted, written to and stopped while its move waits to switch.

  function Stopped(): State {
    State(map["h" := Claim(false, None, Empty)], map["x" := Row("h", "h", None, true)], map[], map["x" := 0], map[], map[],
          None, {"h"}, map["h" := "x"])
  }

  function Moving(): State {
    Stopped().(movers := map[0 := Mover("x", "h", "t", Begun)], jobs := map["x" := Move(0)], used := {"h", "t"})
  }

  function Ready(): State {
    Moving().(movers := map[0 := Mover("x", "h", "t", Restored(Empty))],
              claims := map["h" := Claim(false, None, Empty), "t" := Claim(false, None, Empty)])
  }

  function Written(): State {
    Ready().(pods := map["x" := "h"], latest := map["x" := 1],
             claims := map["h" := Claim(false, None, Home("x", 1)), "t" := Claim(false, None, Empty)])
  }

  function Switched(): State {
    Written().(pods := map[], movers := map[], jobs := map[],
               rows := map["x" := Row("h", "t", Some("h"), false)], owners := map["h" := "x", "t" := "x"])
  }

  /** A sandbox with an empty home, from an empty cluster. */
  lemma ReachesStopped() returns (s0: State, s1: State, s2: State)
    ensures Initial(s0) && CreateSandbox(s0, s1, "x", "h") && SetReserved(s1, s2, "x", true) && EnsureHome(s2, Stopped(), "x")
  {
    s0 := State(map[], map[], map[], map[], map[], map[], None, {}, map[]);
    s1 := s0.(rows := map["x" := Row("h", "h", None, false)], latest := map["x" := 0], used := {"h"}, owners := map["h" := "x"]);
    s2 := s1.(rows := map["x" := Row("h", "h", None, true)]);
  }

  /** Its move copies the home and restores the copy. */
  lemma ReachesReady() returns (copied: State, created: State)
    ensures MoveBegin(Stopped(), Moving(), 0, "x", "t") && MoveCopy(Moving(), copied, 0) && HomeSafe(copied, "x")
    ensures MoveCreate(copied, created, 0) && MoveRestore(created, Ready(), 0)
  {
    copied := Moving().(movers := map[0 := Mover("x", "h", "t", Copied(Empty))]);
    created := Ready().(movers := map[0 := Mover("x", "h", "t", Created(Empty))]);
  }

  /** It is booted although the move has its slot, written to, stopped and switched: what was written is gone. */
  lemma ReachesLoss() returns (posted: State, removed: State, released: State)
    ensures PostPod(Ready(), posted, "x") && !Booting(Ready(), "x") && Write(posted, Written(), "x")
    ensures RemovePod(Written(), removed, "x") && SetReserved(removed, released, "x", false)
    ensures MoveSwitch(released, Switched(), 0) && !HomeSafe(Switched(), "x")
  {
    posted := Ready().(pods := map["x" := "h"]);
    removed := Written().(pods := map[]);
    released := removed.(rows := map["x" := Row("h", "h", None, false)]);
  }
}

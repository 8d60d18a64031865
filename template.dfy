/**
 Bookkeeping of a counselling dialogue and of its MITI feedback sheet.

 A dialogue walks through four fixed phases. Every utterance is logged with
 the phase in force when it was added and bumps that phase's turn counter;
 once a counter reaches the per-phase maximum the dialogue moves on, and
 finishing the last phase completes it. The feedback sheet is an append-only
 list of per-criterion evaluations that is turned into a map keyed by
 criterion name.
 */
module Template {

  const MinTurnsPerPhase: int := 2
  const MaxTurnsPerPhase: int := 5

  /** The phases, in the order a dialogue visits them. */
  const CounselingPhases: seq<string> := ["Exploring", "Choosing", "Guiding", "Terminating"]

  /** Number of utterances after which a dialogue is complete. */
  const TotalTurns: int := 4 * MaxTurnsPerPhase

  datatype Role = User | AiClient | UtteranceAssistant | PhaseController

  /** One logged utterance: who spoke, its type, its text and the phase it belongs to. */
  datatype Entry = Entry(role: Role, uType: string, utterance: string, phase: string)

  /** One evaluated criterion of the MITI feedback sheet. */
  datatype Criteria = Criteria(criteria: string, score: int, feedback: string)

  // ---------------------------------------------------------------------------
  // Feedback sheet
  // ---------------------------------------------------------------------------

  /** The criterion names of the entries, in order. */
  function Names(es: seq<Criteria>): seq<string>
  {
    seq(|es|, i requires 0 <= i < |es| => es[i].criteria)
  }

  /** No key after position i equals key i. */
  predicate IsLastOccurrence<K(==)>(ks: seq<K>, i: int)
    requires 0 <= i < |ks|
  {
    forall j :: i < j < |ks| ==> ks[j] != ks[i]
  }

  /**
   The map that pairing keys with values builds, entering the pairs from
   first to last, so that for a repeated key the later value overwrites
   the earlier one.
   */
  function ZipToMap<K(==), V>(ks: seq<K>, vs: seq<V>): (m: map<K, V>)
    requires |ks| == |vs|
    ensures |m| <= |ks|
  {
    if ks == [] then map[]
    else ZipToMap(ks[..|ks| - 1], vs[..|vs| - 1])[ks[|ks| - 1] := vs[|vs| - 1]]
  }

  /** The keys of the zipped map are exactly the given keys. */
  lemma {:induction false} ZipToMapKeys<K, V>(ks: seq<K>, vs: seq<V>)
    requires |ks| == |vs|
    ensures forall k :: k in ZipToMap(ks, vs) <==> k in ks
  {
    if ks != [] {
      var n := |ks| - 1;
      ZipToMapKeys(ks[..n], vs[..n]);
      assert ks == ks[..n] + [ks[n]];
    }
  }

  /** Each key maps to the value paired with its last occurrence. */
  lemma {:induction false} ZipToMapLastWins<K, V>(ks: seq<K>, vs: seq<V>, i: int)
    requires |ks| == |vs| && 0 <= i < |ks| && IsLastOccurrence(ks, i)
    ensures ks[i] in ZipToMap(ks, vs) && ZipToMap(ks, vs)[ks[i]] == vs[i]
  {
    var n := |ks| - 1;
    if i < n {
      assert IsLastOccurrence(ks[..n], i);
      ZipToMapLastWins(ks[..n], vs[..n], i);
    }
  }

  /** With pairwise distinct keys the map keeps every pair: nothing is lost. */
  lemma {:induction false} ZipToMapDistinct<K, V>(ks: seq<K>, vs: seq<V>)
    requires |ks| == |vs|
    ensures (forall i, j :: 0 <= i < j < |ks| ==> ks[i] != ks[j]) ==> |ZipToMap(ks, vs)| == |ks|
  {
    if ks != [] && forall i, j :: 0 <= i < j < |ks| ==> ks[i] != ks[j] {
      var n := |ks| - 1;
      ZipToMapDistinct(ks[..n], vs[..n]);
      ZipToMapKeys(ks[..n], vs[..n]);
      assert ks[n] !in ks[..n];
    }
  }

  class MITIFeedback {
    var entries: seq<Criteria>

    constructor ()
      ensures entries == []
    {
      entries := [];
    }

    /** Appends one evaluation to the end of the sheet. */
    method StoreEvaluation(criteria: string, score: int, feedback: string)
      modifies this
      ensures entries == old(entries) + [Criteria(criteria, score, feedback)]
    {
      entries := entries + [Criteria(criteria, score, feedback)];
    }

    /**
     The sheet keyed by criterion name, each name mapped to the last
     evaluation of it; only defined once all four evaluations are in.
     */
    function GetTotalFeedback(): (m: map<string, Criteria>)
      reads this
      requires |entries| == 4
      ensures forall k :: k in m <==> k in Names(entries)
      ensures forall i :: 0 <= i < 4 && IsLastOccurrence(Names(entries), i) ==>
        entries[i].criteria in m && m[entries[i].criteria] == entries[i]
      ensures 1 <= |m| <= 4
      ensures (forall i, j :: 0 <= i < j < 4 ==> entries[i].criteria != entries[j].criteria) ==> |m| == 4
    {
      var ks := Names(entries);
      ZipToMapDistinct(ks, entries);
      ZipToMapKeys(ks, entries);
      forall i | 0 <= i < 4 && IsLastOccurrence(ks, i)
        ensures entries[i].criteria in ZipToMap(ks, entries) && ZipToMap(ks, entries)[entries[i].criteria] == entries[i]
      {
        ZipToMapLastWins(ks, entries, i);
      }
      assert ks[0] in ZipToMap(ks, entries);
      ZipToMap(ks, entries)
    }
  }

  // ---------------------------------------------------------------------------
  // Dialogue: the conversation filter
  // ---------------------------------------------------------------------------

  /** The roles whose utterances make up the conversation proper. */
  predicate IsConversational(r: Role) {
    r == User || r == AiClient
  }

  /** The entries spoken by the user or the simulated client, in log order. */
  function Conversation(es: seq<Entry>): (r: seq<Entry>)
    ensures |r| <= |es|
  {
    if es == [] then []
    else
      var last := es[|es| - 1];
      Conversation(es[..|es| - 1]) + (if IsConversational(last.role) then [last] else [])
  }

  /** An entry is in the conversation exactly when it was logged by the user or the client. */
  lemma {:induction false} ConversationMembers(es: seq<Entry>)
    ensures forall e :: e in Conversation(es) <==> e in es && IsConversational(e.role)
  {
    if es != [] {
      var init, last := es[..|es| - 1], es[|es| - 1];
      ConversationMembers(init);
      assert es == init + [last];
    }
  }

  /** Filtering commutes with concatenation, so the original order is kept. */
  lemma {:induction false} ConversationConcat(a: seq<Entry>, b: seq<Entry>)
    ensures Conversation(a + b) == Conversation(a) + Conversation(b)
  {
    if b == [] {
      assert a + b == a;
    } else {
      var init, last := b[..|b| - 1], b[|b| - 1];
      ConversationConcat(a, init);
      assert (a + b)[..|a + b| - 1] == a + init;
    }
  }

  /** Filtering a second time changes nothing. */
  lemma {:induction false} ConversationIdempotent(es: seq<Entry>)
    ensures Conversation(Conversation(es)) == Conversation(es)
  {
    if es != [] {
      var init, last := es[..|es| - 1], es[|es| - 1];
      var c := Conversation(init);
      ConversationIdempotent(init);
      if IsConversational(last.role) {
        ConversationConcat(c, [last]);
        assert [last][..0] == [];
        assert Conversation([last]) == [last];
      } else {
        assert Conversation(es) == c + [];
        assert c + [] == c;
      }
    }
  }

  // ---------------------------------------------------------------------------
  // Dialogue: the phase state machine, as values
  // ---------------------------------------------------------------------------

  /** A snapshot of a dialogue's fields. */
  datatype DialogueState = DialogueState(
    phaseIdx: int,
    turnCounts: seq<int>,
    entries: seq<Entry>,
    completed: bool)

  function Sum(s: seq<int>): int {
    if s == [] then 0 else s[0] + Sum(s[1..])
  }

  /** A fresh dialogue: first phase, no turns taken, nothing logged. */
  function Initial(): DialogueState {
    DialogueState(0, [0, 0, 0, 0], [], false)
  }

  /** Move to the next phase, or complete the dialogue when the last phase is done. */
  function AfterPhaseUpdate(s: DialogueState): DialogueState {
    if s.phaseIdx < |CounselingPhases| - 1 then s.(phaseIdx := s.phaseIdx + 1)
    else s.(completed := true)
  }

  /**
   Log one utterance under the current phase, count the turn, and move on
   when the phase's turn limit is reached.
   */
  function AfterUtterance(s: DialogueState, role: Role, uType: string, utterance: string): DialogueState
    requires !s.completed
    requires 0 <= s.phaseIdx < |CounselingPhases| && s.phaseIdx < |s.turnCounts|
  {
    var i := s.phaseIdx;
    var logged := s.(entries := s.entries + [Entry(role, uType, utterance, CounselingPhases[i])],
                     turnCounts := s.turnCounts[i := s.turnCounts[i] + 1]);
    if logged.turnCounts[i] >= MaxTurnsPerPhase then AfterPhaseUpdate(logged) else logged
  }

  /**
   The invariant every dialogue keeps, whatever mix of add_utterance and
   update_phase calls built it: the phase index is in range, no counter
   exceeds the per-phase maximum, the phases after the current one are
   untouched, a full current phase means the dialogue is complete, only the
   last phase can be complete, and there is one entry per counted turn.
   */
  ghost predicate WellFormed(s: DialogueState) {
    && |s.turnCounts| == |CounselingPhases|
    && 0 <= s.phaseIdx < |CounselingPhases|
    && (forall j :: 0 <= j < |s.turnCounts| ==> 0 <= s.turnCounts[j] <= MaxTurnsPerPhase)
    && (forall j :: s.phaseIdx < j < |s.turnCounts| ==> s.turnCounts[j] == 0)
    && (s.turnCounts[s.phaseIdx] == MaxTurnsPerPhase ==> s.completed)
    && (s.completed ==> s.phaseIdx == |CounselingPhases| - 1)
    && |s.entries| == Sum(s.turnCounts)
  }

  /**
   The stronger invariant of a dialogue moved on by add_utterance alone:
   the phases before the current one are full, the current one is below
   its limit unless the dialogue is complete, one entry per counted turn,
   and the k-th entry logged in phase k / 5.
   */
  ghost predicate OnSchedule(s: DialogueState) {
    && |s.turnCounts| == |CounselingPhases|
    && 0 <= s.phaseIdx < |CounselingPhases|
    && (forall j :: 0 <= j < s.phaseIdx ==> s.turnCounts[j] == MaxTurnsPerPhase)
    && (forall j :: s.phaseIdx < j < |s.turnCounts| ==> s.turnCounts[j] == 0)
    && 0 <= s.turnCounts[s.phaseIdx] <= MaxTurnsPerPhase
    && (s.turnCounts[s.phaseIdx] == MaxTurnsPerPhase ==> s.phaseIdx == |CounselingPhases| - 1)
    && (s.completed <==> s.turnCounts[s.phaseIdx] == MaxTurnsPerPhase)
    && |s.entries| == Sum(s.turnCounts)
    && (forall k :: 0 <= k < |s.entries| ==>
          k < TotalTurns && s.entries[k].phase == CounselingPhases[k / MaxTurnsPerPhase])
  }

  /** The total of four counters, written out. */
  lemma SumOfFour(t: seq<int>)
    requires |t| == 4
    ensures Sum(t) == t[0] + t[1] + t[2] + t[3]
  {
    assert Sum(t) == t[0] + Sum(t[1..]);
    assert Sum(t[1..]) == t[1] + Sum(t[2..]);
    assert Sum(t[2..]) == t[2] + Sum(t[3..]);
    assert Sum(t[3..]) == t[3] + Sum(t[4..]);
  }

  /** On schedule, the turn total is five per finished phase plus the current count. */
  lemma SumOfCounts(s: DialogueState)
    requires |s.turnCounts| == 4 && 0 <= s.phaseIdx < 4
    requires forall j :: 0 <= j < s.phaseIdx ==> s.turnCounts[j] == MaxTurnsPerPhase
    requires forall j :: s.phaseIdx < j < 4 ==> s.turnCounts[j] == 0
    ensures Sum(s.turnCounts) == MaxTurnsPerPhase * s.phaseIdx + s.turnCounts[s.phaseIdx]
  {
    SumOfFour(s.turnCounts);
  }

  /** A dialogue on schedule is well formed. */
  lemma OnScheduleWellFormed(s: DialogueState)
    requires OnSchedule(s)
    ensures WellFormed(s)
  {
  }

  /** A fresh dialogue is on schedule, hence well formed. */
  lemma InitialOnSchedule()
    ensures OnSchedule(Initial()) && WellFormed(Initial())
  {
  }

  /** update_phase keeps a dialogue well formed. */
  lemma AfterPhaseUpdateWellFormed(s: DialogueState)
    requires WellFormed(s)
    ensures WellFormed(AfterPhaseUpdate(s))
  {
  }

  /** add_utterance keeps an unfinished, well-formed dialogue well formed. */
  lemma AfterUtteranceWellFormed(s: DialogueState, role: Role, uType: string, utterance: string)
    requires WellFormed(s) && !s.completed
    ensures WellFormed(AfterUtterance(s, role, uType, utterance))
  {
    var i := s.phaseIdx;
    var logged := s.(entries := s.entries + [Entry(role, uType, utterance, CounselingPhases[i])],
                     turnCounts := s.turnCounts[i := s.turnCounts[i] + 1]);
    SumOfFour(s.turnCounts);
    SumOfFour(logged.turnCounts);
    assert |logged.entries| == Sum(logged.turnCounts);
    if logged.turnCounts[i] >= MaxTurnsPerPhase && i < |CounselingPhases| - 1 {
      assert AfterPhaseUpdate(logged).turnCounts[i + 1] == 0;
    }
  }

  /**
   What every dialogue keeps: the phase index stays in 0..3, no counter
   exceeds the per-phase maximum, and there is one entry per counted turn,
   at most twenty in all.
   */
  lemma WellFormedBounds(s: DialogueState)
    requires WellFormed(s)
    ensures 0 <= s.phaseIdx <= 3
    ensures forall j :: 0 <= j < |s.turnCounts| ==> 0 <= s.turnCounts[j] <= MaxTurnsPerPhase
    ensures |s.entries| == Sum(s.turnCounts) <= TotalTurns
  {
    SumOfFour(s.turnCounts);
  }

  /**
   update_phase may end a dialogue early: four phase updates on a fresh
   dialogue complete it with nothing logged. The state is well formed but
   not on schedule.
   */
  lemma EarlyCompletion()
    ensures var s := AfterPhaseUpdate(AfterPhaseUpdate(AfterPhaseUpdate(AfterPhaseUpdate(Initial()))));
      WellFormed(s) && s.completed && s.entries == [] && !OnSchedule(s)
  {
  }

  /** Adding an utterance to an unfinished dialogue on schedule keeps it on schedule. */
  lemma AfterUtteranceOnSchedule(s: DialogueState, role: Role, uType: string, utterance: string)
    requires OnSchedule(s) && !s.completed
    ensures OnSchedule(AfterUtterance(s, role, uType, utterance))
  {
    var i := s.phaseIdx;
    var logged := s.(entries := s.entries + [Entry(role, uType, utterance, CounselingPhases[i])],
                     turnCounts := s.turnCounts[i := s.turnCounts[i] + 1]);
    SumOfCounts(s);
    SumOfCounts(logged);
    var n := |s.entries|;
    assert n == MaxTurnsPerPhase * i + s.turnCounts[i];
    assert n / MaxTurnsPerPhase == i;
    if logged.turnCounts[i] >= MaxTurnsPerPhase && i < |CounselingPhases| - 1 {
      var r := AfterPhaseUpdate(logged);
      assert r.turnCounts[r.phaseIdx] == 0;
      SumOfCounts(r);
    }
  }

  /** On schedule, the entry count is five per finished phase plus the current count. */
  lemma OnScheduleBounds(s: DialogueState)
    requires OnSchedule(s)
    ensures |s.entries| == Sum(s.turnCounts) == MaxTurnsPerPhase * s.phaseIdx + s.turnCounts[s.phaseIdx]
    ensures |s.entries| <= TotalTurns
  {
    SumOfCounts(s);
  }

  /** On schedule, a dialogue is complete exactly when all twenty turns have been logged. */
  lemma CompletedIffAllTurns(s: DialogueState)
    requires OnSchedule(s)
    ensures s.completed <==> |s.entries| == TotalTurns
  {
    SumOfCounts(s);
  }

  /** The entry added is the one given, tagged with the phase in force before any transition. */
  lemma AfterUtteranceAppends(s: DialogueState, role: Role, uType: string, utterance: string)
    requires WellFormed(s) && !s.completed
    ensures var r := AfterUtterance(s, role, uType, utterance);
      && r.entries == s.entries + [Entry(role, uType, utterance, CounselingPhases[s.phaseIdx])]
      && r.turnCounts[s.phaseIdx] == s.turnCounts[s.phaseIdx] + 1
      && (forall j :: 0 <= j < 4 && j != s.phaseIdx ==> r.turnCounts[j] == s.turnCounts[j])
      && (r.turnCounts[s.phaseIdx] < MaxTurnsPerPhase ==> r.phaseIdx == s.phaseIdx && !r.completed)
      && (r.turnCounts[s.phaseIdx] == MaxTurnsPerPhase && s.phaseIdx < 3 ==>
            r.phaseIdx == s.phaseIdx + 1 && !r.completed)
      && (r.turnCounts[s.phaseIdx] == MaxTurnsPerPhase && s.phaseIdx == 3 ==>
            r.phaseIdx == 3 && r.completed)
  {
  }

  /** A completed dialogue stays completed and keeps its phase when the phase is updated again. */
  lemma CompletedIsTerminal(s: DialogueState)
    requires WellFormed(s) && s.completed
    ensures AfterPhaseUpdate(s) == s
  {
  }

  /** The conversation view grows by the new entry exactly when the user or the client spoke. */
  lemma AfterUtteranceConversation(s: DialogueState, role: Role, uType: string, utterance: string)
    requires WellFormed(s) && !s.completed
    ensures var e := Entry(role, uType, utterance, CounselingPhases[s.phaseIdx]);
      Conversation(AfterUtterance(s, role, uType, utterance).entries)
        == Conversation(s.entries) + (if IsConversational(role) then [e] else [])
  {
  }

  /** One call of add_utterance: the role, type and text of the utterance. */
  datatype Utterance = Utterance(role: Role, uType: string, text: string)

  /** The dialogue reached by adding the utterances one after another. */
  function Replay(s: DialogueState, us: seq<Utterance>): (r: DialogueState)
    requires OnSchedule(s) && |s.entries| + |us| <= TotalTurns
    ensures OnSchedule(r) && |r.entries| == |s.entries| + |us|
    decreases |us|
  {
    if us == [] then s
    else
      CompletedIffAllTurns(s);
      AfterUtteranceOnSchedule(s, us[0].role, us[0].uType, us[0].text);
      var next := AfterUtterance(s, us[0].role, us[0].uType, us[0].text);
      assert |next.entries| == |s.entries| + 1;
      Replay(next, us[1..])
  }

  /** Replaying from s logs exactly the given utterances after s's own entries, in order. */
  lemma {:induction false} ReplayEntries(s: DialogueState, us: seq<Utterance>)
    requires OnSchedule(s) && |s.entries| + |us| <= TotalTurns
    decreases |us|
    ensures Replay(s, us).entries[..|s.entries|] == s.entries
    ensures forall i :: 0 <= i < |us| ==>
      var e := Replay(s, us).entries[|s.entries| + i];
      e.role == us[i].role && e.uType == us[i].uType && e.utterance == us[i].text
  {
    if us != [] {
      CompletedIffAllTurns(s);
      AfterUtteranceOnSchedule(s, us[0].role, us[0].uType, us[0].text);
      var next := AfterUtterance(s, us[0].role, us[0].uType, us[0].text);
      ReplayEntries(next, us[1..]);
      var r := Replay(s, us);
      assert r == Replay(next, us[1..]);
      assert next.entries[..|s.entries|] == s.entries;
      assert r.entries[..|next.entries|] == next.entries;
      assert r.entries[..|s.entries|] == next.entries[..|s.entries|];
      forall i | 0 <= i < |us|
        ensures r.entries[|s.entries| + i].role == us[i].role
        ensures r.entries[|s.entries| + i].uType == us[i].uType
        ensures r.entries[|s.entries| + i].utterance == us[i].text
      {
        if i > 0 {
          assert us[1..][i - 1] == us[i];
          assert |next.entries| + (i - 1) == |s.entries| + i;
        } else {
          assert r.entries[|s.entries|] == next.entries[|s.entries|];
        }
      }
    }
  }

  /** A fresh dialogue after the given utterances. */
  function Run(us: seq<Utterance>): DialogueState
    requires |us| <= TotalTurns
  {
    InitialOnSchedule();
    Replay(Initial(), us)
  }

  /**
   From a fresh dialogue moved on by add_utterance alone, twenty utterances
   complete it and fewer do not; the k-th utterance is logged, as given,
   in phase k / 5.
   */
  lemma RunFromInitial(us: seq<Utterance>)
    requires |us| <= TotalTurns
    ensures Run(us).completed <==> |us| == TotalTurns
    ensures |Run(us).entries| == |us|
    ensures forall k :: 0 <= k < |us| ==>
      Run(us).entries[k] == Entry(us[k].role, us[k].uType, us[k].text, CounselingPhases[k / MaxTurnsPerPhase])
  {
    InitialOnSchedule();
    var r := Run(us);
    CompletedIffAllTurns(r);
    ReplayEntries(Initial(), us);
  }

  // ---------------------------------------------------------------------------
  // Dialogue: the object
  // ---------------------------------------------------------------------------

  class Dialogue {
    const minTurnsPerPhase: int
    const maxTurnsPerPhase: int
    var currentPhaseIdx: int
    var turnCountPerPhase: seq<int>
    var entries: seq<Entry>
    var isCompleted: bool

    function State(): DialogueState
      reads this
    {
      DialogueState(currentPhaseIdx, turnCountPerPhase, entries, isCompleted)
    }

    ghost predicate Valid()
      reads this
    {
      && minTurnsPerPhase == MinTurnsPerPhase
      && maxTurnsPerPhase == MaxTurnsPerPhase
      && WellFormed(State())
    }

    constructor ()
      ensures Valid() && OnSchedule(State())
      ensures currentPhaseIdx == 0 && turnCountPerPhase == [0, 0, 0, 0]
      ensures entries == [] && !isCompleted
    {
      minTurnsPerPhase := MinTurnsPerPhase;
      maxTurnsPerPhase := MaxTurnsPerPhase;
      currentPhaseIdx := 0;
      turnCountPerPhase := [0, 0, 0, 0];
      entries := [];
      isCompleted := false;
      new;
      InitialOnSchedule();
    }

    /**
     Advance to the next phase, or mark the dialogue completed in the last
     one. Callable in any state, including the one add_utterance passes
     through just after a phase filled up; a valid dialogue stays valid.
     */
    method UpdatePhase()
      modifies this
      ensures old(Valid()) ==> Valid()
      ensures State() == AfterPhaseUpdate(old(State()))
      ensures old(currentPhaseIdx) < |CounselingPhases| - 1 ==>
        currentPhaseIdx == old(currentPhaseIdx) + 1 && isCompleted == old(isCompleted)
      ensures old(currentPhaseIdx) >= |CounselingPhases| - 1 ==>
        currentPhaseIdx == old(currentPhaseIdx) && isCompleted
      ensures turnCountPerPhase == old(turnCountPerPhase) && entries == old(entries)
    {
      if Valid() {
        AfterPhaseUpdateWellFormed(State());
      }
      if currentPhaseIdx < |CounselingPhases| - 1 {
        currentPhaseIdx := currentPhaseIdx + 1;
      } else {
        isCompleted := true;
      }
    }

    /** Log an utterance in the current phase; refused once the dialogue is completed. */
    method AddUtterance(role: Role, uType: string, utterance: string)
      requires Valid() && !isCompleted
      modifies this
      ensures Valid()
      ensures old(OnSchedule(State())) ==> OnSchedule(State())
      ensures State() == AfterUtterance(old(State()), role, uType, utterance)
      ensures entries == old(entries) + [Entry(role, uType, utterance, CounselingPhases[old(currentPhaseIdx)])]
      ensures turnCountPerPhase == old(turnCountPerPhase)[old(currentPhaseIdx) := old(turnCountPerPhase[currentPhaseIdx]) + 1]
      ensures turnCountPerPhase[old(currentPhaseIdx)] < maxTurnsPerPhase ==>
        currentPhaseIdx == old(currentPhaseIdx) && !isCompleted
      ensures turnCountPerPhase[old(currentPhaseIdx)] == maxTurnsPerPhase ==>
        if old(currentPhaseIdx) < |CounselingPhases| - 1
        then currentPhaseIdx == old(currentPhaseIdx) + 1 && !isCompleted
        else currentPhaseIdx == old(currentPhaseIdx) && isCompleted
    {
      AfterUtteranceWellFormed(State(), role, uType, utterance);
      if OnSchedule(State()) {
        AfterUtteranceOnSchedule(State(), role, uType, utterance);
      }
      entries := entries + [Entry(role, uType, utterance, CounselingPhases[currentPhaseIdx])];
      turnCountPerPhase := turnCountPerPhase[currentPhaseIdx := turnCountPerPhase[currentPhaseIdx] + 1];
      if turnCountPerPhase[currentPhaseIdx] >= maxTurnsPerPhase {
        UpdatePhase();
      }
    }

    /** The user/client exchange: exactly the entries with role user or client, in order. */
    function GetUserConversation(): (r: seq<Entry>)
      reads this
      ensures r == Conversation(entries)
      ensures |r| <= |entries|
      ensures forall e :: e in r <==> e in entries && IsConversational(e.role)
    {
      ConversationMembers(entries);
      Conversation(entries)
    }
  }
}

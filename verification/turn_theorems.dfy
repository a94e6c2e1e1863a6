/** What the delegated-tool protocol promises over every run of a turn. */
module TurnTheorems {
  import opened Wrappers
  import opened DelegatedTurn
  import opened TurnObject
  import opened TurnHistory

  lemma {:induction false} RunKeeps(s: Session, events: seq<Event>)
    requires Inv(s) && UniqueCalls(events)
    requires forall i :: 0 <= i < |events| ==> Fresh(s, events[i])
    ensures Inv(Run(s, events))
    decreases |events|
  {
    if events != [] {
      var s', rest := Step(s, events[0]), events[1..];
      StepKeeps(s, events[0]);
      forall i | 0 <= i < |rest| ensures Fresh(s', rest[i]) {
        assert Fresh(s, events[i + 1]);
        AddedGrows(s, events[0]);
      }
      RunKeeps(s', rest);
    }
  }

  lemma AddedGrows(s: Session, e: Event)
    ensures Step(s, e).added == s.added || (e.Add? && Step(s, e).added == s.added + [AssignIndex(s.turn, e.call)])
  {
  }

  lemma InvHolds(parallelTools: bool, events: seq<Event>)
    requires UniqueCalls(events)
    ensures Inv(Run(Start(parallelTools), events))
  {
    assert Conserved(Start(parallelTools), 0);
    RunKeeps(Start(parallelTools), events);
  }

  lemma StepModeFixed(s: Session, e: Event)
    ensures Step(s, e).turn.parallelTools == s.turn.parallelTools
  {
  }

  lemma {:induction false} ModeFixed(s: Session, events: seq<Event>)
    ensures Run(s, events).turn.parallelTools == s.turn.parallelTools
    decreases |events|
  {
    if events != [] {
      StepModeFixed(s, events[0]);
      ModeFixed(Step(s, events[0]), events[1..]);
    }
  }

  lemma UndeliveredAreTheRest(t: Turn, k: nat)
    requires Exposure(t, k)
    ensures Undelivered(t.delegated) == t.delegated[k..]
  {
    SelectSuffix(t.delegated, k, (p: Pending) => !p.delivered);
  }

  lemma QueuedAreWaiting(t: Turn, k: nat)
    requires Exposure(t, k)
    ensures Queued(t.delegated) == Waiting(t, k)
  {
    if t.parallelTools {
      SelectSuffix(t.delegated, k, (p: Pending) => p.queued);
    } else {
      var n := |Waiting(t, k)|;
      SelectPrefix(t.delegated, n, (p: Pending) => p.queued);
      assert t.delegated[..n] == Waiting(t, k);
    }
  }

  /** Every callback is delivered at most once and in arrival order, and none is lost or invented. */
  lemma DelegatedCallsConserved(parallelTools: bool, events: seq<Event>)
    requires UniqueCalls(events)
    ensures var s := Run(Start(parallelTools), events);
            && s.added == s.delivered + Calls(Undelivered(s.turn.delegated))
            && ToolCallsOf(s.turn.queue) == Calls(Queued(s.turn.delegated))
            && DistinctIDs(s.delivered)
  {
    var s := Run(Start(parallelTools), events);
    InvHolds(parallelTools, events);
    var k: nat :| Conserved(s, k);
    UndeliveredAreTheRest(s.turn, k);
    QueuedAreWaiting(s.turn, k);
    assert Calls(s.turn.delegated[k..]) == Calls(s.turn.delegated)[k..];
    assert forall i :: 0 <= i < |s.delivered| ==> s.added[i] == s.delivered[i];
  }

  /** Which callbacks the caller can see at any moment of any run. */
  lemma ExposureDiscipline(parallelTools: bool, events: seq<Event>)
    requires UniqueCalls(events)
    ensures var t := Run(Start(parallelTools), events).turn;
            && (t.awaitingTools <==> t.delegated != [])
            && (!parallelTools ==> forall i :: 0 <= i < |t.delegated| ==> (Exposed(t.delegated[i]) <==> i == 0))
            && (parallelTools ==>
                  && (forall i :: 0 <= i < |t.delegated| ==> (t.delegated[i].queued <==> !t.delegated[i].delivered))
                  && (forall i, j :: 0 <= i < j < |t.delegated| && t.delegated[j].delivered ==>
                     t.delegated[i].delivered)
                  && (forall i, j :: 0 <= i < j < |t.delegated| ==>
                     t.delegated[i].call.index < t.delegated[j].call.index)
                  && (forall i :: 0 <= i < |t.delegated| ==> t.delegated[i].call.index < t.nextToolIndex))
  {
    InvHolds(parallelTools, events);
    ModeFixed(Start(parallelTools), events);
    var s := Run(Start(parallelTools), events);
    var k: nat :| Conserved(s, k);
  }

  /** Every callback request is answered or still pending, exactly as often as the server sent it. */
  lemma RequestsAnsweredOnce(parallelTools: bool, events: seq<Event>)
    requires UniqueCalls(events)
    ensures var s := Run(Start(parallelTools), events);
            multiset(s.requests) == multiset(RequestsOf(s.answered))
              + multiset(Requests(Unanswered(s.turn.delegated, s.resume)))
  {
    InvHolds(parallelTools, events);
  }

  /** A tool message that gives a result for this call. */
  predicate IsResult(m: Message, id: string, text: string) {
    m.role == "tool" && m.toolCallID == id && id != "" && m.text == text
  }

  /** The result for a call is the text of the last tool message that names the call, and of no other. */
  lemma {:induction false} ResultIsTheLast(messages: seq<Message>, id: string)
    ensures match LastResult(messages, id)
            case Some(text) =>
              exists n :: 0 <= n < |messages| && IsResult(messages[n], id, text)
                          && forall m :: n < m < |messages| ==> !IsResult(messages[m], id, messages[m].text)
            case None => forall m :: 0 <= m < |messages| ==> !IsResult(messages[m], id, messages[m].text)
  {
    if messages != [] {
      var before, last := messages[..|messages| - 1], |messages| - 1;
      if IsResult(messages[last], id, messages[last].text) {
        assert LastResult(messages, id) == Some(messages[last].text);
      } else {
        ResultIsTheLast(before, id);
        assert LastResult(messages, id) == LastResult(before, id);
        assert forall m :: 0 <= m < |before| ==> before[m] == messages[m];
        if LastResult(before, id).Some? {
          var text := LastResult(before, id).value;
          var n :| 0 <= n < |before| && IsResult(before[n], id, text)
            && forall m :: n < m < |before| ==> !IsResult(before[m], id, before[m].text);
          assert IsResult(messages[n], id, text);
        }
      }
    }
  }

  /** Results are matched exactly when the turn is not done and waits, and each delivered callback has one. */
  lemma MatchesExactlyIf(t: Turn, messages: seq<Message>)
    ensures Match(t, messages).Success? <==>
              && !t.done && t.awaitingTools && t.delegated != []
              && forall p :: p in Delivered(t.delegated) ==> LastResult(messages, p.call.id).Some?
  {
    ResultsForAnswersEachEntry(Delivered(t.delegated), messages);
  }

  /** The error names the first delivered callback without a result. */
  lemma FirstMissingIsNamed(t: Turn, messages: seq<Message>, k: nat)
    requires !t.done && t.awaitingTools && t.delegated != [] && k < |Delivered(t.delegated)|
    requires LastResult(messages, Delivered(t.delegated)[k].call.id).None?
    requires forall i :: 0 <= i < k ==> LastResult(messages, Delivered(t.delegated)[i].call.id).Some?
    ensures Match(t, messages)
         == Failure("codex: missing result for delegated tool call " + Delivered(t.delegated)[k].call.id)
  {
    FirstMissing(Delivered(t.delegated), messages, k);
  }

  lemma {:induction false} FirstMissing(entries: seq<Pending>, messages: seq<Message>, k: nat)
    requires k < |entries| && LastResult(messages, entries[k].call.id).None?
    requires forall i :: 0 <= i < k ==> LastResult(messages, entries[i].call.id).Some?
    ensures ResultsFor(entries, messages) == Failure(entries[k].call.id)
  {
    if k > 0 {
      FirstMissing(entries[1..], messages, k - 1);
    }
  }

  /** A resume plans every delivered callback, in arrival order, with the caller's last result for it. */
  lemma ResumePlansEveryDelivered(parallelTools: bool, events: seq<Event>, messages: seq<Message>)
    requires UniqueCalls(events)
    requires Run(Start(parallelTools), events).resume.Idle?
    ensures var s := Run(Start(parallelTools), events);
            var s' := BeginStep(s, messages);
            s'.resume.Answering? <==>
              && IsAwaitingTools(s.turn)
              && Delivered(s.turn.delegated) != []
              && forall p :: p in Delivered(s.turn.delegated) ==> LastResult(messages, p.call.id).Some?
    ensures var s := Run(Start(parallelTools), events);
            var s' := BeginStep(s, messages);
            s'.resume.Answering? ==>
              && s'.resume.matched.plan == Delivered(s.turn.delegated)
              && |s'.resume.matched.results| == |s'.resume.matched.plan|
              && forall i :: 0 <= i < |s'.resume.matched.plan| ==>
                   LastResult(messages, s'.resume.matched.plan[i].call.id) == Some(s'.resume.matched.results[i])
  {
    var s := Run(Start(parallelTools), events);
    InvHolds(parallelTools, events);
    var k: nat :| Conserved(s, k);
    ResultsForAnswersEachEntry(Delivered(s.turn.delegated), messages);
  }

  /** When the last acknowledgement of a resume happens, its whole plan has been answered in order. */
  lemma ResumeAnswersWholePlan(parallelTools: bool, events: seq<Event>)
    requires UniqueCalls(events)
    requires Run(Start(parallelTools), events).resume.Answering?
    ensures var s := Run(Start(parallelTools), events);
            var s' := AckStep(s);
            var plan, results := s.resume.matched.plan, s.resume.matched.results;
            Acknowledging(s.resume) ==>
              && |plan| == |results|
              && s.resume.base <= |s.answered|
              && (s'.resume.Idle? <==> s.answered[s.resume.base..] == AnswersOf(plan, results))
  {
    InvHolds(parallelTools, events);
    var s := Run(Start(parallelTools), events);
    if Acknowledging(s.resume) {
      var k: nat :| Conserved(s, k);
      var m := PlannedAt(s.turn, s.resume, s.added, k, s.resume.next);
      AckConserved(s, m, k);
      assert |s.answered[s.resume.base..]| == s.resume.next + 1;
    }
  }

  /** A failed write leaves exactly the callbacks it did not answer pending. */
  lemma FailedWriteKeepsTheRest(parallelTools: bool, events: seq<Event>)
    requires UniqueCalls(events)
    requires Writing(Run(Start(parallelTools), events).resume)
    ensures var s := Run(Start(parallelTools), events);
            var s' := Step(s, WriteFail);
            && s'.resume == Idle && s'.turn == s.turn
            && forall j :: 0 <= j < |s.resume.matched.plan| ==>
                 var p := s.resume.matched.plan[j];
                 (p in s'.turn.delegated <==> j >= s.resume.next)
                   && (j < s.resume.next ==> p.call.id !in IDs(s'.turn.delegated))
  {
    InvHolds(parallelTools, events);
    var s := Run(Start(parallelTools), events);
    var d := s.turn.delegated;
    forall j | 0 <= j < s.resume.next
      ensures s.resume.matched.plan[j] !in d && s.resume.matched.plan[j].call.id !in IDs(d)
    {
      var p := s.resume.matched.plan[j];
      assert forall i :: 0 <= i < |d| ==> d[i].call.id != p.call.id;
    }
  }

  function IDs(entries: seq<Pending>): set<string> {
    set p | p in entries :: p.call.id
  }

  // ------------------------------------------------------------ end of stream

  /** What n receives in a row return. */
  function Receives(t: Turn, n: nat): seq<Received>
    decreases n
  {
    if n == 0 then [] else [Receive(t).1] + Receives(Receive(t).0, n - 1)
  }

  function Owed(t: Turn): seq<Received> {
    seq(|t.queue|, i requires 0 <= i < |t.queue| => Got(t.queue[i]))
    + if t.err.Some? && !t.errDelivered then [Raised(t.err.value)] else []
  }

  lemma ReceiveTakesOwed(t: Turn)
    requires t.done
    ensures var (t', received) := Receive(t);
            && t'.done
            && (if Owed(t) == [] then t' == t && received == Eof
                else received == Owed(t)[0] && Owed(t') == Owed(t)[1..])
  {
  }

  /** A finished turn yields its queued chunks, then its error once, then the end for ever. */
  lemma {:induction false} FinishedTurnDrains(t: Turn, n: nat)
    requires t.done
    ensures |Receives(t, n)| == n
    ensures forall i :: 0 <= i < n ==> Receives(t, n)[i] == if i < |Owed(t)| then Owed(t)[i] else Eof
    decreases n
  {
    if n > 0 {
      var (t', received) := Receive(t);
      ReceiveTakesOwed(t);
      FinishedTurnDrains(t', n - 1);
      var rest := Receives(t', n - 1);
      assert Receives(t, n) == [received] + rest;
      forall i | 0 <= i < n ensures Receives(t, n)[i] == if i < |Owed(t)| then Owed(t)[i] else Eof {
        if i > 0 {
          assert Receives(t, n)[i] == rest[i - 1];
        }
      }
    }
  }

  predicate Ended(t: Turn) {
    t.done && Owed(t) == []
  }

  /**
   An ended stream stays ended through every step except one: acknowledging a
   callback, in sequential mode, while another one is pending.
   */
  lemma EndedUnlessNextExposed(parallelTools: bool, events: seq<Event>, e: Event)
    requires UniqueCalls(events)
    requires Ended(Run(Start(parallelTools), events).turn)
    ensures var s := Run(Start(parallelTools), events);
            Ended(Step(s, e).turn) <==>
            !(e.Ack? && Acknowledging(s.resume) && !parallelTools && |s.turn.delegated| > 1)
  {
    InvHolds(parallelTools, events);
    ModeFixed(Start(parallelTools), events);
    var s := Run(Start(parallelTools), events);
    assert s.turn.queue == [];
    if e.Ack? && Acknowledging(s.resume) {
      var k: nat :| Conserved(s, k);
      var m := PlannedAt(s.turn, s.resume, s.added, k, s.resume.next);
      AcknowledgeShape(s.turn, m, k);
    }
  }

  const CALL_A := ToolCall(0, "a", "lookup", "{}")
  const CALL_B := ToolCall(0, "b", "lookup", "{}")
  const PENDING_A := Pending(CALL_A, "1", false, true)
  const PENDING_B := Pending(CALL_B, "2", false, false)
  const RESULTS := [Message(ROLE_TOOL, "a", "A")]

  /** Two callbacks pending, the first one delivered. */
  const FIRST_DELIVERED := Session(
    Turn("", [], [PENDING_A, PENDING_B], true, false, 0, false, false, None, false),
    [CALL_A, CALL_B], ["1", "2"], [CALL_A], [], Idle)

  lemma DeliverFirst()
    ensures Step(Step(Step(Start(false), Add(CALL_A, "1")), Add(CALL_B, "2")), Recv) == FIRST_DELIVERED
  {
    var s1 := Step(Start(false), Add(CALL_A, "1"));
    var queuedA := Pending(CALL_A, "1", true, false);
    assert s1.turn.delegated == [queuedA];
    assert s1.turn.queue == [ToolChunk("", CALL_A)];
    var s2 := Step(s1, Add(CALL_B, "2"));
    assert Exposed([queuedA, PENDING_B][0]);
    assert s2.turn.delegated == [queuedA, PENDING_B];
    MarkEachDeliveredOne(s2.turn.delegated, CALL_A);
    assert s2.turn.queue[1..] == [];
  }

  lemma AnswerFirst()
    ensures Step(Step(Step(FIRST_DELIVERED, BeginResume(RESULTS)), WriteOk), Finished(None)) ==
            FIRST_DELIVERED.(turn := FIRST_DELIVERED.turn.(done := true), answered := [Answer("1", "A")],
                             resume := Answering(Matched([PENDING_A], ["A"]), RESULTS, 0, true, 0))
  {
    SelectPrefix([PENDING_A, PENDING_B], 1, (p: Pending) => p.delivered);
    assert Delivered(FIRST_DELIVERED.turn.delegated) == [PENDING_A];
    assert LastResult(RESULTS, "a") == Some("A");
    assert [PENDING_A][1..] == [];
    assert ResultsFor([PENDING_A], RESULTS) == Success(["A"] + []);
    assert ["A"] + [] == ["A"];
  }

  /** The exception happens: a turn that finishes between a written answer and its acknowledgement. */
  lemma FinishedTurnCanReopen()
    ensures exists events :: UniqueCalls(events)
                          && Ended(Run(Start(false), events).turn)
                          && !Ended(Step(Run(Start(false), events), Ack).turn)
  {
    var events := [Add(CALL_A, "1"), Add(CALL_B, "2"), Recv, BeginResume(RESULTS), WriteOk, Finished(None)];
    DeliverFirst();
    AnswerFirst();
    RunSix(Start(false), events);
    EndedUnlessNextExposed(false, events, Ack);
  }

  lemma RunSix(s: Session, e: seq<Event>)
    requires |e| == 6
    ensures Run(s, e) == Step(Step(Step(Step(Step(Step(s, e[0]), e[1]), e[2]), e[3]), e[4]), e[5])
  {
    assert e[1..][1..] == e[2..] && e[2..][1..] == e[3..] && e[3..][1..] == e[4..] && e[4..][1..] == e[5..]
      && e[5..][1..] == [];
    var s1 := Step(s, e[0]);
    assert Run(s, e) == Run(s1, e[1..]);
    var s2 := Step(s1, e[1]);
    assert Run(s1, e[1..]) == Run(s2, e[2..]);
    var s3 := Step(s2, e[2]);
    assert Run(s2, e[2..]) == Run(s3, e[3..]);
    var s4 := Step(s3, e[3]);
    assert Run(s3, e[3..]) == Run(s4, e[4..]);
    var s5 := Step(s4, e[4]);
    assert Run(s4, e[4..]) == Run(s5, e[5..]);
    var s6 := Step(s5, e[5]);
    assert Run(s5, e[5..]) == Run(s6, []);
  }
}

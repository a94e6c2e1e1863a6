/** Who an installation and its profiles are never changes, whatever interleaves. */
module CredentialIdentity {
  import opened Wrappers
  import opened Credentials
  import opened CredentialProtocol

  /** The active profile is a verified one, and the last one used exists. */
  ghost predicate GoodState(s: State) {
    && (s.active != "" ==> s.active in s.accounts && s.accounts[s.active].subject != "")
    && (s.last != "" ==> s.last in s.accounts)
  }

  /** Identity is only ever added. */
  ghost predicate Grows(s: State, s': State) {
    && s'.hostID == s.hostID && s'.owner == s.owner
    && forall p :: p in s.accounts ==>
         && p in s'.accounts
         && (s.accounts[p].clientID != "" ==> s'.accounts[p].clientID == s.accounts[p].clientID)
         && (s.accounts[p].subject != "" ==> s'.accounts[p].subject == s.accounts[p].subject)
  }

  /** The client an attempt has made durable, from the end of its first section on. */
  function Durable(phase: Phase): Option<string> {
    match phase
    case Exchanging(issued) => Some(issued)
    case Verifying(issued, _) => Some(issued)
    case Committing(issued, _, _) => Some(issued)
    case Revoking(issued, _) => Some(issued)
    case _ => None
  }

  ghost predicate AttemptFine(a: Attempt, id: nat, s: State) {
    && a.profile in s.accounts
    && (a.phase.Waiting? || a.phase.Registering? ==>
       (s.pending == Some(id) ==> s.accounts[a.profile].clientID == a.captured))
    && (a.phase.Registering? ==> a.phase.issued != "" && (a.captured != "" ==> a.phase.issued == a.captured))
    && (Durable(a.phase).Some? ==>
       Durable(a.phase).value != "" && s.accounts[a.profile].clientID == Durable(a.phase).value)
    && (a.phase.Committing? ==> a.phase.subject != "")
  }

  ghost predicate AttemptsFine(attempts: map<nat, Attempt>, s: State) {
    forall id :: id in attempts ==> AttemptFine(attempts[id], id, s)
  }

  ghost predicate Identity(w: World) {
    && (forall id :: id in w.attempts ==> id < w.supply)
    && (w.file.None? ==> w.attempts == map[])
    && (w.file.Some? ==> GoodState(w.file.value) && AttemptsFine(w.attempts, w.file.value))
    && (w.file.Some? && w.file.value.pending.Some? ==> w.file.value.pending.value < w.supply)
  }

  ghost predicate FileGrows(f: File, f': File) {
    f.Some? ==> f'.Some? && Grows(f.value, f'.value)
  }

  /** A section that lets no attempt become pending and leaves the pending one's client alone, except for `actor`. */
  ghost predicate Orderly(attempts: map<nat, Attempt>, actor: Option<nat>, s: State, s': State) {
    && GoodState(s') && Grows(s, s')
    && forall id :: id in attempts && Some(id) != actor && s'.pending == Some(id) ==>
         && s.pending == Some(id)
         && (attempts[id].profile in s.accounts ==>
            s'.accounts[attempts[id].profile].clientID == s.accounts[attempts[id].profile].clientID)
  }

  lemma OthersStayFine(attempts: map<nat, Attempt>, actor: Option<nat>, s: State, s': State)
    requires AttemptsFine(attempts, s) && Orderly(attempts, actor, s, s')
    ensures forall id :: id in attempts && Some(id) != actor ==> AttemptFine(attempts[id], id, s')
  {
    forall id | id in attempts && Some(id) != actor ensures AttemptFine(attempts[id], id, s') {
      assert AttemptFine(attempts[id], id, s);
    }
  }

  lemma EnterKeeps(w: World, door: Door)
    requires Identity(w)
    ensures var (f, loaded) := Enter(w.file, w.supply, door);
            && Identity(w.(file := f)) && FileGrows(w.file, f)
            && (loaded.Some? ==> f == loaded)
  {
  }

  /** A section of no attempt. */
  lemma SectionKeeps(w: World, s: State, section: Result<State>, save: Save)
    requires Identity(w) && w.file == Some(s)
    requires section.Success? ==> Orderly(w.attempts, None, s, section.value)
    requires section.Success? && section.value.pending.Some? ==> section.value.pending.value < w.supply
    ensures var (f, _) := Conclude(w.file, section, save);
            Identity(w.(file := f)) && FileGrows(w.file, f)
  {
    if section.Success? {
      OthersStayFine(w.attempts, None, s, section.value);
    }
  }

  /** A section of one attempt, which then goes on in a new phase. */
  lemma AttemptSectionKeeps(w: World, id: nat, s: State, section: Result<State>, save: Save, kept: Phase,
      dropped: Phase)
    requires Identity(w) && w.file == Some(s) && id in w.attempts
    requires section.Success? ==> Orderly(w.attempts, Some(id), s, section.value)
    requires section.Success? && section.value.pending.Some? ==> section.value.pending.value < w.supply
    requires section.Success? ==> AttemptFine(w.attempts[id].(phase := kept), id, section.value)
    requires section.Success? ==> AttemptFine(w.attempts[id].(phase := dropped), id, section.value)
    requires AttemptFine(w.attempts[id].(phase := dropped), id, s)
    ensures var (f, ok) := Conclude(w.file, section, save);
            Identity(Put(w.(file := f), id, if ok then kept else dropped)) && FileGrows(w.file, f)
  {
    if section.Success? {
      OthersStayFine(w.attempts, Some(id), s, section.value);
    }
  }

  lemma PhaseKeeps(w: World, id: nat, phase: Phase)
    requires Identity(w) && id in w.attempts && w.file.Some?
    requires AttemptFine(w.attempts[id].(phase := phase), id, w.file.value)
    ensures Identity(Put(w, id, phase))
  {
  }

  // -------------------------------------------------------------------- the events

  lemma StartIsOrderly(attempts: map<nat, Attempt>, s: State, newAccount: bool, profile: string, id: nat, now: int)
    requires GoodState(s) && profile != "" && profile !in s.accounts && id !in attempts
    requires StartIn(s, newAccount, profile, id, now).Success?
    ensures var s' := StartIn(s, newAccount, profile, id, now).value;
            && Orderly(attempts, None, s, s') && s'.pending == Some(id)
            && s'.last in s'.accounts
  {
  }

  lemma JoinKeeps(w: World, id: nat, a: Attempt)
    requires Identity(w) && w.file.Some? && AttemptFine(a, id, w.file.value) && id < w.supply
    ensures Identity(w.(attempts := w.attempts[id := a]))
  {
  }

  lemma StartKeeps(w: World, door: Door, newAccount: bool, profile: string, save: Save)
    requires Identity(w)
    ensures Identity(StartStep(w, door, newAccount, profile, save))
            && FileGrows(w.file, StartStep(w, door, newAccount, profile, save).file)
  {
    EnterKeeps(w, door);
    var (f, loaded) := Enter(w.file, w.supply, door);
    var w1 := w.(file := f, supply := w.supply + 1);
    if !(profile == "" || (f.Some? && profile in f.value.accounts)) && loaded.Some? {
      var section := StartIn(loaded.value, newAccount, profile, w.supply, w.clock);
      if section.Success? {
        StartIsOrderly(w.attempts, loaded.value, newAccount, profile, w.supply, w.clock);
        SectionKeeps(w1, loaded.value, section, save);
        if save.Kept? {
          var a := Attempt(section.value.last, AccountOf(section.value, section.value.last).clientID, Waiting);
          JoinKeeps(w1.(file := Some(section.value)), w.supply, a);
        }
      }
    }
  }

  lemma RegisterKeeps(w: World, id: nat, door: Door, save: Save)
    requires Identity(w) && id in w.attempts && w.attempts[id].phase.Registering?
    ensures Identity(RegisterStep(w, id, door, save)) && FileGrows(w.file, RegisterStep(w, id, door, save).file)
  {
    EnterKeeps(w, door);
    var (f, loaded) := Enter(w.file, w.supply, door);
    var a := w.attempts[id];
    if loaded.Some? {
      var s := loaded.value;
      assert AttemptFine(a, id, s);
      var section := RegisterIn(s, id, a.profile, a.phase.issued);
      AttemptSectionKeeps(w.(file := f), id, s, section, save, Exchanging(a.phase.issued), Cleaning);
    } else {
      assert AttemptFine(a, id, f.value);
      PhaseKeeps(w.(file := f), id, Cleaning);
    }
  }

  lemma CommitKeeps(w: World, id: nat, door: Door, cancelled: bool, save: Save)
    requires Identity(w) && id in w.attempts && w.attempts[id].phase.Committing?
    ensures Identity(CommitStep(w, id, door, cancelled, save))
            && FileGrows(w.file, CommitStep(w, id, door, cancelled, save).file)
  {
    EnterKeeps(w, door);
    var (f, loaded) := Enter(w.file, w.supply, door);
    var a := w.attempts[id];
    var p := a.phase;
    var after := AfterFailure(p.issued, p.grant.refresh);
    var log := CommitStep(w, id, door, cancelled, save).log;
    var w1 := w.(file := f, log := log);
    assert Identity(w1);
    assert AttemptFine(a, id, f.value);
    if loaded.Some? {
      var s := loaded.value;
      var section := CommitIn(s, id, a.profile, p.issued, p.subject, p.grant, cancelled, w.clock);
      AttemptSectionKeeps(w1, id, s, section, save, Cleaning, after);
    } else {
      PhaseKeeps(w1, id, after);
    }
  }

  lemma CleanKeeps(w: World, id: nat, door: Door, save: Save)
    requires Identity(w) && id in w.attempts && w.attempts[id].phase.Cleaning?
    ensures Identity(CleanStep(w, id, door, save)) && FileGrows(w.file, CleanStep(w, id, door, save).file)
  {
    EnterKeeps(w, door);
    var (f, loaded) := Enter(w.file, w.supply, door);
    assert AttemptFine(w.attempts[id], id, f.value);
    if loaded.Some? {
      AttemptSectionKeeps(w.(file := f), id, loaded.value, CleanIn(loaded.value, id), save, Over, Over);
    } else {
      PhaseKeeps(w.(file := f), id, Over);
    }
  }

  /** Rewriting one known account without touching its identity. */
  lemma AccountIsOrderly(attempts: map<nat, Attempt>, s: State, profile: string, account: Account)
    requires GoodState(s) && profile in s.accounts
    requires account.clientID == s.accounts[profile].clientID && account.subject == s.accounts[profile].subject
    ensures Orderly(attempts, None, s, s.(accounts := s.accounts[profile := account]))
  {
  }

  lemma RenewIsOrderly(attempts: map<nat, Attempt>, s: State, answer: Exchange, now: int)
    requires GoodState(s) && NeedOf(s, now).Renewal? && RenewIn(s, answer, now).Success?
    ensures Orderly(attempts, None, s, RenewIn(s, answer, now).value)
            && RenewIn(s, answer, now).value.pending == s.pending
  {
    AccountIsOrderly(attempts, s, s.active, RenewIn(s, answer, now).value.accounts[s.active]);
  }

  lemma RefreshKeeps(w: World, door: Door, answer: Exchange, save: Save)
    requires Identity(w)
    ensures Identity(RefreshStep(w, door, answer, save)) && FileGrows(w.file, RefreshStep(w, door, answer, save).file)
  {
    EnterKeeps(w, door);
    var (f, loaded) := Enter(w.file, w.supply, door);
    var w1 := w.(file := f, supply := w.supply + 1, log := RefreshStep(w, door, answer, save).log);
    assert Identity(w1);
    if loaded.Some? && NeedOf(loaded.value, w.clock).Renewal? {
      var section := RenewIn(loaded.value, answer, w.clock);
      if section.Success? {
        RenewIsOrderly(w.attempts, loaded.value, answer, w.clock);
      }
      SectionKeeps(w1, loaded.value, section, save);
    }
  }

  lemma SelectKeeps(w: World, door: Door, profile: string, save: Save)
    requires Identity(w)
    ensures Identity(SelectStep(w, door, profile, save)) && FileGrows(w.file, SelectStep(w, door, profile, save).file)
  {
    EnterKeeps(w, door);
    var (f, loaded) := Enter(w.file, w.supply, door);
    if loaded.Some? {
      SectionKeeps(w.(file := f), loaded.value, SelectIn(loaded.value, profile, w.clock), save);
    }
  }

  lemma DisconnectKeeps(w: World, door: Door, revoked: bool, save: Save)
    requires Identity(w)
    ensures Identity(DisconnectStep(w, door, revoked, save))
            && FileGrows(w.file, DisconnectStep(w, door, revoked, save).file)
  {
    EnterKeeps(w, door);
    var (f, loaded) := Enter(w.file, w.supply, door);
    if loaded.Some? {
      var s := loaded.value;
      var section := DisconnectIn(s, w.clock, revoked);
      if section.Success? {
        AccountIsOrderly(w.attempts, s, s.active, section.value.accounts[s.active]);
      }
      SectionKeeps(w.(file := f), s, section, save);
    }
  }

  lemma PhaseEventKeeps(w: World, e: Event)
    requires Identity(w) && InPhase(w, e)
    requires e.Call? || e.GiveUp? || e.ExchangeCode? || e.Verify? || e.Revoke? || e.Crash?
    ensures Identity(Step(w, e)) && Step(w, e).file == w.file
  {
    assert AttemptFine(w.attempts[e.attempt], e.attempt, w.file.value);
  }

  lemma StepKeepsIdentity(w: World, e: Event)
    requires Identity(w)
    ensures Identity(Step(w, e)) && FileGrows(w.file, Step(w, e).file)
  {
    if InPhase(w, e) {
      match e
      case Tick(_) =>
      case Start(door, newAccount, profile, save) => StartKeeps(w, door, newAccount, profile, save);
      case Register(id, door, save) => RegisterKeeps(w, id, door, save);
      case Commit(id, door, cancelled, save) => CommitKeeps(w, id, door, cancelled, save);
      case Clean(id, door, save) => CleanKeeps(w, id, door, save);
      case Refresh(door, answer, save) => RefreshKeeps(w, door, answer, save);
      case Select(door, profile, save) => SelectKeeps(w, door, profile, save);
      case Disconnect(door, revoked, save) => DisconnectKeeps(w, door, revoked, save);
      case _ => PhaseEventKeeps(w, e);
    }
  }

  lemma GrowsTwice(f: File, g: File, h: File)
    requires FileGrows(f, g) && FileGrows(g, h)
    ensures FileGrows(f, h)
  {
  }

  lemma {:induction false} RunKeepsIdentity(w: World, events: seq<Event>)
    requires Identity(w)
    ensures Identity(Run(w, events)) && FileGrows(w.file, Run(w, events).file)
    decreases |events|
  {
    if events != [] {
      var before := events[..|events| - 1];
      RunKeepsIdentity(w, before);
      StepKeepsIdentity(Run(w, before), events[|events| - 1]);
      GrowsTwice(w.file, Run(w, before).file, Run(w, events).file);
    }
  }

  lemma {:induction false} RunSplits(w: World, first: seq<Event>, second: seq<Event>)
    ensures Run(w, first + second) == Run(Run(w, first), second)
    decreases |second|
  {
    if second == [] {
      assert first + second == first;
    } else {
      var all := first + second;
      assert all[..|all| - 1] == first + second[..|second| - 1];
      RunSplits(w, first, second[..|second| - 1]);
    }
  }

  /**
   Over every run: the owner and host ID, and each profile's client ID and subject once set,
   are those of every later moment, and an active profile is always a verified one.
   */
  lemma IdentityNeverChanges(first: seq<Event>, second: seq<Event>)
    ensures var earlier, later := Run(Initial(), first).file, Run(Initial(), first + second).file;
            && (earlier.Some? ==> later.Some? && Grows(earlier.value, later.value))
            && (later.Some? && later.value.active != "" ==>
                  later.value.active in later.value.accounts && later.value.accounts[later.value.active].subject != "")
  {
    RunKeepsIdentity(Initial(), first);
    RunSplits(Initial(), first, second);
    RunKeepsIdentity(Run(Initial(), first), second);
  }

  /** Whenever a code can be exchanged, the client it is exchanged for is already in the file. */
  lemma CodeExchangedOnlyAfterClientIsDurable(events: seq<Event>, attempt: nat, answer: Exchange)
    requires InPhase(Run(Initial(), events), ExchangeCode(attempt, answer))
    ensures var w := Run(Initial(), events);
            var a := w.attempts[attempt];
            && w.file.Some? && a.profile in w.file.value.accounts
            && a.phase.issued != "" && w.file.value.accounts[a.profile].clientID == a.phase.issued
  {
    RunKeepsIdentity(Initial(), events);
    var w := Run(Initial(), events);
    assert AttemptFine(w.attempts[attempt], attempt, w.file.value);
  }

  /** An attempt that is not, or no longer, the pending one of the file. */
  ghost predicate Superseded(w: World, attempt: nat) {
    attempt < w.supply && w.file.Some? && w.file.value.pending != Some(attempt)
  }

  /** The pending slot is only kept, cleared, or given to an attempt that begins. */
  ghost predicate SlotMoves(f: File, f': File, supply: nat) {
    f.Some? ==>
      f'.Some? && f'.value.pending in {f.value.pending, None, Some(supply)}
  }

  lemma StartSlot(w: World, door: Door, newAccount: bool, profile: string, save: Save)
    ensures SlotMoves(w.file, StartStep(w, door, newAccount, profile, save).file, w.supply)
  {
  }

  lemma AttemptSlot(w: World, e: Event)
    requires InPhase(w, e) && (e.Register? || e.Commit? || e.Clean?)
    ensures SlotMoves(w.file, Step(w, e).file, w.supply)
  {
  }

  lemma RefreshSlot(w: World, door: Door, answer: Exchange, save: Save)
    ensures SlotMoves(w.file, RefreshStep(w, door, answer, save).file, w.supply)
  {
  }

  lemma AccountSlot(w: World, door: Door, profile: string, revoked: bool, save: Save)
    ensures SlotMoves(w.file, SelectStep(w, door, profile, save).file, w.supply)
    ensures SlotMoves(w.file, DisconnectStep(w, door, revoked, save).file, w.supply)
  {
  }

  lemma StepSlot(w: World, e: Event)
    ensures SlotMoves(w.file, Step(w, e).file, w.supply) && w.supply <= Step(w, e).supply
  {
    if InPhase(w, e) {
      match e
      case Start(door, newAccount, profile, save) => StartSlot(w, door, newAccount, profile, save);
      case Register(_, _, _) => AttemptSlot(w, e);
      case Commit(_, _, _, _) => AttemptSlot(w, e);
      case Clean(_, _, _) => AttemptSlot(w, e);
      case Refresh(door, answer, save) => RefreshSlot(w, door, answer, save);
      case Select(door, profile, save) => AccountSlot(w, door, profile, false, save);
      case Disconnect(door, revoked, save) => AccountSlot(w, door, "", revoked, save);
      case _ =>
    }
  }

  lemma StepKeepsSuperseded(w: World, e: Event, attempt: nat)
    requires Superseded(w, attempt)
    ensures Superseded(Step(w, e), attempt)
  {
    StepSlot(w, e);
  }

  lemma {:induction false} RunKeepsSuperseded(w: World, events: seq<Event>, attempt: nat)
    requires Superseded(w, attempt)
    ensures Superseded(Run(w, events), attempt)
    decreases |events|
  {
    if events != [] {
      RunKeepsSuperseded(w, events[..|events| - 1], attempt);
      StepKeepsSuperseded(Run(w, events[..|events| - 1]), events[|events| - 1], attempt);
    }
  }

  /**
   Over every run: an attempt that has once lost the pending slot, for instance because
   its window ran out and another one began, never changes the file again.
   */
  lemma SupersededAttemptNeverWrites(first: seq<Event>, second: seq<Event>, attempt: nat, e: Event)
    requires Superseded(Run(Initial(), first), attempt)
    requires (e.Register? || e.Commit? || e.Clean?) && e.attempt == attempt
    ensures Step(Run(Initial(), first + second), e).file == Run(Initial(), first + second).file
  {
    RunSplits(Initial(), first, second);
    RunKeepsSuperseded(Run(Initial(), first), second, attempt);
  }

  // --------------------------------------------------------------- the placeholder

  /** The client a sign-in goes on with once its callback came. */
  function ClientOf(a: Attempt): string {
    match a.phase
    case Registering(issued) => issued
    case Exchanging(issued) => issued
    case Verifying(issued, _) => issued
    case Committing(issued, _, _) => issued
    case Revoking(issued, _) => issued
    case _ => ""
  }

  /** The client name that only stands for one to be issued. */
  const PLACEHOLDER := "dynamic_agent_client"

  ghost predicate Issues(w: World) {
    && (w.file.Some? ==> forall p :: p in w.file.value.accounts ==>
         w.file.value.accounts[p].clientID != PLACEHOLDER)
    && forall id :: id in w.attempts ==>
       w.attempts[id].captured != PLACEHOLDER && ClientOf(w.attempts[id]) != PLACEHOLDER
  }

  ghost predicate NoPlaceholder(f: File) {
    f.Some? ==> forall p :: p in f.value.accounts ==> f.value.accounts[p].clientID != PLACEHOLDER
  }

  lemma SectionIssues(f: File, section: Result<State>, save: Save)
    requires NoPlaceholder(f) && (section.Success? ==> NoPlaceholder(Some(section.value)))
    ensures NoPlaceholder(Conclude(f, section, save).0)
  {
  }

  lemma AttemptIssues(w: World, e: Event)
    requires Issues(w) && InPhase(w, e) && (e.Register? || e.Commit? || e.Clean?)
    ensures Issues(Step(w, e))
  {
    assert NoPlaceholder(Enter(w.file, w.supply, e.door).0);
  }

  lemma BeginningIssues(s: State, newAccount: bool, profile: string, id: nat, now: int)
    requires NoPlaceholder(Some(s)) && StartIn(s, newAccount, profile, id, now).Success?
    ensures NoPlaceholder(Some(StartIn(s, newAccount, profile, id, now).value))
    ensures var begun := StartIn(s, newAccount, profile, id, now).value;
            AccountOf(begun, begun.last).clientID != PLACEHOLDER
  {
  }

  lemma StartIssues(w: World, e: Event)
    requires Issues(w) && e.Start?
    ensures Issues(Step(w, e))
  {
    var (f, loaded) := Enter(w.file, w.supply, e.door);
    assert NoPlaceholder(f);
    if loaded.Some? {
      var section := StartIn(loaded.value, e.newAccount, e.profile, w.supply, w.clock);
      if section.Success? {
        BeginningIssues(loaded.value, e.newAccount, e.profile, w.supply, w.clock);
      }
      SectionIssues(f, section, e.save);
    }
  }

  lemma RenewalIssues(s: State, answer: Exchange, now: int)
    requires NoPlaceholder(Some(s)) && RenewIn(s, answer, now).Success?
    ensures NoPlaceholder(Some(RenewIn(s, answer, now).value))
  {
  }

  lemma RefreshIssues(w: World, e: Event)
    requires Issues(w) && e.Refresh? && InPhase(w, e)
    ensures Issues(Step(w, e))
  {
    var (f, loaded) := Enter(w.file, w.supply, e.door);
    assert NoPlaceholder(f);
    if loaded.Some? {
      var section := RenewIn(loaded.value, e.answer, w.clock);
      if section.Success? {
        RenewalIssues(loaded.value, e.answer, w.clock);
      }
      SectionIssues(f, section, e.save);
    }
  }

  lemma AccountIssues(w: World, e: Event)
    requires Issues(w) && (e.Select? || e.Disconnect?)
    ensures Issues(Step(w, e))
  {
    assert NoPlaceholder(Enter(w.file, w.supply, e.door).0);
  }

  /** Over every run: the placeholder is never taken for an issued client, by a sign-in or in the file. */
  lemma {:induction false} PlaceholderIsNeverIssued(events: seq<Event>)
    ensures Issues(Run(Initial(), events))
    decreases |events|
  {
    if events != [] {
      var before, e := events[..|events| - 1], events[|events| - 1];
      PlaceholderIsNeverIssued(before);
      var w := Run(Initial(), before);
      if InPhase(w, e) {
        match e
        case Start(_, _, _, _) => StartIssues(w, e);
        case Register(_, _, _) => AttemptIssues(w, e);
        case Commit(_, _, _, _) => AttemptIssues(w, e);
        case Clean(_, _, _) => AttemptIssues(w, e);
        case Refresh(_, _, _) => RefreshIssues(w, e);
        case Select(_, _, _) => AccountIssues(w, e);
        case Disconnect(_, _, _) => AccountIssues(w, e);
        case _ =>
      }
    }
  }
}

/**
 Which access token is handed out (providers/chatgpt/auth.go), told by the history:
 every event whose save reached the file says what it granted, to whom and when, and
 the saved state is at every moment what was said last.
 */
module CredentialAccess {
  import opened Wrappers
  import opened Credentials
  import opened CredentialProtocol
  import opened CredentialIdentity

  /** What an event whose save reached the file says. */
  datatype Notice =
    | Nothing
    | Begins(attempt: nat, profile: string, until: int)
    | Ends
    | Chooses(profile: string)
    | SignsIn(profile: string, grant: Grant)
    | Renews(profile: string, grant: Grant)
    | Forgets(profile: string)

  function CommitNotice(s: State, id: nat, a: Attempt, cancelled: bool): Notice
    requires a.phase.Committing?
  {
    if s.pending == Some(id) && !cancelled && AccountOf(s, a.profile).clientID == a.phase.issued
      && AccountOf(s, a.profile).subject in {"", a.phase.subject}
    then SignsIn(a.profile, a.phase.grant)
    else Nothing
  }

  /** The account's token has to be renewed, and may be. */
  predicate Renewable(account: Account, now: int) {
    && account.subject != "" && account.plan && account.refresh.Some? && account.earliestRefresh <= now
    && (account.access == "" || account.expires <= now + 60)
  }

  function RefreshNotice(s: State, answer: Exchange, now: int): Notice {
    if !Renewable(AccountOf(s, s.active), now) then Nothing
    else
      match answer
      case Granted(grant) => if grant.refresh.Some? then Renews(s.active, grant) else Forgets(s.active)
      case Incomplete(_) => Nothing
      case Rejected(terminal) => if terminal then Forgets(s.active) else Nothing
  }

  function DisconnectNotice(s: State, revoked: bool, now: int): Notice {
    if s.pendingUntil <= now && s.active in s.accounts && (s.accounts[s.active].refresh.None? || revoked)
    then Forgets(s.active)
    else Nothing
  }

  function SelectNotice(s: State, profile: string, now: int): Notice {
    if s.pendingUntil <= now && profile in s.accounts && s.accounts[profile].subject != "" then Chooses(profile)
    else Nothing
  }

  /** A sign-in goes on with the active profile, or the one used last, or a new one if asked or there is none. */
  function StartNotice(s: State, newAccount: bool, profile: string, attempt: nat, now: int): Notice {
    if profile == "" || profile in s.accounts || s.pendingUntil > now then Nothing
    else
      Begins(attempt,
             if newAccount then profile else if s.active != "" then s.active else if s.last != "" then s.last
             else profile, now + 600)
  }

  function CleanNotice(s: State, id: nat): Notice {
    if s.pending == Some(id) then Ends else Nothing
  }

  /** What an event does with the store: how it comes to it and how its save ends. */
  function Visit(e: Event): Option<(Door, Save)> {
    match e
    case Start(door, _, _, save) => Some((door, save))
    case Commit(_, door, _, save) => Some((door, save))
    case Clean(_, door, save) => Some((door, save))
    case Refresh(door, _, save) => Some((door, save))
    case Select(door, _, save) => Some((door, save))
    case Disconnect(door, _, save) => Some((door, save))
    case _ => None
  }

  function SectionNotice(w: World, s: State, e: Event): Notice
    requires InPhase(w, e)
  {
    match e
    case Start(_, newAccount, profile, _) => StartNotice(s, newAccount, profile, w.supply, w.clock)
    case Commit(id, _, cancelled, _) => CommitNotice(s, id, w.attempts[id], cancelled)
    case Clean(id, _, _) => CleanNotice(s, id)
    case Refresh(_, answer, _) => RefreshNotice(s, answer, w.clock)
    case Select(_, profile, _) => SelectNotice(s, profile, w.clock)
    case Disconnect(_, revoked, _) => DisconnectNotice(s, revoked, w.clock)
    case _ => Nothing
  }

  function NoticeOf(w: World, e: Event): Notice {
    if !InPhase(w, e) || Visit(e).None? || Visit(e).value.1.Lost? then Nothing
    else
      match Enter(w.file, w.supply, Visit(e).value.0).1
      case None => Nothing
      case Some(s) => SectionNotice(w, s, e)
  }

  /** The last grant for a profile and when it came; `plan` is the scope last spoken of. */
  datatype Entry = Entry(grant: Grant, at: int, plan: bool)

  datatype Ledger = Ledger(
    entries: map<string, Entry>, active: string, last: string, pending: Option<nat>, until: int)

  const NOTHING_SAID := Ledger(map[], "", "", None, 0)

  function Heard(l: Ledger, notice: Notice, now: int): Ledger {
    match notice
    case Nothing => l
    case Begins(attempt, profile, until) => l.(last := profile, pending := Some(attempt), until := until)
    case Ends => l.(pending := None, until := 0)
    case Chooses(profile) => l.(active := profile)
    case SignsIn(profile, grant) =>
      l.(entries := l.entries[profile := Entry(grant, now, grant.plan == Some(true))], active := profile)
    case Renews(profile, grant) =>
      var plan := if grant.plan.Some? then grant.plan.value else profile in l.entries && l.entries[profile].plan;
      l.(entries := l.entries[profile := Entry(grant, now, plan)])
    case Forgets(profile) => l.(entries := l.entries - {profile})
  }

  /** What the history of a run says, told event by event. */
  function LedgerOf(events: seq<Event>): Ledger
    decreases |events|
  {
    if events == [] then NOTHING_SAID
    else
      var before, last := events[..|events| - 1], events[|events| - 1];
      var w := Run(Initial(), before);
      Heard(LedgerOf(before), NoticeOf(w, last), w.clock)
  }

  // -------------------------------------------------------------- the saved state

  /** An account is as it was last granted, or holds nothing. */
  ghost predicate AccountTells(account: Account, profile: string, entries: map<string, Entry>) {
    if profile in entries then
      var e := entries[profile];
      && account.subject != "" && account.access == e.grant.access && account.refresh == e.grant.refresh
      && account.expires == e.at + e.grant.expiresIn && account.earliestRefresh == e.grant.earliest
      && account.plan == e.plan
    else account.access == "" && account.refresh.None? && !account.plan
  }

  ghost predicate Tells(f: File, l: Ledger) {
    match f
    case None => l == NOTHING_SAID
    case Some(s) =>
      && s.active == l.active && s.last == l.last && s.pending == l.pending && s.pendingUntil == l.until
      && l.entries.Keys <= s.accounts.Keys
      && forall p :: p in s.accounts ==> AccountTells(s.accounts[p], p, l.entries)
  }

  lemma EnterTells(w: World, door: Door, l: Ledger)
    requires Tells(w.file, l)
    ensures var (f, loaded) := Enter(w.file, w.supply, door);
            Tells(f, l) && (loaded.Some? ==> f == loaded)
  {
  }

  /** One account is rewritten, and the history says the same of it. */
  lemma AccountTold(s: State, l: Ledger, profile: string, account: Account, entries: map<string, Entry>)
    requires Tells(Some(s), l) && AccountTells(account, profile, entries)
    requires forall p :: p != profile ==>
               (p in entries <==> p in l.entries) && (p in entries ==> entries[p] == l.entries[p])
    ensures Tells(Some(s.(accounts := s.accounts[profile := account])), l.(entries := entries))
  {
  }

  /** A section is saved, and so is said; or it refused or its save is lost, and nothing is. */
  lemma SectionTells(s: State, l: Ledger, section: Result<State>, save: Save, notice: Notice, now: int)
    requires Tells(Some(s), l) && (section.Failure? ==> notice == Nothing)
    requires section.Success? ==> Tells(Some(section.value), Heard(l, notice, now))
    ensures Tells(Conclude(Some(s), section, save).0, Heard(l, if save.Lost? then Nothing else notice, now))
  {
  }

  lemma StartTells(s: State, l: Ledger, newAccount: bool, profile: string, attempt: nat, now: int)
    requires Tells(Some(s), l) && profile != "" && profile !in s.accounts
    ensures var (section, notice) := (StartIn(s, newAccount, profile, attempt, now),
                                      StartNotice(s, newAccount, profile, attempt, now));
            if section.Success? then Tells(Some(section.value), Heard(l, notice, now)) else notice == Nothing
  {
    AccountTold(s, l, profile, NO_ACCOUNT, l.entries);
  }

  lemma RegisterTells(s: State, l: Ledger, id: nat, profile: string, issued: string)
    requires Tells(Some(s), l) && RegisterIn(s, id, profile, issued).Success?
    ensures Tells(Some(RegisterIn(s, id, profile, issued).value), l)
  {
    AccountTold(s, l, profile, AccountOf(s, profile).(clientID := issued), l.entries);
  }

  lemma CommitTells(s: State, l: Ledger, id: nat, a: Attempt, cancelled: bool, now: int)
    requires Tells(Some(s), l) && a.phase.Committing? && a.phase.subject != ""
    ensures var (section, notice) :=
              (CommitIn(s, id, a.profile, a.phase.issued, a.phase.subject, a.phase.grant, cancelled, now),
               CommitNotice(s, id, a, cancelled));
            if section.Success? then Tells(Some(section.value), Heard(l, notice, now)) else notice == Nothing
  {
    var grant := a.phase.grant;
    AccountTold(s, l, a.profile, SignedIn(AccountOf(s, a.profile), a.phase.subject, grant, now),
                l.entries[a.profile := Entry(grant, now, grant.plan == Some(true))]);
  }

  lemma RenewalTells(s: State, l: Ledger, answer: Exchange, now: int)
    requires Tells(Some(s), l) && Renewable(AccountOf(s, s.active), now)
    ensures var (section, notice) := (RenewIn(s, answer, now), RefreshNotice(s, answer, now));
            if section.Success? then Tells(Some(section.value), Heard(l, notice, now)) else notice == Nothing
  {
    var account := s.accounts[s.active];
    assert AccountTells(account, s.active, l.entries);
    if answer.Granted? && answer.grant.refresh.Some? {
      AccountTold(s, l, s.active, Renewed(account, answer.grant, now),
                  Heard(l, Renews(s.active, answer.grant), now).entries);
    } else {
      AccountTold(s, l, s.active, SignedOut(account), l.entries - {s.active});
    }
  }

  lemma RenewalNeeded(s: State, now: int)
    ensures NeedOf(s, now).Renewal? <==> Renewable(AccountOf(s, s.active), now)
  {
  }

  lemma SelectTells(s: State, l: Ledger, profile: string, now: int)
    requires Tells(Some(s), l)
    ensures var (section, notice) := (SelectIn(s, profile, now), SelectNotice(s, profile, now));
            if section.Success? then Tells(Some(section.value), Heard(l, notice, now)) else notice == Nothing
  {
  }

  lemma DisconnectTells(s: State, l: Ledger, revoked: bool, now: int)
    requires Tells(Some(s), l)
    ensures var (section, notice) := (DisconnectIn(s, now, revoked), DisconnectNotice(s, revoked, now));
            if section.Success? then Tells(Some(section.value), Heard(l, notice, now)) else notice == Nothing
  {
    if s.active in s.accounts {
      AccountTold(s, l, s.active, SignedOut(s.accounts[s.active]).(expires := 0), l.entries - {s.active});
    }
  }

  // ------------------------------------------------------------------- every event

  /** What an event makes of the state it loaded. */
  ghost function SectionOf(w: World, s: State, e: Event): Result<State>
    requires InPhase(w, e)
  {
    match e
    case Start(_, newAccount, profile, _) =>
      if profile == "" || profile in s.accounts then Failure("the profile is not a new one")
      else StartIn(s, newAccount, profile, w.supply, w.clock)
    case Commit(id, _, cancelled, _) =>
      var (a, p) := (w.attempts[id], w.attempts[id].phase);
      CommitIn(s, id, a.profile, p.issued, p.subject, p.grant, cancelled, w.clock)
    case Clean(id, _, _) => CleanIn(s, id)
    case Refresh(_, answer, _) =>
      if NeedOf(s, w.clock).Renewal? then RenewIn(s, answer, w.clock) else Failure("no renewal is needed")
    case Select(_, profile, _) => SelectIn(s, profile, w.clock)
    case Disconnect(_, revoked, _) => DisconnectIn(s, w.clock, revoked)
    case _ => Failure("the store is not visited")
  }

  /** A new account is begun under a name of its own. */
  predicate NamesNew(w: World, e: Event) {
    e.Start? ==>
      var f := Enter(w.file, w.supply, e.door).0;
      e.profile != "" && (f.Some? ==> e.profile !in f.value.accounts)
  }

  lemma StepSaves(w: World, e: Event)
    requires InPhase(w, e) && Visit(e).Some? && NamesNew(w, e)
    ensures var (door, save) := Visit(e).value;
            var (f, loaded) := Enter(w.file, w.supply, door);
            Step(w, e).file == if loaded.Some? then Conclude(f, SectionOf(w, loaded.value, e), save).0 else f
  {
  }

  lemma SectionOfTells(w: World, s: State, l: Ledger, e: Event)
    requires InPhase(w, e) && Tells(Some(s), l)
    requires e.Commit? ==> w.attempts[e.attempt].phase.subject != ""
    ensures var (section, notice) := (SectionOf(w, s, e), SectionNotice(w, s, e));
            if section.Success? then Tells(Some(section.value), Heard(l, notice, w.clock)) else notice == Nothing
  {
    match e
    case Start(_, newAccount, profile, _) =>
      if profile != "" && profile !in s.accounts {
        StartTells(s, l, newAccount, profile, w.supply, w.clock);
      }
    case Commit(id, _, cancelled, _) => CommitTells(s, l, id, w.attempts[id], cancelled, w.clock);
    case Clean(id, _, _) =>
    case Refresh(_, answer, _) =>
      RenewalNeeded(s, w.clock);
      if Renewable(AccountOf(s, s.active), w.clock) {
        RenewalTells(s, l, answer, w.clock);
      }
    case Select(_, profile, _) => SelectTells(s, l, profile, w.clock);
    case Disconnect(_, revoked, _) => DisconnectTells(s, l, revoked, w.clock);
    case _ =>
  }

  lemma SavedSectionTells(w: World, s: State, l: Ledger, e: Event, save: Save)
    requires InPhase(w, e) && Tells(Some(s), l)
    requires e.Commit? ==> w.attempts[e.attempt].phase.subject != ""
    ensures var notice := if save.Lost? then Nothing else SectionNotice(w, s, e);
            Tells(Conclude(Some(s), SectionOf(w, s, e), save).0, Heard(l, notice, w.clock))
  {
    SectionOfTells(w, s, l, e);
    SectionTells(s, l, SectionOf(w, s, e), save, SectionNotice(w, s, e), w.clock);
  }

  lemma NoticeOnVisit(w: World, e: Event)
    requires InPhase(w, e) && Visit(e).Some?
    ensures var (door, save) := Visit(e).value;
            var loaded := Enter(w.file, w.supply, door).1;
            NoticeOf(w, e) == if save.Lost? || loaded.None? then Nothing else SectionNotice(w, loaded.value, e)
  {
  }

  lemma VisitTells(w: World, l: Ledger, e: Event)
    requires Tells(w.file, l) && InPhase(w, e) && Visit(e).Some? && NamesNew(w, e)
    requires e.Commit? ==> w.attempts[e.attempt].phase.subject != ""
    ensures Tells(Step(w, e).file, Heard(l, NoticeOf(w, e), w.clock))
  {
    var (door, save) := Visit(e).value;
    EnterTells(w, door, l);
    StepSaves(w, e);
    NoticeOnVisit(w, e);
    match Enter(w.file, w.supply, door).1 {
      case None =>
      case Some(s) => SavedSectionTells(w, s, l, e, save);
    }
  }

  lemma RegisterStepTells(w: World, l: Ledger, id: nat, door: Door, save: Save)
    requires Tells(w.file, l) && id in w.attempts && w.attempts[id].phase.Registering?
    ensures Tells(RegisterStep(w, id, door, save).file, l)
  {
    EnterTells(w, door, l);
    var (loaded, a) := (Enter(w.file, w.supply, door).1, w.attempts[id]);
    if loaded.Some? && RegisterIn(loaded.value, id, a.profile, a.phase.issued).Success? {
      RegisterTells(loaded.value, l, id, a.profile, a.phase.issued);
    }
  }

  lemma StepTells(w: World, l: Ledger, e: Event)
    requires Tells(w.file, l) && Identity(w)
    ensures Tells(Step(w, e).file, Heard(l, NoticeOf(w, e), w.clock))
  {
    if InPhase(w, e) {
      if e.Commit? {
        assert AttemptFine(w.attempts[e.attempt], e.attempt, w.file.value);
      }
      if !NamesNew(w, e) {
        assert Step(w, e) == w && NoticeOf(w, e) == Nothing;
      } else if Visit(e).Some? {
        VisitTells(w, l, e);
      } else if e.Register? {
        RegisterStepTells(w, l, e.attempt, e.door, e.save);
      } else if !e.Tick? {
        PhaseEventKeeps(w, e);
      }
    }
  }

  /**
   Over every run: the file says exactly what the history says. Each account holds the
   access token, lifetime, refresh token and plan scope last granted to it by a login or
   a renewal whose save reached the file, and nothing once it was signed out since; the
   active profile is the one last signed in or selected, and the pending attempt the one
   that began last and was not cleaned up, on the profile it was begun for.
   */
  lemma {:induction false} FileTellsTheHistory(events: seq<Event>)
    ensures Tells(Run(Initial(), events).file, LedgerOf(events))
    decreases |events|
  {
    if events != [] {
      var before := events[..|events| - 1];
      FileTellsTheHistory(before);
      RunKeepsIdentity(Initial(), before);
      StepTells(Run(Initial(), before), LedgerOf(before), events[|events| - 1]);
    }
  }

  // ------------------------------------------------------------ what is handed out

  /** The last grant still has more than a minute, or is not to be renewed yet and has not run out. */
  predicate Usable(e: Entry, now: int) {
    var until := e.at + e.grant.expiresIn;
    (e.grant.access != "" && now + 60 < until) || (now < e.grant.earliest && now < until)
  }

  /**
   Over every run: an access token that is held is handed out exactly when it is the one
   last granted for the active account, its granted lifetime has not run out, and the
   plan scope last granted allows it; and a renewal is asked for, with the refresh token
   that came with it, exactly when it is no longer usable and may be renewed.
   */
  lemma HandedOutExactlyIf(events: seq<Event>, door: Door)
    requires Enter(Run(Initial(), events).file, Run(Initial(), events).supply, door).1.Some?
    ensures var w, l := Run(Initial(), events), LedgerOf(events);
            var need := NeedOf(Enter(w.file, w.supply, door).1.value, w.clock);
            && (forall access :: need == Held(access) <==>
                  && l.active in l.entries
                  && var e := l.entries[l.active];
                     e.plan && access == e.grant.access && w.clock < e.at + e.grant.expiresIn && Usable(e, w.clock))
            && (forall token: nat :: need == Renewal(token) <==>
                  && l.active in l.entries
                  && var e := l.entries[l.active];
                     && e.plan && !Usable(e, w.clock)
                     && e.grant.refresh == Some(token) && e.grant.earliest <= w.clock)
  {
    var w, l := Run(Initial(), events), LedgerOf(events);
    FileTellsTheHistory(events);
    EnterTells(w, door, l);
    var s := Enter(w.file, w.supply, door).1.value;
    assert s.active in s.accounts ==> AccountTells(s.accounts[s.active], s.active, l.entries);
  }

  predicate Speaks(notice: Notice, profile: string) {
    (notice.SignsIn? || notice.Renews? || notice.Forgets?) && notice.profile == profile
  }

  /** What the n-th event of a run says. */
  function NoticeAt(events: seq<Event>, n: nat): Notice
    requires n < |events|
  {
    NoticeOf(Run(Initial(), events[..n]), events[n])
  }

  ghost predicate LastToSpeak(events: seq<Event>, n: nat, profile: string) {
    && n < |events| && Speaks(NoticeAt(events, n), profile)
    && forall m :: n < m < |events| ==> !Speaks(NoticeAt(events, m), profile)
  }

  lemma StillLast(events: seq<Event>, n: nat, profile: string)
    requires events != [] && LastToSpeak(events[..|events| - 1], n, profile)
    requires !Speaks(NoticeAt(events, |events| - 1), profile)
    ensures LastToSpeak(events, n, profile) && NoticeAt(events, n) == NoticeAt(events[..|events| - 1], n)
  {
    var before := events[..|events| - 1];
    forall m | 0 <= m < |before| ensures NoticeAt(events, m) == NoticeAt(before, m) {
      assert before[..m] == events[..m];
    }
  }

  lemma EntryHeard(l: Ledger, notice: Notice, now: int, profile: string)
    requires profile in Heard(l, notice, now).entries
    ensures var e := Heard(l, notice, now).entries[profile];
            if Speaks(notice, profile) then
              (notice == SignsIn(profile, e.grant) || notice == Renews(profile, e.grant)) && e.at == now
            else profile in l.entries && e == l.entries[profile]
  {
  }

  /** The entry of a profile comes from the last event of the run that spoke of it. */
  lemma {:induction false} EntryIsLastGrant(events: seq<Event>, profile: string) returns (n: nat)
    requires profile in LedgerOf(events).entries
    ensures LastToSpeak(events, n, profile)
    ensures var e := LedgerOf(events).entries[profile];
            && NoticeAt(events, n) in {SignsIn(profile, e.grant), Renews(profile, e.grant)}
            && e.at == Run(Initial(), events[..n]).clock
    decreases |events|
  {
    var before, last := events[..|events| - 1], |events| - 1;
    EntryHeard(LedgerOf(before), NoticeAt(events, last), Run(Initial(), before).clock, profile);
    if Speaks(NoticeAt(events, last), profile) {
      n := last;
    } else {
      n := EntryIsLastGrant(before, profile);
      StillLast(events, n, profile);
      assert before[..n] == events[..n];
    }
  }

  /**
   Over every run: a token that is handed out without a renewal was granted by a login or
   a renewal whose save reached the file, no later one spoke of that account, and the
   lifetime granted then has not run out.
   */
  lemma HeldTokenWasGrantedLast(events: seq<Event>, door: Door, access: string) returns (n: nat)
    requires var w := Run(Initial(), events);
             && Enter(w.file, w.supply, door).1.Some?
             && NeedOf(Enter(w.file, w.supply, door).1.value, w.clock) == Held(access)
    ensures LastToSpeak(events, n, LedgerOf(events).active)
    ensures var notice := NoticeAt(events, n);
            && (notice.SignsIn? || notice.Renews?) && access == notice.grant.access
            && Run(Initial(), events).clock < Run(Initial(), events[..n]).clock + notice.grant.expiresIn
  {
    HandedOutExactlyIf(events, door);
    n := EntryIsLastGrant(events, LedgerOf(events).active);
  }
}

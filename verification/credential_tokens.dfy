/**
 What becomes of refresh tokens. A token used up at the server is shown again
 exactly if the store could not be rewritten after using it, and a login's token
 ends either in the store or revoked - both exactly if the save that stored it
 reported an error it should not have.
 */
module CredentialTokens {
  import opened Wrappers
  import opened Credentials
  import opened CredentialProtocol

  ghost predicate Stores(f: File, profile: string, token: nat) {
    f.Some? && profile in f.value.accounts && f.value.accounts[profile].refresh == Some(token)
  }

  /** Stored tokens are nobody else's; a used-up one is known to be stale. */
  ghost predicate StoreFine(f: File, supply: nat, log: Log) {
    && (forall p: string, t: nat :: Stores(f, p, t) ==>
          t < supply && (t in log.spent <==> t in log.stale) && (t in log.minted ==> t in log.committed))
    && (forall p: string, q: string, t: nat :: Stores(f, p, t) && Stores(f, q, t) ==> p == q)
  }

  ghost predicate LogFine(supply: nat, log: Log) {
    && (forall t :: t in log.minted ==> t < supply)
    && (forall t :: t in log.spent ==> t < supply)
    && (forall t :: t in log.revoked ==> t < supply)
    && (forall t :: t in log.stale ==> t in log.spent)
    && (forall t :: t in log.committed ==> t in log.minted)
    && (forall t :: t in log.unsure ==> t in log.committed)
  }

  /** Where the token a login minted can be, by the phase of the login. */
  ghost predicate Fate(phase: Phase, t: nat, log: Log) {
    match phase
    case Waiting => false
    case Registering(_) => false
    case Exchanging(_) => false
    case Verifying(_, grant) => grant.refresh == Some(t) && t !in log.committed && t !in log.revoked && t !in log.spent
    case Committing(_, grant, _) =>
      grant.refresh == Some(t) && t !in log.committed && t !in log.revoked && t !in log.spent
    case Revoking(_, token) => token == t && t !in log.revoked && (t in log.committed <==> t in log.unsure)
    case Cleaning => (t in log.committed || t in log.revoked)
      && (t in log.committed && t in log.revoked <==> t in log.unsure)
    case Over => (t in log.committed || t in log.revoked)
      && (t in log.committed && t in log.revoked <==> t in log.unsure)
    case Crashed => t in log.committed && t in log.revoked ==> t in log.unsure
  }

  ghost predicate FatesFine(attempts: map<nat, Attempt>, log: Log) {
    forall t :: t in log.minted ==> log.minted[t] in attempts && Fate(attempts[log.minted[t]].phase, t, log)
  }

  function HeldBy(phase: Phase): Option<nat> {
    match phase
    case Verifying(_, grant) => grant.refresh
    case Committing(_, grant, _) => grant.refresh
    case Revoking(_, token) => Some(token)
    case _ => None
  }

  ghost predicate HoldersFine(attempts: map<nat, Attempt>, supply: nat, log: Log) {
    forall id :: id in attempts ==>
      id < supply && (HeldBy(attempts[id].phase).Some? ==>
                        var t := HeldBy(attempts[id].phase).value; t in log.minted && log.minted[t] == id)
  }

  ghost predicate Tokens(w: World) {
    && StoreFine(w.file, w.supply, w.log) && LogFine(w.supply, w.log)
    && FatesFine(w.attempts, w.log) && HoldersFine(w.attempts, w.supply, w.log)
  }

  // ------------------------------------------------------- steps that move no token

  ghost predicate NoNewTokens(f: File, f': File) {
    forall p: string, t: nat :: Stores(f', p, t) ==> Stores(f, p, t)
  }

  lemma EnterMovesNothing(w: World, door: Door)
    ensures NoNewTokens(w.file, Enter(w.file, w.supply, door).0)
    ensures Enter(w.file, w.supply, door).1.Some? ==> Enter(w.file, w.supply, door).0 == Enter(w.file, w.supply, door).1
  {
  }

  /** A phase that holds what the old one held. */
  lemma QuietStep(w: World, f: File, id: nat, phase: Phase)
    requires Tokens(w) && NoNewTokens(w.file, f) && id in w.attempts
    requires HeldBy(phase) == HeldBy(w.attempts[id].phase)
    requires forall t :: Fate(w.attempts[id].phase, t, w.log) ==> Fate(phase, t, w.log)
    ensures Tokens(Put(w.(file := f), id, phase))
  {
    var w' := Put(w.(file := f), id, phase);
    forall t | t in w.log.minted
      ensures w.log.minted[t] in w'.attempts && Fate(w'.attempts[w.log.minted[t]].phase, t, w.log)
    {
      assert Fate(w.attempts[w.log.minted[t]].phase, t, w.log);
    }
  }

  lemma FileStep(w: World, f: File)
    requires Tokens(w) && NoNewTokens(w.file, f)
    ensures Tokens(w.(file := f)) && Tokens(w.(file := f, supply := w.supply + 1))
  {
  }

  lemma StartKeeps(w: World, door: Door, newAccount: bool, profile: string, save: Save)
    requires Tokens(w)
    ensures Tokens(StartStep(w, door, newAccount, profile, save))
  {
    EnterMovesNothing(w, door);
    var w' := StartStep(w, door, newAccount, profile, save);
    assert NoNewTokens(w.file, w'.file);
    FileStep(w, w'.file);
    if w'.attempts != w.attempts {
      assert w.supply !in w.attempts;
      assert w'.attempts == w.attempts[w.supply := w'.attempts[w.supply]];
      forall t | t in w.log.minted
        ensures w.log.minted[t] in w'.attempts && Fate(w'.attempts[w.log.minted[t]].phase, t, w.log)
      {
        assert Fate(w.attempts[w.log.minted[t]].phase, t, w.log);
      }
    }
  }

  lemma RegisterMovesNothing(s: State, attempt: nat, profile: string, issued: string, save: Save)
    ensures NoNewTokens(Some(s), Conclude(Some(s), RegisterIn(s, attempt, profile, issued), save).0)
  {
  }

  lemma RegisterKeeps(w: World, id: nat, door: Door, save: Save)
    requires Tokens(w) && id in w.attempts && w.attempts[id].phase.Registering?
    ensures Tokens(RegisterStep(w, id, door, save))
  {
    EnterMovesNothing(w, door);
    var (f, loaded) := Enter(w.file, w.supply, door);
    var w' := RegisterStep(w, id, door, save);
    if loaded.Some? {
      RegisterMovesNothing(loaded.value, id, w.attempts[id].profile, w.attempts[id].phase.issued, save);
    }
    assert NoNewTokens(w.file, w'.file);
    QuietStep(w, w'.file, id, w'.attempts[id].phase);
  }

  lemma CleanKeeps(w: World, id: nat, door: Door, save: Save)
    requires Tokens(w) && id in w.attempts && w.attempts[id].phase.Cleaning?
    ensures Tokens(CleanStep(w, id, door, save))
  {
    EnterMovesNothing(w, door);
    var w' := CleanStep(w, id, door, save);
    assert NoNewTokens(w.file, w'.file);
    QuietStep(w, w'.file, id, Over);
  }

  lemma SelectKeeps(w: World, door: Door, profile: string, save: Save)
    requires Tokens(w)
    ensures Tokens(SelectStep(w, door, profile, save))
  {
    EnterMovesNothing(w, door);
    var w' := SelectStep(w, door, profile, save);
    assert NoNewTokens(w.file, w'.file);
    FileStep(w, w'.file);
  }

  lemma VerifyKeeps(w: World, id: nat, subject: string)
    requires Tokens(w) && id in w.attempts && w.attempts[id].phase.Verifying?
    ensures Tokens(VerifyStep(w, id, subject))
  {
    var refresh := w.attempts[id].phase.grant.refresh;
    if refresh.Some? {
      assert Fate(w.attempts[id].phase, refresh.value, w.log);
    }
    QuietStep(w, w.file, id, VerifyStep(w, id, subject).attempts[id].phase);
  }

  lemma CrashKeeps(w: World, id: nat)
    requires Tokens(w) && id in w.attempts
    ensures Tokens(Put(w, id, Crashed))
  {
    var w' := Put(w, id, Crashed);
    forall t | t in w.log.minted
      ensures w.log.minted[t] in w'.attempts && Fate(w'.attempts[w.log.minted[t]].phase, t, w.log)
    {
      assert Fate(w.attempts[w.log.minted[t]].phase, t, w.log);
    }
  }

  // --------------------------------------------------------- steps that move tokens

  /** A login gets its tokens, and with them a refresh token nobody has seen. */
  lemma ExchangeKeeps(w: World, id: nat, answer: Exchange)
    requires Tokens(w) && InPhase(w, ExchangeCode(id, answer))
    ensures Tokens(ExchangeStep(w, id, answer))
  {
    var w' := ExchangeStep(w, id, answer);
    var token := TokenOf(answer);
    assert HeldBy(w'.attempts[id].phase) == token;
    forall t | t in w'.log.minted
      ensures w'.log.minted[t] in w'.attempts && Fate(w'.attempts[w'.log.minted[t]].phase, t, w'.log)
    {
      if token != Some(t) {
        assert Fate(w.attempts[w.log.minted[t]].phase, t, w.log);
      }
    }
  }

  /** Tokens of a phase other than these of one attempt keep their fate. */
  lemma OtherFates(w: World, id: nat, phase: Phase, log: Log, changed: set<nat>)
    requires Tokens(w) && id in w.attempts && log.minted == w.log.minted
    requires forall t :: t in changed ==> t in w.log.minted && w.log.minted[t] == id && Fate(phase, t, log)
    requires forall t :: t in w.log.minted && w.log.minted[t] == id ==> t in changed
    requires forall t :: t !in changed ==>
               (t in log.committed <==> t in w.log.committed) && (t in log.unsure <==> t in w.log.unsure)
               && (t in log.revoked <==> t in w.log.revoked) && (t in log.spent <==> t in w.log.spent)
    ensures FatesFine(w.attempts[id := w.attempts[id].(phase := phase)], log)
  {
    var attempts := w.attempts[id := w.attempts[id].(phase := phase)];
    forall t | t in log.minted ensures log.minted[t] in attempts && Fate(attempts[log.minted[t]].phase, t, log) {
      assert Fate(w.attempts[w.log.minted[t]].phase, t, w.log);
    }
  }

  lemma OnlyToken(w: World, id: nat)
    requires Tokens(w) && id in w.attempts && HeldBy(w.attempts[id].phase).Some?
    ensures forall t :: t in w.log.minted && w.log.minted[t] == id ==> Some(t) == HeldBy(w.attempts[id].phase)
    ensures Fate(w.attempts[id].phase, HeldBy(w.attempts[id].phase).value, w.log)
  {
    forall t | t in w.log.minted && w.log.minted[t] == id ensures Some(t) == HeldBy(w.attempts[id].phase) {
      assert Fate(w.attempts[id].phase, t, w.log);
    }
  }

  lemma RevokeKeeps(w: World, id: nat, ok: bool)
    requires Tokens(w) && id in w.attempts && w.attempts[id].phase.Revoking?
    ensures Tokens(RevokeStep(w, id, ok))
  {
    var token := w.attempts[id].phase.token;
    var w' := RevokeStep(w, id, ok);
    OnlyToken(w, id);
    OtherFates(w, id, Cleaning, w'.log, {token});
    assert forall p: string, t: nat :: Stores(w.file, p, t) && t == token ==> t in w.log.committed;
  }

  /** The store after a commit that wrote. */
  lemma CommitStores(f: File, profile: string, account: Account, active: string, supply: nat, log: Log, log': Log)
    requires f.Some? && StoreFine(f, supply, log)
    requires account.refresh.Some? ==>
               var t := account.refresh.value;
               t < supply && t !in log.committed && t in log.minted && t !in log.spent && t !in log.stale
                 && t in log'.committed
    requires log'.spent == log.spent && log'.stale == log.stale && log'.minted == log.minted
             && log.committed <= log'.committed
    ensures StoreFine(Some(f.value.(accounts := f.value.accounts[profile := account], active := active)), supply, log')
  {
    var f' := Some(f.value.(accounts := f.value.accounts[profile := account], active := active));
    assert forall p: string, t: nat :: Stores(f', p, t) ==>
      if p == profile then account.refresh == Some(t) else Stores(f, p, t);
  }

  lemma CommitFates(w: World, id: nat, written: bool, save: Save, log: Log)
    requires Tokens(w) && id in w.attempts && w.attempts[id].phase.Committing? && (written ==> !save.Lost?)
    requires var tokens := if written then Token(w.attempts[id].phase.grant.refresh) else {};
             log == w.log.(
               committed := w.log.committed + tokens,
               unsure := if save.Unsure? then w.log.unsure + tokens else w.log.unsure)
    ensures var p := w.attempts[id].phase;
            var phase := if written && save.Kept? then Cleaning else AfterFailure(p.issued, p.grant.refresh);
            && FatesFine(w.attempts[id := w.attempts[id].(phase := phase)], log)
            && HoldersFine(w.attempts[id := w.attempts[id].(phase := phase)], w.supply, log)
            && LogFine(w.supply, log)
  {
    var p := w.attempts[id].phase;
    var phase := if written && save.Kept? then Cleaning else AfterFailure(p.issued, p.grant.refresh);
    if p.grant.refresh.Some? {
      OnlyToken(w, id);
      OtherFates(w, id, phase, log, {p.grant.refresh.value});
    } else {
      forall t | t in w.log.minted ensures w.log.minted[t] != id {
        assert Fate(w.attempts[w.log.minted[t]].phase, t, w.log);
      }
      OtherFates(w, id, phase, log, {});
    }
  }

  lemma CommitKeeps(w: World, id: nat, door: Door, cancelled: bool, save: Save)
    requires Tokens(w) && id in w.attempts && w.attempts[id].phase.Committing?
    ensures Tokens(CommitStep(w, id, door, cancelled, save))
  {
    EnterMovesNothing(w, door);
    var (f, loaded) := Enter(w.file, w.supply, door);
    var a := w.attempts[id];
    var p := a.phase;
    var section := if loaded.Some? then
      CommitIn(loaded.value, id, a.profile, p.issued, p.subject, p.grant, cancelled, w.clock)
                   else Failure(CLOSED);
    var w' := CommitStep(w, id, door, cancelled, save);
    FileStep(w, f);
    CommitFates(w, id, section.Success? && !save.Lost?, save, w'.log);
    if section.Success? && !save.Lost? {
      if p.grant.refresh.Some? {
        OnlyToken(w, id);
      }
      var account := SignedIn(AccountOf(f.value, a.profile), p.subject, p.grant, w.clock);
      CommitStores(f, a.profile, account, a.profile, w.supply, w.log, w'.log);
    }
  }

  lemma UseKeeps(w: World, profile: string, token: nat, used: bool, save: Save)
    requires Tokens(w) && Stores(w.file, profile, token)
    ensures var log := Use(w.log, token, used, save);
            FatesFine(w.attempts, log) && HoldersFine(w.attempts, w.supply, log) && LogFine(w.supply, log)
  {
    var log := Use(w.log, token, used, save);
    forall t | t in log.minted ensures log.minted[t] in w.attempts && Fate(w.attempts[log.minted[t]].phase, t, log) {
      assert Fate(w.attempts[w.log.minted[t]].phase, t, w.log);
    }
  }

  /** The store after the active account's token was used and replaced by a new one or by none. */
  lemma ReplacedStores(w: World, profile: string, token: Option<nat>, account: Account)
    requires Tokens(w) && w.file.Some? && profile in w.file.value.accounts
             && w.file.value.accounts[profile].refresh == token
    requires account.refresh.Some? ==> account.refresh.value == w.supply
    ensures var f := Some(w.file.value.(accounts := w.file.value.accounts[profile := account]));
            && StoreFine(f, w.supply + 1, w.log)
            && (token.Some? ==> StoreFine(f, w.supply + 1, w.log.(spent := w.log.spent + {token.value})))
            && (account.refresh.None? ==> StoreFine(f, w.supply, w.log))
            && (account.refresh.None? && token.Some? ==>
               StoreFine(f, w.supply, w.log.(spent := w.log.spent + {token.value})))
  {
    var f := Some(w.file.value.(accounts := w.file.value.accounts[profile := account]));
    assert forall p: string, t: nat :: Stores(f, p, t) ==>
      if p == profile then account.refresh == Some(t) else Stores(w.file, p, t);
    assert token.Some? ==> Stores(w.file, profile, token.value);
  }

  /** The store could not be rewritten: the token stays, known to be stale. */
  lemma StaleStores(f: File, supply: nat, log: Log, token: nat)
    requires StoreFine(f, supply, log)
    ensures StoreFine(f, supply, Use(log, token, true, Lost))
  {
  }

  lemma RefreshKeeps(w: World, door: Door, answer: Exchange, save: Save)
    requires Tokens(w) && IsFresh(w, answer)
    ensures Tokens(RefreshStep(w, door, answer, save))
  {
    EnterMovesNothing(w, door);
    var (f, loaded) := Enter(w.file, w.supply, door);
    FileStep(w, f);
    if loaded.Some? && NeedOf(loaded.value, w.clock).Renewal? {
      RenewalKeeps(w.(file := f), loaded.value, NeedOf(loaded.value, w.clock).token, answer, save);
    } else {
      assert RefreshStep(w, door, answer, save) == w.(file := f, supply := w.supply + 1);
    }
  }

  lemma RenewalStores(w: World, s: State, token: nat, answer: Exchange, save: Save)
    requires Tokens(w) && w.file == Some(s) && IsFresh(w, answer) && Spends(answer) && s.active in s.accounts
    requires s.accounts[s.active].refresh == Some(token)
    ensures StoreFine(Conclude(w.file, RenewIn(s, answer, w.clock), save).0, w.supply + 1,
            Use(w.log, token, true, save))
  {
    if save.Lost? {
      StaleStores(w.file, w.supply, w.log, token);
    } else {
      ReplacedStores(w, s.active, Some(token), RenewIn(s, answer, w.clock).value.accounts[s.active]);
    }
  }

  lemma NextSupply(w: World, f: File, log: Log)
    requires FatesFine(w.attempts, log) && HoldersFine(w.attempts, w.supply, log) && LogFine(w.supply, log)
    requires StoreFine(f, w.supply + 1, log)
    ensures Tokens(w.(file := f, log := log, supply := w.supply + 1))
  {
  }

  lemma RenewalKeeps(w: World, s: State, token: nat, answer: Exchange, save: Save)
    requires Tokens(w) && w.file == Some(s) && IsFresh(w, answer) && NeedOf(s, w.clock) == Renewal(token)
    ensures Tokens(w.(file := Conclude(w.file, RenewIn(s, answer, w.clock), save).0,
            log := Use(w.log, token, Spends(answer), save),
                      supply := w.supply + 1))
  {
    if Spends(answer) {
      assert Stores(w.file, s.active, token);
      UseKeeps(w, s.active, token, true, save);
      RenewalStores(w, s, token, answer, save);
      NextSupply(w, Conclude(w.file, RenewIn(s, answer, w.clock), save).0, Use(w.log, token, true, save));
    } else {
      FileStep(w, w.file);
    }
  }

  lemma DisconnectKeeps(w: World, door: Door, revoked: bool, save: Save)
    requires Tokens(w)
    ensures Tokens(DisconnectStep(w, door, revoked, save))
  {
    EnterMovesNothing(w, door);
    var (f, loaded) := Enter(w.file, w.supply, door);
    FileStep(w, f);
    if loaded.Some? && DisconnectNeeds(loaded.value, w.clock).Success? {
      SignOutKeeps(w.(file := f), loaded.value, revoked, save);
    }
  }

  lemma SignOutKeeps(w: World, s: State, revoked: bool, save: Save)
    requires Tokens(w) && w.file == Some(s) && DisconnectNeeds(s, w.clock).Success?
    ensures var token := AccountOf(s, s.active).refresh;
            var log := if token.Some? then Use(w.log, token.value, revoked, save) else w.log;
            Tokens(w.(file := Conclude(w.file, DisconnectIn(s, w.clock, revoked), save).0, log := log))
  {
    var token := AccountOf(s, s.active).refresh;
    if s.active in s.accounts {
      if token.Some? {
        UseKeeps(w, s.active, token.value, revoked, save);
      }
      if save.Lost? {
        if token.Some? {
          StaleStores(w.file, w.supply, w.log, token.value);
        }
      } else if token.None? || revoked {
        ReplacedStores(w, s.active, token, SignedOut(s.accounts[s.active]).(expires := 0));
      }
    }
  }

  lemma StepKeepsTokens(w: World, e: Event)
    requires Tokens(w)
    ensures Tokens(Step(w, e))
  {
    if InPhase(w, e) {
      match e
      case Tick(_) =>
      case Start(door, newAccount, profile, save) => StartKeeps(w, door, newAccount, profile, save);
      case Call(id, query) => QuietStep(w, w.file, id, CallStep(w, id, query).attempts[id].phase);
      case GiveUp(id) => GiveUpKeeps(w, id);
      case Register(id, door, save) => RegisterKeeps(w, id, door, save);
      case ExchangeCode(id, answer) => ExchangeKeeps(w, id, answer);
      case Verify(id, subject) => VerifyKeeps(w, id, subject);
      case Commit(id, door, cancelled, save) => CommitKeeps(w, id, door, cancelled, save);
      case Revoke(id, ok) => RevokeKeeps(w, id, ok);
      case Clean(id, door, save) => CleanKeeps(w, id, door, save);
      case Crash(id) => CrashKeeps(w, id);
      case Refresh(door, answer, save) => RefreshKeeps(w, door, answer, save);
      case Select(door, profile, save) => SelectKeeps(w, door, profile, save);
      case Disconnect(door, revoked, save) => DisconnectKeeps(w, door, revoked, save);
    }
  }

  lemma GiveUpKeeps(w: World, id: nat)
    requires Tokens(w) && id in w.attempts && w.attempts[id].phase.Waiting?
    ensures Tokens(Put(w, id, Cleaning))
  {
    QuietStep(w, w.file, id, Cleaning);
  }

  lemma {:induction false} RunKeepsTokens(events: seq<Event>)
    ensures Tokens(Run(Initial(), events))
    decreases |events|
  {
    if events != [] {
      RunKeepsTokens(events[..|events| - 1]);
      StepKeepsTokens(Run(Initial(), events[..|events| - 1]), events[|events| - 1]);
    }
  }

  // ------------------------------------------------------------------ what it means

  lemma PresentedIsStored(w: World, e: Event)
    requires Presented(w, e).Some?
    ensures exists p :: Stores(w.file, p, Presented(w, e).value)
  {
    var s := Enter(w.file, w.supply, e.door).1.value;
    assert Stores(Some(s), s.active, Presented(w, e).value);
    assert w.file.Some?;
    assert Stores(w.file, s.active, Presented(w, e).value);
  }

  /**
   In every run, by whichever process: a token shown to the server for renewal or
   sign-out has been used up before if and only if it is stale.
   */
  lemma RefreshTokensAreUsedOnce(events: seq<Event>, e: Event)
    requires Presented(Run(Initial(), events), e).Some?
    ensures var w := Run(Initial(), events);
            Presented(w, e).value in w.log.spent <==> Presented(w, e).value in w.log.stale
  {
    RunKeepsTokens(events);
    PresentedIsStored(Run(Initial(), events), e);
  }

  /** Whether a save of this event did what it reported. */
  predicate SavesWell(e: Event) {
    match e
    case Commit(_, _, _, save) => !save.Unsure?
    case Refresh(_, _, save) => !save.Lost?
    case Disconnect(_, _, save) => !save.Lost?
    case _ => true
  }

  lemma {:induction false} NothingIsStale(events: seq<Event>)
    requires forall i :: 0 <= i < |events| ==> SavesWell(events[i])
    ensures Run(Initial(), events).log.stale == {} && Run(Initial(), events).log.unsure == {}
    decreases |events|
  {
    if events != [] {
      var before, last := events[..|events| - 1], events[|events| - 1];
      NothingIsStale(before);
      var w := Run(Initial(), before);
      RunKeepsTokens(before);
      if last.Revoke? && InPhase(w, last) {
        OnlyToken(w, last.attempt);
      }
      assert SavesWell(last);
    }
  }

  /** So with saves that succeed and commits that are not in doubt, no used-up token is ever shown again. */
  lemma SavedTokensAreUsedOnce(events: seq<Event>, e: Event)
    requires forall i :: 0 <= i < |events| ==> SavesWell(events[i])
    requires Presented(Run(Initial(), events), e).Some?
    ensures Presented(Run(Initial(), events), e).value !in Run(Initial(), events).log.spent
  {
    NothingIsStale(events);
    RefreshTokensAreUsedOnce(events, e);
  }

  /** And a lost save does break it: the same token is shown again by the next renewal, whoever makes it. */
  lemma LostSaveKeepsToken(w: World, door: Door, answer: Exchange, again: Exchange)
    requires w.file.Some? && IsFresh(w, answer) && Spends(answer)
    requires Presented(w, Refresh(door, answer, Lost)).Some?
    requires IsFresh(Step(w, Refresh(door, answer, Lost)), again)
    ensures var w' := Step(w, Refresh(door, answer, Lost));
            && Presented(w', Refresh(door, again, Kept)) == Presented(w, Refresh(door, answer, Lost))
            && Presented(w', Refresh(door, again, Kept)).value in w'.log.spent
  {
  }

  const DOOR := Enters(0, Kept)

  function Lasting(token: nat): Grant {
    Grant("access", Some(token), Some(true), 0, 0)
  }

  /** A sign-in from the first start to the commit; its token is 1 and has run out at once. */
  const SIGNED_IN :=
    [] + [Start(DOOR, true, "p", Kept)] + [Call(0, "client")] + [Register(0, DOOR, Kept)]
    + [ExchangeCode(0, Granted(Lasting(1)))] + [Verify(0, "subject")] + [Commit(0, DOOR, false, Kept)]

  lemma RunSnoc(w: World, events: seq<Event>, e: Event)
    ensures Run(w, events + [e]) == Step(Run(w, events), e)
  {
    assert (events + [e])[..|events|] == events;
  }

  const REGISTERED :=
    [] + [Start(DOOR, true, "p", Kept)] + [Call(0, "client")] + [Register(0, DOOR, Kept)]

  /** The state after the first start; the pending slot belongs to attempt 0. */
  function Opened(account: Account, active: string): State {
    State(0, 0, active, "p", map["p" := account], Some(0), PENDING_SECONDS)
  }

  lemma StartedRun()
    ensures var w := Run(Initial(), [] + [Start(DOOR, true, "p", Kept)]);
            && w.file == Some(Opened(NO_ACCOUNT, ""))
            && w.attempts == map[0 := Attempt("p", "", Waiting)]
            && w.clock == 0 && w.supply == 1 && w.log == Initial().log
  {
    RunSnoc(Initial(), [], Start(DOOR, true, "p", Kept));
  }

  lemma RegistersClient(w: World)
    requires w.file == Some(Opened(NO_ACCOUNT, "")) && w.attempts == map[0 := Attempt("p", "", Waiting)]
    ensures Step(Step(w, Call(0, "client")), Register(0, DOOR, Kept)) ==
              w.(file := Some(Opened(NO_ACCOUNT.(clientID := "client"), "")),
                 attempts := map[0 := Attempt("p", "", Exchanging("client"))])
  {
    var called := Step(w, Call(0, "client"));
    assert called.attempts == map[0 := Attempt("p", "", Registering("client"))];
    var client := NO_ACCOUNT.(clientID := "client");
    assert map["p" := NO_ACCOUNT]["p" := client] == map["p" := client];
  }

  lemma RegisteredRun()
    ensures var w := Run(Initial(), REGISTERED);
            && w.file == Some(Opened(NO_ACCOUNT.(clientID := "client"), ""))
            && w.attempts == map[0 := Attempt("p", "", Exchanging("client"))]
            && w.clock == 0 && w.supply == 1 && w.log == Initial().log
  {
    StartedRun();
    var started := [] + [Start(DOOR, true, "p", Kept)];
    RunSnoc(Initial(), started, Call(0, "client"));
    RunSnoc(Initial(), started + [Call(0, "client")], Register(0, DOOR, Kept));
    RegistersClient(Run(Initial(), started));
  }

  lemma SignedInRun()
    ensures var w := Run(Initial(), SIGNED_IN);
            && w.file == Some(Opened(Account("client", "subject", "access", Some(1), true, 0, 0), "p"))
            && w.clock == 0 && w.supply == 2
  {
    RegisteredRun();
    RunSnoc(Initial(), REGISTERED, ExchangeCode(0, Granted(Lasting(1))));
    RunSnoc(Initial(), REGISTERED + [ExchangeCode(0, Granted(Lasting(1)))], Verify(0, "subject"));
    RunSnoc(Initial(), REGISTERED + [ExchangeCode(0, Granted(Lasting(1)))] + [Verify(0, "subject")],
            Commit(0, DOOR, false, Kept));
    var signed := Account("client", "subject", "access", Some(1), true, 0, 0);
    assert map["p" := NO_ACCOUNT.(clientID := "client")]["p" := signed] == map["p" := signed];
  }

  /** Such a run: a sign-in, a renewal whose save is lost, and the next renewal, which shows the used-up token. */
  lemma LostSaveShowsTokenAgain()
    ensures var lost := Refresh(DOOR, Granted(Lasting(2)), Lost);
            var again := Refresh(DOOR, Granted(Lasting(3)), Kept);
            && Presented(Run(Initial(), SIGNED_IN), lost) == Some(1)
            && Presented(Run(Initial(), SIGNED_IN + [lost]), again) == Some(1)
            && 1 in Run(Initial(), SIGNED_IN + [lost]).log.spent
  {
    SignedInRun();
    var w := Run(Initial(), SIGNED_IN);
    var lost := Refresh(DOOR, Granted(Lasting(2)), Lost);
    RunSnoc(Initial(), SIGNED_IN, lost);
    LostSaveKeepsToken(w, DOOR, Granted(Lasting(2)), Granted(Lasting(3)));
  }

  /**
   Every refresh token a login minted, once that login has reached its clean-up: it
   is in the store or its revocation was attempted, and both if and only if the save
   that stored it replaced the file and still failed. Before that it is in the
   login's hands, and nothing was attempted yet.
   */
  lemma LoginTokensAreCommittedOrRevoked(events: seq<Event>, t: nat)
    requires t in Run(Initial(), events).log.minted
    ensures var w := Run(Initial(), events);
            && w.log.minted[t] in w.attempts
            && var phase := w.attempts[w.log.minted[t]].phase;
            && (phase.Cleaning? || phase.Over? ==>
                  && (t in w.log.committed || t in w.log.revoked)
                  && (t in w.log.committed && t in w.log.revoked <==> t in w.log.unsure))
            && (phase.Crashed? || phase.Cleaning? || phase.Over? || (HeldBy(phase) == Some(t) && t !in w.log.revoked))
            && (phase.Crashed? && t in w.log.committed && t in w.log.revoked ==> t in w.log.unsure)
  {
    RunKeepsTokens(events);
    var w := Run(Initial(), events);
    assert Fate(w.attempts[w.log.minted[t]].phase, t, w.log);
  }

  /** What one step adds to the log. */
  lemma LogGrows(w: World, e: Event, t: nat)
    requires Tokens(w)
    ensures t in Step(w, e).log.committed && t !in w.log.committed ==>
              e.Commit? && e.attempt in w.attempts && Stores(Step(w, e).file, w.attempts[e.attempt].profile, t)
              && t in w.log.minted && w.log.minted[t] == e.attempt
    ensures t in Step(w, e).log.revoked && t !in w.log.revoked ==>
              e.Revoke? && InPhase(w, e) && w.attempts[e.attempt].phase.token == t
              && t in w.log.minted && w.log.minted[t] == e.attempt
    ensures t in w.log.minted ==> t in Step(w, e).log.minted && Step(w, e).log.minted[t] == w.log.minted[t]
  {
    if InPhase(w, e) && e.Commit? && HeldBy(w.attempts[e.attempt].phase).Some? {
      OnlyToken(w, e.attempt);
    }
  }

  /** Over every run: a token counted as committed was in the file right after the commit of the login that got it. */
  lemma {:induction false} CommittedWasStored(events: seq<Event>, t: nat) returns (n: nat)
    requires t in Run(Initial(), events).log.committed
    ensures n < |events| && events[n].Commit?
    ensures var w, w' := Run(Initial(), events[..n]), Run(Initial(), events[..n + 1]);
            && events[n].attempt in w.attempts && Stores(w'.file, w.attempts[events[n].attempt].profile, t)
            && t in Run(Initial(), events).log.minted && Run(Initial(), events).log.minted[t] == events[n].attempt
  {
    var last := |events| - 1;
    RunKeepsTokens(events[..last]);
    LogGrows(Run(Initial(), events[..last]), events[last], t);
    assert events[..|events|] == events;
    if t in Run(Initial(), events[..last]).log.committed {
      n := CommittedWasStored(events[..last], t);
      assert events[..last][..n] == events[..n] && events[..last][..n + 1] == events[..n + 1];
    } else {
      n := last;
    }
  }

  /**
   Over every run: a token counted as revoked was presented for revocation by the
   clean-up of the login that got it.
   */
  lemma {:induction false} RevokedByItsLogin(events: seq<Event>, t: nat) returns (n: nat)
    requires t in Run(Initial(), events).log.revoked
    ensures n < |events| && events[n].Revoke?
    ensures var w := Run(Initial(), events[..n]);
            && InPhase(w, events[n]) && w.attempts[events[n].attempt].phase.token == t
            && t in Run(Initial(), events).log.minted && Run(Initial(), events).log.minted[t] == events[n].attempt
  {
    var last := |events| - 1;
    RunKeepsTokens(events[..last]);
    LogGrows(Run(Initial(), events[..last]), events[last], t);
    if t in Run(Initial(), events[..last]).log.revoked {
      n := RevokedByItsLogin(events[..last], t);
      assert events[..last][..n] == events[..n];
    } else {
      n := last;
    }
  }
}

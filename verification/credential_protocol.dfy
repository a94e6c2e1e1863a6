/**
 The credential protocol as a transition system (providers/chatgpt/auth.go): any
 number of processes share one store, each login attempt walks through its lock
 sections with network steps between them, and renewals, selections and
 disconnects come in between in any order. Every network answer and every save
 outcome is chosen by the event. Events that are not enabled change nothing.
 */
module CredentialProtocol {
  import opened Wrappers
  import opened Credentials

  datatype Phase =
    | Waiting
    | Registering(issued: string)
    | Exchanging(issued: string)
    | Verifying(issued: string, grant: Grant)
    | Committing(issued: string, grant: Grant, subject: string)
    | Revoking(issued: string, token: nat)
    | Cleaning
    | Over
    | Crashed

  datatype Attempt = Attempt(profile: string, captured: string, phase: Phase)

  /**
   What has happened to refresh tokens. `minted`: by which login; `committed`: written
   to the store by it; `unsure`: so written though the save reported an error;
   `revoked`: revocation attempted by the login; `spent`: used up at the server;
   `stale`: used up while the store went on holding it.
   */
  datatype Log = Log(
    minted: map<nat, nat>, committed: set<nat>, unsure: set<nat>, revoked: set<nat>, spent: set<nat>, stale: set<nat>)

  datatype World = World(file: File, attempts: map<nat, Attempt>, clock: int, supply: nat, log: Log)

  datatype Event =
    | Tick(seconds: nat)
    | Start(door: Door, newAccount: bool, profile: string, save: Save)
    | Call(attempt: nat, query: string)
    | GiveUp(attempt: nat)
    | Register(attempt: nat, door: Door, save: Save)
    | ExchangeCode(attempt: nat, answer: Exchange)
    | Verify(attempt: nat, subject: string)
    | Commit(attempt: nat, door: Door, cancelled: bool, save: Save)
    | Revoke(attempt: nat, ok: bool)
    | Clean(attempt: nat, door: Door, save: Save)
    | Crash(attempt: nat)
    | Refresh(door: Door, answer: Exchange, save: Save)
    | Select(door: Door, profile: string, save: Save)
    | Disconnect(door: Door, revoked: bool, save: Save)

  function Initial(): World {
    World(None, map[], 0, 0, Log(map[], {}, {}, {}, {}, {}))
  }

  function Put(w: World, attempt: nat, phase: Phase): World
    requires attempt in w.attempts
  {
    w.(attempts := w.attempts[attempt := w.attempts[attempt].(phase := phase)])
  }

  function Token(refresh: Option<nat>): set<nat> {
    if refresh.Some? then {refresh.value} else {}
  }

  /** The refresh token of an answer, if any. */
  function TokenOf(answer: Exchange): Option<nat> {
    match answer
    case Granted(grant) => grant.refresh
    case Incomplete(refresh) => refresh
    case Rejected(_) => None
  }

  predicate IsFresh(w: World, answer: Exchange) {
    TokenOf(answer).Some? ==> TokenOf(answer).value == w.supply
  }

  /** A login that failed after its tokens came must revoke what it holds. */
  function AfterFailure(issued: string, refresh: Option<nat>): Phase {
    if refresh.Some? then Revoking(issued, refresh.value) else Cleaning
  }

  function StartStep(w: World, door: Door, newAccount: bool, profile: string, save: Save): World {
    var (f, loaded) := Enter(w.file, w.supply, door);
    if profile == "" || (f.Some? && profile in f.value.accounts) then w
    else
      var section := if loaded.Some? then StartIn(loaded.value, newAccount, profile, w.supply, w.clock)
        else Failure(CLOSED);
      var (f', ok) := Conclude(f, section, save);
      var begun := w.(file := f', supply := w.supply + 1);
      if ok then
        var last := section.value.last;
        begun.(attempts := w.attempts[w.supply := Attempt(last, AccountOf(section.value, last).clientID, Waiting)])
      else begun
  }

  /** The client a callback settles on, or None when the callback is turned away. */
  function Issued(captured: string, query: string): Option<string> {
    if captured != "" then if query != "" && query != captured then None else Some(captured)
    else if query == "" || query == DYNAMIC_CLIENT then None
    else Some(query)
  }

  function CallStep(w: World, attempt: nat, query: string): World
    requires attempt in w.attempts && w.attempts[attempt].phase.Waiting?
  {
    match Issued(w.attempts[attempt].captured, query)
    case None => w
    case Some(issued) => Put(w, attempt, Registering(issued))
  }

  function RegisterStep(w: World, attempt: nat, door: Door, save: Save): World
    requires attempt in w.attempts && w.attempts[attempt].phase.Registering?
  {
    var a := w.attempts[attempt];
    var (f, loaded) := Enter(w.file, w.supply, door);
    var section := if loaded.Some? then RegisterIn(loaded.value, attempt, a.profile, a.phase.issued)
      else Failure(CLOSED);
    var (f', ok) := Conclude(f, section, save);
    Put(w.(file := f'), attempt, if ok then Exchanging(a.phase.issued) else Cleaning)
  }

  function ExchangeStep(w: World, attempt: nat, answer: Exchange): World
    requires attempt in w.attempts && w.attempts[attempt].phase.Exchanging?
  {
    var issued := w.attempts[attempt].phase.issued;
    var phase := match answer
      case Granted(grant) => Verifying(issued, grant)
      case Incomplete(refresh) => AfterFailure(issued, refresh)
      case Rejected(_) => Cleaning;
    var minted := if TokenOf(answer).Some? then w.log.minted[TokenOf(answer).value := attempt] else w.log.minted;
    Put(w, attempt, phase).(supply := w.supply + 1, log := w.log.(minted := minted))
  }

  function VerifyStep(w: World, attempt: nat, subject: string): World
    requires attempt in w.attempts && w.attempts[attempt].phase.Verifying?
  {
    var p := w.attempts[attempt].phase;
    Put(w, attempt, if subject == "" then AfterFailure(p.issued, p.grant.refresh)
      else Committing(p.issued, p.grant, subject))
  }

  function CommitStep(w: World, attempt: nat, door: Door, cancelled: bool, save: Save): World
    requires attempt in w.attempts && w.attempts[attempt].phase.Committing?
  {
    var a := w.attempts[attempt];
    var p := a.phase;
    var (f, loaded) := Enter(w.file, w.supply, door);
    var section := if loaded.Some? then
      CommitIn(loaded.value, attempt, a.profile, p.issued, p.subject, p.grant, cancelled, w.clock)
                   else Failure(CLOSED);
    var (f', stored) := Conclude(f, section, save);
    var written := if section.Success? && !save.Lost? then Token(p.grant.refresh) else {};
    var log := w.log.(
      committed := w.log.committed + written, unsure := if save.Unsure? then w.log.unsure + written else w.log.unsure);
    Put(w.(file := f', log := log), attempt, if stored then Cleaning else AfterFailure(p.issued, p.grant.refresh))
  }

  function RevokeStep(w: World, attempt: nat, ok: bool): World
    requires attempt in w.attempts && w.attempts[attempt].phase.Revoking?
  {
    var token := w.attempts[attempt].phase.token;
    var log := w.log.(revoked := w.log.revoked + {token}, spent := if ok then w.log.spent + {token} else w.log.spent,
                      stale := if ok && token in w.log.committed then w.log.stale + {token} else w.log.stale);
    Put(w.(log := log), attempt, Cleaning)
  }

  function CleanStep(w: World, attempt: nat, door: Door, save: Save): World
    requires attempt in w.attempts && w.attempts[attempt].phase.Cleaning?
  {
    var (f, loaded) := Enter(w.file, w.supply, door);
    var (f', _) := Conclude(f, if loaded.Some? then CleanIn(loaded.value, attempt) else Failure(CLOSED), save);
    Put(w.(file := f'), attempt, Over)
  }

  /** Used up at the server; stale if the store was not rewritten. */
  function Use(log: Log, token: nat, used: bool, save: Save): Log {
    if used then log.(spent := log.spent + {token}, stale := if save.Lost? then log.stale + {token} else log.stale)
      else log
  }

  function RefreshStep(w: World, door: Door, answer: Exchange, save: Save): World {
    var (f, loaded) := Enter(w.file, w.supply, door);
    var w' := w.(file := f, supply := w.supply + 1);
    if loaded.None? then w'
    else
      match NeedOf(loaded.value, w.clock)
      case Renewal(token) =>
        w'.(file := Conclude(f, RenewIn(loaded.value, answer, w.clock), save).0,
          log := Use(w.log, token, Spends(answer), save))
      case _ => w'
  }

  function SelectStep(w: World, door: Door, profile: string, save: Save): World {
    var (f, loaded) := Enter(w.file, w.supply, door);
    w.(file := Conclude(f, if loaded.Some? then SelectIn(loaded.value, profile, w.clock) else Failure(CLOSED), save).0)
  }

  function DisconnectStep(w: World, door: Door, revoked: bool, save: Save): World {
    var (f, loaded) := Enter(w.file, w.supply, door);
    var w' := w.(file := f);
    if loaded.None? || DisconnectNeeds(loaded.value, w.clock).Failure? then w'
    else
      var token := DisconnectNeeds(loaded.value, w.clock).value;
      w'.(file := Conclude(f, DisconnectIn(loaded.value, w.clock, revoked), save).0,
          log := if token.Some? then Use(w.log, token.value, revoked, save) else w.log)
  }

  predicate InPhase(w: World, e: Event) {
    match e
    case Call(attempt, _) => attempt in w.attempts && w.attempts[attempt].phase.Waiting?
    case GiveUp(attempt) => attempt in w.attempts && w.attempts[attempt].phase.Waiting?
    case Register(attempt, _, _) => attempt in w.attempts && w.attempts[attempt].phase.Registering?
    case ExchangeCode(attempt, answer) =>
      attempt in w.attempts && w.attempts[attempt].phase.Exchanging? && IsFresh(w, answer)
    case Verify(attempt, _) => attempt in w.attempts && w.attempts[attempt].phase.Verifying?
    case Commit(attempt, _, _, _) => attempt in w.attempts && w.attempts[attempt].phase.Committing?
    case Revoke(attempt, _) => attempt in w.attempts && w.attempts[attempt].phase.Revoking?
    case Clean(attempt, _, _) => attempt in w.attempts && w.attempts[attempt].phase.Cleaning?
    case Crash(attempt) => attempt in w.attempts && !w.attempts[attempt].phase.Over?
    case Refresh(_, answer, _) => IsFresh(w, answer)
    case _ => true
  }

  function Step(w: World, e: Event): World {
    if !InPhase(w, e) then w
    else
      match e
      case Tick(seconds) => w.(clock := w.clock + seconds)
      case Start(door, newAccount, profile, save) => StartStep(w, door, newAccount, profile, save)
      case Call(attempt, query) => CallStep(w, attempt, query)
      case GiveUp(attempt) => Put(w, attempt, Cleaning)
      case Register(attempt, door, save) => RegisterStep(w, attempt, door, save)
      case ExchangeCode(attempt, answer) => ExchangeStep(w, attempt, answer)
      case Verify(attempt, subject) => VerifyStep(w, attempt, subject)
      case Commit(attempt, door, cancelled, save) => CommitStep(w, attempt, door, cancelled, save)
      case Revoke(attempt, ok) => RevokeStep(w, attempt, ok)
      case Clean(attempt, door, save) => CleanStep(w, attempt, door, save)
      case Crash(attempt) => Put(w, attempt, Crashed)
      case Refresh(door, answer, save) => RefreshStep(w, door, answer, save)
      case Select(door, profile, save) => SelectStep(w, door, profile, save)
      case Disconnect(door, revoked, save) => DisconnectStep(w, door, revoked, save)
  }

  function Run(w: World, events: seq<Event>): World
    decreases |events|
  {
    if events == [] then w else Step(Run(w, events[..|events| - 1]), events[|events| - 1])
  }

  /** The refresh token an event shows to the server for renewal or revocation of a saved session. */
  function Presented(w: World, e: Event): Option<nat> {
    match e
    case Refresh(door, answer, _) =>
      var loaded := Enter(w.file, w.supply, door).1;
      if IsFresh(w, answer) && loaded.Some? && NeedOf(loaded.value, w.clock).Renewal? then
        Some(NeedOf(loaded.value, w.clock).token)
      else None
    case Disconnect(door, _, _) =>
      var loaded := Enter(w.file, w.supply, door).1;
      if loaded.Some? && DisconnectNeeds(loaded.value, w.clock).Success? then
        DisconnectNeeds(loaded.value, w.clock).value
      else None
    case _ => None
  }
}

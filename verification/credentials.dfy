/**
 The credential store of a signed-in installation (providers/chatgpt/storage.go)
 and the lock sections of the account operations (providers/chatgpt/auth.go). Each
 section loads the saved state, changes it and writes it back while the store lock
 is held; whatever happens between sections is in credential_protocol.dfy.
 */
module Credentials {
  import opened Wrappers

  /** A refresh token is a number from a fresh supply; "" stands for an absent name. */
  datatype Account = Account(
    clientID: string, subject: string, access: string, refresh: Option<nat>,
    plan: bool, expires: int, earliestRefresh: int)

  /** `owner` stands for the format version and the application that wrote the store. */
  datatype State = State(
    owner: nat, hostID: nat, active: string, last: string, accounts: map<string, Account>, pending: Option<nat>,
      pendingUntil: int)

  const NO_ACCOUNT := Account("", "", "", None, false, 0, 0)
  const DYNAMIC_CLIENT := "dynamic_agent_client"
  const PENDING_SECONDS := 600

  /**
   Writing replaces the file as one step. `Kept` replaces it, `Lost` fails before
   the replacement, and `Unsure` fails after it, when the directory cannot be synced.
   */
  datatype Save = Kept | Lost | Unsure

  /** The lock may not be had; an application enters, and creates a missing file first, which is a save of its own. */
  datatype Door = Blocked | Enters(owner: nat, creating: Save)

  /** What a token endpoint grants; `plan` is None when the scope is left out. */
  datatype Grant = Grant(access: string, refresh: Option<nat>, plan: Option<bool>, expiresIn: int, earliest: int)

  /** A token request: granted, answered without a usable credential, or refused. */
  datatype Exchange = Granted(grant: Grant) | Incomplete(refresh: Option<nat>) | Rejected(terminal: bool)

  type File = Option<State>

  function Fresh(owner: nat, host: nat): State {
    State(owner, host, "", "", map[], None, 0)
  }

  function Write(file: File, state: State, save: Save): File {
    if save.Lost? then file else Some(state)
  }

  /** The file after opening it, and the state loaded from it if that worked and it is the application's own. */
  function Enter(file: File, host: nat, door: Door): (File, Option<State>) {
    match door
    case Blocked => (file, None)
    case Enters(owner, creating) =>
      if file.Some? then (file, if file.value.owner == owner then file else None)
      else (Write(file, Fresh(owner, host), creating), if creating.Kept? then Some(Fresh(owner, host)) else None)
  }

  const CLOSED := "credential store cannot be opened"

  /** Save what the section made of the state, or nothing if it refused. */
  function Conclude(file: File, section: Result<State>, save: Save): (File, bool) {
    match section
    case Failure(_) => (file, false)
    case Success(state) => (Write(file, state, save), save.Kept?)
  }

  function AccountOf(s: State, profile: string): Account {
    if profile in s.accounts then s.accounts[profile] else NO_ACCOUNT
  }

  // ------------------------------------------------------------------ the sections

  function SelectIn(s: State, profile: string, now: int): Result<State> {
    if s.pendingUntil > now then Failure("chatgpt: finish or cancel the pending sign-in first")
    else if AccountOf(s, profile).subject == "" then Failure("chatgpt: account has not been verified")
    else Success(s.(active := profile))
  }

  /** Begin an attempt: on a fresh profile, or on the one used last. */
  function StartIn(s: State, newAccount: bool, profile: string, attempt: nat, now: int): Result<State> {
    if s.pendingUntil > now then Failure("chatgpt: a sign-in is already pending for this installation")
    else
      var used := if s.active != "" then s.active else s.last;
      var begun := if newAccount || used == "" then s.(accounts := s.accounts[profile := NO_ACCOUNT], last := profile)
        else s.(last := used);
      Success(begun.(pending := Some(attempt), pendingUntil := now + PENDING_SECONDS))
  }

  /** Keep the issued client before anything is exchanged. */
  function RegisterIn(s: State, attempt: nat, profile: string, issued: string): Result<State> {
    if s.pending != Some(attempt) then Failure("chatgpt: sign-in attempt is no longer active")
    else Success(s.(accounts := s.accounts[profile := AccountOf(s, profile).(clientID := issued)]))
  }

  function SignedIn(account: Account, subject: string, grant: Grant, now: int): Account {
    account.(subject := subject, access := grant.access, refresh := grant.refresh, plan := grant.plan == Some(true),
             expires := now + grant.expiresIn, earliestRefresh := grant.earliest)
  }

  function CommitIn(
    s: State, attempt: nat, profile: string, issued: string, subject: string, grant: Grant, cancelled: bool, now: int
  ): Result<State> {
    var account := AccountOf(s, profile);
    if s.pending != Some(attempt) || cancelled then Failure("chatgpt: sign-in attempt is no longer active")
    else if account.clientID != issued then Failure("chatgpt: registration changed during sign-in")
    else if account.subject != "" && account.subject != subject then
      Failure("chatgpt: reauthorization returned a different account")
    else Success(s.(accounts := s.accounts[profile := SignedIn(account, subject, grant, now)], active := profile))
  }

  function CleanIn(s: State, attempt: nat): Result<State> {
    if s.pending != Some(attempt) then Failure("another attempt is pending")
    else Success(s.(pending := None, pendingUntil := 0))
  }

  /** What access needs: a refusal, the access token held, or a renewal with the refresh token. */
  datatype Need = Refused(error: string) | Held(access: string) | Renewal(token: nat)

  function NeedOf(s: State, now: int): Need {
    var account := AccountOf(s, s.active);
    if account.subject == "" || !account.plan then Refused("chatgpt: sign in and authorize ChatGPT plan usage first")
    else if account.access != "" && account.expires > now + 60 then Held(account.access)
    else if account.earliestRefresh > now && account.expires > now then Held(account.access)
    else if account.refresh.None? then Refused("chatgpt: sign in again; no renewable session is available")
    else if account.earliestRefresh > now then Refused("chatgpt: token renewal is not yet permitted")
    else Renewal(account.refresh.value)
  }

  function SignedOut(account: Account): Account {
    account.(access := "", refresh := None, plan := false)
  }

  function Renewed(account: Account, grant: Grant, now: int): Account {
    account.(access := grant.access, refresh := grant.refresh, expires := now + grant.expiresIn,
      earliestRefresh := grant.earliest,
             plan := if grant.plan.Some? then grant.plan.value else account.plan)
  }

  /** Whether the answer to a renewal uses up the refresh token presented. */
  predicate Spends(answer: Exchange) {
    answer.Granted? || (answer.Rejected? && answer.terminal)
  }

  /** The state to save after a renewal; nothing is saved when the token may still be good. */
  function RenewIn(s: State, answer: Exchange, now: int): Result<State> {
    var account := AccountOf(s, s.active);
    if !Spends(answer) then Failure("chatgpt: OAuth token request failed; registration preserved")
    else if answer.Granted? && answer.grant.refresh.Some? then
      Success(s.(accounts := s.accounts[s.active := Renewed(account, answer.grant, now)]))
    else Success(s.(accounts := s.accounts[s.active := SignedOut(account)]))
  }

  /** The refresh token a disconnect must revoke first, if it may go on at all. */
  function DisconnectNeeds(s: State, now: int): Result<Option<nat>> {
    if s.pendingUntil > now then Failure("chatgpt: finish the pending sign-in first")
    else Success(AccountOf(s, s.active).refresh)
  }

  function DisconnectIn(s: State, now: int, revoked: bool): Result<State> {
    match DisconnectNeeds(s, now)
    case Failure(error) => Failure(error)
    case Success(token) =>
      if s.active !in s.accounts then Failure("nothing to disconnect")
      else if token.Some? && !revoked then Failure("chatgpt: remote revocation failed; credentials retained for retry")
      else Success(s.(accounts := s.accounts[s.active := SignedOut(s.accounts[s.active]).(expires := 0)]))
  }

  // ---------------------------------------------------------------------- the store

  class CredentialStore {
    var file: File

    constructor (file: File)
      ensures this.file == file
    {
      this.file := file;
    }

    /** Take the lock, create the store if there is none yet, and load it. */
    method Load(host: nat, door: Door) returns (saved: Option<State>)
      modifies this
      ensures (file, saved) == Enter(old(file), host, door)
    {
      if door.Blocked? {
        return None;
      }
      if file.None? {
        var ok := Store(Fresh(door.owner, host), door.creating);
        return if ok then Some(Fresh(door.owner, host)) else None;
      }
      if file.value.owner != door.owner {
        return None;
      }
      saved := file;
    }

    method Store(saved: State, save: Save) returns (ok: bool)
      modifies this
      ensures file == Write(old(file), saved, save) && ok == save.Kept?
    {
      if save.Lost? {
        return false;
      }
      file := Some(saved);
      ok := save.Kept?;
    }

    method Select(host: nat, door: Door, profile: string, now: int, save: Save) returns (ok: bool)
      modifies this
      ensures var (f, loaded) := Enter(old(file), host, door);
              (file, ok) == Conclude(f, if loaded.Some? then SelectIn(loaded.value, profile, now)
                else Failure(CLOSED), save)
    {
      var saved := Load(host, door);
      if saved.None? || saved.value.pendingUntil > now {
        return false;
      }
      if profile !in saved.value.accounts || saved.value.accounts[profile].subject == "" {
        return false;
      }
      ok := Store(saved.value.(active := profile), save);
    }

    /** The section of StartLogin, and the profile and client the attempt goes on with. */
    method StartLogin(host: nat, door: Door, newAccount: bool, newProfile: string, attempt: nat, now: int, save: Save)
      returns (ok: bool, profile: string, clientID: string)
      modifies this
      ensures var (f, loaded) := Enter(old(file), host, door);
              var section := if loaded.Some? then StartIn(loaded.value, newAccount, newProfile, attempt, now)
                else Failure(CLOSED);
              && (file, ok) == Conclude(f, section, save)
              && (section.Success? ==>
                 profile == section.value.last && clientID == AccountOf(section.value, profile).clientID)
    {
      profile, clientID := "", "";
      var loaded := Load(host, door);
      if loaded.None? || loaded.value.pendingUntil > now {
        return false, "", "";
      }
      var saved := loaded.value;
      profile := saved.active;
      if profile == "" {
        profile := saved.last;
      }
      if newAccount || profile == "" {
        profile := newProfile;
        saved := saved.(accounts := saved.accounts[profile := NO_ACCOUNT]);
      }
      clientID := AccountOf(saved, profile).clientID;
      saved := saved.(last := profile, pending := Some(attempt), pendingUntil := now + PENDING_SECONDS);
      ok := Store(saved, save);
    }

    method Register(host: nat, door: Door, attempt: nat, profile: string, issued: string, save: Save) returns (ok: bool)
      modifies this
      ensures var (f, loaded) := Enter(old(file), host, door);
              (file, ok) == Conclude(f, if loaded.Some? then RegisterIn(loaded.value, attempt, profile, issued)
                else Failure(CLOSED), save)
    {
      var saved := Load(host, door);
      if saved.None? || saved.value.pending != Some(attempt) {
        return false;
      }
      var account := AccountOf(saved.value, profile).(clientID := issued);
      ok := Store(saved.value.(accounts := saved.value.accounts[profile := account]), save);
    }

    method Commit(
      host: nat, door: Door, attempt: nat, profile: string, issued: string, subject: string, grant: Grant,
        cancelled: bool, now: int,
      save: Save
    )
      returns (stored: bool)
      modifies this
      ensures var (f, loaded) := Enter(old(file), host, door);
              var section := if loaded.Some? then
                CommitIn(loaded.value, attempt, profile, issued, subject, grant, cancelled, now)
                             else Failure(CLOSED);
              (file, stored) == Conclude(f, section, save)
    {
      var saved := Load(host, door);
      if saved.None? || saved.value.pending != Some(attempt) || cancelled {
        return false;
      }
      var account := AccountOf(saved.value, profile);
      if account.clientID != issued || (account.subject != "" && account.subject != subject) {
        return false;
      }
      account := account.(subject := subject, access := grant.access, refresh := grant.refresh,
        plan := grant.plan == Some(true));
      account := account.(expires := now + grant.expiresIn, earliestRefresh := grant.earliest);
      stored := Store(saved.value.(accounts := saved.value.accounts[profile := account], active := profile), save);
    }

    method Clean(host: nat, door: Door, attempt: nat, save: Save)
      modifies this
      ensures var (f, loaded) := Enter(old(file), host, door);
              file == Conclude(f, if loaded.Some? then CleanIn(loaded.value, attempt) else Failure(CLOSED), save).0
    {
      var saved := Load(host, door);
      if saved.Some? && saved.value.pending == Some(attempt) {
        var _ := Store(saved.value.(pending := None, pendingUntil := 0), save);
      }
    }

    /** Hand out an access token, renewing it if it has run out; `answer` is what a renewal would be told. */
    method AccessToken(host: nat, door: Door, answer: Exchange, now: int, save: Save)
        returns (access: Option<string>, presented: Option<nat>)
      modifies this
      ensures var (f, loaded) := Enter(old(file), host, door);
              var need := if loaded.Some? then NeedOf(loaded.value, now) else Refused(CLOSED);
              match need
              case Refused(_) => file == f && access == None && presented == None
              case Held(token) => file == f && access == Some(token) && presented == None
              case Renewal(token) =>
                var (f', ok) := Conclude(f, RenewIn(loaded.value, answer, now), save);
                && file == f' && presented == Some(token)
                && (access.Some? <==>
                   ok && answer.Granted? && answer.grant.refresh.Some? && AccountOf(f'.value, f'.value.active).plan)
                && (access.Some? ==> access.value == answer.grant.access)
    {
      access, presented := None, None;
      var loaded := Load(host, door);
      if loaded.None? {
        return;
      }
      var saved := loaded.value;
      var account := AccountOf(saved, saved.active);
      if account.subject == "" || !account.plan {
        return;
      }
      if (account.access != "" && account.expires > now + 60)
        || (account.earliestRefresh > now && account.expires > now) {
        return Some(account.access), None;
      }
      if account.refresh.None? || account.earliestRefresh > now {
        return;
      }
      presented := account.refresh;
      match answer {
        case Rejected(terminal) =>
          if terminal {
            var _ := Store(saved.(accounts := saved.accounts[saved.active := SignedOut(account)]), save);
          }
        case Incomplete(_) =>
        case Granted(grant) =>
          if grant.refresh.None? {
            var _ := Store(saved.(accounts := saved.accounts[saved.active := SignedOut(account)]), save);
          } else {
            account := account.(access := grant.access, refresh := grant.refresh, expires := now + grant.expiresIn);
            account := account.(earliestRefresh := grant.earliest);
            if grant.plan.Some? {
              account := account.(plan := grant.plan.value);
            }
            var ok := Store(saved.(accounts := saved.accounts[saved.active := account]), save);
            if ok && account.plan {
              access := Some(account.access);
            }
          }
      }
    }

    /** Sign out; `revoked` is what a revocation would be told. */
    method Disconnect(host: nat, door: Door, revoked: bool, now: int, save: Save)
        returns (ok: bool, presented: Option<nat>)
      modifies this
      ensures var (f, loaded) := Enter(old(file), host, door);
              var (f', stored) := Conclude(f, if loaded.Some? then DisconnectIn(loaded.value, now, revoked)
                else Failure(CLOSED), save);
              && file == f'
              && (ok <==>
                   || stored
                   || (&& loaded.Some? && loaded.value.pendingUntil <= now
                       && loaded.value.active !in loaded.value.accounts))
              && presented ==
                   if loaded.Some? && DisconnectNeeds(loaded.value, now).Success? then
                     DisconnectNeeds(loaded.value, now).value
                   else None
    {
      presented := None;
      var saved := Load(host, door);
      if saved.None? || saved.value.pendingUntil > now {
        return false, None;
      }
      var active := saved.value.active;
      if active !in saved.value.accounts {
        return true, None;
      }
      var account := saved.value.accounts[active];
      if account.refresh.Some? {
        presented := account.refresh;
        if !revoked {
          return false, presented;
        }
      }
      account := account.(access := "", refresh := None, plan := false, expires := 0);
      ok := Store(saved.value.(accounts := saved.value.accounts[active := account]), save);
    }
  }
}

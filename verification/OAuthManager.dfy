/** Token refresh of `datus/auth/oauth_manager.py`, as interleaved steps of any number of
    threads over one lock and one token file, and as the sequential object whose
    uninterrupted calls those steps refine. */
module OAuthManager {
  import opened Wrappers
  import opened TokenStorage

  /** What the token endpoint does with a refresh request. `Lost` is a request the server
      honoured (perhaps rotating the refresh token) whose answer never became a usable body:
      a timeout, a broken connection, a body that is not JSON. */
  datatype Reply = Refused | Lost(rotated: Option<string>) | Granted(body: Tokens)

  datatype Result =
    | AccessToken(token: string)
    | Refreshed(tokens: Tokens)
    | LoggedOut
    | NotAuthenticated
    | NoRefreshToken
    | AuthFailed
    | SaveFailed
    | MissingAccessToken

  datatype Call = Get | Refresh | Logout

  /** Keep the old refresh token when the server did not rotate it. */
  function Merged(body: Tokens, seen: Tokens): Tokens {
    if body.refresh.None? then body.(refresh := seen.refresh) else body
  }

  function AccessOf(t: Tokens): Result {
    if t.access.Some? then AccessToken(t.access.value) else MissingAccessToken
  }

  function ResultFor(call: Call, t: Tokens): Result {
    if call.Get? then AccessOf(t) else Refreshed(t)
  }

  predicate HasAccess(tokens: Option<Tokens>) {
    tokens.Some? && tokens.value.access.Some?
  }

  predicate HasRefresh(tokens: Option<Tokens>) {
    tokens.Some? && tokens.value.refresh.Some?
  }

  /** The file and the result after one undisturbed `_refresh_tokens_unlocked`. */
  function RefreshEffect(file: Option<Tokens>, readable: bool, reply: Reply, now: real, diskOk: bool)
    : (Option<Tokens>, Result)
  {
    if !HasRefresh(Read(file, readable)) then (file, NoRefreshToken)
    else if !reply.Granted? then (file, AuthFailed)
    else
      var merged := Merged(reply.body, file.value);
      if diskOk then (Some(Saved(merged, now)), Refreshed(merged)) else (file, SaveFailed)
  }

  /** The same for `get_access_token`, whose second load makes no difference alone. */
  function GetEffect(file: Option<Tokens>, first: bool, reload: bool, reply: Reply, now: real, diskOk: bool)
    : (Option<Tokens>, Result)
  {
    if !HasAccess(Read(file, first)) then (file, NotAuthenticated)
    else if !IsExpired(file, now) then (file, AccessOf(file.value))
    else
      var (written, refresh) := RefreshEffect(file, reload, reply, now, diskOk);
      (written, if refresh.Refreshed? then AccessOf(refresh.tokens) else refresh)
  }

  /** The object as one caller sees it. The lock is always free between calls. */
  class Manager {
    const storage: Store

    constructor (storage: Store)
      ensures this.storage == storage
    {
      this.storage := storage;
    }

    /** A granted reply that could be saved is what the caller gets and what the file holds, with
        the old refresh token only where the reply has none; otherwise the file stays. */
    method RefreshTokensUnlocked(readable: bool, reply: Reply, now: real, diskOk: bool) returns (r: Result)
      modifies storage
      ensures (storage.file, r) == RefreshEffect(old(storage.file), readable, reply, now, diskOk)
      ensures r.NoRefreshToken? <==> !readable || old(storage.file.None? || storage.file.value.refresh.None?)
      ensures r.NoRefreshToken? || (r.AuthFailed? <==> !reply.Granted?)
      ensures r.NoRefreshToken? || r.AuthFailed? || (r.SaveFailed? <==> !diskOk)
      ensures if r.NoRefreshToken? || r.AuthFailed? || r.SaveFailed? then storage.file == old(storage.file)
              else
                && r.Refreshed? && storage.file.Some? && storage.file.value.access == reply.body.access
                && storage.file.value.refresh == r.tokens.refresh
                && r.tokens.access == reply.body.access
                && r.tokens.refresh == (if reply.body.refresh.Some? then reply.body.refresh else old(storage.file).value.refresh)
                && r.tokens.expiresIn == reply.body.expiresIn && r.tokens.expiresAt == reply.body.expiresAt
                && r.tokens.lastRefresh == reply.body.lastRefresh
    {
      var tokens := storage.Load(readable);
      if tokens.None? || tokens.value.refresh.None? {
        return NoRefreshToken;
      }
      if !reply.Granted? {
        return AuthFailed;
      }
      var newTokens := reply.body;
      if newTokens.refresh.None? {
        newTokens := newTokens.(refresh := tokens.value.refresh);
      }
      var saved := storage.Save(newTokens, now, diskOk);
      r := if saved then Refreshed(newTokens) else SaveFailed;
    }

    /** A caller without a usable access token never gets one back, and the file changes
        only when the stored record has expired. `first`, `again` and `reload` say which of
        the three loads can read the file; alone, a caller refreshes whether or not the
        second one can. */
    method GetAccessToken(first: bool, again: bool, reload: bool, reply: Reply, now: real, diskOk: bool)
      returns (r: Result)
      modifies storage
      ensures (storage.file, r) == GetEffect(old(storage.file), first, reload, reply, now, diskOk)
      ensures !first || old(storage.file.None? || storage.file.value.access.None?) ==>
                r == NotAuthenticated && storage.file == old(storage.file)
      ensures first && old(storage.file.Some? && storage.file.value.access.Some?) && !IsExpired(old(storage.file), now) ==>
                r == AccessToken(old(storage.file).value.access.value) && storage.file == old(storage.file)
      ensures first && old(storage.file.Some? && storage.file.value.access.Some?) && IsExpired(old(storage.file), now) ==>
                if !reload || old(storage.file).value.refresh.None? then r == NoRefreshToken && storage.file == old(storage.file)
                else if !reply.Granted? then r == AuthFailed && storage.file == old(storage.file)
                else if !diskOk then r == SaveFailed && storage.file == old(storage.file)
                else
                  && r == (match reply.body.access case Some(token) => AccessToken(token) case None => MissingAccessToken)
                  && storage.file.Some? && storage.file.value.access == reply.body.access
                  && storage.file.value.refresh ==
                     (if reply.body.refresh.Some? then reply.body.refresh else old(storage.file).value.refresh)
    {
      var tokens := storage.Load(first);
      if tokens.None? || tokens.value.access.None? {
        return NotAuthenticated;
      }
      if IsExpired(tokens, now) {
        tokens := storage.Load(again);
        if tokens.None? || IsExpired(tokens, now) {
          r := RefreshTokensUnlocked(reload, reply, now, diskOk);
          if !r.Refreshed? {
            return;
          }
          return AccessOf(r.tokens);
        }
      }
      r := AccessOf(tokens.value);
    }

    method Logout(diskOk: bool)
      modifies storage
      ensures storage.file == if diskOk then None else old(storage.file)
    {
      storage.Clear(diskOk);
    }
  }

  // ---------------------------------------------------------------- interleaved steps

  type ThreadId = nat

  /** Where a thread is. `Rechecking`, `Reloading`, `Posting`, `Saving` and `Clearing` hold
      the lock. `blind` says that the check under the lock could not read the file, `seen` is
      the record the refresh loaded and `gen` its generation. */
  datatype Pc =
    | Idle
    | Loading
    | Waiting(call: Call)
    | Rechecking
    | Reloading(call: Call, blind: bool)
    | Posting(call: Call, blind: bool, seen: Tokens, gen: nat)
    | Saving(call: Call, seen: Tokens, gen: nat, merged: Tokens)
    | Clearing
    | Returned(result: Result)

  /** `gen` counts the writes of the token file. `issued` holds every refresh token known to
      the server and `server` the last one it issued; `lastIssueSaved` says that it reached
      the file. `accepted` and `refreshed` record the generation presented by each request
      the server honoured and by each refresh that returned; `clean` says that no answer was
      lost and no save failed; `granted` is the last body that arrived. All but the first four
      fields only record history. */
  datatype State = State(
    file: Option<Tokens>,
    lock: Option<ThreadId>,
    pcs: map<ThreadId, Pc>,
    clock: real,
    gen: nat,
    server: Option<string>,
    issued: set<string>,
    lastIssueSaved: bool,
    accepted: seq<nat>,
    refreshed: seq<nat>,
    clean: bool,
    granted: Option<Tokens>)
  {
    function Pc(t: ThreadId): Pc {
      if t in pcs then pcs[t] else Idle
    }

    function At(t: ThreadId, pc: Pc): State {
      this.(pcs := pcs[t := pc])
    }

    /** Leaving the `with` block, normally or by an exception. */
    function Leave(t: ThreadId, r: Result): State {
      At(t, Returned(r)).(lock := None)
    }
  }

  datatype Action =
    | Start(t: ThreadId, call: Call)
    | LoadUnlocked(t: ThreadId, readable: bool)
    | Acquire(t: ThreadId)
    | Recheck(t: ThreadId, readable: bool)
    | Reload(t: ThreadId, readable: bool)
    | Post(t: ThreadId, reply: Reply)
    | Save(t: ThreadId, diskOk: bool)
    | Clear(t: ThreadId, diskOk: bool)
    | Tick(elapsed: real)

  predicate InCritical(pc: Pc) {
    pc.Rechecking? || pc.Reloading? || pc.Posting? || pc.Saving? || pc.Clearing?
  }

  /** The refresh token a reply makes the server issue, if any. */
  function Rotation(reply: Reply): Option<string> {
    match reply
    case Refused => None
    case Lost(rotated) => rotated
    case Granted(body) => body.refresh
  }

  /** A server never issues the same refresh token twice. */
  predicate Enabled(s: State, a: Action) {
    match a
    case Start(t, _) => s.Pc(t).Idle? || s.Pc(t).Returned?
    case LoadUnlocked(t, _) => s.Pc(t).Loading?
    case Acquire(t) => s.Pc(t).Waiting? && s.lock.None?
    case Recheck(t, _) => s.Pc(t).Rechecking?
    case Reload(t, _) => s.Pc(t).Reloading?
    case Post(t, reply) => s.Pc(t).Posting? && (Rotation(reply).Some? ==> Rotation(reply).value !in s.issued)
    case Save(t, _) => s.Pc(t).Saving?
    case Clear(t, _) => s.Pc(t).Clearing?
    case Tick(elapsed) => elapsed >= 0.0
  }

  function LoadStep(s: State, t: ThreadId, readable: bool): State {
    if !HasAccess(Read(s.file, readable)) then s.At(t, Returned(NotAuthenticated))
    else if IsExpired(s.file, s.clock) then s.At(t, Waiting(Get))
    else s.At(t, Returned(AccessOf(s.file.value)))
  }

  function AcquireStep(s: State, t: ThreadId, call: Call): State {
    var pc := match call case Get => Rechecking case Refresh => Reloading(Refresh, false) case Logout => Clearing;
    s.At(t, pc).(lock := Some(t))
  }

  function RecheckStep(s: State, t: ThreadId, readable: bool): State {
    if IsExpired(Read(s.file, readable), s.clock) then s.At(t, Reloading(Get, !readable))
    else s.Leave(t, AccessOf(s.file.value))
  }

  function ReloadStep(s: State, t: ThreadId, call: Call, blind: bool, readable: bool): State {
    if !HasRefresh(Read(s.file, readable)) then s.Leave(t, NoRefreshToken)
    else s.At(t, Posting(call, blind, s.file.value, s.gen))
  }

  /** The server's side of an honoured request. */
  function Issued(s: State, reply: Reply): State {
    var honoured := s.(accepted := s.accepted + [s.gen], clean := s.clean && reply.Granted?);
    match Rotation(reply)
    case None => honoured
    case Some(token) =>
      honoured.(server := Some(token), issued := s.issued + {token}, lastIssueSaved := false)
  }

  function PostStep(s: State, t: ThreadId, pc: Pc, reply: Reply): State
    requires pc.Posting?
  {
    match reply
    case Refused => s.Leave(t, AuthFailed)
    case Lost(_) => Issued(s, reply).Leave(t, AuthFailed)
    case Granted(body) => Issued(s, reply).(granted := Some(body)).At(t, Saving(pc.call, pc.seen, pc.gen, Merged(body, pc.seen)))
  }

  function SaveStep(s: State, t: ThreadId, pc: Pc, diskOk: bool): State
    requires pc.Saving?
  {
    if diskOk then
      s.(file := Some(Saved(pc.merged, s.clock)), gen := s.gen + 1, refreshed := s.refreshed + [pc.gen],
         lastIssueSaved := s.lastIssueSaved || pc.merged.refresh != pc.seen.refresh)
      .Leave(t, ResultFor(pc.call, pc.merged))
    else
      s.(clean := false).Leave(t, SaveFailed)
  }

  function ClearStep(s: State, t: ThreadId, diskOk: bool): State {
    (if diskOk then s.(file := None, gen := s.gen + 1) else s).Leave(t, LoggedOut)
  }

  function Do(s: State, a: Action): State
    requires Enabled(s, a)
  {
    match a
    case Start(t, call) => s.At(t, if call.Get? then Loading else Waiting(call))
    case LoadUnlocked(t, readable) => LoadStep(s, t, readable)
    case Acquire(t) => AcquireStep(s, t, s.Pc(t).call)
    case Recheck(t, readable) => RecheckStep(s, t, readable)
    case Reload(t, readable) => ReloadStep(s, t, s.Pc(t).call, s.Pc(t).blind, readable)
    case Post(t, reply) => PostStep(s, t, s.Pc(t), reply)
    case Save(t, diskOk) => SaveStep(s, t, s.Pc(t), diskOk)
    case Clear(t, diskOk) => ClearStep(s, t, diskOk)
    case Tick(elapsed) => s.(clock := s.clock + elapsed)
  }

  /** `run` is a schedule the system can follow from `s`. */
  ghost predicate Feasible(s: State, run: seq<Action>)
    decreases |run|
  {
    run == [] || (Enabled(s, run[0]) && Feasible(Do(s, run[0]), run[1..]))
  }

  ghost function After(s: State, run: seq<Action>): State
    requires Feasible(s, run)
    decreases |run|
  {
    if run == [] then s else After(Do(s, run[0]), run[1..])
  }

  /** Nobody is calling, and the file agrees with the server about the refresh token. */
  ghost predicate Initial(s: State) {
    && (forall t <- s.pcs :: s.pcs[t].Idle?)
    && s.lock.None? && s.accepted == [] && s.refreshed == [] && s.clean && s.lastIssueSaved
    && (s.server.Some? ==> s.server.value in s.issued)
    && (s.file.Some? && s.file.value.refresh.Some? ==> s.file.value.refresh == s.server)
  }

  predicate Increasing(xs: seq<nat>) {
    forall i, j | 0 <= i < j < |xs| :: xs[i] < xs[j]
  }

  /** The critical section belongs to the thread that holds the lock. */
  ghost predicate LockOwner(s: State) {
    forall t: ThreadId :: InCritical(s.Pc(t)) <==> s.lock == Some(t)
  }

  /** What the thread inside the critical section is doing. */
  function Holder(s: State): Pc {
    if s.lock.Some? then s.Pc(s.lock.value) else Idle
  }

  /** A refresh in flight works on the record that is in the file now. */
  ghost predicate FreshSnapshot(s: State) {
    var pc := Holder(s);
    pc.Posting? || pc.Saving? ==> s.file == Some(pc.seen) && pc.seen.refresh.Some? && pc.gen == s.gen
  }

  /** A `get_access_token` that went past its check under the lock did so on an expired
      record, or could not read the record at its check. */
  ghost predicate ExpiredForGet(s: State) {
    var pc := Holder(s);
    (pc.Reloading? || pc.Posting?) && pc.call.Get? && !pc.blind ==> IsExpired(s.file, s.clock)
  }

  /** What the file knows of the refresh token the server last issued. */
  ghost predicate TokenCurrency(s: State) {
    var pc := Holder(s);
    && (s.server.Some? ==> s.server.value in s.issued)
    && (s.file.Some? && s.file.value.refresh.Some? ==>
          && s.file.value.refresh.value in s.issued
          && (s.lastIssueSaved <==> s.file.value.refresh == s.server))
    && (pc.Saving? ==>
          && pc.merged.refresh.Some?
          && (pc.merged.refresh != pc.seen.refresh ==> pc.merged.refresh == s.server && !s.lastIssueSaved))
    && (s.clean && !s.lastIssueSaved ==> pc.Saving? && pc.merged.refresh != pc.seen.refresh)
  }

  /** The honoured request whose answer is still to be saved. */
  function Pending(s: State): seq<nat> {
    if Holder(s).Saving? then [s.gen] else []
  }

  /** Refreshes that returned presented ever newer generations; every honoured request became
      one of them, in order, exactly as long as nothing was lost. */
  ghost predicate History(s: State) {
    && Increasing(s.refreshed) && (forall g <- s.refreshed :: g < s.gen)
    && |s.accepted| >= |s.refreshed| + |Pending(s)|
    && (s.clean ==> s.accepted == s.refreshed + Pending(s))
    && (!s.clean ==> |s.accepted| > |s.refreshed| + |Pending(s)|)
  }

  /** What is about to be saved is the body that arrived, with the old refresh token only where
      the body has none. */
  ghost predicate SavesTheReply(s: State) {
    var pc := Holder(s);
    pc.Saving? ==>
      s.granted.Some? &&
      var body := s.granted.value;
      pc.merged == Tokens(body.access, if body.refresh.Some? then body.refresh else pc.seen.refresh,
                          body.expiresIn, body.expiresAt, body.lastRefresh)
  }

  ghost predicate Inv(s: State) {
    LockOwner(s) && FreshSnapshot(s) && ExpiredForGet(s) && TokenCurrency(s) && History(s) && SavesTheReply(s)
  }

  // ---------------------------------------------------------------- what every step keeps

  lemma InitialInv(s: State)
    requires Initial(s)
    ensures Inv(s)
  {
  }

  predicate Critical(a: Action) {
    a.Recheck? || a.Reload? || a.Post? || a.Save? || a.Clear?
  }

  lemma OthersStay(s: State, a: Action, t: ThreadId)
    requires Enabled(s, a) && (a.Tick? || a.t != t)
    ensures Do(s, a).Pc(t) == s.Pc(t)
  {
  }

  lemma InsideKeepsLock(s: State, a: Action)
    requires Enabled(s, a) && Critical(a) && s.lock == Some(a.t)
    ensures Do(s, a).lock == if InCritical(Do(s, a).Pc(a.t)) then Some(a.t) else None
  {
  }

  lemma OutsideKeepsLock(s: State, a: Action)
    requires Enabled(s, a) && !Critical(a) && !a.Tick?
    ensures InCritical(Do(s, a).Pc(a.t)) <==> a.Acquire?
    ensures Do(s, a).lock == if a.Acquire? then Some(a.t) else s.lock
  {
  }

  lemma StepKeepsLock(s: State, a: Action)
    requires LockOwner(s) && Enabled(s, a)
    ensures LockOwner(Do(s, a))
  {
    forall t: ThreadId ensures InCritical(Do(s, a).Pc(t)) <==> Do(s, a).lock == Some(t) {
      assert InCritical(s.Pc(t)) <==> s.lock == Some(t);
      if !a.Tick? {
        assert InCritical(s.Pc(a.t)) <==> s.lock == Some(a.t);
        if Critical(a) {
          InsideKeepsLock(s, a);
        } else {
          OutsideKeepsLock(s, a);
        }
      }
      if a.Tick? || a.t != t {
        OthersStay(s, a, t);
      }
    }
  }

  /** A step inside the critical section is the holder's; any other step leaves the holder alone. */
  lemma HolderSteps(s: State, a: Action)
    requires LockOwner(s) && Enabled(s, a)
    ensures Critical(a) ==> s.lock == Some(a.t) && Holder(s) == s.Pc(a.t)
    ensures a.Acquire? ==> s.lock.None? && !Holder(Do(s, a)).Posting? && !Holder(Do(s, a)).Saving?
    ensures !Critical(a) && !a.Acquire? ==> Holder(Do(s, a)) == Holder(s)
  {
    if !a.Tick? {
      assert InCritical(s.Pc(a.t)) <==> s.lock == Some(a.t);
    }
  }

  lemma StepKeepsSnapshot(s: State, a: Action)
    requires LockOwner(s) && FreshSnapshot(s) && Enabled(s, a)
    ensures FreshSnapshot(Do(s, a))
  {
    HolderSteps(s, a);
  }

  lemma StepKeepsExpired(s: State, a: Action)
    requires LockOwner(s) && ExpiredForGet(s) && Enabled(s, a)
    ensures ExpiredForGet(Do(s, a))
  {
    HolderSteps(s, a);
    if a.Tick? && IsExpired(s.file, s.clock) {
      ExpiryIsMonotone(s.file, s.clock, s.clock + a.elapsed);
    }
  }

  lemma PostKeepsCurrency(s: State, t: ThreadId, reply: Reply)
    requires Enabled(s, Post(t, reply)) && s.lock == Some(t) && FreshSnapshot(s) && TokenCurrency(s)
    ensures TokenCurrency(PostStep(s, t, s.Pc(t), reply))
  {
  }

  lemma SaveKeepsCurrency(s: State, t: ThreadId, diskOk: bool)
    requires s.Pc(t).Saving? && s.lock == Some(t) && FreshSnapshot(s) && TokenCurrency(s)
    ensures TokenCurrency(SaveStep(s, t, s.Pc(t), diskOk))
  {
    var pc := s.Pc(t);
    assert pc.merged.refresh.value in s.issued;
  }

  /** What a step changes that neither posts nor saves. */
  ghost predicate Quiet(s: State, n: State) {
    && (n.file == s.file || n.file.None?) && n.gen >= s.gen && n.server == s.server && n.issued == s.issued
    && n.lastIssueSaved == s.lastIssueSaved && n.clean == s.clean
    && n.accepted == s.accepted && n.refreshed == s.refreshed && n.granted == s.granted
    && (Holder(n).Saving? || Holder(s).Saving? ==> Holder(n) == Holder(s) && n.gen == s.gen)
  }

  lemma QuietStep(s: State, a: Action)
    requires LockOwner(s) && Enabled(s, a) && !a.Post? && !a.Save?
    ensures Quiet(s, Do(s, a))
  {
    HolderSteps(s, a);
    if Critical(a) {
      InsideKeepsLock(s, a);
      assert !Holder(s).Saving? && !Holder(Do(s, a)).Saving?;
    }
  }

  lemma QuietKeepsCurrency(s: State, n: State)
    requires TokenCurrency(s) && Quiet(s, n)
    ensures TokenCurrency(n)
  {
  }

  lemma StepKeepsCurrency(s: State, a: Action)
    requires LockOwner(s) && FreshSnapshot(s) && TokenCurrency(s) && Enabled(s, a)
    ensures TokenCurrency(Do(s, a))
  {
    HolderSteps(s, a);
    match a
    case Post(t, reply) => PostKeepsCurrency(s, t, reply);
    case Save(t, diskOk) => SaveKeepsCurrency(s, t, diskOk);
    case _ =>
      QuietStep(s, a);
      QuietKeepsCurrency(s, Do(s, a));
  }

  lemma Appended(xs: seq<nat>, x: nat)
    requires Increasing(xs) && forall y <- xs :: y < x
    ensures Increasing(xs + [x])
  {
    forall i, j | 0 <= i < j < |xs| + 1 ensures (xs + [x])[i] < (xs + [x])[j] {
      if j == |xs| {
        assert xs[i] in xs;
      }
    }
  }

  lemma SaveKeepsHistory(s: State, t: ThreadId, diskOk: bool)
    requires s.Pc(t).Saving? && s.lock == Some(t) && FreshSnapshot(s) && History(s)
    ensures History(SaveStep(s, t, s.Pc(t), diskOk))
  {
    Appended(s.refreshed, s.gen);
  }

  lemma PostKeepsHistory(s: State, t: ThreadId, reply: Reply)
    requires s.Pc(t).Posting? && s.lock == Some(t) && History(s)
    ensures History(PostStep(s, t, s.Pc(t), reply))
  {
  }

  lemma QuietKeepsHistory(s: State, n: State)
    requires History(s) && Quiet(s, n)
    ensures History(n)
  {
    assert Pending(n) == Pending(s);
  }

  lemma StepKeepsHistory(s: State, a: Action)
    requires LockOwner(s) && FreshSnapshot(s) && History(s) && Enabled(s, a)
    ensures History(Do(s, a))
  {
    HolderSteps(s, a);
    match a
    case Post(t, reply) => PostKeepsHistory(s, t, reply);
    case Save(t, diskOk) => SaveKeepsHistory(s, t, diskOk);
    case _ =>
      QuietStep(s, a);
      QuietKeepsHistory(s, Do(s, a));
  }

  lemma StepKeepsReply(s: State, a: Action)
    requires LockOwner(s) && FreshSnapshot(s) && SavesTheReply(s) && Enabled(s, a)
    ensures SavesTheReply(Do(s, a))
  {
    HolderSteps(s, a);
    if !a.Post? && !a.Save? {
      QuietStep(s, a);
    }
  }

  lemma StepKeepsInv(s: State, a: Action)
    requires Inv(s) && Enabled(s, a)
    ensures Inv(Do(s, a))
  {
    StepKeepsLock(s, a);
    StepKeepsSnapshot(s, a);
    StepKeepsExpired(s, a);
    StepKeepsCurrency(s, a);
    StepKeepsHistory(s, a);
    StepKeepsReply(s, a);
  }

  lemma {:induction false} RunKeepsInv(s: State, run: seq<Action>)
    requires Inv(s) && Feasible(s, run)
    ensures Inv(After(s, run))
    decreases |run|
  {
    if run != [] {
      StepKeepsInv(s, run[0]);
      RunKeepsInv(Do(s, run[0]), run[1..]);
    }
  }

  // ---------------------------------------------------------------- over every run

  /** No two refreshes that returned presented the same stored generation. */
  lemma RefreshesPresentDistinctGenerations(s0: State, run: seq<Action>)
    requires Initial(s0) && Feasible(s0, run)
    ensures Increasing(After(s0, run).refreshed)
  {
    InitialInv(s0);
    RunKeepsInv(s0, run);
  }

  /** Between refreshes, the requests the server honoured are exactly the refreshes that
      returned if and only if no answer was lost and no save failed. */
  lemma HonouredRequestsAreTheRefreshes(s0: State, run: seq<Action>)
    requires Initial(s0) && Feasible(s0, run)
    requires !Holder(After(s0, run)).Saving?
    ensures After(s0, run).accepted == After(s0, run).refreshed <==> After(s0, run).clean
  {
    InitialInv(s0);
    RunKeepsInv(s0, run);
  }

  /** The refresh token in the file is the last one the server issued if and only if that
      one reached the file, which is so after every run that lost nothing. */
  lemma StoredTokenIsTheLastIssued(s0: State, run: seq<Action>)
    requires Initial(s0) && Feasible(s0, run)
    ensures var s := After(s0, run);
            s.file.Some? && s.file.value.refresh.Some? ==>
              && (s.file.value.refresh == s.server <==> s.lastIssueSaved)
              && (s.clean && !Holder(s).Saving? ==> s.lastIssueSaved)
  {
    InitialInv(s0);
    RunKeepsInv(s0, run);
  }

  /** What a thread about to post is going to present: the record in the file at that very
      moment, under the last issued refresh token unless an issue was lost before, and for a
      `get_access_token` that could read the file at its check under the lock, a record that
      is still expired at that moment. */
  lemma PostsPresentTheStoredRecord(s0: State, run: seq<Action>, t: ThreadId)
    requires Initial(s0) && Feasible(s0, run)
    requires After(s0, run).Pc(t).Posting?
    ensures var s := After(s0, run);
            && s.lock == Some(t)
            && s.file == Some(s.Pc(t).seen)
            && (s.clean ==> s.Pc(t).seen.refresh == s.server)
            && (s.Pc(t).call.Get? && !s.Pc(t).blind ==> IsExpired(s.file, s.clock))
  {
    InitialInv(s0);
    RunKeepsInv(s0, run);
    assert InCritical(After(s0, run).Pc(t)) <==> After(s0, run).lock == Some(t);
  }

  /** A thread that gets an access token gets the one that is in the file at that moment: the
      one of the body that just arrived and was saved by this very call, or one of a record that
      has not expired. */
  lemma ReturnedTokenIsInTheFile(s0: State, run: seq<Action>, a: Action, t: ThreadId, x: string)
    requires Initial(s0) && Feasible(s0, run) && Enabled(After(s0, run), a)
    requires var s := After(s0, run); s.Pc(t) != Do(s, a).Pc(t) == Returned(AccessToken(x))
    ensures var s := After(s0, run);
            var n := Do(s, a);
            && n.file.Some? && n.file.value.access == Some(x)
            && if a.Save? then s.granted.Some? && s.granted.value.access == Some(x)
               else n.file == s.file && !IsExpired(s.file, s.clock)
  {
    InitialInv(s0);
    RunKeepsInv(s0, run);
    var s := After(s0, run);
    ActorReturns(s, a, t);
    WhoReturns(s, a, Returned(AccessToken(x)));
    if a.Save? {
      SaveReturns(s, t, a.diskOk);
    } else {
      LoadReturns(s, t, a.readable, x);
    }
  }

  lemma LoadReturns(s: State, t: ThreadId, readable: bool, x: string)
    ensures LoadStep(s, t, readable).file == RecheckStep(s, t, readable).file == s.file
    ensures LoadStep(s, t, readable).Pc(t) == Returned(AccessToken(x)) || RecheckStep(s, t, readable).Pc(t) == Returned(AccessToken(x)) ==>
              s.file.Some? && s.file.value.access == Some(x) && !IsExpired(s.file, s.clock)
  {
  }

  /** Which steps end a call with a token or a record. */
  lemma WhoReturns(s: State, a: Action, pc: Pc)
    requires Enabled(s, a) && !a.Tick? && Do(s, a).Pc(a.t) == pc && pc.Returned?
    ensures pc.result.AccessToken? ==> a.Save? || a.LoadUnlocked? || a.Recheck?
    ensures pc.result.Refreshed? ==> a.Save?
  {
  }

  lemma SaveReturns(s: State, t: ThreadId, diskOk: bool)
    requires Inv(s) && Enabled(s, Save(t, diskOk)) && Holder(s) == s.Pc(t)
    ensures var n := SaveStep(s, t, s.Pc(t), diskOk);
            && s.granted.Some? && s.file == Some(s.Pc(t).seen)
            && (diskOk ==> n.file == Some(Saved(s.Pc(t).merged, s.clock))
                           && n.Pc(t) == Returned(ResultFor(s.Pc(t).call, s.Pc(t).merged)))
            && (!diskOk ==> n.Pc(t) == Returned(SaveFailed))
  {
  }

  /** What a request does on the server's side: nothing if it is refused; else it counts as
      presented with the generation of the file, whether its answer arrives or not, and a new
      refresh token is the last one issued, not saved so far. */
  lemma HonouredIsRecorded(s: State, t: ThreadId, reply: Reply)
    requires Enabled(s, Post(t, reply))
    ensures var n := Do(s, Post(t, reply));
            && (reply.Refused? ==> n == s.(pcs := n.pcs, lock := None))
            && (!reply.Refused? ==> n.accepted == s.accepted + [s.gen] && (n.clean <==> s.clean && reply.Granted?))
            && (reply.Granted? ==> n.granted == Some(reply.body) && n.lock == s.lock)
            && (!reply.Granted? ==> n.granted == s.granted && n.lock.None? && n.Pc(t) == Returned(AuthFailed))
            && var token := if reply.Granted? then reply.body.refresh else if reply.Lost? then reply.rotated else None;
               && (token.None? ==> n.server == s.server && n.issued == s.issued && n.lastIssueSaved == s.lastIssueSaved)
               && (token.Some? ==> n.server == token && n.issued == s.issued + {token.value} && !n.lastIssueSaved)
  {
  }

  lemma ActorReturns(s: State, a: Action, t: ThreadId)
    requires Inv(s) && Enabled(s, a) && s.Pc(t) != Do(s, a).Pc(t)
    ensures !a.Tick? && a.t == t
    ensures Critical(a) ==> Holder(s) == s.Pc(t)
  {
    HolderSteps(s, a);
    if a.Tick? || a.t != t {
      OthersStay(s, a, t);
    }
  }

  /** A refresh that returns a record returns the body that just arrived, with the refresh token
      it presented only where the body has none; and the file holds its tokens. */
  lemma RefreshedRecordIsTheReply(s0: State, run: seq<Action>, a: Action, t: ThreadId, tokens: Tokens)
    requires Initial(s0) && Feasible(s0, run) && Enabled(After(s0, run), a)
    requires var s := After(s0, run); s.Pc(t) != Do(s, a).Pc(t) == Returned(Refreshed(tokens))
    ensures var s := After(s0, run);
            var n := Do(s, a);
            && s.granted.Some? && s.file.Some? && n.file.Some?
            && tokens.access == n.file.value.access == s.granted.value.access
            && tokens.refresh == n.file.value.refresh
               == (if s.granted.value.refresh.Some? then s.granted.value.refresh else s.file.value.refresh)
            && tokens.expiresIn == s.granted.value.expiresIn && tokens.expiresAt == s.granted.value.expiresAt
            && tokens.lastRefresh == s.granted.value.lastRefresh
  {
    InitialInv(s0);
    RunKeepsInv(s0, run);
    var s := After(s0, run);
    ActorReturns(s, a, t);
    WhoReturns(s, a, Returned(Refreshed(tokens)));
    SaveReturns(s, t, a.diskOk);
  }

  lemma {:induction false} EmptyFileStaysEmpty(s: State, run: seq<Action>)
    requires Inv(s) && s.file.None? && Feasible(s, run)
    ensures After(s, run).file.None?
    decreases |run|
  {
    if run != [] {
      StepKeepsInv(s, run[0]);
      HolderSteps(s, run[0]);
      EmptyFileStaysEmpty(Do(s, run[0]), run[1..]);
    }
  }

  /** Once a logout has removed the file, no schedule of the calls already in flight or still
      to come brings tokens back. */
  lemma NothingRestoresTokensAfterLogout(s0: State, before: seq<Action>, t: ThreadId, later: seq<Action>)
    requires Initial(s0) && Feasible(s0, before) && Enabled(After(s0, before), Clear(t, true))
    requires Feasible(Do(After(s0, before), Clear(t, true)), later)
    ensures After(Do(After(s0, before), Clear(t, true)), later).file.None?
  {
    InitialInv(s0);
    RunKeepsInv(s0, before);
    StepKeepsInv(After(s0, before), Clear(t, true));
    EmptyFileStaysEmpty(Do(After(s0, before), Clear(t, true)), later);
  }

  lemma Prepend(s: State, a: Action, run: seq<Action>)
    requires Enabled(s, a) && Feasible(Do(s, a), run)
    ensures Feasible(s, [a] + run) && After(s, [a] + run) == After(Do(s, a), run)
  {
    assert ([a] + run)[1..] == run;
  }

  lemma {:induction false} Compose(s: State, first: seq<Action>, second: seq<Action>)
    requires Feasible(s, first) && Feasible(After(s, first), second)
    ensures Feasible(s, first + second) && After(s, first + second) == After(After(s, first), second)
    decreases |first|
  {
    if first == [] {
      assert first + second == second;
    } else {
      Compose(Do(s, first[0]), first[1..], second);
      assert first + second == [first[0]] + (first[1..] + second);
      Prepend(s, first[0], first[1..] + second);
    }
  }

  /** The state after thread `t` refreshed with nobody in between. */
  function Alone(s: State, t: ThreadId, readable: bool, reply: Reply, diskOk: bool): State {
    AfterLoad(LoadedBy(s, t, readable), t, reply, diskOk)
  }

  function LoadedBy(s: State, t: ThreadId, readable: bool): State {
    ReloadStep(AtReload(s, t, Refresh, false), t, Refresh, false, readable)
  }

  function AfterLoad(s: State, t: ThreadId, reply: Reply, diskOk: bool): State {
    if !s.Pc(t).Posting? then s
    else
      var posted := PostStep(s, t, s.Pc(t), reply);
      if reply.Granted? then SaveStep(posted, t, posted.Pc(t), diskOk) else posted
  }

  lemma LoadFirst(s: State, t: ThreadId, readable: bool, run: seq<Action>)
    requires (s.Pc(t).Idle? || s.Pc(t).Returned?) && s.lock.None?
    requires Feasible(LoadedBy(s, t, readable), run)
    ensures var whole := [Start(t, Refresh)] + ([Acquire(t)] + ([Reload(t, readable)] + run));
            Feasible(s, whole) && After(s, whole) == After(LoadedBy(s, t, readable), run)
  {
    var s1 := Do(s, Start(t, Refresh));
    var s2 := Do(s1, Acquire(t));
    assert s2 == AtReload(s, t, Refresh, false);
    Prepend(s2, Reload(t, readable), run);
    Prepend(s1, Acquire(t), [Reload(t, readable)] + run);
    Prepend(s, Start(t, Refresh), [Acquire(t)] + ([Reload(t, readable)] + run));
  }

  /** The part of an uninterrupted refresh after its load: nothing when the load failed. */
  lemma PostAndSave(s: State, t: ThreadId, reply: Reply, diskOk: bool) returns (run: seq<Action>)
    requires Rotation(reply).Some? ==> Rotation(reply).value !in s.issued
    ensures Feasible(s, run) && After(s, run) == AfterLoad(s, t, reply, diskOk)
  {
    run := [];
    if s.Pc(t).Posting? {
      var posted := Do(s, Post(t, reply));
      if reply.Granted? {
        Prepend(posted, Save(t, diskOk), run);
        run := [Save(t, diskOk)] + run;
      }
      Prepend(s, Post(t, reply), run);
      run := [Post(t, reply)] + run;
    }
  }

  lemma RunAlone(s: State, t: ThreadId, readable: bool, reply: Reply, diskOk: bool) returns (run: seq<Action>)
    requires s.Pc(t).Idle? || s.Pc(t).Returned?
    requires s.lock.None? && (Rotation(reply).Some? ==> Rotation(reply).value !in s.issued)
    ensures Feasible(s, run) && After(s, run) == Alone(s, t, readable, reply, diskOk)
  {
    var rest := PostAndSave(LoadedBy(s, t, readable), t, reply, diskOk);
    LoadFirst(s, t, readable, rest);
    run := [Start(t, Refresh)] + ([Acquire(t)] + ([Reload(t, readable)] + rest));
  }

  lemma PostToEnd(s: State, t: ThreadId, reply: Reply, diskOk: bool)
    requires s.Pc(t).Posting?
    ensures var pc := s.Pc(t);
            var n := AfterLoad(s, t, reply, diskOk);
            && n.lock.None? && n.clock == s.clock
            && (!reply.Granted? ==> n.file == s.file && n.gen == s.gen && n.Pc(t) == Returned(AuthFailed))
            && (reply.Granted? && !diskOk ==> n.file == s.file && n.gen == s.gen && n.Pc(t) == Returned(SaveFailed))
            && (reply.Granted? && diskOk ==>
                  && n.file == Some(Saved(Merged(reply.body, pc.seen), s.clock)) && n.gen == s.gen + 1
                  && n.Pc(t) == Returned(ResultFor(pc.call, Merged(reply.body, pc.seen))))
  {
  }

  /** A call that has the lock, about to load the record to refresh. */
  function AtReload(s: State, t: ThreadId, call: Call, blind: bool): State {
    s.At(t, Reloading(call, blind)).(lock := Some(t))
  }

  /** From the load of the refresh to its end, for any call. */
  lemma LoadToEnd(s: State, t: ThreadId, call: Call, blind: bool, readable: bool, reply: Reply, diskOk: bool)
    ensures var n := AfterLoad(ReloadStep(AtReload(s, t, call, blind), t, call, blind, readable), t, reply, diskOk);
            var (file, result) := RefreshEffect(s.file, readable, reply, s.clock, diskOk);
            && n.file == file && n.lock.None? && n.clock == s.clock
            && n.Pc(t) == Returned(if result.Refreshed? then ResultFor(call, result.tokens) else result)
            && n.gen == (if result.Refreshed? then s.gen + 1 else s.gen)
  {
    var loaded := ReloadStep(AtReload(s, t, call, blind), t, call, blind, readable);
    if HasRefresh(Read(s.file, readable)) {
      assert loaded.Pc(t) == Posting(call, blind, s.file.value, s.gen);
      PostToEnd(loaded, t, reply, diskOk);
    } else {
      assert loaded.Pc(t) == Returned(NoRefreshToken);
    }
  }

  lemma AloneEffect(s: State, t: ThreadId, readable: bool, reply: Reply, diskOk: bool)
    ensures var n := Alone(s, t, readable, reply, diskOk);
            var (file, result) := RefreshEffect(s.file, readable, reply, s.clock, diskOk);
            && n.file == file && n.Pc(t) == Returned(result) && n.lock.None?
            && n.gen == (if result.Refreshed? then s.gen + 1 else s.gen)
  {
    LoadToEnd(s, t, Refresh, false, readable, reply, diskOk);
  }

  lemma AloneServer(s: State, t: ThreadId, body: Tokens, diskOk: bool)
    requires HasRefresh(s.file)
    ensures var n := Alone(s, t, true, Granted(body), diskOk);
            && n.accepted == s.accepted + [s.gen]
            && n.server == (if body.refresh.Some? then body.refresh else s.server)
  {
  }

  /** One refresh of thread `t` that nobody interrupts leaves the file and returns the result
      that the sequential object computes. */
  lemma UninterruptedRefresh(s: State, t: ThreadId, readable: bool, reply: Reply, diskOk: bool)
    returns (run: seq<Action>)
    requires s.Pc(t).Idle? || s.Pc(t).Returned?
    requires s.lock.None? && (Rotation(reply).Some? ==> Rotation(reply).value !in s.issued)
    ensures Feasible(s, run)
    ensures var (file, result) := RefreshEffect(s.file, readable, reply, s.clock, diskOk);
            var n := After(s, run);
            && n.file == file && n.Pc(t) == Returned(result) && n.lock.None?
            && n.gen == (if result.Refreshed? then s.gen + 1 else s.gen)
    ensures HasRefresh(s.file) && readable && reply.Granted? ==>
              var n := After(s, run);
              && n.accepted == s.accepted + [s.gen]
              && n.server == (if reply.body.refresh.Some? then reply.body.refresh else s.server)
  {
    run := RunAlone(s, t, readable, reply, diskOk);
    AloneEffect(s, t, readable, reply, diskOk);
    if HasRefresh(s.file) && readable && reply.Granted? {
      AloneServer(s, t, reply.body, diskOk);
    }
  }

  /** Why `clean` is needed: a refresh whose save failed is followed by one that presents the
      same generation and is honoured again, while the file keeps a replaced token. */
  lemma FailedSaveRepeatsAGeneration(s: State, t: ThreadId, body: Tokens) returns (run: seq<Action>)
    requires Initial(s) && HasRefresh(s.file) && s.file.value.refresh.value in s.issued
    requires body.refresh.Some? && body.refresh.value !in s.issued
    ensures Feasible(s, run)
    ensures After(s, run).accepted == [s.gen, s.gen]
    ensures After(s, run).file == s.file && After(s, run).server == body.refresh != s.file.value.refresh
  {
    assert s.Pc(t).Idle?;
    var first := UninterruptedRefresh(s, t, true, Granted(body), false);
    var again := UninterruptedRefresh(After(s, first), t, true, Granted(body.(refresh := None)), false);
    Compose(s, first, again);
    run := first + again;
  }

  /** The steps of a `get_access_token` from its wait for the lock to its post, when its check
      under the lock cannot read the file and its next load can. */
  lemma BlindCheck(s: State, t: ThreadId) returns (run: seq<Action>)
    requires s.Pc(t) == Waiting(Get) && s.lock.None? && HasRefresh(s.file)
    ensures Feasible(s, run)
    ensures After(s, run).Pc(t) == Posting(Get, true, s.file.value, s.gen)
    ensures After(s, run).file == s.file && After(s, run).clock == s.clock
  {
    var s1 := Do(s, Acquire(t));
    var s2 := Do(s1, Recheck(t, false));
    Prepend(s2, Reload(t, true), []);
    Prepend(s1, Recheck(t, false), [Reload(t, true)]);
    run := [Acquire(t)] + ([Recheck(t, false)] + [Reload(t, true)]);
    Prepend(s, Acquire(t), [Recheck(t, false)] + [Reload(t, true)]);
  }

  lemma AloneLeavesOthers(s: State, t: ThreadId, u: ThreadId, body: Tokens)
    requires t != u && HasRefresh(s.file) && s.lock.None?
    ensures var n := Alone(s, u, true, Granted(body), true);
            && n.Pc(t) == s.Pc(t) && n.clock == s.clock && n.lock.None? && n.accepted == s.accepted + [s.gen]
            && n.file == Some(Saved(Merged(body, s.file.value), s.clock))
  {
  }

  /** A `get_access_token` of thread `t` finds an expired record, and another thread renews it
      before `t` gets the lock. */
  lemma RenewWhileWaiting(s: State, t: ThreadId, u: ThreadId, body: Tokens) returns (run: seq<Action>)
    requires Initial(s) && t != u && HasAccess(s.file) && HasRefresh(s.file) && IsExpired(s.file, s.clock)
    requires body.refresh.Some? ==> body.refresh.value !in s.issued
    ensures Feasible(s, run)
    ensures var n := After(s, run);
            && n.Pc(t) == Waiting(Get) && n.lock.None? && n.clock == s.clock && n.accepted == [s.gen]
            && n.file == Some(Saved(Merged(body, s.file.value), s.clock))
  {
    assert s.Pc(t).Idle? && s.Pc(u).Idle?;
    var s1 := Do(s, Start(t, Get));
    var s2 := Do(s1, LoadUnlocked(t, true));
    assert s2 == s.At(t, Loading).At(t, Waiting(Get));
    var renew := RunAlone(s2, u, true, Granted(body), true);
    AloneLeavesOthers(s2, t, u, body);
    Prepend(s1, LoadUnlocked(t, true), renew);
    Prepend(s, Start(t, Get), [LoadUnlocked(t, true)] + renew);
    run := [Start(t, Get)] + ([LoadUnlocked(t, true)] + renew);
  }

  /** Why `blind` is needed: after another thread renewed the record, a `get_access_token`
      whose check under the lock cannot read the file goes on to post for a record that has
      not expired. */
  lemma FailedCheckPostsAFreshRecord(s: State, t: ThreadId, u: ThreadId, body: Tokens) returns (run: seq<Action>)
    requires Initial(s) && t != u && HasAccess(s.file) && HasRefresh(s.file) && IsExpired(s.file, s.clock)
    requires body.refresh.Some? ==> body.refresh.value !in s.issued
    requires !IsExpired(Some(Saved(Merged(body, s.file.value), s.clock)), s.clock)
    ensures Feasible(s, run)
    ensures var n := After(s, run); n.Pc(t).Posting? && n.Pc(t).call.Get? && !IsExpired(n.file, n.clock)
  {
    var renew := RenewWhileWaiting(s, t, u, body);
    var check := BlindCheck(After(s, renew), t);
    Compose(s, renew, check);
    run := renew + check;
  }

  /** A record that a granted reply with a lifetime beyond the buffer was saved as is usable. */
  lemma RenewedIsUsable(body: Tokens, seen: Tokens, now: real)
    requires body.expiresAt.Absent? && body.expiresIn.Number? && body.expiresIn.n > 60.0
    ensures var record := Saved(Merged(body, seen), now);
            !IsExpired(Some(record), now) && record.access == body.access
  {
    LifetimeAfterSave(Merged(body, seen), now, now);
  }

  /** What the second check is for: the waiting call gets the token that the other thread's
      refresh fetched, and one request was posted for both. */
  lemma WaiterSharesTheRenewal(s: State, t: ThreadId, u: ThreadId, body: Tokens, x: string) returns (run: seq<Action>)
    requires Initial(s) && t != u && HasAccess(s.file) && HasRefresh(s.file) && IsExpired(s.file, s.clock)
    requires body.refresh.Some? ==> body.refresh.value !in s.issued
    requires body.access == Some(x) && body.expiresAt.Absent? && body.expiresIn.Number? && body.expiresIn.n > 60.0
    ensures Feasible(s, run)
    ensures var n := After(s, run);
            n.Pc(t) == Returned(AccessToken(x)) && n.lock.None? && n.accepted == [s.gen]
  {
    RenewedIsUsable(body, s.file.value, s.clock);
    var renew := RenewWhileWaiting(s, t, u, body);
    var n := After(s, renew);
    var n1 := Do(n, Acquire(t));
    Prepend(n1, Recheck(t, true), []);
    Prepend(n, Acquire(t), [Recheck(t, true)]);
    Compose(s, renew, [Acquire(t)] + [Recheck(t, true)]);
    run := renew + ([Acquire(t)] + [Recheck(t, true)]);
  }

  // ---------------------------------------------------------------- an undisturbed get_access_token

  function LookedAt(s: State, t: ThreadId, first: bool): State {
    LoadStep(s.At(t, Loading), t, first)
  }

  /** From the wait for the lock to the load of the refresh, for an expired record. */
  function CheckedAgain(s: State, t: ThreadId, again: bool, reload: bool): State {
    ReloadStep(AtReload(s, t, Get, !again), t, Get, !again, reload)
  }

  function GetAlone(s: State, t: ThreadId, first: bool, again: bool, reload: bool, reply: Reply, diskOk: bool): State {
    var looked := LookedAt(s, t, first);
    if looked.Pc(t).Waiting? then AfterLoad(CheckedAgain(looked, t, again, reload), t, reply, diskOk) else looked
  }

  lemma CheckFirst(s: State, t: ThreadId, again: bool, reload: bool, run: seq<Action>)
    requires s.Pc(t) == Waiting(Get) && s.lock.None? && IsExpired(s.file, s.clock)
    requires Feasible(CheckedAgain(s, t, again, reload), run)
    ensures var whole := [Acquire(t)] + ([Recheck(t, again)] + ([Reload(t, reload)] + run));
            Feasible(s, whole) && After(s, whole) == After(CheckedAgain(s, t, again, reload), run)
  {
    var s1 := Do(s, Acquire(t));
    var s2 := Do(s1, Recheck(t, again));
    assert s2 == AtReload(s, t, Get, !again);
    Prepend(s2, Reload(t, reload), run);
    Prepend(s1, Recheck(t, again), [Reload(t, reload)] + run);
    Prepend(s, Acquire(t), [Recheck(t, again)] + ([Reload(t, reload)] + run));
  }

  lemma RunGetAlone(s: State, t: ThreadId, first: bool, again: bool, reload: bool, reply: Reply, diskOk: bool)
    returns (run: seq<Action>)
    requires s.Pc(t).Idle? || s.Pc(t).Returned?
    requires s.lock.None? && (Rotation(reply).Some? ==> Rotation(reply).value !in s.issued)
    ensures Feasible(s, run) && After(s, run) == GetAlone(s, t, first, again, reload, reply, diskOk)
  {
    var looked := LookedAt(s, t, first);
    run := [];
    if looked.Pc(t).Waiting? {
      var rest := PostAndSave(CheckedAgain(looked, t, again, reload), t, reply, diskOk);
      CheckFirst(looked, t, again, reload, rest);
      run := [Acquire(t)] + ([Recheck(t, again)] + ([Reload(t, reload)] + rest));
    }
    Prepend(Do(s, Start(t, Get)), LoadUnlocked(t, first), run);
    Prepend(s, Start(t, Get), [LoadUnlocked(t, first)] + run);
    run := [Start(t, Get)] + ([LoadUnlocked(t, first)] + run);
  }

  lemma GetAloneEffect(s: State, t: ThreadId, first: bool, again: bool, reload: bool, reply: Reply, diskOk: bool)
    requires s.lock.None?
    ensures var n := GetAlone(s, t, first, again, reload, reply, diskOk);
            var (file, result) := GetEffect(s.file, first, reload, reply, s.clock, diskOk);
            n.file == file && n.Pc(t) == Returned(result) && n.lock.None? && n.clock == s.clock
  {
    var looked := LookedAt(s, t, first);
    if !HasAccess(Read(s.file, first)) {
      assert looked.Pc(t) == Returned(NotAuthenticated);
    } else if !IsExpired(s.file, s.clock) {
      assert looked.Pc(t) == Returned(AccessOf(s.file.value));
    } else {
      assert looked.Pc(t) == Waiting(Get);
      LoadToEnd(looked, t, Get, !again, reload, reply, diskOk);
    }
  }

  /** One `get_access_token` that nobody interrupts leaves the file and returns the result that
      the sequential object computes. */
  lemma UninterruptedGet(s: State, t: ThreadId, first: bool, again: bool, reload: bool, reply: Reply, diskOk: bool)
    returns (run: seq<Action>)
    requires s.Pc(t).Idle? || s.Pc(t).Returned?
    requires s.lock.None? && (Rotation(reply).Some? ==> Rotation(reply).value !in s.issued)
    ensures Feasible(s, run)
    ensures var n := After(s, run);
            var (file, result) := GetEffect(s.file, first, reload, reply, s.clock, diskOk);
            n.file == file && n.Pc(t) == Returned(result) && n.lock.None? && n.clock == s.clock
  {
    run := RunGetAlone(s, t, first, again, reload, reply, diskOk);
    GetAloneEffect(s, t, first, again, reload, reply, diskOk);
  }

  /** A call on an expired record returns the token of the granted reply, and a second call at
      that time returns it again without touching the file. */
  lemma RenewedTokenIsServed(s: State, t: ThreadId, body: Tokens, x: string)
    returns (first: seq<Action>, second: seq<Action>)
    requires s.Pc(t).Idle? || s.Pc(t).Returned?
    requires s.lock.None? && HasAccess(s.file) && HasRefresh(s.file) && IsExpired(s.file, s.clock)
    requires body.refresh.Some? ==> body.refresh.value !in s.issued
    requires body.access == Some(x) && body.expiresAt.Absent? && body.expiresIn.Number? && body.expiresIn.n > 60.0
    ensures Feasible(s, first) && Feasible(After(s, first), second)
    ensures After(s, first).Pc(t) == After(After(s, first), second).Pc(t) == Returned(AccessToken(x))
    ensures After(s, first).file == After(After(s, first), second).file
  {
    first := UninterruptedGet(s, t, true, true, true, Granted(body), true);
    RenewedIsUsable(body, s.file.value, s.clock);
    second := UninterruptedGet(After(s, first), t, true, true, true, Refused, true);
  }
}

/**
 One-time codes, the password-reset flow and their challenge store
 (backend/src/application/services/platform-admin-service.ts), for serial runs. Codes and tokens are
 compared through SHA-256, which is taken to be injective, so a row keeps the secret itself.
 */
module OtpRecovery {
  import opened Base

  /** Rows are keyed by purpose; a reset token has a key of its own. */
  datatype Key = LoginCode | ResetCode | ResetToken(jti: Id)

  datatype Challenge = Challenge(secret: Id, expiresAt: int, attempts: nat)

  /** What has become of one issued code. */
  datatype Fate = Fate(wrongGuesses: nat, accepted: nat)

  /** The store, and the history the claims are about: `issues` tells which code a row last held. */
  datatype State = State(
    otps: map<Key, Challenge>,
    issues: map<Key, nat>,
    fates: seq<Fate>,
    resetCodes: nat,
    verifications: nat,
    passwordChanges: nat)

  const TTL := 480_000
  const MAX_WRONG := 5

  const INITIAL := State(map[], map[], [], 0, 0, 0)

  datatype Outcome = CodeSent | Silent | Invalid | Expired | Locked | CodeAccepted | TokenIssued | PasswordChanged

  datatype Event =
    | Login(typed: Option<Id>, newCode: Id)
    | RequestReset(admin: bool, newCode: Id)
    | VerifyReset(admin: bool, otp: Id, jti: Id, token: Id)
    | ConfirmReset(signed: bool, jti: Id, token: Id)

  // ---------------------------------------------------------------- the rules

  function Active(st: State, key: Key, now: int): Option<Challenge> {
    if key in st.otps && st.otps[key].expiresAt > now then Some(st.otps[key]) else None
  }

  function Unexpired(otps: map<Key, Challenge>, now: int): map<Key, Challenge> {
    map k | k in otps && otps[k].expiresAt >= now :: otps[k]
  }

  function Issue(st: State, key: Key, code: Id, now: int): State {
    st.(otps := Unexpired(st.otps, now)[key := Challenge(code, now + TTL, 0)],
        issues := st.issues[key := |st.fates|],
        fates := st.fates + [Fate(0, 0)],
        resetCodes := st.resetCodes + if key.ResetCode? then 1 else 0)
  }

  function Delete(st: State, key: Key): State {
    st.(otps := st.otps - {key})
  }

  /** The fates once the code under that key has met more guesses. */
  function Noted(fates: seq<Fate>, issues: map<Key, nat>, key: Key, wrong: nat, right: nat): seq<Fate> {
    if key in issues && issues[key] < |fates| then
      var f := fates[issues[key]];
      fates[issues[key] := Fate(f.wrongGuesses + wrong, f.accepted + right)]
    else fates
  }

  function Missed(st: State, key: Key): State
    requires key in st.otps
  {
    var c := st.otps[key];
    st.(otps := st.otps[key := c.(attempts := c.attempts + 1)],
        fates := if key.ResetToken? then st.fates else Noted(st.fates, st.issues, key, 1, 0))
  }

  function Accepted(st: State, key: Key): State
    requires key in st.otps
  {
    Delete(st, key).(fates := Noted(st.fates, st.issues, key, 0, 1))
  }

  /** The common part of both code checks: expired, locked, wrong or accepted. */
  function TryCode(st: State, key: Key, otp: Id, now: int): (State, Outcome) {
    match Active(st, key, now)
    case None => (Delete(st, key), Expired)
    case Some(c) =>
      if c.attempts >= MAX_WRONG then (Delete(st, key), Locked)
      else if c.secret != otp then (Missed(st, key), Invalid)
      else (Accepted(st, key), CodeAccepted)
  }

  function AfterVerify(st: State, otp: Id, jti: Id, token: Id, now: int): (State, Outcome) {
    var (tried, outcome) := TryCode(st, ResetCode, otp, now);
    if outcome != CodeAccepted then (tried, outcome)
    else
      (tried.(otps := tried.otps[ResetToken(jti) := Challenge(token, now + TTL, 0)],
              verifications := tried.verifications + 1), TokenIssued)
  }

  function AfterConfirm(st: State, jti: Id, token: Id, now: int): (State, Outcome) {
    var key := ResetToken(jti);
    match Active(st, key, now)
    case None => (Delete(st, key), Expired)
    case Some(c) =>
      if c.secret != token then (Missed(st, key), Invalid)
      else (Delete(st, key).(passwordChanges := st.passwordChanges + 1), PasswordChanged)
  }

  function After(st: State, e: Event, now: int): (State, Outcome) {
    match e
    case Login(None, code) => (Issue(st, LoginCode, code, now), CodeSent)
    case Login(Some(otp), _) => TryCode(st, LoginCode, otp, now)
    case RequestReset(admin, code) => if admin then (Issue(st, ResetCode, code, now), Silent) else (st, Silent)
    case VerifyReset(admin, otp, jti, token) => if admin then AfterVerify(st, otp, jti, token, now) else (st, Invalid)
    case ConfirmReset(signed, jti, token) => if signed then AfterConfirm(st, jti, token, now) else (st, Invalid)
  }

  // ---------------------------------------------------------------- what every run keeps

  function Tokens(otps: map<Key, Challenge>): set<Key> {
    set k | k in otps && k.ResetToken?
  }

  function LiveResetCodes(otps: map<Key, Challenge>): nat {
    if ResetCode in otps then 1 else 0
  }

  /** Every change, live token, verification and live code was paid for. */
  predicate Paid(st: State) {
    && st.passwordChanges + |Tokens(st.otps)| <= st.verifications
    && st.verifications + LiveResetCodes(st.otps) <= st.resetCodes
  }

  predicate FateOk(f: Fate) {
    f.wrongGuesses <= MAX_WRONG && f.accepted <= 1
  }

  /** A stored code was never accepted, and its row counts its wrong guesses. */
  predicate RowOk(st: State, key: Key) {
    key in st.otps ==>
      && key in st.issues && st.issues[key] < |st.fates|
      && st.otps[key].attempts <= MAX_WRONG && st.fates[st.issues[key]] == Fate(st.otps[key].attempts, 0)
  }

  predicate Counted(st: State) {
    && (forall i :: 0 <= i < |st.fates| ==> FateOk(st.fates[i]))
    && RowOk(st, LoginCode) && RowOk(st, ResetCode)
    && (LoginCode in st.issues && ResetCode in st.issues ==> st.issues[LoginCode] != st.issues[ResetCode])
    && (forall k :: k in st.issues ==> st.issues[k] < |st.fates|)
  }

  predicate Inv(st: State) {
    Paid(st) && Counted(st)
  }

  lemma FewerTokens(small: map<Key, Challenge>, large: map<Key, Challenge>)
    requires small.Keys <= large.Keys
    ensures |Tokens(small)| <= |Tokens(large)|
  {
    SubsetSize(Tokens(small), Tokens(large));
  }

  lemma DropsToken(otps: map<Key, Challenge>, key: Key)
    requires key in otps && key.ResetToken?
    ensures |Tokens(otps - {key})| == |Tokens(otps)| - 1
  {
    assert Tokens(otps - {key}) == Tokens(otps) - {key};
  }

  lemma AddsToken(otps: map<Key, Challenge>, key: Key, c: Challenge)
    requires key.ResetToken?
    ensures |Tokens(otps[key := c])| <= |Tokens(otps)| + 1
  {
    assert Tokens(otps[key := c]) == Tokens(otps) + {key};
  }

  lemma SameTokens(otps: map<Key, Challenge>, key: Key, c: Challenge)
    requires !key.ResetToken? || key in otps
    ensures Tokens(otps[key := c]) == Tokens(otps)
  {
  }

  lemma IssueKeepsInv(st: State, key: Key, code: Id, now: int)
    requires Inv(st) && !key.ResetToken?
    ensures Inv(Issue(st, key, code, now))
  {
    var kept := Unexpired(st.otps, now);
    FewerTokens(kept, st.otps);
    SameTokens(kept, key, Challenge(code, now + TTL, 0));
  }

  lemma DeleteKeepsInv(st: State, key: Key)
    requires Inv(st)
    ensures Inv(Delete(st, key))
  {
    FewerTokens(st.otps - {key}, st.otps);
  }

  lemma MissedKeepsInv(st: State, key: Key)
    requires Inv(st) && key in st.otps && (!key.ResetToken? ==> st.otps[key].attempts < MAX_WRONG)
    ensures Inv(Missed(st, key))
  {
    var c := st.otps[key];
    SameTokens(st.otps, key, c.(attempts := c.attempts + 1));
    assert RowOk(st, key) || key.ResetToken?;
  }

  lemma AcceptedKeepsInv(st: State, key: Key)
    requires Inv(st) && key in st.otps && !key.ResetToken?
    ensures Inv(Accepted(st, key))
    ensures key.ResetCode? ==> st.verifications < st.resetCodes && Accepted(st, key).otps.Keys == st.otps.Keys - {key}
  {
    FewerTokens(st.otps - {key}, st.otps);
    assert RowOk(st, key);
  }

  lemma TryCodeKeepsInv(st: State, key: Key, otp: Id, now: int)
    requires Inv(st) && !key.ResetToken?
    ensures Inv(TryCode(st, key, otp, now).0)
  {
    DeleteKeepsInv(st, key);
    if key in st.otps {
      AcceptedKeepsInv(st, key);
      if st.otps[key].attempts < MAX_WRONG {
        MissedKeepsInv(st, key);
      }
    }
  }

  lemma VerifyKeepsInv(st: State, otp: Id, jti: Id, token: Id, now: int)
    requires Inv(st)
    ensures Inv(AfterVerify(st, otp, jti, token, now).0)
  {
    TryCodeKeepsInv(st, ResetCode, otp, now);
    var (tried, outcome) := TryCode(st, ResetCode, otp, now);
    if outcome == CodeAccepted {
      AcceptedKeepsInv(st, ResetCode);
      AddsToken(tried.otps, ResetToken(jti), Challenge(token, now + TTL, 0));
    }
  }

  lemma ConfirmKeepsInv(st: State, jti: Id, token: Id, now: int)
    requires Inv(st)
    ensures Inv(AfterConfirm(st, jti, token, now).0)
  {
    var key := ResetToken(jti);
    DeleteKeepsInv(st, key);
    if key in st.otps {
      MissedKeepsInv(st, key);
      DropsToken(st.otps, key);
    }
  }

  lemma StepKeepsInv(st: State, e: Event, now: int)
    requires Inv(st)
    ensures Inv(After(st, e, now).0)
  {
    match e
    case Login(None, code) => IssueKeepsInv(st, LoginCode, code, now);
    case Login(Some(otp), _) => TryCodeKeepsInv(st, LoginCode, otp, now);
    case RequestReset(admin, code) => IssueKeepsInv(st, ResetCode, code, now);
    case VerifyReset(_, otp, jti, token) => VerifyKeepsInv(st, otp, jti, token, now);
    case ConfirmReset(_, jti, token) => ConfirmKeepsInv(st, jti, token, now);
  }

  // ---------------------------------------------------------------- runs

  datatype Call = Call(event: Event, now: int)

  /** The state after a serial run from an empty store. */
  function Run(calls: seq<Call>): State {
    if calls == [] then INITIAL
    else After(Run(calls[..|calls| - 1]), calls[|calls| - 1].event, calls[|calls| - 1].now).0
  }

  lemma {:induction false} RunKeepsInv(calls: seq<Call>)
    ensures Inv(Run(calls))
  {
    if calls != [] {
      RunKeepsInv(calls[..|calls| - 1]);
      StepKeepsInv(Run(calls[..|calls| - 1]), calls[|calls| - 1].event, calls[|calls| - 1].now);
    }
  }

  /** What the last call of a run answered. */
  function LastOutcome(calls: seq<Call>): Outcome
    requires calls != []
  {
    After(Run(calls[..|calls| - 1]), calls[|calls| - 1].event, calls[|calls| - 1].now).1
  }

  function CountOutcomes(calls: seq<Call>, o: Outcome): nat {
    if calls == [] then 0
    else CountOutcomes(calls[..|calls| - 1], o) + if LastOutcome(calls) == o then 1 else 0
  }

  function CountRequests(calls: seq<Call>): nat {
    if calls == [] then 0
    else
      var e := calls[|calls| - 1].event;
      CountRequests(calls[..|calls| - 1]) + if e.RequestReset? && e.admin then 1 else 0
  }

  lemma StepCounts(st: State, e: Event, now: int)
    ensures var (next, outcome) := After(st, e, now);
      && next.passwordChanges == st.passwordChanges + (if outcome == PasswordChanged then 1 else 0)
      && next.verifications == st.verifications + (if outcome == TokenIssued then 1 else 0)
      && next.resetCodes == st.resetCodes + (if e.RequestReset? && e.admin then 1 else 0)
  {
  }

  /** The history counters count what the calls answered. */
  lemma {:induction false} CountersAreHistory(calls: seq<Call>)
    ensures Run(calls).passwordChanges == CountOutcomes(calls, PasswordChanged)
    ensures Run(calls).verifications == CountOutcomes(calls, TokenIssued)
    ensures Run(calls).resetCodes == CountRequests(calls)
  {
    if calls != [] {
      var earlier, last := calls[..|calls| - 1], calls[|calls| - 1];
      CountersAreHistory(earlier);
      StepCounts(Run(earlier), last.event, last.now);
    }
  }

  /**
   In every serial run: answered password changes and stored reset tokens never exceed answered
   verifications, and those and the stored reset code never exceed the reset codes requested.
   */
  lemma ResetsArePaidFor(calls: seq<Call>)
    ensures CountOutcomes(calls, PasswordChanged) + |Tokens(Run(calls).otps)| <= CountOutcomes(calls, TokenIssued)
    ensures CountOutcomes(calls, TokenIssued) + LiveResetCodes(Run(calls).otps) <= CountRequests(calls)
  {
    RunKeepsInv(calls);
    CountersAreHistory(calls);
  }

  /** In every serial run each issued code meets at most five wrong guesses and is accepted at most once. */
  lemma CodesAreGuessedAtMostFiveTimes(calls: seq<Call>, i: nat)
    requires i < |Run(calls).fates|
    ensures Run(calls).fates[i].wrongGuesses <= 5 && Run(calls).fates[i].accepted <= 1
  {
    RunKeepsInv(calls);
    assert FateOk(Run(calls).fates[i]);
  }

  function SumWrong(fates: seq<Fate>): nat {
    if fates == [] then 0 else SumWrong(fates[..|fates| - 1]) + fates[|fates| - 1].wrongGuesses
  }

  function SumAccepted(fates: seq<Fate>): nat {
    if fates == [] then 0 else SumAccepted(fates[..|fates| - 1]) + fates[|fates| - 1].accepted
  }

  lemma {:induction false} UpdateSums(fates: seq<Fate>, i: nat, f: Fate)
    requires i < |fates|
    ensures SumWrong(fates[i := f]) == SumWrong(fates) + f.wrongGuesses - fates[i].wrongGuesses
    ensures SumAccepted(fates[i := f]) == SumAccepted(fates) + f.accepted - fates[i].accepted
  {
    var n := |fates| - 1;
    if i < n {
      UpdateSums(fates[..n], i, f);
      assert fates[i := f][..n] == fates[..n][i := f];
    } else {
      assert fates[i := f][..n] == fates[..n];
    }
  }

  predicate ChecksCode(e: Event) {
    (e.Login? && e.typed.Some?) || (e.VerifyReset? && e.admin)
  }

  lemma {:induction false} NotedSums(fates: seq<Fate>, issues: map<Key, nat>, key: Key, wrong: nat, right: nat)
    requires key in issues && issues[key] < |fates|
    ensures SumWrong(Noted(fates, issues, key, wrong, right)) == SumWrong(fates) + wrong
    ensures SumAccepted(Noted(fates, issues, key, wrong, right)) == SumAccepted(fates) + right
  {
    var f := fates[issues[key]];
    UpdateSums(fates, issues[key], Fate(f.wrongGuesses + wrong, f.accepted + right));
  }

  lemma {:induction false} TryCodeSums(st: State, key: Key, otp: Id, now: int)
    requires RowOk(st, key) && !key.ResetToken?
    ensures var (next, outcome) := TryCode(st, key, otp, now);
      && SumWrong(next.fates) == SumWrong(st.fates) + (if outcome == Invalid then 1 else 0)
      && SumAccepted(next.fates) == SumAccepted(st.fates) + (if outcome == CodeAccepted then 1 else 0)
  {
    if key in st.otps {
      NotedSums(st.fates, st.issues, key, 1, 0);
      NotedSums(st.fates, st.issues, key, 0, 1);
    }
  }

  lemma {:induction false} StepSums(st: State, e: Event, now: int)
    requires Inv(st)
    ensures var (next, outcome) := After(st, e, now);
      && SumWrong(next.fates) == SumWrong(st.fates) + (if ChecksCode(e) && outcome == Invalid then 1 else 0)
      && SumAccepted(next.fates)
         == SumAccepted(st.fates) + (if outcome == CodeAccepted || outcome == TokenIssued then 1 else 0)
  {
    match e
    case Login(Some(otp), _) => TryCodeSums(st, LoginCode, otp, now);
    case VerifyReset(admin, otp, _, _) => TryCodeSums(st, ResetCode, otp, now);
    case Login(None, _) => assert (st.fates + [Fate(0, 0)])[..|st.fates|] == st.fates;
    case RequestReset(_, _) => assert (st.fates + [Fate(0, 0)])[..|st.fates|] == st.fates;
    case ConfirmReset(_, _, _) =>
  }

  function CountWrongCodes(calls: seq<Call>): nat {
    if calls == [] then 0
    else CountWrongCodes(calls[..|calls| - 1])
         + if ChecksCode(calls[|calls| - 1].event) && LastOutcome(calls) == Invalid then 1 else 0
  }

  /** In every serial run the guesses the codes met are exactly the code checks that were answered. */
  lemma {:induction false} FatesAreHistory(calls: seq<Call>)
    ensures SumWrong(Run(calls).fates) == CountWrongCodes(calls)
    ensures SumAccepted(Run(calls).fates) == CountOutcomes(calls, CodeAccepted) + CountOutcomes(calls, TokenIssued)
  {
    if calls != [] {
      var earlier := calls[..|calls| - 1];
      FatesAreHistory(earlier);
      RunKeepsInv(earlier);
      StepSums(Run(earlier), calls[|calls| - 1].event, calls[|calls| - 1].now);
    }
  }

  // ---------------------------------------------------------------- which secrets are accepted

  predicate InOrder(calls: seq<Call>) {
    forall i, j :: 0 <= i < j < |calls| ==> calls[i].now <= calls[j].now
  }

  /** The call sends a new code under that key. */
  predicate IssuesCode(e: Event, key: Key) {
    (key == LoginCode && e.Login? && e.typed.None?) || (key == ResetCode && e.RequestReset? && e.admin)
  }

  /** The call has a typed code checked under that key. */
  predicate ChecksUnder(e: Event, key: Key) {
    (key == LoginCode && e.Login? && e.typed.Some?) || (key == ResetCode && e.VerifyReset? && e.admin)
  }

  function Typed(e: Event): Id
    requires ChecksCode(e)
  {
    if e.Login? then e.typed.value else e.otp
  }

  /** A code, when it was sent, and how often a wrong and the right code have been typed since. */
  datatype Issued = Issued(code: Id, at: int, wrong: nat, right: nat)

  /** The latest code sent under a key, told by the calls alone. */
  function LatestCode(calls: seq<Call>, key: Key): Option<Issued>
    requires key == LoginCode || key == ResetCode
  {
    if calls == [] then None
    else AfterCall(LatestCode(calls[..|calls| - 1], key), calls[|calls| - 1], key)
  }

  function AfterCall(before: Option<Issued>, c: Call, key: Key): Option<Issued> {
    if IssuesCode(c.event, key) then Some(Issued(c.event.newCode, c.now, 0, 0))
    else if ChecksUnder(c.event, key) then AfterGuess(before, Typed(c.event))
    else before
  }

  function AfterGuess(before: Option<Issued>, typed: Id): Option<Issued> {
    if before.None? then None
    else if typed == before.value.code then Some(before.value.(right := before.value.right + 1))
    else Some(before.value.(wrong := before.value.wrong + 1))
  }

  /** The code is younger than eight minutes, was not typed yet, and met fewer than five wrong guesses. */
  predicate Open(i: Option<Issued>, now: int) {
    i.Some? && now < i.value.at + 480_000 && i.value.right == 0 && i.value.wrong < 5
  }

  /** The store and the calls tell the same about a key: its row is the latest code while that one is alive. */
  predicate CodeTold(st: State, i: Option<Issued>, key: Key, clock: int) {
    && (key in st.otps ==>
          i.Some? && i.value.right == 0 && i.value.wrong <= 5
          && st.otps[key] == Challenge(i.value.code, i.value.at + 480_000, i.value.wrong))
    && (key !in st.otps && i.Some? ==> i.value.right > 0 || i.value.wrong > 5 || i.value.at + 480_000 <= clock)
  }

  lemma TryKeepsCodeTold(st: State, i: Option<Issued>, key: Key, otp: Id, clock: int, now: int)
    requires CodeTold(st, i, key, clock) && clock <= now && !key.ResetToken?
    ensures var (next, outcome) := TryCode(st, key, otp, now);
      && CodeTold(next, AfterGuess(i, otp), key, now)
      && (outcome == CodeAccepted <==> Open(i, now) && otp == i.value.code)
      && (outcome == Invalid <==> Open(i, now) && otp != i.value.code)
      && (outcome == Locked <==> i.Some? && now < i.value.at + 480_000 && i.value.right == 0 && i.value.wrong == 5)
      && (outcome == CodeAccepted || outcome == Invalid || outcome == Locked || outcome == Expired)
  {
  }

  /** Trying a code under one key leaves the other key alone. */
  lemma TryLeavesOthers(st: State, key: Key, otp: Id, now: int, other: Key)
    requires other != key
    ensures var next := TryCode(st, key, otp, now).0;
      (other in next.otps <==> other in st.otps) && (other in st.otps ==> next.otps[other] == st.otps[other])
  {
  }

  lemma IssueTells(st: State, i: Option<Issued>, key: Key, issued: Key, code: Id, clock: int, now: int)
    requires CodeTold(st, i, key, clock) && clock <= now
    ensures CodeTold(Issue(st, issued, code, now), if key == issued then Some(Issued(code, now, 0, 0)) else i, key, now)
  {
  }

  lemma StepTellsCode(st: State, i: Option<Issued>, key: Key, c: Call, clock: int)
    requires (key == LoginCode || key == ResetCode) && CodeTold(st, i, key, clock) && clock <= c.now
    ensures CodeTold(After(st, c.event, c.now).0, AfterCall(i, c, key), key, c.now)
  {
    match c.event
    case Login(None, code) => IssueTells(st, i, key, LoginCode, code, clock, c.now);
    case RequestReset(admin, code) => IssueTells(st, i, key, ResetCode, code, clock, c.now);
    case Login(Some(otp), _) =>
      if key == LoginCode {
        TryKeepsCodeTold(st, i, key, otp, clock, c.now);
      } else {
        TryLeavesOthers(st, LoginCode, otp, c.now, key);
      }
    case VerifyReset(_, otp, _, _) =>
      if key == ResetCode {
        TryKeepsCodeTold(st, i, key, otp, clock, c.now);
      } else {
        TryLeavesOthers(st, ResetCode, otp, c.now, key);
      }
    case ConfirmReset(_, _, _) =>
  }

  /** The time of the last call. */
  function Clock(calls: seq<Call>): int {
    if calls == [] then 0 else calls[|calls| - 1].now
  }

  lemma {:induction false} CodesAreTold(calls: seq<Call>, key: Key)
    requires InOrder(calls) && (key == LoginCode || key == ResetCode)
    ensures CodeTold(Run(calls), LatestCode(calls, key), key, Clock(calls))
  {
    if calls != [] {
      var earlier, last := calls[..|calls| - 1], calls[|calls| - 1];
      CodesAreTold(earlier, key);
      if earlier == [] {
        StepTellsCode(INITIAL, None, key, last, last.now);
      } else {
        StepTellsCode(Run(earlier), LatestCode(earlier, key), key, last, Clock(earlier));
      }
    }
  }

  /** A reset token, when it was handed out, and how often it has been presented since. */
  datatype Granted = Granted(token: Id, at: int, used: nat)

  /** The latest token handed out under an id, told by the calls alone. */
  function LatestToken(calls: seq<Call>, jti: Id): Option<Granted> {
    if calls == [] then None
    else
      var earlier, c := calls[..|calls| - 1], calls[|calls| - 1];
      AfterTokenCall(LatestToken(earlier, jti), LatestCode(earlier, ResetCode), c, jti)
  }

  function AfterTokenCall(before: Option<Granted>, code: Option<Issued>, c: Call, jti: Id): Option<Granted> {
    if c.event.VerifyReset? && c.event.admin && c.event.jti == jti && Open(code, c.now) && c.event.otp == code.value.code
      then Some(Granted(c.event.token, c.now, 0))
    else if c.event.ConfirmReset? && c.event.signed && c.event.jti == jti && before.Some? && c.event.token == before.value.token
      then Some(before.value.(used := before.value.used + 1))
    else before
  }

  predicate TokenTold(st: State, g: Option<Granted>, jti: Id, clock: int) {
    var key := ResetToken(jti);
    && (key in st.otps ==>
          g.Some? && g.value.used == 0
          && st.otps[key].secret == g.value.token && st.otps[key].expiresAt == g.value.at + 480_000)
    && (key !in st.otps && g.Some? ==> g.value.used > 0 || g.value.at + 480_000 <= clock)
  }

  lemma IssueTellsToken(st: State, g: Option<Granted>, jti: Id, issued: Key, code: Id, clock: int, now: int)
    requires TokenTold(st, g, jti, clock) && clock <= now && !issued.ResetToken?
    ensures TokenTold(Issue(st, issued, code, now), g, jti, now)
  {
  }

  lemma VerifyTellsToken(st: State, g: Option<Granted>, i: Option<Issued>, jti: Id, c: Call, clock: int)
    requires TokenTold(st, g, jti, clock) && CodeTold(st, i, ResetCode, clock) && clock <= c.now && c.event.VerifyReset? && c.event.admin
    ensures TokenTold(After(st, c.event, c.now).0, AfterTokenCall(g, i, c, jti), jti, c.now)
  {
    TryKeepsCodeTold(st, i, ResetCode, c.event.otp, clock, c.now);
    TryLeavesOthers(st, ResetCode, c.event.otp, c.now, ResetToken(jti));
  }

  lemma ConfirmTellsToken(st: State, g: Option<Granted>, i: Option<Issued>, jti: Id, c: Call, clock: int)
    requires TokenTold(st, g, jti, clock) && clock <= c.now && c.event.ConfirmReset? && c.event.signed
    ensures TokenTold(After(st, c.event, c.now).0, AfterTokenCall(g, i, c, jti), jti, c.now)
  {
  }

  lemma StepTellsToken(st: State, g: Option<Granted>, i: Option<Issued>, jti: Id, c: Call, clock: int)
    requires TokenTold(st, g, jti, clock) && CodeTold(st, i, ResetCode, clock) && clock <= c.now
    ensures TokenTold(After(st, c.event, c.now).0, AfterTokenCall(g, i, c, jti), jti, c.now)
  {
    match c.event
    case Login(None, code) => IssueTellsToken(st, g, jti, LoginCode, code, clock, c.now);
    case RequestReset(admin, code) => IssueTellsToken(st, g, jti, ResetCode, code, clock, c.now);
    case Login(Some(otp), _) => TryLeavesOthers(st, LoginCode, otp, c.now, ResetToken(jti));
    case VerifyReset(admin, _, _, _) =>
      if admin {
        VerifyTellsToken(st, g, i, jti, c, clock);
      }
    case ConfirmReset(signed, _, _) =>
      if signed {
        ConfirmTellsToken(st, g, i, jti, c, clock);
      }
  }

  lemma {:induction false} TokensAreTold(calls: seq<Call>, jti: Id)
    requires InOrder(calls)
    ensures TokenTold(Run(calls), LatestToken(calls, jti), jti, Clock(calls))
  {
    if calls != [] {
      var earlier, last := calls[..|calls| - 1], calls[|calls| - 1];
      TokensAreTold(earlier, jti);
      CodesAreTold(earlier, ResetCode);
      if earlier == [] {
        StepTellsToken(INITIAL, None, None, jti, last, last.now);
      } else {
        StepTellsToken(Run(earlier), LatestToken(earlier, jti), LatestCode(earlier, ResetCode), jti, last, Clock(earlier));
      }
    }
  }

  /**
   In every serial run with a clock that does not go back, told by the calls alone: a code check succeeds
   exactly when the typed code is the latest one sent under its key, sent less than 480000 milliseconds
   ago, not typed since and after fewer than five wrong ones; it is answered invalid exactly when only
   the code differs, and locked exactly at the first check after the fifth wrong one.
   */
  lemma CodesAcceptedIff(calls: seq<Call>, key: Key)
    requires calls != [] && InOrder(calls) && (key == LoginCode || key == ResetCode)
    requires ChecksUnder(calls[|calls| - 1].event, key)
    ensures var last, i := calls[|calls| - 1], LatestCode(calls[..|calls| - 1], key);
      var typed, answer := Typed(last.event), LastOutcome(calls);
      && (answer == (if key == LoginCode then CodeAccepted else TokenIssued) <==> Open(i, last.now) && typed == i.value.code)
      && (answer == Invalid <==> Open(i, last.now) && typed != i.value.code)
      && (answer == Locked <==> i.Some? && last.now < i.value.at + 480_000 && i.value.right == 0 && i.value.wrong == 5)
  {
    var earlier, last := calls[..|calls| - 1], calls[|calls| - 1];
    CodesAreTold(earlier, key);
    var clock := if earlier == [] then last.now else Clock(earlier);
    TryKeepsCodeTold(Run(earlier), LatestCode(earlier, key), key, Typed(last.event), clock, last.now);
  }

  /**
   In the same runs a password is changed exactly when the presented token is signed and is the latest one
   handed out under its id, less than 480000 milliseconds ago and never presented before.
   */
  lemma PasswordChangedIff(calls: seq<Call>)
    requires calls != [] && InOrder(calls) && calls[|calls| - 1].event.ConfirmReset?
    ensures var last := calls[|calls| - 1]; var g := LatestToken(calls[..|calls| - 1], last.event.jti);
      LastOutcome(calls) == PasswordChanged <==>
        last.event.signed && g.Some? && last.now < g.value.at + 480_000 && g.value.used == 0 && last.event.token == g.value.token
  {
    var earlier, last := calls[..|calls| - 1], calls[|calls| - 1];
    TokensAreTold(earlier, last.event.jti);
  }

  // ---------------------------------------------------------------- the service

  /** The challenge rows, changed in place; the history of issued codes is for the specification only. */
  class PlatformAdminAuth {
    var otps: map<Key, Challenge>
    ghost var issues: map<Key, nat>
    ghost var fates: seq<Fate>
    ghost var resetCodes: nat
    ghost var verifications: nat
    ghost var passwordChanges: nat

    ghost function Now(): State
      reads this
    {
      State(otps, issues, fates, resetCodes, verifications, passwordChanges)
    }

    constructor ()
      ensures Now() == INITIAL
    {
      otps, issues, fates := map[], map[], [];
      resetCodes, verifications, passwordChanges := 0, 0, 0;
    }

    method FindActiveOtp(key: Key, now: int) returns (r: Option<Challenge>)
      ensures r == Active(Now(), key, now)
    {
      r := if key in otps && otps[key].expiresAt > now then Some(otps[key]) else None;
    }

    method DeleteOtp(key: Key)
      modifies this`otps
      ensures Now() == Delete(old(Now()), key)
    {
      otps := otps - {key};
    }

    method IncrementOtpAttempts(key: Key)
      requires key in otps
      modifies this`otps, this`fates
      ensures Now() == Missed(old(Now()), key)
    {
      otps := otps[key := otps[key].(attempts := otps[key].attempts + 1)];
      if !key.ResetToken? {
        fates := Noted(fates, issues, key, 1, 0);
      }
    }

    /** The deletion that follows an accepted code. */
    method UseOtp(key: Key)
      requires key in otps
      modifies this`otps, this`fates
      ensures Now() == Accepted(old(Now()), key)
    {
      fates := Noted(fates, issues, key, 0, 1);
      DeleteOtp(key);
    }

    method IssueOtp(key: Key, code: Id, now: int)
      modifies this
      ensures Now() == Issue(old(Now()), key, code, now)
    {
      otps := Unexpired(otps, now);
      otps := otps[key := Challenge(code, now + TTL, 0)];
      issues := issues[key := |fates|];
      fates := fates + [Fate(0, 0)];
      if key.ResetCode? {
        resetCodes := resetCodes + 1;
      }
    }

    /** `login` once e-mail and password are right. */
    method Login(typed: Option<Id>, newCode: Id, now: int) returns (outcome: Outcome)
      modifies this
      ensures (Now(), outcome) == After(old(Now()), Event.Login(typed, newCode), now)
    {
      var challenge := FindActiveOtp(LoginCode, now);
      if typed.None? {
        IssueOtp(LoginCode, newCode, now);
        return CodeSent;
      }
      if challenge.None? {
        DeleteOtp(LoginCode);
        return Expired;
      }
      if challenge.value.attempts >= MAX_WRONG {
        DeleteOtp(LoginCode);
        return Locked;
      }
      if challenge.value.secret != typed.value {
        IncrementOtpAttempts(LoginCode);
        return Invalid;
      }
      UseOtp(LoginCode);
      return CodeAccepted;
    }

    method RequestPasswordReset(admin: bool, newCode: Id, now: int) returns (outcome: Outcome)
      modifies this
      ensures (Now(), outcome) == After(old(Now()), RequestReset(admin, newCode), now)
    {
      outcome := Silent;
      if admin {
        IssueOtp(ResetCode, newCode, now);
      }
    }

    /** `assertValidPasswordResetOtp`: an accepted code is still stored. */
    method AssertValidPasswordResetOtp(otp: Id, now: int) returns (outcome: Outcome)
      modifies this`otps, this`fates
      ensures outcome == TryCode(old(Now()), ResetCode, otp, now).1
      ensures if outcome == CodeAccepted then Now() == old(Now()) && ResetCode in otps
              else Now() == TryCode(old(Now()), ResetCode, otp, now).0
    {
      var challenge := FindActiveOtp(ResetCode, now);
      if challenge.None? {
        DeleteOtp(ResetCode);
        return Expired;
      }
      if challenge.value.attempts >= MAX_WRONG {
        DeleteOtp(ResetCode);
        return Locked;
      }
      if challenge.value.secret != otp {
        IncrementOtpAttempts(ResetCode);
        return Invalid;
      }
      return CodeAccepted;
    }

    method VerifyPasswordReset(admin: bool, otp: Id, jti: Id, token: Id, now: int) returns (outcome: Outcome)
      modifies this
      ensures (Now(), outcome) == After(old(Now()), VerifyReset(admin, otp, jti, token), now)
    {
      if !admin {
        return Invalid;
      }
      outcome := AssertValidPasswordResetOtp(otp, now);
      if outcome == CodeAccepted {
        UseOtp(ResetCode);
        otps := otps[ResetToken(jti) := Challenge(token, now + TTL, 0)];
        verifications := verifications + 1;
        outcome := TokenIssued;
      }
    }

    method ConfirmPasswordReset(signed: bool, jti: Id, token: Id, now: int) returns (outcome: Outcome)
      modifies this
      ensures (Now(), outcome) == After(old(Now()), ConfirmReset(signed, jti, token), now)
    {
      if !signed {
        return Invalid;
      }
      var key := ResetToken(jti);
      var challenge := FindActiveOtp(key, now);
      if challenge.None? {
        DeleteOtp(key);
        return Expired;
      }
      if challenge.value.secret != token {
        IncrementOtpAttempts(key);
        return Invalid;
      }
      DeleteOtp(key);
      passwordChanges := passwordChanges + 1;
      return PasswordChanged;
    }
  }
}

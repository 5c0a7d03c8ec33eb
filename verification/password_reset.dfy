/**
 * Password reset by one-time code. A registered user asks for a code: every
 * code of theirs still usable is spent, a fresh four-digit code is drawn, its
 * SHA-256 hex is stored with an expiry and the code is mailed. The user then
 * sends the code with a new password: a wrong code counts a failed attempt
 * and locks the code at the configured maximum, a right one replaces the
 * password and spends every usable code of the user.
 *
 * The pure functions over `Tables` say what each call does; the class
 * `PasswordResetService` does it step by step and is proved to match them.
 * The clock, the random draw, SHA-256, the password encoder and the mail
 * server's answer are parameters.
 */
module PasswordReset {
  import opened Options
  import opened Http
  import opened Text

  const MinPasswordLength: nat := 8

  /** `LocalDateTime` counts nanoseconds; `plusMinutes(m)` adds this many per minute. */
  const NanosPerMinute: int := 60_000_000_000

  /** SHA-256 of the code's UTF-8 bytes, as lower-case hex. */
  type Sha = string -> string

  /** The password encoder. */
  type Encoder = string -> string

  /** The two properties the service reads at start-up. */
  datatype ResetConfig = ResetConfig(otpExpiryMinutes: int, maxOtpAttempts: int)

  /** The part of a `User` row the reset reads or writes. */
  datatype Account = Account(id: int, fname: string, email: string, password: string)

  /** A `PasswordResetOtp` row. */
  datatype Otp = Otp(userId: int, otpHash: string, expiresAt: int, used: bool, usedAt: Option<int>, createdAt: int,
                     failedAttempts: int)

  /**
   * The two tables: accounts under their lower-cased e-mail (which is what
   * `findByEmailIgnoreCase` of a lower-cased address finds) and the codes in
   * insertion order.
   */
  datatype Tables = Tables(users: map<string, Account>, otps: seq<Otp>)

  datatype ForgotRequest = ForgotRequest(email: Option<string>)

  datatype ResetRequest = ResetRequest(email: Option<string>, otp: Option<string>, newPassword: Option<string>,
                                       confirmPassword: Option<string>)

  /** The response bodies. */
  datatype Message =
    | EmailRequired | OtpSentIfRegistered | UnableToSend
    | FieldsRequired | PasswordsDiffer | PasswordTooShort | InvalidOtpOrEmail | InvalidOrExpiredOtp
    | OtpLocked | InvalidOtp | ResetSuccessful

  datatype Reply = Reply(status: int, message: Message)

  datatype ResetOutcome = ResetOutcome(reply: Reply, tables: Tables)

  /** The accounts are filed under their own lower-cased address. */
  predicate KeyedByEmail(users: map<string, Account>)
  {
    forall k :: k in users ==> ToLower(users[k].email) == k
  }

  /** The lookup key of a request's address: `trim().toLowerCase()`. */
  function EmailKey(email: string): (r: string)
    ensures |r| <= |email| && ToLower(r) == r
  {
    ToLowerIdempotent(Trim(email));
    ToLower(Trim(email))
  }

  // ---------------------------------------------------------------- codes

  /** What the two queries select: the user's code, not used, expiring strictly after `now`. */
  predicate Active(o: Otp, userId: int, now: int)
  {
    o.userId == userId && !o.used && o.expiresAt > now
  }

  /** No code of the user is usable at `now`. */
  predicate NoneActive(otps: seq<Otp>, userId: int, now: int)
  {
    forall i :: 0 <= i < |otps| ==> !Active(otps[i], userId, now)
  }

  /** `setUsed(true)` and `setUsedAt(now)`. */
  function Spent(o: Otp, now: int): (r: Otp)
    ensures r.used && r.usedAt == Some(now)
    ensures r.userId == o.userId && r.otpHash == o.otpHash && r.failedAttempts == o.failedAttempts
  {
    o.(used := true, usedAt := Some(now))
  }

  /** One row after `invalidateActiveOtps`: spent if the query selected it, as it was otherwise. */
  function Invalidated(o: Otp, userId: int, now: int): Otp
  {
    if Active(o, userId, now) then Spent(o, now) else o
  }

  /** Every row after `invalidateActiveOtps`. */
  function InvalidateAll(otps: seq<Otp>, userId: int, now: int): (r: seq<Otp>)
    ensures |r| == |otps|
  {
    seq(|otps|, i requires 0 <= i < |otps| => Invalidated(otps[i], userId, now))
  }

  /**
   * After invalidation the user has no usable code, and the only rows that
   * changed are the user's usable codes, now spent at `now`.
   */
  lemma InvalidateSpendsExactlyTheActive(otps: seq<Otp>, userId: int, now: int)
    ensures NoneActive(InvalidateAll(otps, userId, now), userId, now)
    ensures forall i :: 0 <= i < |otps| ==>
              InvalidateAll(otps, userId, now)[i] == if Active(otps[i], userId, now) then Spent(otps[i], now) else otps[i]
  {
    var r := InvalidateAll(otps, userId, now);
    forall i | 0 <= i < |otps|
      ensures !Active(r[i], userId, now)
    {
      assert r[i] == Invalidated(otps[i], userId, now);
    }
  }

  /**
   * `findTopByUserAndUsedFalseAndExpiresAtAfterOrderByCreatedAtDesc`: the
   * position of the user's newest usable code. Among codes created at the same
   * instant the later row is taken.
   */
  function LatestActive(otps: seq<Otp>, userId: int, now: int): (r: Option<nat>)
    ensures r.Some? ==> r.value < |otps| && Active(otps[r.value], userId, now)
    ensures r.Some? ==> forall j :: 0 <= j < |otps| && Active(otps[j], userId, now) ==>
                                      otps[j].createdAt <= otps[r.value].createdAt
    ensures r.None? <==> NoneActive(otps, userId, now)
  {
    if otps == [] then None
    else
      var last := |otps| - 1;
      var front := otps[..last];
      var r := LatestActive(front, userId, now);
      assert forall j :: 0 <= j < last ==> front[j] == otps[j];
      if Active(otps[last], userId, now) && (r.None? || otps[r.value].createdAt <= otps[last].createdAt) then
        Some(last)
      else
        r
  }

  /**
   * The `isBefore(now)` branch of `resetPasswordWithOtp` is dead: the query
   * only returns codes expiring after `now`, so the code it found is never
   * already expired.
   */
  lemma FoundCodeIsNeverExpired(otps: seq<Otp>, userId: int, now: int)
    requires LatestActive(otps, userId, now).Some?
    ensures !(otps[LatestActive(otps, userId, now).value].expiresAt < now)
  {
  }

  /** `generateOtp`: `1000 + nextInt(9000)` printed in decimal, for a draw in [0, 9000). */
  function GenerateOtp(draw: int): (r: string)
    requires 0 <= draw < 9000
    ensures |r| == 4 && forall i :: 0 <= i < |r| ==> IsDigit(r[i])
    ensures 1000 <= DigitsValue(r) <= 9999 && DigitsValue(r) == 1000 + draw
  {
    FourDigits(1000 + draw);
    NatToStringRoundTrip(1000 + draw);
    NatToString(1000 + draw)
  }

  // ---------------------------------------------------------------- requesting a code

  /** The row `requestPasswordResetOtp` saves. */
  function FreshOtp(config: ResetConfig, userId: int, otpHash: string, now: int): (o: Otp)
    ensures o.userId == userId && o.otpHash == otpHash && !o.used && o.usedAt.None? && o.failedAttempts == 0
    ensures o.createdAt == now && o.expiresAt == now + config.otpExpiryMinutes * NanosPerMinute
  {
    Otp(userId, otpHash, now + config.otpExpiryMinutes * NanosPerMinute, false, None, now, 0)
  }

  /**
   * The registered-user path: spend the user's usable codes, store the new
   * one, and if the mail cannot be sent delete it again and answer 500. The
   * spent codes stay spent: the exception is caught, so the transaction commits.
   */
  function IssueOtp(t: Tables, config: ResetConfig, userId: int, now: int, draw: int, sha: Sha, delivered: bool)
    : (r: ResetOutcome)
    requires 0 <= draw < 9000
    ensures r.tables.users == t.users
    ensures delivered ==> r.reply == Reply(OK, OtpSentIfRegistered)
                          && r.tables.otps == InvalidateAll(t.otps, userId, now)
                                              + [FreshOtp(config, userId, sha(GenerateOtp(draw)), now)]
    ensures !delivered ==> r.reply == Reply(INTERNAL_SERVER_ERROR, UnableToSend)
                           && r.tables.otps == InvalidateAll(t.otps, userId, now)
  {
    var kept := InvalidateAll(t.otps, userId, now);
    var saved := kept + [FreshOtp(config, userId, sha(GenerateOtp(draw)), now)];
    if delivered then ResetOutcome(Reply(OK, OtpSentIfRegistered), t.(otps := saved))
    else
      assert saved[..|saved| - 1] == kept;
      ResetOutcome(Reply(INTERNAL_SERVER_ERROR, UnableToSend), t.(otps := saved[..|saved| - 1]))
  }

  /**
   * `requestPasswordResetOtp`. `draw` is the random number, `delivered`
   * whether the mail server accepted the message.
   */
  function RequestOtp(t: Tables, config: ResetConfig, request: Option<ForgotRequest>, now: int, draw: int, sha: Sha,
                      delivered: bool): (r: ResetOutcome)
    requires 0 <= draw < 9000
    ensures r.reply.status in {OK, BAD_REQUEST, INTERNAL_SERVER_ERROR}
  {
    if request.None? || IsBlank(request.value.email) then ResetOutcome(Reply(BAD_REQUEST, EmailRequired), t)
    else
      var email := EmailKey(request.value.email.value);
      if email !in t.users then ResetOutcome(Reply(OK, OtpSentIfRegistered), t)
      else IssueOtp(t, config, t.users[email].id, now, draw, sha, delivered)
  }

  /**
   * A blank address is refused, and an unregistered one gets the very answer
   * a delivered code gets while nothing is stored, so the reply does not
   * reveal which addresses have accounts.
   */
  lemma RequestOtpDoesNotRevealAccounts(t: Tables, config: ResetConfig, request: Option<ForgotRequest>, now: int,
                                        draw: int, sha: Sha, delivered: bool)
    requires 0 <= draw < 9000
    ensures var r := RequestOtp(t, config, request, now, draw, sha, delivered);
      && (r.reply.status == BAD_REQUEST <==> request.None? || IsBlank(request.value.email))
      && (r.reply.status == BAD_REQUEST ==> r.tables == t)
      && (request.Some? && !IsBlank(request.value.email) && EmailKey(request.value.email.value) !in t.users ==>
            r == ResetOutcome(Reply(OK, OtpSentIfRegistered), t))
      && (r.reply.status == OK <==> request.Some? && !IsBlank(request.value.email)
                                    && (EmailKey(request.value.email.value) in t.users ==> delivered))
  {
    var r := RequestOtp(t, config, request, now, draw, sha, delivered);
    if request.None? || IsBlank(request.value.email) {
      assert r == ResetOutcome(Reply(BAD_REQUEST, EmailRequired), t);
    } else {
      var email := EmailKey(request.value.email.value);
      if email !in t.users {
        assert r == ResetOutcome(Reply(OK, OtpSentIfRegistered), t);
      } else {
        var issued := IssueOtp(t, config, t.users[email].id, now, draw, sha, delivered);
        assert r == issued;
        assert issued.reply.status == if delivered then OK else INTERNAL_SERVER_ERROR;
      }
    }
  }

  /**
   * A delivered code is the user's only usable one: it is the new last row,
   * unused, with no failed attempts, expiring the configured number of
   * minutes from now and holding the hash of the mailed digits.
   */
  lemma RequestOtpLeavesOneUsableCode(t: Tables, config: ResetConfig, email: string, now: int, draw: int, sha: Sha)
    requires 0 <= draw < 9000 && config.otpExpiryMinutes > 0
    requires !IsBlank(Some(email)) && EmailKey(email) in t.users
    ensures var r := RequestOtp(t, config, Some(ForgotRequest(Some(email))), now, draw, sha, true);
      var id := t.users[EmailKey(email)].id;
      && r.reply == Reply(OK, OtpSentIfRegistered)
      && |r.tables.otps| == |t.otps| + 1
      && r.tables.otps[|t.otps|] == FreshOtp(config, id, sha(GenerateOtp(draw)), now)
      && Active(r.tables.otps[|t.otps|], id, now)
      && NoneActive(r.tables.otps[..|t.otps|], id, now)
      && LatestActive(r.tables.otps, id, now) == Some(|t.otps|)
  {
    var id := t.users[EmailKey(email)].id;
    var r := RequestOtp(t, config, Some(ForgotRequest(Some(email))), now, draw, sha, true);
    assert r == IssueOtp(t, config, id, now, draw, sha, true);
    var kept := InvalidateAll(t.otps, id, now);
    InvalidateSpendsExactlyTheActive(t.otps, id, now);
    assert r.tables.otps[..|t.otps|] == kept;
    assert NanosPerMinute > 0;
  }

  /**
   * When the mail cannot be sent the answer is 500 and the user is left with
   * no usable code at all: the new one is deleted and the earlier ones were
   * already spent.
   */
  lemma FailedDeliveryLeavesNoUsableCode(t: Tables, config: ResetConfig, email: string, now: int, draw: int, sha: Sha)
    requires 0 <= draw < 9000
    requires !IsBlank(Some(email)) && EmailKey(email) in t.users
    ensures var r := RequestOtp(t, config, Some(ForgotRequest(Some(email))), now, draw, sha, false);
      && r.reply == Reply(INTERNAL_SERVER_ERROR, UnableToSend)
      && r.tables.users == t.users
      && NoneActive(r.tables.otps, t.users[EmailKey(email)].id, now)
  {
    var id := t.users[EmailKey(email)].id;
    assert RequestOtp(t, config, Some(ForgotRequest(Some(email))), now, draw, sha, false)
        == IssueOtp(t, config, id, now, draw, sha, false);
    InvalidateSpendsExactlyTheActive(t.otps, id, now);
  }

  // ---------------------------------------------------------------- resetting the password

  /** A wrong code: one more failed attempt, and the code is spent once the count reaches the maximum. */
  function WrongAttempt(t: Tables, config: ResetConfig, k: nat, now: int): (r: ResetOutcome)
    requires k < |t.otps|
    ensures r.tables.users == t.users && |r.tables.otps| == |t.otps|
    ensures forall j :: 0 <= j < |t.otps| && j != k ==> r.tables.otps[j] == t.otps[j]
    ensures var before, after := t.otps[k], r.tables.otps[k];
      && after.failedAttempts == before.failedAttempts + 1
      && after.userId == before.userId && after.otpHash == before.otpHash && after.expiresAt == before.expiresAt
      && (after.failedAttempts >= config.maxOtpAttempts ==> after.used && after.usedAt == Some(now))
      && (after.failedAttempts < config.maxOtpAttempts ==> after.used == before.used && after.usedAt == before.usedAt)
    ensures r.reply.status == BAD_REQUEST
    ensures r.reply.message == OtpLocked <==> t.otps[k].failedAttempts + 1 >= config.maxOtpAttempts
  {
    var failedAttempts := t.otps[k].failedAttempts + 1;
    var counted := t.otps[k].(failedAttempts := failedAttempts);
    var saved := if failedAttempts >= config.maxOtpAttempts then Spent(counted, now) else counted;
    ResetOutcome(Reply(BAD_REQUEST, if failedAttempts >= config.maxOtpAttempts then OtpLocked else InvalidOtp),
                 t.(otps := t.otps[k := saved]))
  }

  /** The right code: the new password encoded, this code spent, then every other usable code of the user. */
  function AcceptReset(t: Tables, email: string, k: nat, newPassword: string, now: int, encode: Encoder)
    : (r: ResetOutcome)
    requires email in t.users && k < |t.otps|
    ensures r.reply == Reply(OK, ResetSuccessful)
    ensures r.tables.users == t.users[email := t.users[email].(password := encode(newPassword))]
    ensures r.tables.otps == InvalidateAll(t.otps[k := Spent(t.otps[k], now)], t.users[email].id, now)
  {
    var user := t.users[email];
    ResetOutcome(Reply(OK, ResetSuccessful),
                 Tables(t.users[email := user.(password := encode(newPassword))],
                        InvalidateAll(t.otps[k := Spent(t.otps[k], now)], user.id, now)))
  }

  /** The checks `resetPasswordWithOtp` makes before it reads any table. */
  function ResetRequestProblem(request: Option<ResetRequest>): (r: Option<Message>)
    ensures r.None? <==> request.Some? && !IsBlank(request.value.email) && !IsBlank(request.value.otp)
                         && !IsBlank(request.value.newPassword) && !IsBlank(request.value.confirmPassword)
                         && request.value.newPassword == request.value.confirmPassword
                         && |request.value.newPassword.value| >= MinPasswordLength
  {
    if request.None? || IsBlank(request.value.email) || IsBlank(request.value.otp)
       || IsBlank(request.value.newPassword) || IsBlank(request.value.confirmPassword) then Some(FieldsRequired)
    else if request.value.newPassword.value != request.value.confirmPassword.value then Some(PasswordsDiffer)
    else if |request.value.newPassword.value| < MinPasswordLength then Some(PasswordTooShort)
    else None
  }

  /** `resetPasswordWithOtp`; `sha` hashes the trimmed code, `encode` the new password. */
  function ResetPassword(t: Tables, config: ResetConfig, request: Option<ResetRequest>, now: int, sha: Sha,
                         encode: Encoder): (r: ResetOutcome)
    ensures r.reply.status in {OK, BAD_REQUEST}
  {
    var problem := ResetRequestProblem(request);
    if problem.Some? then ResetOutcome(Reply(BAD_REQUEST, problem.value), t)
    else
      var q := request.value;
      var email := EmailKey(q.email.value);
      if email !in t.users then ResetOutcome(Reply(BAD_REQUEST, InvalidOtpOrEmail), t)
      else
        var found := LatestActive(t.otps, t.users[email].id, now);
        if found.None? then ResetOutcome(Reply(BAD_REQUEST, InvalidOrExpiredOtp), t)
        else if sha(Trim(q.otp.value)) != t.otps[found.value].otpHash then WrongAttempt(t, config, found.value, now)
        else AcceptReset(t, email, found.value, q.newPassword.value, now, encode)
  }

  /** Once the request is well formed and a usable code is found, the hash comparison decides. */
  lemma ResetDispatch(t: Tables, config: ResetConfig, q: ResetRequest, now: int, sha: Sha, encode: Encoder)
    requires ResetRequestProblem(Some(q)).None? && EmailKey(q.email.value) in t.users
    requires LatestActive(t.otps, t.users[EmailKey(q.email.value)].id, now).Some?
    ensures var email := EmailKey(q.email.value);
      var k := LatestActive(t.otps, t.users[email].id, now).value;
      ResetPassword(t, config, Some(q), now, sha, encode) ==
        if sha(Trim(q.otp.value)) != t.otps[k].otpHash then WrongAttempt(t, config, k, now)
        else AcceptReset(t, email, k, q.newPassword.value, now, encode)
  {
  }

  /**
   * Missing fields, differing passwords and a password under eight
   * characters are refused with 400 whatever the tables hold, and nothing is
   * written.
   */
  lemma ResetChecksRequestFirst(t: Tables, config: ResetConfig, request: Option<ResetRequest>, now: int, sha: Sha,
                                encode: Encoder)
    requires ResetRequestProblem(request).Some?
    ensures ResetPassword(t, config, request, now, sha, encode) ==
              ResetOutcome(Reply(BAD_REQUEST, ResetRequestProblem(request).value), t)
    ensures request.Some? && !IsBlank(request.value.newPassword) && request.value.newPassword == request.value.confirmPassword
            && !IsBlank(request.value.email) && !IsBlank(request.value.otp)
            ==> |request.value.newPassword.value| < MinPasswordLength
  {
  }

  /** Only a 200 changes a password, and then only the requesting user's, to the encoded new password. */
  lemma ResetChangesOnlyTheRequestersPassword(t: Tables, config: ResetConfig, request: Option<ResetRequest>, now: int,
                                              sha: Sha, encode: Encoder)
    ensures var r := ResetPassword(t, config, request, now, sha, encode);
      && (r.reply.status != OK ==> r.tables.users == t.users)
      && (r.reply.status == OK ==>
            && ResetRequestProblem(request).None?
            && var email := EmailKey(request.value.email.value);
            && email in t.users
            && r.tables.users == t.users[email := t.users[email].(password := encode(request.value.newPassword.value))])
  {
    var r := ResetPassword(t, config, request, now, sha, encode);
    if ResetRequestProblem(request).Some? {
      assert r.tables == t;
    } else {
      var q := request.value;
      var email := EmailKey(q.email.value);
      if email !in t.users {
        assert r.tables == t;
      } else {
        var found := LatestActive(t.otps, t.users[email].id, now);
        if found.None? {
          assert r.tables == t;
        } else {
          ResetDispatch(t, config, q, now, sha, encode);
          if sha(Trim(q.otp.value)) != t.otps[found.value].otpHash {
            assert r == WrongAttempt(t, config, found.value, now);
          } else {
            assert r == AcceptReset(t, email, found.value, q.newPassword.value, now, encode);
          }
        }
      }
    }
  }

  /**
   * A wrong code against the user's newest usable code adds one failed
   * attempt to that code alone, and locks it exactly when the count reaches
   * the maximum, which the message then says.
   */
  lemma WrongCodeCountsAndLocks(t: Tables, config: ResetConfig, q: ResetRequest, now: int, sha: Sha, encode: Encoder)
    requires ResetRequestProblem(Some(q)).None? && EmailKey(q.email.value) in t.users
    requires var found := LatestActive(t.otps, t.users[EmailKey(q.email.value)].id, now);
      found.Some? && sha(Trim(q.otp.value)) != t.otps[found.value].otpHash
    ensures var k := LatestActive(t.otps, t.users[EmailKey(q.email.value)].id, now).value;
      var r := ResetPassword(t, config, Some(q), now, sha, encode);
      && r.reply.status == BAD_REQUEST
      && r.tables.users == t.users
      && |r.tables.otps| == |t.otps|
      && (forall j :: 0 <= j < |t.otps| && j != k ==> r.tables.otps[j] == t.otps[j])
      && r.tables.otps[k].failedAttempts == t.otps[k].failedAttempts + 1
      && (r.tables.otps[k].used <==> r.tables.otps[k].failedAttempts >= config.maxOtpAttempts)
      && (r.reply.message == OtpLocked <==> r.tables.otps[k].failedAttempts >= config.maxOtpAttempts)
  {
    var k := LatestActive(t.otps, t.users[EmailKey(q.email.value)].id, now).value;
    assert ResetPassword(t, config, Some(q), now, sha, encode) == WrongAttempt(t, config, k, now);
  }

  /**
   * A code works once: after a successful reset the same request, at that
   * instant or any later one, finds no usable code and is refused.
   */
  lemma CodeIsSingleUse(t: Tables, config: ResetConfig, q: ResetRequest, now: int, later: int, sha: Sha,
                        encode: Encoder)
    requires now <= later
    requires ResetPassword(t, config, Some(q), now, sha, encode).reply.status == OK
    ensures var t2 := ResetPassword(t, config, Some(q), now, sha, encode).tables;
      ResetPassword(t2, config, Some(q), later, sha, encode) == ResetOutcome(Reply(BAD_REQUEST, InvalidOrExpiredOtp), t2)
  {
    var email := EmailKey(q.email.value);
    var id := t.users[email].id;
    var k := LatestActive(t.otps, id, now).value;
    var r := ResetPassword(t, config, Some(q), now, sha, encode);
    assert r == AcceptReset(t, email, k, q.newPassword.value, now, encode);
    var marked := t.otps[k := Spent(t.otps[k], now)];
    InvalidateSpendsExactlyTheActive(marked, id, now);
    var t2 := r.tables;
    assert t2.users[email].id == id;
    forall i | 0 <= i < |t2.otps|
      ensures !Active(t2.otps[i], id, later)
    {
      assert !Active(t2.otps[i], id, now);
    }
  }

  /**
   * Every unspent code has fewer failed attempts than the maximum: no code
   * can be tried more than the maximum number of times.
   */
  predicate AttemptsBelowMax(otps: seq<Otp>, maxOtpAttempts: int)
  {
    forall i :: 0 <= i < |otps| && !otps[i].used ==> otps[i].failedAttempts < maxOtpAttempts
  }

  lemma InvalidateKeepsAttemptsBelowMax(otps: seq<Otp>, userId: int, now: int, maxOtpAttempts: int)
    requires AttemptsBelowMax(otps, maxOtpAttempts)
    ensures AttemptsBelowMax(InvalidateAll(otps, userId, now), maxOtpAttempts)
  {
    var r := InvalidateAll(otps, userId, now);
    forall i | 0 <= i < |r| && !r[i].used
      ensures r[i].failedAttempts < maxOtpAttempts
    {
      assert r[i] == Invalidated(otps[i], userId, now);
    }
  }

  /** Issuing a code keeps every unspent code under a maximum of at least one. */
  lemma IssueOtpKeepsAttemptsBelowMax(t: Tables, config: ResetConfig, userId: int, now: int, draw: int, sha: Sha,
                                      delivered: bool)
    requires 0 <= draw < 9000 && config.maxOtpAttempts >= 1
    requires AttemptsBelowMax(t.otps, config.maxOtpAttempts)
    ensures AttemptsBelowMax(IssueOtp(t, config, userId, now, draw, sha, delivered).tables.otps, config.maxOtpAttempts)
  {
    var otps := IssueOtp(t, config, userId, now, draw, sha, delivered).tables.otps;
    var kept := InvalidateAll(t.otps, userId, now);
    InvalidateKeepsAttemptsBelowMax(t.otps, userId, now, config.maxOtpAttempts);
    forall i | 0 <= i < |otps| && !otps[i].used
      ensures otps[i].failedAttempts < config.maxOtpAttempts
    {
      if i < |kept| {
        assert otps[i] == kept[i];
      }
    }
  }

  /** With a maximum of at least one, asking for a code keeps every unspent code under the maximum. */
  lemma RequestOtpKeepsAttemptsBelowMax(t: Tables, config: ResetConfig, request: Option<ForgotRequest>, now: int,
                                        draw: int, sha: Sha, delivered: bool)
    requires 0 <= draw < 9000 && config.maxOtpAttempts >= 1
    requires AttemptsBelowMax(t.otps, config.maxOtpAttempts)
    ensures AttemptsBelowMax(RequestOtp(t, config, request, now, draw, sha, delivered).tables.otps, config.maxOtpAttempts)
  {
    if request.Some? && !IsBlank(request.value.email) && EmailKey(request.value.email.value) in t.users {
      var id := t.users[EmailKey(request.value.email.value)].id;
      assert RequestOtp(t, config, request, now, draw, sha, delivered) == IssueOtp(t, config, id, now, draw, sha, delivered);
      IssueOtpKeepsAttemptsBelowMax(t, config, id, now, draw, sha, delivered);
    }
  }

  /** A wrong code counts one more failure and is spent when that reaches the maximum. */
  lemma WrongAttemptKeepsAttemptsBelowMax(t: Tables, config: ResetConfig, k: nat, now: int)
    requires k < |t.otps| && AttemptsBelowMax(t.otps, config.maxOtpAttempts)
    ensures AttemptsBelowMax(WrongAttempt(t, config, k, now).tables.otps, config.maxOtpAttempts)
  {
    var after := WrongAttempt(t, config, k, now).tables.otps;
    forall i | 0 <= i < |after| && !after[i].used
      ensures after[i].failedAttempts < config.maxOtpAttempts
    {
      if i != k {
        assert after[i] == t.otps[i];
      }
    }
  }

  /** A successful reset spends the code it used and every other usable code of the user. */
  lemma AcceptResetKeepsAttemptsBelowMax(t: Tables, email: string, k: nat, newPassword: string, now: int,
                                         encode: Encoder, maxOtpAttempts: int)
    requires email in t.users && k < |t.otps| && AttemptsBelowMax(t.otps, maxOtpAttempts)
    ensures AttemptsBelowMax(AcceptReset(t, email, k, newPassword, now, encode).tables.otps, maxOtpAttempts)
  {
    var spent := t.otps[k := Spent(t.otps[k], now)];
    assert AttemptsBelowMax(spent, maxOtpAttempts) by {
      forall i | 0 <= i < |spent| && !spent[i].used
        ensures spent[i].failedAttempts < maxOtpAttempts
      {
        assert spent[i] == t.otps[i];
      }
    }
    InvalidateKeepsAttemptsBelowMax(spent, t.users[email].id, now, maxOtpAttempts);
  }

  /** A reset attempt keeps every unspent code under the maximum: a wrong code is spent when it reaches it. */
  lemma ResetKeepsAttemptsBelowMax(t: Tables, config: ResetConfig, request: Option<ResetRequest>, now: int, sha: Sha,
                                   encode: Encoder)
    requires AttemptsBelowMax(t.otps, config.maxOtpAttempts)
    ensures AttemptsBelowMax(ResetPassword(t, config, request, now, sha, encode).tables.otps, config.maxOtpAttempts)
  {
    if ResetRequestProblem(request).None? {
      var q := request.value;
      var email := EmailKey(q.email.value);
      if email in t.users {
        var found := LatestActive(t.otps, t.users[email].id, now);
        if found.Some? {
          ResetDispatch(t, config, q, now, sha, encode);
          WrongAttemptKeepsAttemptsBelowMax(t, config, found.value, now);
          AcceptResetKeepsAttemptsBelowMax(t, email, found.value, q.newPassword.value, now, encode, config.maxOtpAttempts);
        }
      }
    }
  }

  /** Asking for a code leaves the accounts as they were. */
  lemma RequestOtpKeepsAccounts(t: Tables, config: ResetConfig, request: Option<ForgotRequest>, now: int, draw: int,
                                sha: Sha, delivered: bool)
    requires 0 <= draw < 9000
    ensures RequestOtp(t, config, request, now, draw, sha, delivered).tables.users == t.users
  {
    if request.Some? && !IsBlank(request.value.email) && EmailKey(request.value.email.value) in t.users {
      var id := t.users[EmailKey(request.value.email.value)].id;
      assert RequestOtp(t, config, request, now, draw, sha, delivered) == IssueOtp(t, config, id, now, draw, sha, delivered);
    }
  }

  /** A reset keeps every account under its own lower-cased address. */
  lemma ResetKeepsAccountsKeyed(t: Tables, config: ResetConfig, request: Option<ResetRequest>, now: int, sha: Sha,
                                encode: Encoder)
    requires KeyedByEmail(t.users)
    ensures var users := ResetPassword(t, config, request, now, sha, encode).tables.users;
      users.Keys == t.users.Keys && KeyedByEmail(users)
  {
    var r := ResetPassword(t, config, request, now, sha, encode);
    ResetChangesOnlyTheRequestersPassword(t, config, request, now, sha, encode);
    if r.reply.status == OK {
      var email := EmailKey(request.value.email.value);
      UpdatePasswordKeepsKeyed(t.users, email, encode(request.value.newPassword.value));
    }
  }

  /** Changing one account's password keeps the accounts and their keys. */
  lemma UpdatePasswordKeepsKeyed(users: map<string, Account>, email: string, password: string)
    requires KeyedByEmail(users) && email in users
    ensures var updated := users[email := users[email].(password := password)];
      updated.Keys == users.Keys && KeyedByEmail(updated)
  {
    var updated := users[email := users[email].(password := password)];
    assert updated.Keys == users.Keys;
  }

  // ---------------------------------------------------------------- the service

  class PasswordResetService {
    var users: map<string, Account>
    var otps: seq<Otp>
    const config: ResetConfig

    constructor (users: map<string, Account>, config: ResetConfig)
      ensures Snapshot() == Tables(users, []) && this.config == config
    {
      this.users := users;
      this.otps := [];
      this.config := config;
    }

    function Snapshot(): Tables
      reads this
    {
      Tables(users, otps)
    }

    /** `invalidateActiveOtps`: spend each code the query selects. */
    method InvalidateActiveOtps(userId: int, now: int)
      modifies this`otps
      ensures otps == InvalidateAll(old(otps), userId, now)
      ensures NoneActive(otps, userId, now)
    {
      var i := 0;
      while i < |otps|
        invariant 0 <= i <= |otps| == |old(otps)|
        invariant forall j :: 0 <= j < i ==> otps[j] == Invalidated(old(otps)[j], userId, now)
        invariant forall j :: i <= j < |otps| ==> otps[j] == old(otps)[j]
      {
        if Active(otps[i], userId, now) {
          otps := otps[i := Spent(otps[i], now)];
        }
        i := i + 1;
      }
      InvalidateSpendsExactlyTheActive(old(otps), userId, now);
    }

    /** `requestPasswordResetOtp`. */
    method RequestPasswordResetOtp(request: Option<ForgotRequest>, now: int, draw: int, sha: Sha, delivered: bool)
      returns (reply: Reply)
      requires 0 <= draw < 9000
      modifies this
      ensures ResetOutcome(reply, Snapshot()) == RequestOtp(old(Snapshot()), config, request, now, draw, sha, delivered)
    {
      if request.None? || IsBlank(request.value.email) {
        return Reply(BAD_REQUEST, EmailRequired);
      }
      var email := EmailKey(request.value.email.value);
      if email !in users {
        return Reply(OK, OtpSentIfRegistered);
      }
      var user := users[email];
      InvalidateActiveOtps(user.id, now);

      var rawOtp := GenerateOtp(draw);
      var resetOtp := Otp(user.id, sha(rawOtp), now + config.otpExpiryMinutes * NanosPerMinute, false, None, now, 0);
      otps := otps + [resetOtp];

      if !delivered {
        otps := otps[..|otps| - 1];
        return Reply(INTERNAL_SERVER_ERROR, UnableToSend);
      }
      reply := Reply(OK, OtpSentIfRegistered);
    }

    /** The wrong-code branch of `resetPasswordWithOtp`: count the failure, spend the code at the maximum, 400. */
    method RecordWrongAttempt(k: nat, now: int) returns (reply: Reply)
      requires k < |otps|
      modifies this`otps
      ensures ResetOutcome(reply, Snapshot()) == WrongAttempt(old(Snapshot()), config, k, now)
    {
      var failedAttempts := otps[k].failedAttempts + 1;
      otps := otps[k := otps[k].(failedAttempts := failedAttempts)];
      if failedAttempts >= config.maxOtpAttempts {
        otps := otps[k := Spent(otps[k], now)];
      }
      reply := Reply(BAD_REQUEST, if failedAttempts >= config.maxOtpAttempts then OtpLocked else InvalidOtp);
    }

    /** The success branch of `resetPasswordWithOtp`: store the encoded password, spend the code and the user's others. */
    method CompleteReset(email: string, k: nat, newPassword: string, now: int, encode: Encoder) returns (reply: Reply)
      requires email in users && k < |otps|
      modifies this`users, this`otps
      ensures ResetOutcome(reply, Snapshot()) == AcceptReset(old(Snapshot()), email, k, newPassword, now, encode)
    {
      var user := users[email];
      users := users[email := user.(password := encode(newPassword))];
      otps := otps[k := Spent(otps[k], now)];
      InvalidateActiveOtps(user.id, now);
      reply := Reply(OK, ResetSuccessful);
    }

    /** `resetPasswordWithOtp`. */
    method ResetPasswordWithOtp(request: Option<ResetRequest>, now: int, sha: Sha, encode: Encoder)
      returns (reply: Reply)
      modifies this
      ensures ResetOutcome(reply, Snapshot()) == ResetPassword(old(Snapshot()), config, request, now, sha, encode)
    {
      var problem := ResetRequestProblem(request);
      if problem.Some? {
        return Reply(BAD_REQUEST, problem.value);
      }
      var q := request.value;
      var email := EmailKey(q.email.value);
      if email !in users {
        return Reply(BAD_REQUEST, InvalidOtpOrEmail);
      }
      var user := users[email];
      var found := LatestActive(otps, user.id, now);
      if found.None? {
        return Reply(BAD_REQUEST, InvalidOrExpiredOtp);
      }
      var k := found.value;
      ResetDispatch(Snapshot(), config, q, now, sha, encode);
      if sha(Trim(q.otp.value)) != otps[k].otpHash {
        reply := RecordWrongAttempt(k, now);
      } else {
        reply := CompleteReset(email, k, q.newPassword.value, now, encode);
      }
    }
  }
}

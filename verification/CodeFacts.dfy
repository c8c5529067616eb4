/** What each operation on one-time codes does, and when it refuses, told from the codes there are:
    for any accounts at all. */
module CodeFacts {
  import opened Text
  import opened Otp
  import opened OtpFacts
  import opened GuessFacts

  /** Code `i` is one of the account's that can still be used. */
  predicate IsLive(codes: seq<Code>, account: Account, now: int, i: nat)
  {
    i < |codes| && codes[i].account == account && !codes[i].consumed && now < codes[i].expiresAt
  }

  /** The one that counts, when there are more. */
  predicate IsNewestLive(codes: seq<Code>, account: Account, now: int, i: nat)
  {
    IsLive(codes, account, now, i) && forall j | i < j < |codes| :: !IsLive(codes, account, now, j)
  }

  lemma {:induction false} NewestIsFound(codes: seq<Code>, account: Account, now: int)
    ensures LatestActive(codes, account, now).None? ==> forall i: nat :: !IsLive(codes, account, now, i)
    ensures LatestActive(codes, account, now).Some? ==>
              IsNewestLive(codes, account, now, LatestActive(codes, account, now).value)
  {
    if codes != [] {
      var front := codes[..|codes| - 1];
      NewestIsFound(front, account, now);
      assert forall i: nat | i < |front| :: IsLive(front, account, now, i) <==> IsLive(codes, account, now, i);
    }
  }

  /** The codes after a wrong guess at code `i`: it has one more miss, and with the fifth every code
      of the account is done with. */
  ghost predicate IsMissed(codes: seq<Code>, i: nat, after: seq<Code>)
    requires i < |codes|
  {
    && |after| == |codes|
    && forall j | 0 <= j < |codes| ::
         var c := codes[j];
         var locked := codes[i].failed + 1 >= 5 && c.account == codes[i].account;
         after[j] == Code(c.id, c.account, c.text, c.createdAt, c.expiresAt, c.consumed || locked,
                          if j == i then c.failed + 1 else c.failed)
  }

  lemma {:induction false} MissedIs(codes: seq<Code>, i: nat)
    requires i < |codes|
    ensures IsMissed(codes, i, Missed(codes, i))
  {
    RetiredRows(codes[i := codes[i].(failed := codes[i].failed + 1)], codes[i].account);
    hide Retired;
  }

  /** A guess is held against the newest code the account can still use. It is right exactly when
      it is that code's text, and then changes nothing; a wrong one counts against that code
      alone. Without such a code, nothing is right and nothing is counted. */
  lemma {:induction false} GuessIsHeldExactly(a: Accounts, account: Account, guess: string, now: int)
    ensures
      var (id, refusal, after) := Guessing(a, account, guess, now);
      && ((forall i: nat :: !IsLive(a.codes, account, now, i)) ==>
            id == None && refusal == Some(InvalidCode) && after == a)
      && forall i: nat | IsNewestLive(a.codes, account, now, i) ::
           if guess != "" && guess == a.codes[i].text
           then id == Some(a.codes[i].id) && refusal == None && after == a
           else
             && id == None && refusal == Some(if a.codes[i].failed + 1 >= 5 then CodeLocked else InvalidCode)
             && after.verified == a.verified && IsMissed(a.codes, i, after.codes)
  {
    NewestIsFound(a.codes, account, now);
    var found := LatestActive(a.codes, account, now);
    if found.Some? {
      MissedIs(a.codes, found.value);
      assert IsLive(a.codes, account, now, found.value);
      assert forall i: nat | IsNewestLive(a.codes, account, now, i) :: i == found.value;
    }
    hide LatestActive, Missed, IsMissed;
  }

  // ---- A new code ----

  lemma {:induction false} LatestIsFound(codes: seq<Code>, account: Account)
    ensures
      match LatestCreatedAt(codes, account)
      case None => forall i | 0 <= i < |codes| :: codes[i].account != account
      case Some(at) =>
        && (exists i | 0 <= i < |codes| :: codes[i].account == account && codes[i].createdAt == at)
        && (forall i | 0 <= i < |codes| :: codes[i].account == account ==> codes[i].createdAt <= at)
  {
    if codes != [] {
      LatestIsFound(codes[..|codes| - 1], account);
    }
  }

  /** The account has had a code less than a minute ago. */
  predicate IsCooling(codes: seq<Code>, account: Account, now: int)
  {
    exists i | 0 <= i < |codes| :: codes[i].account == account && now < codes[i].createdAt + 60
  }

  /** A new code is refused to an unknown email, for verifying it again, within a minute of the last
      one, and when the codes of the last hour were missed 25 times, in this order. The seconds to
      wait are just enough. Otherwise all earlier codes of the account are done with, and one new
      one is made. */
  lemma {:induction false} ResendIsExact(
      a: Accounts, account: Account, id: nat, text: string, now: int, expiresAt: int)
    ensures
      var (refusal, after) := Resending(a, account, id, text, now, expiresAt);
      && (refusal == Some(NoAccount) <==> account.email !in a.verified)
      && (account.email in a.verified ==>
            && (refusal == Some(AlreadyVerified) <==> account.purpose == "signup" && a.verified[account.email])
            && (refusal != Some(AlreadyVerified) ==>
                  && (IsCooling(a.codes, account, now) <==> refusal.Some? && refusal.value.PleaseWait?)
                  && (!IsCooling(a.codes, account, now) ==>
                        refusal == if FailedWithin(a.codes, account, now - 3600, now) >= 25 then Some(TooManyGuesses)
                                   else None)))
      && (refusal.Some? ==> after == a)
      && (refusal.Some? && refusal.value.PleaseWait? ==>
            && 1 <= refusal.value.seconds <= 60
            && ((forall i | 0 <= i < |a.codes| :: a.codes[i].createdAt <= now) ==>
                  && IsCooling(a.codes, account, now + refusal.value.seconds - 1)
                  && !IsCooling(a.codes, account, now + refusal.value.seconds)))
      && (refusal == None ==>
            && after.verified == a.verified && |after.codes| == |a.codes| + 1
            && after.codes[|a.codes|] == Code(id, account, text, now, expiresAt, false, 0)
            && forall i | 0 <= i < |a.codes| ::
                 after.codes[i] == if a.codes[i].account == account then a.codes[i].(consumed := true) else a.codes[i])
  {
    RetiredRows(a.codes, account);
    WaitIsExact(a.codes, account, now);
    hide LatestCreatedAt, Retired, FailedSince, FailedWithin, IsCooling;
    if !IsCooling(a.codes, account, now) {
      CooledIsOlder(a.codes, account, now);
      SinceIsWithin(a.codes, account, now - 3600, now);
    }
  }

  lemma {:induction false} CooledIsOlder(codes: seq<Code>, account: Account, now: int)
    requires !IsCooling(codes, account, now)
    ensures forall i | 0 <= i < |codes| :: codes[i].account == account ==> codes[i].createdAt <= now
  {
  }

  lemma {:induction false} WaitIsExact(codes: seq<Code>, account: Account, now: int)
    ensures
      var latest := LatestCreatedAt(codes, account);
      var wait := if latest.None? then 0 else 60 - if now > latest.value then now - latest.value else 0;
      && (IsCooling(codes, account, now) <==> latest.Some? && now - latest.value < 60)
      && (IsCooling(codes, account, now) && (forall i | 0 <= i < |codes| :: codes[i].createdAt <= now) ==>
            && IsCooling(codes, account, now + wait - 1)
            && !IsCooling(codes, account, now + wait))
  {
    LatestIsFound(codes, account);
  }

  lemma {:induction false} SinceIsWithin(codes: seq<Code>, account: Account, since: int, last: int)
    requires forall i | 0 <= i < |codes| :: codes[i].account == account ==> codes[i].createdAt <= last
    ensures FailedSince(codes, account, since) == FailedWithin(codes, account, since, last)
  {
    if codes != [] {
      SinceIsWithin(codes[..|codes| - 1], account, since, last);
    }
  }

  // ---- Accounts and use ----

  /** Only an unknown email signs up. It is then known, unverified, and has one code more. */
  lemma {:induction false} SignUpIsExact(a: Accounts, email: string, id: nat, text: string, now: int, expiresAt: int)
    ensures
      var (refusal, after) := SigningUp(a, email, id, text, now, expiresAt);
      if email in a.verified then refusal == Some(AlreadyExists) && after == a
      else
        && refusal == None && after.verified == a.verified[email := false]
        && after.codes == a.codes + [Code(id, Account(email, "signup"), text, now, expiresAt, false, 0)]
  {
  }

  /** A code is used exactly when its account is known and nothing was done with it yet. Only that
      code is then done with, and only its account verified, if that is what it was for. */
  lemma {:induction false} UseIsExact(a: Accounts, email: string, id: nat, verifies: bool)
    requires forall i, j | 0 <= i < j < |a.codes| :: a.codes[i].id != a.codes[j].id
    ensures
      var (claimed, after) := Using(a, email, id, verifies);
      && (claimed <==>
            email in a.verified && exists i | 0 <= i < |a.codes| :: a.codes[i].id == id && !a.codes[i].consumed)
      && (!claimed ==> after == a)
      && (claimed ==>
            && after.verified == (if verifies then a.verified[email := true] else a.verified)
            && |after.codes| == |a.codes|
            && forall i | 0 <= i < |a.codes| ::
                 after.codes[i] == if a.codes[i].id == id then a.codes[i].(consumed := true) else a.codes[i])
  {
    CodeIsFound(a.codes, id);
    hide FindCode;
  }

  lemma {:induction false} CodeIsFound(codes: seq<Code>, id: nat)
    ensures FindCode(codes, id).None? ==> forall i | 0 <= i < |codes| :: codes[i].id != id
  {
    if codes != [] {
      CodeIsFound(codes[..|codes| - 1], id);
    }
  }

  /** Deleting an account takes its email and all its codes, and leaves those of the others as they
      are and in order. */
  lemma {:induction false} DeletionIsExact(a: Accounts, email: string)
    ensures
      var after := Deleting(a, email);
      && after.verified == a.verified - {email}
      && (forall c | c in after.codes :: c.account.email != email)
      && forall other | other != email :: CodesOf(after.codes, other) == CodesOf(a.codes, other)
  {
    forall other | other != email {
      OthersKeepCodes(a.codes, email, other);
    }
    NoneIsLeft(a.codes, email);
  }

  function CodesOf(codes: seq<Code>, email: string): seq<Code>
  {
    if codes == [] then []
    else
      var last := codes[|codes| - 1];
      CodesOf(codes[..|codes| - 1], email) + if last.account.email == email then [last] else []
  }

  lemma {:induction false} NoneIsLeft(codes: seq<Code>, email: string)
    ensures forall c | c in Without(codes, email) :: c.account.email != email
  {
    if codes != [] {
      NoneIsLeft(codes[..|codes| - 1], email);
    }
  }

  lemma {:induction false} OthersKeepCodes(codes: seq<Code>, email: string, other: string)
    requires other != email
    ensures CodesOf(Without(codes, email), other) == CodesOf(codes, other)
  {
    if codes != [] {
      var front, last := codes[..|codes| - 1], codes[|codes| - 1];
      OthersKeepCodes(front, email, other);
      assert (Without(front, email) + [last])[..|Without(front, email)|] == Without(front, email);
    }
  }
}

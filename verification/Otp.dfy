/** One-time codes sent by email: issuing, guessing, using and locking them. */
module Otp {
  import opened Text

  const COOLDOWN := 60
  const HOUR := 3600
  const MAX_ATTEMPTS := 5
  const MAX_FAILED_GUESSES := 25
  const MOST_MISSES_AN_HOUR := MAX_FAILED_GUESSES - 1 + MAX_ATTEMPTS
  const SIGNUP := "signup"

  /** A code belongs to an email and a purpose. */
  datatype Account = Account(email: string, purpose: string)

  /** `failed` counts the wrong guesses. A code is consumed once used, locked or replaced. */
  datatype Code = Code(
    id: nat, account: Account, text: string, createdAt: int, expiresAt: int, consumed: bool, failed: nat)

  /** Whether each known email is verified, and the codes, oldest first. */
  datatype Accounts = Accounts(verified: map<string, bool>, codes: seq<Code>)

  datatype Refusal =
    | AlreadyExists | NoAccount | AlreadyVerified | PleaseWait(seconds: int) | TooManyGuesses | InvalidCode | CodeLocked

  function Retired(codes: seq<Code>, account: Account): seq<Code>
  {
    if codes == [] then []
    else
      var last := codes[|codes| - 1];
      Retired(codes[..|codes| - 1], account) + [if last.account == account then last.(consumed := true) else last]
  }

  /** Where the code stands that a guess is held against: the last one neither used nor expired. */
  function LatestActive(codes: seq<Code>, account: Account, now: int): (r: Option<nat>)
    ensures r.Some? ==> r.value < |codes| && codes[r.value].account == account && !codes[r.value].consumed
                        && codes[r.value].expiresAt > now
  {
    if codes == [] then None
    else
      var last := codes[|codes| - 1];
      if last.account == account && !last.consumed && last.expiresAt > now then Some(|codes| - 1)
      else LatestActive(codes[..|codes| - 1], account, now)
  }

  function FindCode(codes: seq<Code>, id: nat): (r: Option<nat>)
    ensures r.Some? ==> r.value < |codes| && codes[r.value].id == id
  {
    if codes == [] then None
    else if codes[|codes| - 1].id == id then Some(|codes| - 1)
    else FindCode(codes[..|codes| - 1], id)
  }

  /** When the account's latest code was made, used or not. */
  function LatestCreatedAt(codes: seq<Code>, account: Account): Option<int>
  {
    if codes == [] then None
    else
      var last := codes[|codes| - 1];
      var before := LatestCreatedAt(codes[..|codes| - 1], account);
      if last.account == account && (before.None? || last.createdAt > before.value) then Some(last.createdAt)
      else before
  }

  /** All wrong guesses on the account's codes made at `since` or later. */
  function FailedSince(codes: seq<Code>, account: Account, since: int): nat
  {
    if codes == [] then 0
    else
      var last := codes[|codes| - 1];
      FailedSince(codes[..|codes| - 1], account, since) +
      if last.account == account && last.createdAt >= since then last.failed else 0
  }

  function Without(codes: seq<Code>, email: string): seq<Code>
  {
    if codes == [] then []
    else
      var last := codes[|codes| - 1];
      var front := Without(codes[..|codes| - 1], email);
      if last.account.email == email then front else front + [last]
  }

  // ---- What each operation does ----

  function NewCode(id: nat, account: Account, text: string, now: int, expiresAt: int): Code
  {
    Code(id, account, text, now, expiresAt, false, 0)
  }

  function SigningUp(
      a: Accounts, email: string, id: nat, text: string, now: int, expiresAt: int): (Option<Refusal>, Accounts)
  {
    if email in a.verified then (Some(AlreadyExists), a)
    else
      var code := NewCode(id, Account(email, SIGNUP), text, now, expiresAt);
      (None, Accounts(a.verified[email := false], a.codes + [code]))
  }

  function ResendRefusal(a: Accounts, account: Account, now: int): Option<Refusal>
  {
    if account.email !in a.verified then Some(NoAccount)
    else if account.purpose == SIGNUP && a.verified[account.email] then Some(AlreadyVerified)
    else
      var latest := LatestCreatedAt(a.codes, account);
      if latest.Some? && now - latest.value < COOLDOWN
      then Some(PleaseWait(COOLDOWN - if now > latest.value then now - latest.value else 0))
      else if FailedSince(a.codes, account, now - HOUR) >= MAX_FAILED_GUESSES then Some(TooManyGuesses)
      else None
  }

  function Resending(
      a: Accounts, account: Account, id: nat, text: string, now: int, expiresAt: int): (Option<Refusal>, Accounts)
  {
    var refusal := ResendRefusal(a, account, now);
    (refusal,
     if refusal.Some? then a
     else a.(codes := Retired(a.codes, account) + [NewCode(id, account, text, now, expiresAt)]))
  }

  /** One more wrong guess on the code at `i`. The last allowed one locks every unused code. */
  function Missed(codes: seq<Code>, i: nat): seq<Code>
    requires i < |codes|
  {
    var counted := codes[i := codes[i].(failed := codes[i].failed + 1)];
    if counted[i].failed >= MAX_ATTEMPTS then Retired(counted, codes[i].account) else counted
  }

  /** A right guess names the code it matched and changes nothing; a wrong one counts against that
      code. Without a code to hold it against, a guess counts for nothing. An empty code never matches. */
  function Guessing(a: Accounts, account: Account, guess: string, now: int): (Option<nat>, Option<Refusal>, Accounts)
  {
    match LatestActive(a.codes, account, now)
    case None => (None, Some(InvalidCode), a)
    case Some(i) =>
      if a.codes[i].text != "" && a.codes[i].text == guess then (Some(a.codes[i].id), None, a)
      else
        (None,
         Some(if a.codes[i].failed + 1 >= MAX_ATTEMPTS then CodeLocked else InvalidCode),
         a.(codes := Missed(a.codes, i)))
  }

  /** Uses up the code a guess matched, unless it was used, locked or replaced since. */
  function Using(a: Accounts, email: string, id: nat, verifies: bool): (bool, Accounts)
  {
    var found := FindCode(a.codes, id);
    if email !in a.verified || found.None? || a.codes[found.value].consumed then (false, a)
    else
      var i := found.value;
      (true, Accounts(
        if verifies then a.verified[email := true] else a.verified,
        a.codes[i := a.codes[i].(consumed := true)]))
  }

  function Deleting(a: Accounts, email: string): Accounts
  {
    Accounts(a.verified - {email}, Without(a.codes, email))
  }

  lemma {:induction false} FailedWithOneMore(codes: seq<Code>, c: Code, since: int)
    requires c.createdAt >= since
    ensures FailedSince(codes + [c], c.account, since) == FailedSince(codes, c.account, since) + c.failed
  {
    assert (codes + [c])[..|codes|] == codes;
  }

  // ---- The service ----

  class AuthService {
    var verified: map<string, bool>
    var codes: seq<Code>

    constructor ()
      ensures State() == Accounts(map[], [])
    {
      verified, codes := map[], [];
    }

    function State(): Accounts
      reads this
    {
      Accounts(verified, codes)
    }

    method SignUp(email: string, id: nat, text: string, now: int, expiresAt: int) returns (refusal: Option<Refusal>)
      modifies this
      ensures (refusal, State()) == SigningUp(old(State()), email, id, text, now, expiresAt)
    {
      if email in verified {
        return Some(AlreadyExists);
      }
      verified := verified[email := false];
      codes := codes + [NewCode(id, Account(email, SIGNUP), text, now, expiresAt)];
      refusal := None;
    }

    /** A new code is allowed exactly when the account can miss all the guesses it takes, and
        still be within the misses of any one hour. */
    method RequireGuessBudget(account: Account, since: int) returns (refusal: Option<Refusal>)
      ensures refusal in {None, Some(TooManyGuesses)}
      ensures forall c: Code | c.account == account && c.createdAt >= since && c.failed == MAX_ATTEMPTS ::
                refusal == None <==> FailedSince(codes + [c], account, since) <= MOST_MISSES_AN_HOUR
    {
      var failed := FailedSince(codes, account, since);
      refusal := if failed >= MAX_FAILED_GUESSES then Some(TooManyGuesses) else None;
      forall c: Code | c.account == account && c.createdAt >= since && c.failed == MAX_ATTEMPTS
        ensures FailedSince(codes + [c], account, since) == failed + MAX_ATTEMPTS
      {
        FailedWithOneMore(codes, c, since);
      }
    }

    /** Marks every unused code of the account as used. */
    method Retire(account: Account)
      modifies this`codes
      ensures codes == Retired(old(codes), account)
    {
      var rows := codes;
      var done := [];
      for i := 0 to |rows|
        invariant done == Retired(rows[..i], account)
        invariant codes == old(codes)
      {
        assert rows[..i + 1][..i] == rows[..i];
        done := done + [if rows[i].account == account then rows[i].(consumed := true) else rows[i]];
      }
      assert rows[..|rows|] == rows;
      codes := done;
    }

    method ResendOtp(
        account: Account, id: nat, text: string, now: int, expiresAt: int) returns (refusal: Option<Refusal>)
      modifies this`codes
      ensures (refusal, State()) == Resending(old(State()), account, id, text, now, expiresAt)
    {
      hide Retired, FailedSince, LatestCreatedAt;
      if account.email !in verified {
        return Some(NoAccount);
      }
      if account.purpose == SIGNUP && verified[account.email] {
        return Some(AlreadyVerified);
      }
      var latest := LatestCreatedAt(codes, account);
      if latest.Some? {
        var age := now - latest.value;
        if age < COOLDOWN {
          return Some(PleaseWait(COOLDOWN - if age > 0 then age else 0));
        }
      }
      refusal := RequireGuessBudget(account, now - HOUR);
      FailedWithOneMore(codes, NewCode(id, account, text, now, expiresAt).(failed := MAX_ATTEMPTS), now - HOUR);
      if refusal.None? {
        Retire(account);
        codes := codes + [NewCode(id, account, text, now, expiresAt)];
      }
    }

    method RecordFailedAttempt(i: nat) returns (attempts: nat)
      requires i < |codes|
      modifies this`codes
      ensures codes == Missed(old(codes), i)
      ensures attempts == old(codes)[i].failed + 1
    {
      attempts := codes[i].failed + 1;
      codes := codes[i := codes[i].(failed := attempts)];
      if attempts >= MAX_ATTEMPTS {
        Retire(codes[i].account);
      }
    }

    method RequireMatchingOtp(
        account: Account, guess: string, now: int) returns (id: Option<nat>, refusal: Option<Refusal>)
      modifies this`codes
      ensures (id, refusal, State()) == Guessing(old(State()), account, guess, now)
    {
      var found := LatestActive(codes, account, now);
      if found.None? {
        return None, Some(InvalidCode);
      }
      var code := codes[found.value];
      if code.text == "" || code.text != guess {
        var attempts := RecordFailedAttempt(found.value);
        return None, Some(if attempts >= MAX_ATTEMPTS then CodeLocked else InvalidCode);
      }
      id, refusal := Some(code.id), None;
    }

    /** The claim and what it allows, the verified flag or the new password, are one commit. */
    method ConsumeIfActive(email: string, id: nat, verifies: bool) returns (claimed: bool)
      modifies this
      ensures (claimed, State()) == Using(old(State()), email, id, verifies)
    {
      var found := FindCode(codes, id);
      if email !in verified || found.None? || codes[found.value].consumed {
        return false;
      }
      codes := codes[found.value := codes[found.value].(consumed := true)];
      if verifies {
        verified := verified[email := true];
      }
      claimed := true;
    }

    method DeleteAccount(email: string)
      modifies this
      ensures State() == Deleting(old(State()), email)
    {
      verified := verified - {email};
      codes := Without(codes, email);
    }
  }
}

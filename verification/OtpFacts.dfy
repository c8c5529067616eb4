/** What holds of one-time codes over every run: one live code for each email and purpose, and a
    bound on the guesses anyone gets. */
module OtpFacts {
  import opened Text
  import opened Otp

  datatype Step =
    | SignUp(email: string, id: nat, text: string, expiresAt: int)
    | Resend(account: Account, id: nat, text: string, expiresAt: int)
    | Guess(account: Account, guess: string)
    | Use(email: string, id: nat, verifies: bool)
    | Delete(email: string)

  datatype Entry = Entry(step: Step, at: int)

  function Do(a: Accounts, e: Entry): Accounts
  {
    match e.step
    case SignUp(email, id, text, expiresAt) => SigningUp(a, email, id, text, e.at, expiresAt).1
    case Resend(account, id, text, expiresAt) => Resending(a, account, id, text, e.at, expiresAt).1
    case Guess(account, guess) => Guessing(a, account, guess, e.at).2
    case Use(email, id, verifies) => Using(a, email, id, verifies).1
    case Delete(email) => Deleting(a, email)
  }

  function Run(run: seq<Entry>): Accounts
  {
    if run == [] then Accounts(map[], []) else Do(Run(run[..|run| - 1]), run[|run| - 1])
  }

  ghost predicate InTimeOrder(run: seq<Entry>)
  {
    forall i, j | 0 <= i < j < |run| :: run[i].at <= run[j].at
  }

  // ---- The invariant ----

  /** A code with no guesses left is never live. */
  predicate IsBounded(c: Code)
  {
    c.failed <= MAX_ATTEMPTS && (!c.consumed ==> c.failed < MAX_ATTEMPTS)
  }

  /** `c` may follow `before`: its account's codes are all done with, made a minute apart, and
      left room in the guesses of the hour. */
  ghost predicate MayFollow(before: seq<Code>, c: Code)
  {
    && (forall i | 0 <= i < |before| :: before[i].createdAt <= c.createdAt)
    && (forall i | 0 <= i < |before| :: before[i].account == c.account ==>
          before[i].consumed && before[i].createdAt + COOLDOWN <= c.createdAt)
    && FailedSince(before, c.account, c.createdAt - HOUR) < MAX_FAILED_GUESSES
  }

  ghost predicate AreKept(codes: seq<Code>)
  {
    codes == [] ||
    (var front, last := codes[..|codes| - 1], codes[|codes| - 1];
     AreKept(front) && IsBounded(last) && MayFollow(front, last))
  }

  ghost predicate IsKept(a: Accounts, now: int)
  {
    && AreKept(a.codes)
    && (forall i | 0 <= i < |a.codes| :: a.codes[i].createdAt <= now)
    && (forall i | 0 <= i < |a.codes| :: a.codes[i].account.email in a.verified)
  }

  // ---- Each operation keeps it ----

  lemma {:induction false} RetiredRows(codes: seq<Code>, account: Account)
    ensures |Retired(codes, account)| == |codes|
    ensures forall i | 0 <= i < |codes| ::
      Retired(codes, account)[i] == if codes[i].account == account then codes[i].(consumed := true) else codes[i]
  {
    if codes != [] {
      RetiredRows(codes[..|codes| - 1], account);
    }
  }

  /** `later` is `codes` with some more of them consumed. */
  ghost predicate MoreConsumed(codes: seq<Code>, later: seq<Code>)
  {
    && |later| == |codes|
    && forall i | 0 <= i < |codes| :: later[i] == codes[i] || later[i] == codes[i].(consumed := true)
  }

  lemma {:induction false} ConsumingKeepsGuesses(codes: seq<Code>, later: seq<Code>, account: Account, since: int)
    requires MoreConsumed(codes, later)
    ensures FailedSince(later, account, since) == FailedSince(codes, account, since)
  {
    if codes != [] {
      ConsumingKeepsGuesses(codes[..|codes| - 1], later[..|codes| - 1], account, since);
    }
  }

  lemma {:induction false} ConsumingKeeps(codes: seq<Code>, later: seq<Code>)
    requires AreKept(codes) && MoreConsumed(codes, later)
    ensures AreKept(later)
  {
    if codes != [] {
      var n := |codes| - 1;
      ConsumingKeeps(codes[..n], later[..n]);
      ConsumingKeepsGuesses(codes[..n], later[..n], codes[n].account, codes[n].createdAt - HOUR);
    }
  }

  lemma {:induction false} AddingKeeps(codes: seq<Code>, c: Code)
    requires AreKept(codes) && IsBounded(c) && MayFollow(codes, c)
    ensures AreKept(codes + [c])
  {
    assert (codes + [c])[..|codes|] == codes;
  }

  /** A live code is the last of its account. */
  lemma {:induction false} LiveIsLast(codes: seq<Code>, i: nat, j: nat)
    requires AreKept(codes) && i < j < |codes| && codes[i].account == codes[j].account
    ensures codes[i].consumed && codes[i].createdAt + COOLDOWN <= codes[j].createdAt
  {
    if j < |codes| - 1 {
      LiveIsLast(codes[..|codes| - 1], i, j);
    }
  }

  /** Guesses on other accounts' codes do not count. */
  lemma {:induction false} OtherGuesses(codes: seq<Code>, i: nat, c: Code, account: Account, since: int)
    requires i < |codes| && c.account == codes[i].account != account
    ensures FailedSince(codes[i := c], account, since) == FailedSince(codes, account, since)
  {
    var n := |codes| - 1;
    if i < n {
      assert codes[i := c][..n] == codes[..n][i := c];
      OtherGuesses(codes[..n], i, c, account, since);
    } else {
      assert codes[i := c][..n] == codes[..n];
    }
  }

  /** A guess on a live code, counted and perhaps locking it. */
  lemma {:induction false} CountingKeeps(codes: seq<Code>, i: nat, c: Code)
    requires AreKept(codes) && i < |codes| && !codes[i].consumed && IsBounded(c)
    requires c == codes[i].(failed := c.failed, consumed := c.consumed)
    ensures AreKept(codes[i := c])
  {
    hide MayFollow;
    var n := |codes| - 1;
    if i < n {
      assert codes[i := c][..n] == codes[..n][i := c];
      CountingKeeps(codes[..n], i, c);
      LiveHasNoneAfter(codes, i);
      MayFollowOtherMiss(codes[..n], i, c, codes[n]);
    } else {
      MayFollowSame(codes[..n], codes[n], c);
      assert codes[i := c][..n] == codes[..n];
    }
  }

  lemma {:induction false} MayFollowSame(before: seq<Code>, last: Code, c: Code)
    requires MayFollow(before, last) && c.account == last.account && c.createdAt == last.createdAt
    ensures MayFollow(before, c)
  {
  }

  lemma {:induction false} MayFollowOtherMiss(before: seq<Code>, i: nat, c: Code, last: Code)
    requires MayFollow(before, last) && i < |before| && before[i].account != last.account
    requires c == before[i].(failed := c.failed, consumed := c.consumed)
    ensures MayFollow(before[i := c], last)
  {
    OtherGuesses(before, i, c, last.account, last.createdAt - HOUR);
    hide FailedSince;
  }

  lemma {:induction false} LiveHasNoneAfter(codes: seq<Code>, i: nat)
    requires AreKept(codes) && i < |codes| - 1 && !codes[i].consumed
    ensures codes[|codes| - 1].account != codes[i].account
  {
  }

  lemma {:induction false} MissKeeps(codes: seq<Code>, i: nat)
    requires AreKept(codes) && i < |codes| && !codes[i].consumed
    ensures AreKept(Missed(codes, i))
  {
    BoundedCode(codes, i);
    var c := codes[i].(failed := codes[i].failed + 1);
    var counted := codes[i := c];
    if c.failed < MAX_ATTEMPTS {
      CountingKeeps(codes, i, c);
    } else {
      var locked := c.(consumed := true);
      CountingKeeps(codes, i, locked);
      RetiredRows(counted, c.account);
      hide AreKept, Retired;
      ConsumingKeeps(codes[i := locked], Retired(counted, c.account));
    }
  }

  lemma {:induction false} MissChangesNoTimes(codes: seq<Code>, i: nat)
    requires i < |codes|
    ensures |Missed(codes, i)| == |codes|
    ensures forall j | 0 <= j < |codes| ::
      Missed(codes, i)[j].account == codes[j].account && Missed(codes, i)[j].createdAt == codes[j].createdAt
  {
    hide Retired;
    RetiredRows(codes[i := codes[i].(failed := codes[i].failed + 1)], codes[i].account);
  }

  lemma {:induction false} BoundedCode(codes: seq<Code>, i: nat)
    requires AreKept(codes) && i < |codes|
    ensures IsBounded(codes[i])
  {
    if i < |codes| - 1 {
      BoundedCode(codes[..|codes| - 1], i);
    }
  }

  lemma {:induction false} LatestIsLatest(codes: seq<Code>, account: Account)
    ensures
      var latest := LatestCreatedAt(codes, account);
      forall i | 0 <= i < |codes| :: codes[i].account == account ==> latest.Some? && codes[i].createdAt <= latest.value
  {
    if codes != [] {
      LatestIsLatest(codes[..|codes| - 1], account);
    }
  }

  lemma {:induction false} ResendKeeps(a: Accounts, account: Account, id: nat, text: string, now: int, expiresAt: int)
    requires IsKept(a, now)
    ensures IsKept(Resending(a, account, id, text, now, expiresAt).1, now)
  {
    hide AreKept, Retired, MayFollow, FailedSince, LatestCreatedAt;
    if ResendRefusal(a, account, now).None? {
      var c := NewCode(id, account, text, now, expiresAt);
      NewCodeMayFollow(a, account, c, now);
      RetiredRows(a.codes, account);
      AddingKeeps(Retired(a.codes, account), c);
    }
  }

  /** With the cooldown over and guesses left, a new code may follow the account's others. */
  lemma {:induction false} NewCodeMayFollow(a: Accounts, account: Account, c: Code, now: int)
    requires IsKept(a, now) && ResendRefusal(a, account, now).None?
    requires c.account == account && c.createdAt == now
    ensures AreKept(Retired(a.codes, account)) && MayFollow(Retired(a.codes, account), c)
  {
    hide AreKept, Retired, FailedSince, LatestCreatedAt;
    LatestIsLatest(a.codes, account);
    RetiredRows(a.codes, account);
    var retired := Retired(a.codes, account);
    ConsumingKeeps(a.codes, retired);
    ConsumingKeepsGuesses(a.codes, retired, account, now - HOUR);
  }

  lemma {:induction false} NoGuesses(codes: seq<Code>, account: Account, since: int)
    requires forall i | 0 <= i < |codes| :: codes[i].account != account
    ensures FailedSince(codes, account, since) == 0
  {
    if codes != [] {
      NoGuesses(codes[..|codes| - 1], account, since);
    }
  }

  lemma {:induction false} SignUpKeeps(a: Accounts, email: string, id: nat, text: string, now: int, expiresAt: int)
    requires IsKept(a, now)
    ensures IsKept(SigningUp(a, email, id, text, now, expiresAt).1, now)
  {
    if email !in a.verified {
      NoGuesses(a.codes, Account(email, SIGNUP), now - HOUR);
      hide AreKept, FailedSince;
      AddingKeeps(a.codes, NewCode(id, Account(email, SIGNUP), text, now, expiresAt));
    }
  }

  lemma {:induction false} WithoutRows(codes: seq<Code>, email: string)
    ensures forall c :: c in Without(codes, email) <==> c in codes && c.account.email != email
  {
    if codes != [] {
      WithoutRows(codes[..|codes| - 1], email);
      assert codes == codes[..|codes| - 1] + [codes[|codes| - 1]];
    }
  }

  lemma {:induction false} WithoutKeepsGuesses(codes: seq<Code>, email: string, account: Account, since: int)
    requires account.email != email
    ensures FailedSince(Without(codes, email), account, since) == FailedSince(codes, account, since)
  {
    if codes != [] {
      var front, last := codes[..|codes| - 1], codes[|codes| - 1];
      WithoutKeepsGuesses(front, email, account, since);
      if last.account.email != email {
        assert (Without(front, email) + [last])[..|Without(front, email)|] == Without(front, email);
      }
    }
  }

  lemma {:induction false} WithoutKeeps(codes: seq<Code>, email: string)
    requires AreKept(codes)
    ensures AreKept(Without(codes, email))
  {
    if codes != [] {
      var front, last := codes[..|codes| - 1], codes[|codes| - 1];
      WithoutKeeps(front, email);
      if last.account.email != email {
        WithoutRows(front, email);
        WithoutKeepsGuesses(front, email, last.account, last.createdAt - HOUR);
        MayStillFollow(front, Without(front, email), last);
        AddingKeeps(Without(front, email), last);
      }
    }
  }

  lemma {:induction false} MayStillFollow(before: seq<Code>, fewer: seq<Code>, c: Code)
    requires MayFollow(before, c) && forall x :: x in fewer ==> x in before
    requires FailedSince(fewer, c.account, c.createdAt - HOUR) == FailedSince(before, c.account, c.createdAt - HOUR)
    ensures MayFollow(fewer, c)
  {
    forall i | 0 <= i < |fewer|
      ensures fewer[i].createdAt <= c.createdAt
      ensures fewer[i].account == c.account ==> fewer[i].consumed && fewer[i].createdAt + COOLDOWN <= c.createdAt
    {
      assert fewer[i] in before;
    }
  }

  lemma {:induction false} DeleteKeeps(a: Accounts, email: string, now: int)
    requires IsKept(a, now)
    ensures IsKept(Deleting(a, email), now)
  {
    WithoutKeeps(a.codes, email);
    WithoutRows(a.codes, email);
    var left := Without(a.codes, email);
    forall i | 0 <= i < |left|
      ensures left[i].createdAt <= now && left[i].account.email in a.verified - {email}
    {
      assert left[i] in a.codes;
    }
  }

  lemma {:induction false} StepKeeps(a: Accounts, e: Entry, now: int)
    requires IsKept(a, now) && now <= e.at
    ensures IsKept(Do(a, e), e.at)
  {
    assert IsKept(a, e.at);
    match e.step
    case SignUp(email, id, text, expiresAt) => SignUpKeeps(a, email, id, text, e.at, expiresAt);
    case Resend(account, id, text, expiresAt) => ResendKeeps(a, account, id, text, e.at, expiresAt);
    case Guess(account, guess) => GuessKeeps(a, account, guess, e.at);
    case Use(email, id, verifies) => UseKeeps(a, email, id, verifies, e.at);
    case Delete(email) => DeleteKeeps(a, email, e.at);
  }

  lemma {:induction false} GuessKeeps(a: Accounts, account: Account, guess: string, now: int)
    requires IsKept(a, now)
    ensures IsKept(Guessing(a, account, guess, now).2, now)
  {
    hide AreKept, Missed;
    var found := LatestActive(a.codes, account, now);
    if found.Some? {
      MissKeeps(a.codes, found.value);
      MissChangesNoTimes(a.codes, found.value);
    }
  }

  lemma {:induction false} UseKeeps(a: Accounts, email: string, id: nat, verifies: bool, now: int)
    requires IsKept(a, now)
    ensures IsKept(Using(a, email, id, verifies).1, now)
  {
    hide AreKept;
    ConsumingKeeps(a.codes, Using(a, email, id, verifies).1.codes);
  }

  function LastTime(run: seq<Entry>): int
  {
    if run == [] then 0 else run[|run| - 1].at
  }

  lemma {:induction false} RunKeeps(run: seq<Entry>)
    requires InTimeOrder(run)
    ensures IsKept(Run(run), LastTime(run))
  {
    if run != [] {
      var n := |run| - 1;
      RunKeeps(run[..n]);
      hide Do, IsKept;
      if n == 0 {
        StepKeeps(Run([]), run[0], run[0].at);
      } else {
        StepKeeps(Run(run[..n]), run[n], LastTime(run[..n]));
      }
    }
  }

  // ---- The results ----

  /** At most one code of an email and purpose is ever live, no code is live once it has been
      missed five times, and no two codes are made within a minute. */
  lemma {:induction false} OneLiveCode(run: seq<Entry>, i: nat, j: nat)
    requires InTimeOrder(run) && i < j < |Run(run).codes|
    requires Run(run).codes[i].account == Run(run).codes[j].account
    ensures
      var codes := Run(run).codes;
      && codes[i].consumed
      && codes[j].createdAt - codes[i].createdAt >= COOLDOWN
      && (codes[j].failed >= MAX_ATTEMPTS ==> codes[j].consumed)
  {
    RunKeeps(run);
    LiveIsLast(Run(run).codes, i, j);
    BoundedCode(Run(run).codes, j);
  }

  // ---- Used once ----

  function IssuedId(step: Step): Option<nat>
  {
    match step
    case SignUp(_, id, _, _) => Some(id)
    case Resend(_, id, _, _) => Some(id)
    case _ => None
  }

  ghost predicate IsIssued(run: seq<Entry>, id: nat)
  {
    exists i | 0 <= i < |run| :: IssuedId(run[i].step) == Some(id)
  }

  /** Every code gets an id of its own. */
  ghost predicate FreshIds(run: seq<Entry>)
  {
    forall i, j | 0 <= i < j < |run| && IssuedId(run[i].step).Some? :: IssuedId(run[i].step) != IssuedId(run[j].step)
  }

  predicate IsUse(a: Accounts, e: Entry, id: nat)
  {
    e.step.Use? && e.step.id == id && Using(a, e.step.email, id, e.step.verifies).0
  }

  function TimesUsed(run: seq<Entry>, id: nat): nat
  {
    if run == [] then 0
    else TimesUsed(run[..|run| - 1], id) + if IsUse(Run(run[..|run| - 1]), run[|run| - 1], id) then 1 else 0
  }

  ghost predicate AllConsumed(codes: seq<Code>, id: nat)
  {
    forall i | 0 <= i < |codes| && codes[i].id == id :: codes[i].consumed
  }

  /** A step leaves the codes there are with their ids, consumed for good, and may add the one
      it issues. */
  ghost predicate OnlyIssues(codes: seq<Code>, later: seq<Code>, issued: Option<nat>)
  {
    forall c | c in later ::
      || Some(c.id) == issued
      || exists b :: b in codes && b.id == c.id && (b.consumed ==> c.consumed)
  }

  lemma {:induction false} RetiredOnlyConsumes(codes: seq<Code>, account: Account)
    ensures OnlyIssues(codes, Retired(codes, account), None)
  {
    RetiredRows(codes, account);
    var later := Retired(codes, account);
    forall c | c in later
      ensures exists b :: b in codes && b.id == c.id && (b.consumed ==> c.consumed)
    {
      var i :| 0 <= i < |later| && later[i] == c;
      assert codes[i] in codes;
    }
  }

  lemma {:induction false} UpdatedOnly(codes: seq<Code>, i: nat, c: Code)
    requires i < |codes| && c.id == codes[i].id && (codes[i].consumed ==> c.consumed)
    ensures OnlyIssues(codes, codes[i := c], None)
  {
    var later := codes[i := c];
    forall x | x in later
      ensures exists b :: b in codes && b.id == x.id && (b.consumed ==> x.consumed)
    {
      var j :| 0 <= j < |later| && later[j] == x;
      assert codes[j] in codes;
    }
  }

  lemma {:induction false} OnlyIssuesOnward(a: seq<Code>, b: seq<Code>, c: seq<Code>)
    requires OnlyIssues(a, b, None) && OnlyIssues(b, c, None)
    ensures OnlyIssues(a, c, None)
  {
  }

  lemma {:induction false} MissedOnly(codes: seq<Code>, i: nat)
    requires i < |codes|
    ensures OnlyIssues(codes, Missed(codes, i), None)
  {
    hide OnlyIssues;
    var counted := codes[i := codes[i].(failed := codes[i].failed + 1)];
    UpdatedOnly(codes, i, counted[i]);
    RetiredOnlyConsumes(counted, codes[i].account);
    OnlyIssuesOnward(codes, counted, Retired(counted, codes[i].account));
  }

  lemma {:induction false} AddedOnly(codes: seq<Code>, later: seq<Code>, c: Code)
    requires OnlyIssues(codes, later, None)
    ensures OnlyIssues(codes, later + [c], Some(c.id))
  {
  }

  lemma {:induction false} FewerOnly(codes: seq<Code>, email: string)
    ensures OnlyIssues(codes, Without(codes, email), None)
  {
    WithoutRows(codes, email);
  }

  lemma {:induction false} StepOnlyIssues(a: Accounts, e: Entry)
    ensures OnlyIssues(a.codes, Do(a, e).codes, IssuedId(e.step)) || Do(a, e) == a
  {
    hide OnlyIssues, Retired, ResendRefusal, Missed, Without;
    match e.step
    case SignUp(email, id, text, expiresAt) =>
      AddedOnly(a.codes, a.codes, NewCode(id, Account(email, SIGNUP), text, e.at, expiresAt));
    case Resend(account, id, text, expiresAt) =>
      RetiredOnlyConsumes(a.codes, account);
      AddedOnly(a.codes, Retired(a.codes, account), NewCode(id, account, text, e.at, expiresAt));
    case Guess(account, guess) =>
      if LatestActive(a.codes, account, e.at).Some? {
        MissedOnly(a.codes, LatestActive(a.codes, account, e.at).value);
      }
    case Use(email, id, verifies) =>
      if FindCode(a.codes, id).Some? {
        var i := FindCode(a.codes, id).value;
        UpdatedOnly(a.codes, i, a.codes[i].(consumed := true));
      }
    case Delete(email) => FewerOnly(a.codes, email);
  }

  ghost predicate UniqueCodes(codes: seq<Code>)
  {
    forall i, j | 0 <= i < j < |codes| :: codes[i].id != codes[j].id
  }

  lemma {:induction false} WithoutStaysUnique(codes: seq<Code>, email: string)
    requires UniqueCodes(codes)
    ensures UniqueCodes(Without(codes, email))
  {
    if codes != [] {
      var front, last := codes[..|codes| - 1], codes[|codes| - 1];
      WithoutStaysUnique(front, email);
      WithoutRows(front, email);
      var left := Without(front, email);
      forall i | 0 <= i < |left|
        ensures left[i].id != last.id
      {
        assert left[i] in front;
      }
    }
  }

  lemma {:induction false} StepStaysUnique(a: Accounts, e: Entry)
    requires UniqueCodes(a.codes)
    requires forall i | 0 <= i < |a.codes| :: IssuedId(e.step) != Some(a.codes[i].id)
    ensures UniqueCodes(Do(a, e).codes)
  {
    hide Retired, ResendRefusal, Missed, Without;
    match e.step
    case SignUp(email, id, text, expiresAt) =>
    case Resend(account, id, text, expiresAt) =>
      RetiredRows(a.codes, account);
    case Guess(account, guess) =>
      if LatestActive(a.codes, account, e.at).Some? {
        var i := LatestActive(a.codes, account, e.at).value;
        MissKeepsIds(a.codes, i);
      }
    case Use(email, id, verifies) =>
    case Delete(email) => WithoutStaysUnique(a.codes, email);
  }

  lemma {:induction false} MissKeepsIds(codes: seq<Code>, i: nat)
    requires i < |codes|
    ensures |Missed(codes, i)| == |codes| && forall j | 0 <= j < |codes| :: Missed(codes, i)[j].id == codes[j].id
  {
    hide Retired;
    RetiredRows(codes[i := codes[i].(failed := codes[i].failed + 1)], codes[i].account);
  }

  /** An id is issued by one step at most. */
  lemma {:induction false} IssuedOnce(front: seq<Entry>, e: Entry, id: nat)
    requires FreshIds(front + [e])
    ensures FreshIds(front)
    ensures IsIssued(front, id) ==> IssuedId(e.step) != Some(id)
    ensures IsIssued(front + [e], id) <==> IsIssued(front, id) || IssuedId(e.step) == Some(id)
  {
    var run := front + [e];
    assert run[|front|] == e && forall i | 0 <= i < |front| :: run[i] == front[i];
    if IsIssued(front, id) {
      var i :| 0 <= i < |front| && IssuedId(front[i].step) == Some(id);
      assert IssuedId(run[i].step) == Some(id);
    }
    if IssuedId(e.step) == Some(id) {
      assert IssuedId(run[|front|].step) == Some(id);
    }
  }

  lemma {:induction false} CodesAreIssued(run: seq<Entry>)
    requires FreshIds(run)
    ensures UniqueCodes(Run(run).codes)
    ensures forall i | 0 <= i < |Run(run).codes| :: IsIssued(run, Run(run).codes[i].id)
  {
    if run != [] {
      var front, e := run[..|run| - 1], run[|run| - 1];
      assert run == front + [e];
      var a := Run(front);
      IssuedOnce(front, e, 0);
      CodesAreIssued(front);
      hide Do, FreshIds, IsIssued;
      forall i | 0 <= i < |a.codes|
        ensures IssuedId(e.step) != Some(a.codes[i].id)
      {
        IssuedOnce(front, e, a.codes[i].id);
      }
      StepStaysUnique(a, e);
      StepOnlyIssues(a, e);
      forall i | 0 <= i < |Run(run).codes|
        ensures IsIssued(run, Run(run).codes[i].id)
      {
        var c := Run(run).codes[i];
        IssuedOnce(front, e, c.id);
        if Some(c.id) != IssuedId(e.step) && Do(a, e) != a {
          assert c in Do(a, e).codes;
          var b :| b in a.codes && b.id == c.id && (b.consumed ==> c.consumed);
          var j :| 0 <= j < |a.codes| && a.codes[j] == b;
          assert IsIssued(front, a.codes[j].id);
        }
      }
    }
  }

  lemma {:induction false} ConsumedStays(a: Accounts, e: Entry, id: nat)
    requires AllConsumed(a.codes, id) && IssuedId(e.step) != Some(id)
    ensures AllConsumed(Do(a, e).codes, id)
  {
    StepOnlyIssues(a, e);
    hide Do;
    var later := Do(a, e).codes;
    forall i | 0 <= i < |later| && later[i].id == id
      ensures later[i].consumed
    {
      assert later[i] in later;
      if Do(a, e) != a {
        var b :| b in a.codes && b.id == later[i].id && (b.consumed ==> later[i].consumed);
      }
    }
  }

  lemma {:induction false} UseConsumes(a: Accounts, e: Entry, id: nat)
    requires UniqueCodes(a.codes) && IsUse(a, e, id)
    ensures AllConsumed(Do(a, e).codes, id) && !AllConsumed(a.codes, id)
  {
  }

  /** However requests interleave, a code is used at most once. */
  lemma {:induction false} UsedOnce(run: seq<Entry>, id: nat)
    requires FreshIds(run)
    ensures TimesUsed(run, id) <= 1
    ensures TimesUsed(run, id) == 1 ==> AllConsumed(Run(run).codes, id) && IsIssued(run, id)
  {
    if run != [] {
      var front, e := run[..|run| - 1], run[|run| - 1];
      assert run == front + [e];
      IssuedOnce(front, e, id);
      UsedOnce(front, id);
      CodesAreIssued(front);
      RunAndUses(run, id);
      hide Do, Run, TimesUsed, FreshIds, IsIssued, AllConsumed;
      var a := Run(front);
      if IsUse(a, e, id) {
        UseConsumes(a, e, id);
      } else if TimesUsed(front, id) == 1 {
        ConsumedStays(a, e, id);
      }
    }
  }

  lemma {:induction false} RunAndUses(run: seq<Entry>, id: nat)
    requires run != []
    ensures Run(run) == Do(Run(run[..|run| - 1]), run[|run| - 1])
    ensures TimesUsed(run, id) ==
            TimesUsed(run[..|run| - 1], id) + if IsUse(Run(run[..|run| - 1]), run[|run| - 1], id) then 1 else 0
  {
    hide Do, IsUse;
  }
}

/** How many wrong guesses anyone gets at the codes of an email and purpose, counted as they are
    made, whatever becomes of the codes. */
module GuessFacts {
  import opened Text
  import opened Otp
  import opened OtpFacts

  // ---- What the table says ----

  predicate IsWithin(c: Code, account: Account, first: int, last: int)
  {
    c.account == account && first <= c.createdAt <= last
  }

  /** The wrong guesses the table holds for the account's codes made from `first` to `last`. */
  function FailedWithin(codes: seq<Code>, account: Account, first: int, last: int): nat
  {
    if codes == [] then 0
    else
      var c := codes[|codes| - 1];
      var front := FailedWithin(codes[..|codes| - 1], account, first, last);
      if IsWithin(c, account, first, last) then front + c.failed else front
  }

  lemma {:induction false} WithinIsSince(codes: seq<Code>, account: Account, first: int, last: int, since: int)
    requires since <= first
    ensures FailedWithin(codes, account, first, last) <= FailedSince(codes, account, since)
  {
    if codes != [] {
      WithinIsSince(codes[..|codes| - 1], account, first, last, since);
    }
  }

  lemma {:induction false} HourIsBounded(codes: seq<Code>, account: Account, first: int)
    requires AreKept(codes)
    ensures FailedWithin(codes, account, first, first + HOUR) <= MOST_MISSES_AN_HOUR
  {
    if codes != [] {
      var front, last := codes[..|codes| - 1], codes[|codes| - 1];
      HourIsBounded(front, account, first);
      if IsWithin(last, account, first, first + HOUR) {
        WithinIsSince(front, account, first, first + HOUR, last.createdAt - HOUR);
      }
    }
  }

  lemma {:induction false} FailedUpdated(codes: seq<Code>, i: nat, c: Code, account: Account, first: int, last: int)
    requires i < |codes| && c.account == codes[i].account && c.createdAt == codes[i].createdAt
    ensures FailedWithin(codes[i := c], account, first, last) ==
            FailedWithin(codes, account, first, last) +
            if IsWithin(c, account, first, last) then c.failed - codes[i].failed else 0
  {
    var n := |codes| - 1;
    if i < n {
      assert codes[i := c][..n] == codes[..n][i := c];
      FailedUpdated(codes[..n], i, c, account, first, last);
    } else {
      assert codes[i := c][..n] == codes[..n];
    }
  }

  lemma {:induction false} FailedSame(codes: seq<Code>, later: seq<Code>, account: Account, first: int, last: int)
    requires MoreConsumed(codes, later)
    ensures FailedWithin(later, account, first, last) == FailedWithin(codes, account, first, last)
  {
    if codes != [] {
      FailedSame(codes[..|codes| - 1], later[..|codes| - 1], account, first, last);
    }
  }

  lemma {:induction false} FailedAdded(codes: seq<Code>, c: Code, account: Account, first: int, last: int)
    requires c.failed == 0
    ensures FailedWithin(codes + [c], account, first, last) == FailedWithin(codes, account, first, last)
  {
    assert (codes + [c])[..|codes|] == codes;
  }

  lemma {:induction false} FailedRetired(codes: seq<Code>, gone: Account, account: Account, first: int, last: int)
    ensures FailedWithin(Retired(codes, gone), account, first, last) == FailedWithin(codes, account, first, last)
  {
    RetiredRows(codes, gone);
    FailedSame(codes, Retired(codes, gone), account, first, last);
  }

  lemma {:induction false} FailedMissed(codes: seq<Code>, i: nat, account: Account, first: int, last: int)
    requires i < |codes|
    ensures FailedWithin(Missed(codes, i), account, first, last) ==
            FailedWithin(codes, account, first, last) + if IsWithin(codes[i], account, first, last) then 1 else 0
  {
    hide Retired;
    var c := codes[i].(failed := codes[i].failed + 1);
    FailedUpdated(codes, i, c, account, first, last);
    FailedRetired(codes[i := c], c.account, account, first, last);
  }

  lemma {:induction false} FailedWithout(codes: seq<Code>, email: string, account: Account, first: int, last: int)
    ensures FailedWithin(Without(codes, email), account, first, last) ==
            if account.email == email then 0 else FailedWithin(codes, account, first, last)
  {
    if codes != [] {
      var front, c := codes[..|codes| - 1], codes[|codes| - 1];
      FailedWithout(front, email, account, first, last);
      if c.account.email != email {
        assert (Without(front, email) + [c])[..|Without(front, email)|] == Without(front, email);
      }
    }
  }

  // ---- What was guessed ----

  /** This step is a wrong guess at a code of the account made from `first` to `last`. */
  predicate IsMiss(a: Accounts, e: Entry, account: Account, first: int, last: int)
  {
    e.step.Guess? &&
    var found := LatestActive(a.codes, e.step.account, e.at);
    && found.Some? && IsWithin(a.codes[found.value], account, first, last)
    && Guessing(a, e.step.account, e.step.guess, e.at).0.None?
  }

  /** All wrong guesses of a run at codes of the account made from `first` to `last`. */
  function Misses(run: seq<Entry>, account: Account, first: int, last: int): nat
  {
    if run == [] then 0
    else
      var front, e := run[..|run| - 1], run[|run| - 1];
      Misses(front, account, first, last) + if IsMiss(Run(front), e, account, first, last) then 1 else 0
  }

  ghost predicate NotDeletedWithin(run: seq<Entry>, email: string, first: int, last: int)
  {
    forall k | 0 <= k < |run| :: run[k].step == Delete(email) ==> run[k].at < first || run[k].at > last
  }

  ghost predicate NoCodesWithin(codes: seq<Code>, account: Account, first: int, last: int)
  {
    forall i | 0 <= i < |codes| :: !IsWithin(codes[i], account, first, last)
  }

  lemma {:induction false} NoCodesNoMisses(codes: seq<Code>, account: Account, first: int, last: int)
    requires NoCodesWithin(codes, account, first, last)
    ensures FailedWithin(codes, account, first, last) == 0
  {
    if codes != [] {
      NoCodesNoMisses(codes[..|codes| - 1], account, first, last);
    }
  }

  /** Unless the account goes, the table counts each miss. */
  lemma {:induction false} StepCountsMiss(a: Accounts, e: Entry, account: Account, first: int, last: int)
    requires e.step != Delete(account.email)
    ensures FailedWithin(Do(a, e).codes, account, first, last) ==
            FailedWithin(a.codes, account, first, last) + if IsMiss(a, e, account, first, last) then 1 else 0
  {
    hide Retired, Missed, Without, FailedWithin, ResendRefusal, IsWithin;
    match e.step
    case SignUp(email, id, text, expiresAt) =>
      FailedAdded(a.codes, NewCode(id, Account(email, SIGNUP), text, e.at, expiresAt), account, first, last);
    case Resend(at, id, text, expiresAt) =>
      FailedRetired(a.codes, at, account, first, last);
      FailedAdded(Retired(a.codes, at), NewCode(id, at, text, e.at, expiresAt), account, first, last);
    case Guess(at, guess) =>
      var found := LatestActive(a.codes, at, e.at);
      if found.Some? {
        FailedMissed(a.codes, found.value, account, first, last);
      }
    case Use(email, id, verifies) => FailedSame(a.codes, Do(a, e).codes, account, first, last);
    case Delete(email) => FailedWithout(a.codes, email, account, first, last);
  }

  /** A code is of the account and time of one there was, or was made just now. */
  ghost predicate TimesAreFrom(codes: seq<Code>, later: seq<Code>, now: int)
  {
    forall c | c in later ::
      c.createdAt == now || exists b :: b in codes && b.account == c.account && b.createdAt == c.createdAt
  }

  lemma {:induction false} SameTimes(codes: seq<Code>, later: seq<Code>, now: int)
    requires |later| == |codes|
    requires forall i | 0 <= i < |codes| ::
               later[i].account == codes[i].account && later[i].createdAt == codes[i].createdAt
    ensures TimesAreFrom(codes, later, now)
  {
    forall c | c in later
      ensures exists b :: b in codes && b.account == c.account && b.createdAt == c.createdAt
    {
      var i :| 0 <= i < |later| && later[i] == c;
      assert codes[i] in codes;
    }
  }

  lemma {:induction false} StepKeepsTimes(a: Accounts, e: Entry)
    ensures TimesAreFrom(a.codes, Do(a, e).codes, e.at)
  {
    hide Retired, Missed, Without, ResendRefusal, TimesAreFrom;
    SameTimes(a.codes, a.codes, e.at);
    match e.step
    case SignUp(email, id, text, expiresAt) =>
      AddedTimes(a.codes, a.codes, NewCode(id, Account(email, SIGNUP), text, e.at, expiresAt), e.at);
    case Resend(account, id, text, expiresAt) =>
      RetiredRows(a.codes, account);
      SameTimes(a.codes, Retired(a.codes, account), e.at);
      AddedTimes(a.codes, Retired(a.codes, account), NewCode(id, account, text, e.at, expiresAt), e.at);
    case Guess(account, guess) =>
      if LatestActive(a.codes, account, e.at).Some? {
        var i := LatestActive(a.codes, account, e.at).value;
        MissChangesNoTimes(a.codes, i);
        SameTimes(a.codes, Missed(a.codes, i), e.at);
      }
    case Use(email, id, verifies) => SameTimes(a.codes, Do(a, e).codes, e.at);
    case Delete(email) => FewerTimes(a.codes, email, e.at);
  }

  lemma {:induction false} AddedTimes(codes: seq<Code>, later: seq<Code>, c: Code, now: int)
    requires TimesAreFrom(codes, later, now) && c.createdAt == now
    ensures TimesAreFrom(codes, later + [c], now)
  {
  }

  lemma {:induction false} FewerTimes(codes: seq<Code>, email: string, now: int)
    ensures TimesAreFrom(codes, Without(codes, email), now)
  {
    WithoutRows(codes, email);
  }

  lemma {:induction false} NoCodesStay(a: Accounts, e: Entry, account: Account, first: int, last: int)
    requires NoCodesWithin(a.codes, account, first, last) && e.at > last
    ensures NoCodesWithin(Do(a, e).codes, account, first, last) && !IsMiss(a, e, account, first, last)
  {
    StepKeepsTimes(a, e);
    hide Do, Guessing;
    var later := Do(a, e).codes;
    forall i | 0 <= i < |later|
      ensures !IsWithin(later[i], account, first, last)
    {
      assert later[i] in later;
      if later[i].createdAt != e.at {
        var b :| b in a.codes && b.account == later[i].account && b.createdAt == later[i].createdAt;
        var k :| 0 <= k < |a.codes| && a.codes[k] == b;
      }
    }
  }

  /** The misses so far are those the table holds, until the account goes; and then the codes
      they were of are gone for good. */
  ghost predicate MissesAreKept(run: seq<Entry>, account: Account, first: int)
  {
    var (codes, misses) := (Run(run).codes, Misses(run, account, first, first + HOUR));
    || misses == FailedWithin(codes, account, first, first + HOUR)
    || (NoCodesWithin(codes, account, first, first + HOUR)
        && misses <= MOST_MISSES_AN_HOUR && LastTime(run) > first + HOUR)
  }

  lemma {:induction false} RunOnce(run: seq<Entry>, account: Account, first: int, last: int)
    requires run != []
    ensures
      var front, e := run[..|run| - 1], run[|run| - 1];
      && Run(run) == Do(Run(front), e)
      && Misses(run, account, first, last) ==
         Misses(front, account, first, last) + if IsMiss(Run(front), e, account, first, last) then 1 else 0
  {
    hide Do, IsMiss;
  }

  lemma {:induction false} DeletedHasNone(codes: seq<Code>, account: Account, first: int, last: int)
    ensures NoCodesWithin(Without(codes, account.email), account, first, last)
  {
    WithoutRows(codes, account.email);
    var left := Without(codes, account.email);
    forall i | 0 <= i < |left|
      ensures left[i].account != account
    {
      assert left[i] in left;
    }
  }

  lemma {:induction false} StepKeepsMisses(run: seq<Entry>, account: Account, first: int)
    requires run != [] && InTimeOrder(run) && NotDeletedWithin(run, account.email, first, first + HOUR)
    requires MissesAreKept(run[..|run| - 1], account, first)
    ensures MissesAreKept(run, account, first)
  {
    var front, e, last := run[..|run| - 1], run[|run| - 1], first + HOUR;
    var a := Run(front);
    RunOnce(run, account, first, last);
    RunKeeps(front);
    hide Run, Misses, InTimeOrder, AreKept, FailedWithin, IsMiss;
    HourIsBounded(a.codes, account, first);
    if e.step == Delete(account.email) {
      DeletedMisses(run, account, first);
    } else if NoCodesWithin(a.codes, account, first, last) && e.at > last {
      NoCodesStay(a, e, account, first, last);
      NoCodesNoMisses(a.codes, account, first, last);
      NoCodesNoMisses(Do(a, e).codes, account, first, last);
    } else {
      StepCountsMiss(a, e, account, first, last);
    }
  }

  /** The account goes before the hour, when nothing was made in it, or after it, when all misses
      of it that can be were. */
  lemma {:induction false} DeletedMisses(run: seq<Entry>, account: Account, first: int)
    requires run != [] && InTimeOrder(run) && NotDeletedWithin(run, account.email, first, first + HOUR)
    requires MissesAreKept(run[..|run| - 1], account, first) && run[|run| - 1].step == Delete(account.email)
    ensures MissesAreKept(run, account, first)
  {
    var front, e, last := run[..|run| - 1], run[|run| - 1], first + HOUR;
    var a := Run(front);
    RunOnce(run, account, first, last);
    RunKeeps(front);
    HourIsBounded(a.codes, account, first);
    hide Run, Misses, InTimeOrder, AreKept, FailedWithin, Without;
    DeletedHasNone(a.codes, account, first, last);
    NoCodesNoMisses(Do(a, e).codes, account, first, last);
    if e.at < first {
      CodesAreOld(run);
      NoCodesNoMisses(a.codes, account, first, last);
    }
  }

  lemma {:induction false} CodesAreOld(run: seq<Entry>)
    requires run != [] && InTimeOrder(run)
    ensures
      var codes := Run(run[..|run| - 1]).codes;
      forall i | 0 <= i < |codes| :: codes[i].createdAt <= run[|run| - 1].at
  {
    RunKeeps(run[..|run| - 1]);
    if |run| == 1 {
      assert run[..0] == [];
    }
  }

  lemma {:induction false} RunKeepsMisses(run: seq<Entry>, account: Account, first: int)
    requires InTimeOrder(run) && NotDeletedWithin(run, account.email, first, first + HOUR)
    ensures MissesAreKept(run, account, first)
  {
    if run != [] {
      var front := run[..|run| - 1];
      assert forall k | 0 <= k < |front| :: front[k] == run[k];
      RunKeepsMisses(front, account, first);
      StepKeepsMisses(run, account, first);
    }
  }

  /** Over every run in which the account is not deleted within the hour, all codes of an email
      and purpose made within any one hour are together missed at most 29 times. */
  lemma {:induction false} GuessesOfAnyHour(run: seq<Entry>, account: Account, first: int)
    requires InTimeOrder(run) && NotDeletedWithin(run, account.email, first, first + HOUR)
    ensures Misses(run, account, first, first + HOUR) <= 29
  {
    RunKeepsMisses(run, account, first);
    RunKeeps(run);
    hide Run, Misses, FailedWithin;
    HourIsBounded(Run(run).codes, account, first);
  }

  // ---- When the account is deleted ----

  /** All at one time: sign up, miss a code of the account once, be verified with the right code of
      the sign-up, and delete the account. */
  function Round(account: Account, id: nat, at: int): seq<Entry>
  {
    var signup := Account(account.email, SIGNUP);
    [Entry(SignUp(account.email, id, "right", at + 600), at)]
    + (if account == signup then [] else [Entry(Resend(account, id + 1, "right", at + 600), at)])
    + [Entry(Guess(account, "wrong"), at), Entry(Guess(signup, "right"), at),
       Entry(Use(account.email, id, true), at), Entry(Delete(account.email), at)]
  }

  function Rounds(account: Account, n: nat, at: int): seq<Entry>
  {
    if n == 0 then [] else Rounds(account, n - 1, at) + Round(account, 2 * n, at)
  }

  /** One more entry, and what it leads to. */
  lemma {:induction false} OneMoreEntry(run: seq<Entry>, e: Entry, account: Account, first: int)
    ensures Run(run + [e]) == Do(Run(run), e)
    ensures Misses(run + [e], account, first, first + HOUR) ==
            Misses(run, account, first, first + HOUR)
            + if IsMiss(Run(run), e, account, first, first + HOUR) then 1 else 0
  {
    hide Do, IsMiss;
    assert (run + [e])[..|run|] == run;
  }

  lemma {:induction false} LiveCode(before: seq<Code>, c: Code, at: int)
    requires !c.consumed && c.expiresAt > at
    ensures LatestActive(before + [c], c.account, at) == Some(|before|)
  {
    assert (before + [c])[..|before|] == before;
  }

  /** Up to the code that is missed. */
  lemma {:induction false} RoundOpens(run: seq<Entry>, account: Account, id: nat, at: int, first: int)
    returns (begun: seq<Entry>, codes: seq<Code>)
    requires Run(run) == Accounts(map[], []) && first <= at <= first + HOUR
    ensures begun == run + Round(account, id, at)[..if account.purpose == SIGNUP then 1 else 2]
    ensures Misses(begun, account, first, first + HOUR) == Misses(run, account, first, first + HOUR)
    ensures
      var signup := NewCode(id, Account(account.email, SIGNUP), "right", at, at + 600);
      && codes == (if account.purpose == SIGNUP then [signup]
                   else [signup, NewCode(id + 1, account, "right", at, at + 600)])
      && Run(begun) == Accounts(map[account.email := false], codes)
  {
    hide Run, Misses;
    var steps := Round(account, id, at);
    OneMoreEntry(run, steps[0], account, first);
    begun := run + [steps[0]];
    var signup := NewCode(id, Account(account.email, SIGNUP), "right", at, at + 600);
    codes := [signup];
    assert steps[..1] == [steps[0]];
    if account.purpose != SIGNUP {
      OneMoreEntry(begun, steps[1], account, first);
      assert steps[..2] == [steps[0]] + [steps[1]];
      assert run + [steps[0]] + [steps[1]] == run + steps[..2];
      begun := run + [steps[0]] + [steps[1]];
      var newest := NewCode(id + 1, account, "right", at, at + 600);
      FirstOfAccount(account, signup, at);
      codes := [signup] + [newest];
    }
  }

  /** A first code of another purpose is refused by nothing. */
  lemma {:induction false} FirstOfAccount(account: Account, signup: Code, at: int)
    requires signup.account == Account(account.email, SIGNUP) != account
    ensures ResendRefusal(Accounts(map[account.email := false], [signup]), account, at).None?
    ensures Retired([signup], account) == [signup]
  {
    assert [signup][..0] == [];
    assert LatestCreatedAt([signup], account) == LatestCreatedAt([], account) == None;
    assert FailedSince([signup], account, at - HOUR) == FailedSince([], account, at - HOUR) == 0;
  }

  /** The rest of a round: the last code is missed, the first one used, and all is deleted. */
  lemma {:induction false} RoundCloses(codes: seq<Code>, account: Account, id: nat, at: int, first: int)
    requires first <= at <= first + HOUR
    requires
      var signup := NewCode(id, Account(account.email, SIGNUP), "right", at, at + 600);
      codes == (if account.purpose == SIGNUP then [signup]
                else [signup, NewCode(id + 1, account, "right", at, at + 600)])
    ensures
      var a0, email := Accounts(map[account.email := false], codes), account.email;
      var e0, e1 := Entry(Guess(account, "wrong"), at), Entry(Guess(Account(email, SIGNUP), "right"), at);
      var e2, e3 := Entry(Use(email, id, true), at), Entry(Delete(email), at);
      var a1 := Do(a0, e0);
      && IsMiss(a0, e0, account, first, first + HOUR)
      && !IsMiss(a1, e1, account, first, first + HOUR)
      && Do(a1, e1) == a1
      && Do(Do(a1, e2), e3) == Accounts(map[], [])
  {
    hide Do, IsMiss, LatestActive, FindCode;
    var n := |codes| - 1;
    LastIsMissed(codes, account, at, first);
    var missed := codes[n := codes[n].(failed := 1)];
    RightGuess(missed, account, id, at, first);
    UseAndDelete(missed, account, id, at);
  }

  /** A wrong guess at the last code. */
  lemma {:induction false} LastIsMissed(codes: seq<Code>, account: Account, at: int, first: int)
    requires codes != [] && first <= at <= first + HOUR
    requires
      var c := codes[|codes| - 1];
      c.account == account && !c.consumed && c.expiresAt > at && c.createdAt == at && c.failed == 0 && c.text == "right"
    ensures
      var a, e := Accounts(map[account.email := false], codes), Entry(Guess(account, "wrong"), at);
      var n := |codes| - 1;
      && IsMiss(a, e, account, first, first + HOUR)
      && Do(a, e) == Accounts(map[account.email := false], codes[n := codes[n].(failed := 1)])
  {
    hide Retired, LatestActive;
    var n := |codes| - 1;
    LiveCode(codes[..n], codes[n], at);
    assert codes[..n] + [codes[n]] == codes;
  }

  /** The right guess at the code of the sign-up changes nothing. */
  lemma {:induction false} RightGuess(codes: seq<Code>, account: Account, id: nat, at: int, first: int)
    requires IsMidRound(codes, account, id, at)
    ensures
      var a := Accounts(map[account.email := false], codes);
      var e := Entry(Guess(Account(account.email, SIGNUP), "right"), at);
      !IsMiss(a, e, account, first, first + HOUR) && Do(a, e) == a
  {
    hide LatestActive, FindCode, Missed;
    SignupIsLive(codes, account, id, at);
  }

  lemma {:induction false} UseAndDelete(codes: seq<Code>, account: Account, id: nat, at: int)
    requires IsMidRound(codes, account, id, at)
    ensures
      var a, email := Accounts(map[account.email := false], codes), account.email;
      Do(Do(a, Entry(Use(email, id, true), at)), Entry(Delete(email), at)) == Accounts(map[], [])
  {
    hide LatestActive, FindCode, Missed, Without;
    SignupIsLive(codes, account, id, at);
    WithoutAll(codes[0 := codes[0].(consumed := true)], account.email);
  }

  /** The sign-up's code, and after it the account's own if that is another. */
  ghost predicate IsMidRound(codes: seq<Code>, account: Account, id: nat, at: int)
  {
    && 1 <= |codes| <= 2 && codes[0].account == Account(account.email, SIGNUP) && codes[0].id == id
    && !codes[0].consumed && codes[0].expiresAt > at && codes[0].text == "right"
    && (|codes| == 2 ==> codes[1].account == account && account.purpose != SIGNUP && codes[1].id != id)
  }

  /** The code of the sign-up stays live. */
  lemma {:induction false} SignupIsLive(codes: seq<Code>, account: Account, id: nat, at: int)
    requires IsMidRound(codes, account, id, at)
    ensures LatestActive(codes, Account(account.email, SIGNUP), at) == Some(0)
    ensures FindCode(codes, id) == Some(0)
  {
    LiveCode([], codes[0], at);
    assert [] + [codes[0]] == [codes[0]] && codes[..1] == [codes[0]];
    assert FindCode([codes[0]], id) == Some(0);
  }

  lemma {:induction false} WithoutAll(codes: seq<Code>, email: string)
    requires forall i | 0 <= i < |codes| :: codes[i].account.email == email
    ensures Without(codes, email) == []
  {
    if codes != [] {
      WithoutAll(codes[..|codes| - 1], email);
    }
  }

  lemma {:induction false} RoundCounts(run: seq<Entry>, account: Account, id: nat, at: int, first: int)
    requires Run(run) == Accounts(map[], []) && first <= at <= first + HOUR
    ensures Run(run + Round(account, id, at)) == Accounts(map[], [])
    ensures Misses(run + Round(account, id, at), account, first, first + HOUR) ==
            Misses(run, account, first, first + HOUR) + 1
  {
    hide Run, Misses, Do, IsMiss;
    var begun, codes := RoundOpens(run, account, id, at, first);
    RoundCloses(codes, account, id, at, first);
    var email := account.email;
    var e0, e1 := Entry(Guess(account, "wrong"), at), Entry(Guess(Account(email, SIGNUP), "right"), at);
    var e2, e3 := Entry(Use(email, id, true), at), Entry(Delete(email), at);
    assert run + Round(account, id, at) == begun + [e0] + [e1] + [e2] + [e3];
    OneMoreEntry(begun, e0, account, first);
    OneMoreEntry(begun + [e0], e1, account, first);
    OneMoreEntry(begun + [e0] + [e1], e2, account, first);
    OneMoreEntry(begun + [e0] + [e1] + [e2], e3, account, first);
    OnlyGuessesMiss(Run(begun + [e0] + [e1]), e2, account, first);
    OnlyGuessesMiss(Run(begun + [e0] + [e1] + [e2]), e3, account, first);
  }

  lemma {:induction false} OnlyGuessesMiss(a: Accounts, e: Entry, account: Account, first: int)
    requires !e.step.Guess?
    ensures !IsMiss(a, e, account, first, first + HOUR)
  {
  }

  /** Every time at which the email's account is deleted is one of these. */
  ghost predicate DeletedOnlyAt(run: seq<Entry>, email: string, times: iset<int>)
  {
    forall k | 0 <= k < |run| :: run[k].step == Delete(email) ==> run[k].at in times
  }

  /** Deleting the account within the hour deletes what was counted: a user who knows the right
      codes can make any number of wrong guesses at once. */
  lemma {:induction false} DeletingForgetsMisses(account: Account, n: nat, at: int, first: int)
    requires first <= at <= first + HOUR
    ensures
      var run := Rounds(account, n, at);
      && InTimeOrder(run) && DeletedOnlyAt(run, account.email, iset{at})
      && Run(run) == Accounts(map[], [])
      && Misses(run, account, first, first + HOUR) == n
  {
    hide Run, Misses, Round;
    AllAtOnce(account, n, at);
    if n == 0 {
      NothingRuns(account, first);
    } else {
      DeletingForgetsMisses(account, n - 1, at, first);
      RoundCounts(Rounds(account, n - 1, at), account, 2 * n, at, first);
    }
  }

  lemma {:induction false} NothingRuns(account: Account, first: int)
    ensures Run([]) == Accounts(map[], []) && Misses([], account, first, first + HOUR) == 0
  {
  }

  lemma {:induction false} AllAtOnce(account: Account, n: nat, at: int)
    ensures forall k | 0 <= k < |Rounds(account, n, at)| :: Rounds(account, n, at)[k].at == at
  {
    if n > 0 {
      AllAtOnce(account, n - 1, at);
    }
  }

  /** The codes of an email and purpose made within an hour are missed 29 times at most, in every
      run that deletes the account only at these times, if and only if none of them is within the
      hour. */
  lemma {:induction false} GuessBudgetHoldsExactly(account: Account, times: iset<int>, first: int)
    ensures
      (forall run | InTimeOrder(run) && DeletedOnlyAt(run, account.email, times) ::
         Misses(run, account, first, first + HOUR) <= 29)
      <==> (forall t | t in times :: t < first || t > first + HOUR)
  {
    hide Run, Misses, Rounds, InTimeOrder;
    if forall t | t in times :: t < first || t > first + HOUR {
      forall run | InTimeOrder(run) && DeletedOnlyAt(run, account.email, times)
        ensures Misses(run, account, first, first + HOUR) <= 29
      {
        GuessesOfAnyHour(run, account, first);
      }
    } else {
      var t :| t in times && first <= t <= first + HOUR;
      DeletingForgetsMisses(account, 30, t, first);
      assert DeletedOnlyAt(Rounds(account, 30, t), account.email, times);
    }
  }
}

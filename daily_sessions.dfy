/**
 * DailySessionController: the daily_sessions table, one row per date (the date
 * column is unique, so the table is a map keyed by date). The three operations
 * read the balances and never write them.
 */
module DailySessions {
  import opened Wrappers
  import opened Store

  const ContinuedNote: string := "Continued previous day"
  const StartedNote: string := "Started fresh new day"

  /**
   * continue(): firstOrCreate on today's date. The attributes for a new row are
   * evaluated before the lookup, so a missing wallet fails the call even when
   * today's row already exists.
   */
  function ContinueStep(sessions: map<Date, Session>, b: Ledger, today: Date): Result<map<Date, Session>, Failure> {
    if b.wallet.None? then Failure(NullWallet)
    else if today in sessions then Success(sessions)
    else Success(sessions[today := Session(b.wallet.value, SumBalances(b.accounts, false), Some(ContinuedNote))])
  }

  /** start(): updateOrCreate today's row with both starting balances zero. */
  function StartStep(sessions: map<Date, Session>, today: Date): map<Date, Session> {
    sessions[today := Session(0, 0, Some(StartedNote))]
  }

  /**
   * reset(): starting_cash must be given and at least 0; today's row is overwritten
   * with it, the sum of all account balances and the notes (null when absent).
   */
  function ResetStep(sessions: map<Date, Session>, b: Ledger, today: Date, startingCash: Option<int>, notes: Option<string>)
    : Result<map<Date, Session>, Failure>
  {
    if startingCash.None? || startingCash.value < 0 then Failure(ValidationFailed)
    else Success(sessions[today := Session(startingCash.value, SumBalances(b.accounts, false), notes)])
  }

  /** Every date other than `today` keeps its row, or its absence. */
  ghost predicate OnlyTodayChanged(before: map<Date, Session>, after: map<Date, Session>, today: Date) {
    forall d :: d != today ==> (d in after <==> d in before) && (d in before ==> after[d] == before[d])
  }

  // ---------------------------------------------------------------------------

  /** continue is first-write-wins: once today's row exists, calling it again (whatever the balances now are) changes nothing. */
  lemma ContinueFirstWriteWins(sessions: map<Date, Session>, b: Ledger, later: Ledger, today: Date)
    requires ContinueStep(sessions, b, today).Success?
    requires later.wallet.Some?
    ensures var once := ContinueStep(sessions, b, today).value;
            && today in once
            && ContinueStep(once, later, today) == Success(once)
            && (today in sessions ==> once[today] == sessions[today])
  {}

  /** A row created by continue snapshots the wallet and every account balance, inactive ones included: the ledger total. */
  lemma ContinueSnapshotsTotal(sessions: map<Date, Session>, b: Ledger, today: Date)
    requires today !in sessions && b.wallet.Some?
    ensures var s := ContinueStep(sessions, b, today).value[today];
            && s.startingCash == b.wallet.value
            && s.startingCash + s.startingGcash == Total(b)
  {}

  /** continue fails without a cash wallet, even when today's row exists. */
  lemma ContinueNeedsWallet(sessions: map<Date, Session>, b: Ledger, today: Date)
    ensures ContinueStep(sessions, b, today).Failure? <==> b.wallet.None?
  {}

  /** start always leaves today's row at zero, whatever the balances and whatever was there. */
  lemma StartAlwaysZero(sessions: map<Date, Session>, today: Date)
    ensures StartStep(sessions, today)[today].startingCash == 0
    ensures StartStep(sessions, today)[today].startingGcash == 0
    ensures StartStep(StartStep(sessions, today), today) == StartStep(sessions, today)
  {}

  /** reset fails exactly on a missing or negative starting cash, and otherwise stores it with the all-accounts sum. */
  lemma ResetOverwrites(sessions: map<Date, Session>, b: Ledger, today: Date, startingCash: Option<int>, notes: Option<string>)
    ensures ResetStep(sessions, b, today, startingCash, notes).Success? <==> startingCash.Some? && startingCash.value >= 0
    ensures ResetStep(sessions, b, today, startingCash, notes).Success? ==>
              ResetStep(sessions, b, today, startingCash, notes).value[today]
                == Session(startingCash.value, SumBalances(b.accounts, false), notes)
  {}

  /** All three operations touch only today's row, and leave one there. */
  lemma SessionOpsTouchOnlyToday(sessions: map<Date, Session>, b: Ledger, today: Date, startingCash: Option<int>, notes: Option<string>)
    ensures ContinueStep(sessions, b, today).Success? ==>
              today in ContinueStep(sessions, b, today).value
              && OnlyTodayChanged(sessions, ContinueStep(sessions, b, today).value, today)
    ensures today in StartStep(sessions, today) && OnlyTodayChanged(sessions, StartStep(sessions, today), today)
    ensures ResetStep(sessions, b, today, startingCash, notes).Success? ==>
              today in ResetStep(sessions, b, today, startingCash, notes).value
              && OnlyTodayChanged(sessions, ResetStep(sessions, b, today, startingCash, notes).value, today)
  {}

  // ---------------------------------------------------------------------------

  method Continue(db: Database, today: Date) returns (outcome: Result<Session, Failure>)
    modifies db
    ensures db.Snapshot() == old(db.Snapshot())
    ensures var step := ContinueStep(old(db.sessions), old(db.Snapshot()), today);
            db.sessions == (if step.Success? then step.value else old(db.sessions))
    ensures outcome.Success? <==> db.wallet.Some?
    ensures outcome.Success? ==> today in db.sessions && outcome.value == db.sessions[today]
  {
    if db.wallet.None? {
      return Failure(NullWallet);
    }
    var created := Session(db.wallet.value, SumBalances(db.accounts, false), Some(ContinuedNote));
    if today !in db.sessions {
      db.sessions := db.sessions[today := created];
    }
    outcome := Success(db.sessions[today]);
  }

  method Start(db: Database, today: Date) returns (session: Session)
    modifies db
    ensures db.Snapshot() == old(db.Snapshot())
    ensures db.sessions == StartStep(old(db.sessions), today)
    ensures session == db.sessions[today]
  {
    session := Session(0, 0, Some(StartedNote));
    db.sessions := db.sessions[today := session];
  }

  method Reset(db: Database, today: Date, startingCash: Option<int>, notes: Option<string>)
    returns (outcome: Result<Session, Failure>)
    modifies db
    ensures db.Snapshot() == old(db.Snapshot())
    ensures var step := ResetStep(old(db.sessions), old(db.Snapshot()), today, startingCash, notes);
            db.sessions == (if step.Success? then step.value else old(db.sessions))
    ensures outcome.Success? <==> ResetStep(old(db.sessions), old(db.Snapshot()), today, startingCash, notes).Success?
    ensures outcome.Success? ==> today in db.sessions && outcome.value == db.sessions[today]
  {
    if startingCash.None? || startingCash.value < 0 {
      return Failure(ValidationFailed);
    }
    var session := Session(startingCash.value, SumBalances(db.accounts, false), notes);
    db.sessions := db.sessions[today := session];
    outcome := Success(session);
  }
}

/**
 * Two places where index.php does not do what it evidently means.
 *
 * The referral guard as index.php writes it: `!$users[$chat_id]['referred_by']`
 * is true for null, and equally for a referrer whose chat id is 0, so an
 * account referred by account 0 can be linked a second time. The rest of
 * the model uses the intended guard, Ledger.LinkAllowed (referred_by unset).
 */
module Findings {
  import opened Wrappers
  import opened Accounts
  import opened Text
  import opened Board
  import opened Ledger

  /** PHP's `!referred_by`: null and the integer 0 are both falsy. */
  predicate LinkAllowedAsWritten(a: Account)
  {
    a.referredBy.None? || a.referredBy == Some(0)
  }

  /** The referral link of a "/start" text under the guard as written. */
  function StartLinkAsWritten(u: Users, actor: ChatId, text: string): (res: (Users, Link))
    requires WellFormed(u) && actor in u.records
    ensures WellFormed(res.0) && res.0.records.Keys == u.records.Keys
  {
    var arg := StartArgument(text);
    if arg.Some? && PhpTruthy(arg.value) && LinkAllowedAsWritten(u.records[actor])
    then LinkReferral(u, actor, arg.value)
    else (u, NoLink)
  }

  /** The two guards differ only for a referrer id of 0. */
  lemma GuardsDifferOnlyAtZero(a: Account)
    ensures LinkAllowed(a) ==> LinkAllowedAsWritten(a)
    ensures LinkAllowedAsWritten(a) && !LinkAllowed(a) <==> a.referredBy == Some(0)
  {
  }

  /** A ledger where account 7 was referred by account 0; account 5 has code "bbbbbbbb". */
  function ZeroReferrerLedger(): Users
  {
    Users(
      map[0 := Account(50, 0, 1, "aaaaaaaa", None),
          5 := Account(0, 0, 0, "bbbbbbbb", None),
          7 := Account(0, 0, 0, "cccccccc", Some(0))],
      [0, 5, 7])
  }

  lemma ZeroReferrerLedgerValid()
    ensures LedgerInvariant(ZeroReferrerLedger())
  {
    var m := ZeroReferrerLedger().records;
    assert Referrers(m, 0) == {7};
    assert Referrers(m, 5) == {};
    assert Referrers(m, 7) == {};
  }

  lemma RelinkArgument()
    ensures StartArgument("/start bbbbbbbb") == Some("bbbbbbbb")
  {
    StartArgumentOfDeepLink("bbbbbbbb");
    assert "/start " + "bbbbbbbb" == "/start bbbbbbbb";
  }

  lemma RelinkReferrer()
    ensures FindReferrer(ZeroReferrerLedger(), 7, "bbbbbbbb") == Some(5)
  {
    var u := ZeroReferrerLedger();
    assert !IsReferrerFor(u, 7, "bbbbbbbb", u.order[0]);
    assert IsReferrerFor(u, 7, "bbbbbbbb", u.order[1]);
    assert FirstReferrer(u, 7, "bbbbbbbb", 0) == Some(1);
  }

  lemma WrittenGuardRelinks()
    ensures var u := ZeroReferrerLedger();
      StartLinkAsWritten(u, 7, "/start bbbbbbbb") == (Refer(u, 7, 5), Linked(5))
  {
    RelinkArgument();
    RelinkReferrer();
  }

  lemma IntendedGuardRefuses()
    ensures var u := ZeroReferrerLedger();
      StartLink(u, 7, "/start bbbbbbbb") == (u, NoLink)
  {
    RelinkArgument();
  }

  lemma RelinkBreaksCounts()
    ensures var v := Refer(ZeroReferrerLedger(), 7, 5).records;
      && v[7].referredBy == Some(5)
      && v[5].balance == 50
      && !CountsConsistent(v)
  {
    var v := Refer(ZeroReferrerLedger(), 7, 5).records;
    assert Referrers(v, 0) == {};
    assert v[0].referrals == 1;
  }

  /**
   * In that ledger, which keeps every invariant, account 7 sending
   * "/start bbbbbbbb" is linked again under the guard as written: its
   * referred_by is overwritten with 5, account 5 is credited, and account
   * 0 keeps a referral nobody points at any more. The intended guard
   * leaves the ledger unchanged.
   */
  lemma ZeroReferrerRelinked()
    ensures var u := ZeroReferrerLedger();
      var written := StartLinkAsWritten(u, 7, "/start bbbbbbbb");
      && LedgerInvariant(u)
      && written.1 == Linked(5)
      && written.0.records[7].referredBy == Some(5)
      && written.0.records[5].balance == 50
      && !CountsConsistent(written.0.records)
      && StartLink(u, 7, "/start bbbbbbbb") == (u, NoLink)
  {
    ZeroReferrerLedgerValid();
    WrittenGuardRelinks();
    IntendedGuardRefuses();
    RelinkBreaksCounts();
  }

  /** A ledger with one account, chat id 1001, holding 5 points. */
  function SingleAccountLedger(): Users
  {
    Users(map[1001 := Account(5, 0, 0, "aaaaaaaa", None)], [1001])
  }

  /**
   * The leaderboard as written labels each line with the key array_column
   * left it, a position: the only account, chat id 1001, is listed as
   * "User 0", and 0 is no account's chat id. Standings lists it as 1001.
   */
  lemma LeaderboardLabelsArePositions()
    ensures var u := SingleAccountLedger();
      && Top(u) == [Entry(0, 5)]
      && 0 !in u.records
      && Standings(u) == [Standing(1001, 5)]
  {
    var u := SingleAccountLedger();
    SingleAccountTop();
    StandingAt(u, 0);
  }

  lemma SingleAccountTop()
    ensures Top(SingleAccountLedger()) == [Entry(0, 5)]
  {
    SingleAccountColumn();
    SingleEntrySorted(Entry(0, 5));
  }

  lemma SingleAccountColumn()
    ensures Column(SingleAccountLedger()) == [Entry(0, 5)]
  {
    var col := Column(SingleAccountLedger());
    assert |col| == 1 && col[0] == Entry(0, 5);
  }

  lemma SingleEntrySorted(e: Entry)
    ensures SortDesc([e]) == [e]
  {
    assert [e][..0] == [];
  }
}

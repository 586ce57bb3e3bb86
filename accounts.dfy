/**
 * Account records of the points ledger and the ordered record set that
 * holds them (the decoded contents of users.json).
 */
module Accounts {
  import opened Wrappers

  /** A Telegram chat id; the key of the record set. */
  type ChatId = int

  /** Points credited by one successful "earn". */
  const EarnReward := 10
  /** Seconds that must pass between two credited "earn" actions. */
  const EarnCooldown := 60
  /** Points credited to a referrer for each account it refers. */
  const ReferralBonus := 50
  /** Smallest balance that can be withdrawn. */
  const MinWithdrawal := 100
  /** Number of entries shown on the leaderboard. */
  const LeaderboardSize := 5

  /** One user's record: the five fields of an entry of users.json. */
  datatype Account = Account(
    balance: int,
    lastEarn: int,
    referrals: int,
    refCode: string,
    referredBy: Option<ChatId>)

  /** The record created for a chat id seen for the first time. */
  function NewAccount(code: string): Account
  {
    Account(0, 0, 0, code, None)
  }

  /**
   * The record set as PHP holds it: an ordered array keyed by chat id.
   * `records` gives the values, `order` the iteration order of the keys.
   */
  datatype Users = Users(records: map<ChatId, Account>, order: seq<ChatId>)

  /** The order lists every key exactly once and nothing else. */
  ghost predicate WellFormed(u: Users)
  {
    && (forall i, j :: 0 <= i < j < |u.order| ==> u.order[i] != u.order[j])
    && (forall i :: 0 <= i < |u.order| ==> u.order[i] in u.records)
    && (forall k :: k in u.records ==> k in u.order)
  }

  /** The ids of the accounts whose referred_by names `x`. */
  ghost function Referrers(m: map<ChatId, Account>, x: ChatId): set<ChatId>
  {
    set y | y in m && m[y].referredBy == Some(x)
  }

  /** Every account's referral counter equals the number of accounts it referred. */
  ghost predicate CountsConsistent(m: map<ChatId, Account>)
  {
    forall x :: x in m ==> m[x].referrals == |Referrers(m, x)|
  }

  /** Every referred_by names an existing account. */
  ghost predicate ReferencesExist(m: map<ChatId, Account>)
  {
    forall y :: y in m && m[y].referredBy.Some? ==> m[y].referredBy.value in m
  }

  /** No account refers itself. */
  ghost predicate NoSelfReferral(m: map<ChatId, Account>)
  {
    forall y :: y in m ==> m[y].referredBy != Some(y)
  }

  /** No balance is negative. */
  ghost predicate BalancesNonNegative(m: map<ChatId, Account>)
  {
    forall y :: y in m ==> m[y].balance >= 0
  }

  /** The invariants the ledger is meant to keep. */
  ghost predicate LedgerInvariant(u: Users)
  {
    && WellFormed(u)
    && CountsConsistent(u.records)
    && ReferencesExist(u.records)
    && NoSelfReferral(u.records)
    && BalancesNonNegative(u.records)
  }

  /** The record set when users.json is missing, empty or not an array. */
  function EmptyUsers(): (u: Users)
    ensures LedgerInvariant(u) && u.records == map[]
  {
    Users(map[], [])
  }
}

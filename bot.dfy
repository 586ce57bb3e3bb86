/**
 * processUpdate with its state changed in place: the record set loaded
 * from users.json is updated field by field and written back once at the
 * end, in the order index.php writes the fields. Two things differ from
 * index.php as written, both corrections recorded under "Findings" in
 * README.md: the referral guard is Ledger.LinkAllowed (referred_by unset)
 * instead of `!referred_by`, and the leaderboard names chat ids
 * (Board.Standings) instead of array_column positions. Each method is
 * proved to do exactly what the corresponding function of module Ledger
 * specifies.
 */
module Bot {
  import opened Wrappers
  import opened Accounts
  import opened Text
  import opened Board
  import opened Ledger

  /** The `$users` array of one processUpdate call. */
  class UserStore {
    var records: map<ChatId, Account>
    var order: seq<ChatId>

    /** The record set as a value. */
    function State(): Users
      reads this
    {
      Users(records, order)
    }

    ghost predicate Valid()
      reads this
    {
      WellFormed(State())
    }

    /** loadUsers(): the decoded contents of users.json. */
    constructor (loaded: Users)
      requires WellFormed(loaded)
      ensures Valid() && State() == loaded
    {
      records := loaded.records;
      order := loaded.order;
    }

    /** `if (!isset($users[$chat_id])) $users[$chat_id] = [...]`: a new key goes last. */
    method CreateIfMissing(id: ChatId, code: string)
      requires Valid()
      modifies this
      ensures Valid() && State() == EnsureAccount(old(State()), id, code)
    {
      if id !in records {
        records := records[id := NewAccount(code)];
        order := order + [id];
      }
    }

    /**
     * The foreach scan: the first account in iteration order whose code is
     * `token` and which is not the actor is linked as the actor's referrer
     * and credited, and the scan stops.
     */
    method LinkReferrer(actor: ChatId, token: string) returns (link: Link)
      requires Valid() && actor in records
      modifies this
      ensures Valid() && (State(), link) == LinkReferral(old(State()), actor, token)
    {
      var i := 0;
      while i < |order|
        invariant 0 <= i <= |order|
        invariant State() == old(State())
        invariant forall j :: 0 <= j < i ==> !IsReferrerFor(State(), actor, token, order[j])
      {
        var id := order[i];
        if records[id].refCode == token && id != actor {
          ghost var u := State();
          assert FirstReferrer(u, actor, token, 0) == Some(i);
          records := records[actor := records[actor].(referredBy := Some(id))];
          records := records[id := records[id].(referrals := records[id].referrals + 1)];
          records := records[id := records[id].(balance := records[id].balance + ReferralBonus)];
          link := Linked(id);
          assert State() == Refer(u, actor, id);
          return;
        }
        i := i + 1;
      }
      link := NoLink;
    }

    /** The "earn" case: the balance is credited first, then last_earn is stamped. */
    method EarnPoints(id: ChatId, now: int) returns (out: Outcome)
      requires Valid() && id in records
      modifies this
      ensures Valid() && (State(), out) == Earn(old(State()), id, now)
    {
      var timeDiff := now - records[id].lastEarn;
      if timeDiff < EarnCooldown {
        out := Cooldown(EarnCooldown - timeDiff);
      } else {
        ghost var a := records[id];
        records := records[id := records[id].(balance := records[id].balance + EarnReward)];
        records := records[id := records[id].(lastEarn := now)];
        out := Earned(records[id].balance);
        assert records == old(records)[id := a.(balance := a.balance + EarnReward, lastEarn := now)];
      }
    }

    /** The "withdraw" case: the amount is read, then the balance is zeroed. */
    method WithdrawAll(id: ChatId) returns (out: Outcome)
      requires Valid() && id in records
      modifies this
      ensures Valid() && (State(), out) == Withdraw(old(State()), id)
    {
      if records[id].balance < MinWithdrawal {
        out := Insufficient(MinWithdrawal - records[id].balance);
      } else {
        var amount := records[id].balance;
        records := records[id := records[id].(balance := 0)];
        out := Withdrawn(amount);
      }
    }

    /** The body of processUpdate between loadUsers() and saveUsers(). */
    method Handle(up: Update, now: int, code: string) returns (out: Outcome)
      requires Valid()
      modifies this
      ensures Valid() && (State(), out) == Step(old(State()), up, now, code)
    {
      if up.message.Some? {
        var msg := up.message.value;
        var id := msg.chatId;
        var text := Trim(if msg.text.Some? then msg.text.value else "");
        CreateIfMissing(id, code);
        out := Silent;
        if IsStartCommand(text) {
          var arg := StartArgument(text);
          var link := NoLink;
          if arg.Some? && PhpTruthy(arg.value) && LinkAllowed(records[id]) {
            link := LinkReferrer(id, arg.value);
          }
          out := Welcome(records[id].refCode, link);
        }
      } else if up.callback.Some? {
        var cb := up.callback.value;
        var id := cb.chatId;
        CreateIfMissing(id, code);
        match ParseAction(cb.data) {
          case EarnAction =>
            out := EarnPoints(id, now);
          case BalanceAction =>
            out := BalanceInfo(records[id].balance, records[id].referrals);
          case LeaderboardAction =>
            out := Leaderboard(Standings(State()));
          case ReferralsAction =>
            out := ReferralInfo(records[id].refCode, records[id].referrals);
          case WithdrawAction =>
            out := WithdrawAll(id);
          case HelpAction =>
            out := Help;
          case UnknownAction =>
            out := NoOp;
        }
      } else {
        out := Silent;
      }
    }
  }

  /**
   * processUpdate: load the record set, apply one update to it in place,
   * and return the record set that saveUsers() writes (once, after every
   * change) together with the reply.
   */
  method ProcessUpdate(loaded: Users, up: Update, now: int, code: string) returns (saved: Users, out: Outcome)
    requires WellFormed(loaded)
    ensures WellFormed(saved)
    ensures (saved, out) == Step(loaded, up, now, code)
  {
    var store := new UserStore(loaded);
    out := store.Handle(up, now, code);
    saved := store.State();
  }
}

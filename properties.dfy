/**
 * What one ledger step promises: account creation, when and how a
 * referral link is made, the referral-count invariant, the earn cooldown,
 * withdrawal, the leaderboard, and the actions that only read.
 */
module LedgerProperties {
  import opened Wrappers
  import opened Accounts
  import opened Text
  import opened Board
  import opened Ledger

  // ---------------------------------------------------------------------
  // Account creation

  /**
   * An unknown chat id gets exactly one new record (balance 0, last_earn 0,
   * referrals 0, the generated code, referred_by null) placed last in
   * iteration order; a known id's record is left alone, so its code is
   * never regenerated.
   */
  lemma AccountCreation(u: Users, id: ChatId, code: string, otherCode: string)
    requires WellFormed(u)
    ensures var r := EnsureAccount(u, id, code);
      && (id !in u.records ==>
            && r.records.Keys == u.records.Keys + {id}
            && r.records[id] == Account(0, 0, 0, code, None)
            && r.order == u.order + [id]
            && forall k :: k in u.records ==> r.records[k] == u.records[k])
      && (id in u.records ==> r == u)
      && EnsureAccount(r, id, otherCode) == r
  {
  }

  /**
   * `v` extends `u`: no account is removed or reordered, no referral code
   * changes, and no referred_by that was set changes.
   */
  ghost predicate Extends(u: Users, v: Users)
  {
    && u.order <= v.order
    && u.records.Keys <= v.records.Keys
    && (forall k :: k in u.records ==> v.records[k].refCode == u.records[k].refCode)
    && (forall k :: k in u.records && u.records[k].referredBy.Some? ==>
          v.records[k].referredBy == u.records[k].referredBy)
  }

  lemma ExtendsTransitive(u: Users, v: Users, w: Users)
    requires Extends(u, v) && Extends(v, w)
    ensures Extends(u, w)
  {
  }

  /** A "/start" link keeps the history of every account. */
  lemma StartLinkExtends(u1: Users, id: ChatId, text: string)
    requires WellFormed(u1) && id in u1.records
    ensures Extends(u1, StartLink(u1, id, text).0)
  {
    var arg := StartArgument(text);
    if arg.Some? && PhpTruthy(arg.value) && LinkAllowed(u1.records[id]) {
      match FindReferrer(u1, id, arg.value)
      case None =>
      case Some(r) =>
        assert Extends(u1, Refer(u1, id, r));
    }
  }

  /** "earn" and "withdraw" keep the history of every account. */
  lemma ActionExtends(u1: Users, id: ChatId, now: int)
    requires WellFormed(u1) && id in u1.records
    ensures Extends(u1, Earn(u1, id, now).0)
    ensures Extends(u1, Withdraw(u1, id).0)
  {
  }

  /** A callback's record set is the created one, or the result of "earn" or "withdraw" on it. */
  lemma CallbackState(u: Users, cb: Callback, now: int, code: string)
    requires WellFormed(u)
    ensures var u1 := EnsureAccount(u, cb.chatId, code);
      var v := HandleCallback(u, cb, now, code).0;
      || (ParseAction(cb.data) == EarnAction && v == Earn(u1, cb.chatId, now).0)
      || (ParseAction(cb.data) == WithdrawAction && v == Withdraw(u1, cb.chatId).0)
      || (ParseAction(cb.data) !in {EarnAction, WithdrawAction} && v == u1)
  {
  }

  lemma CallbackExtends(u: Users, cb: Callback, now: int, code: string)
    requires WellFormed(u)
    ensures var u1 := EnsureAccount(u, cb.chatId, code);
      var v := HandleCallback(u, cb, now, code).0;
      Extends(u1, v) && Extends(u, v)
  {
    var u1 := EnsureAccount(u, cb.chatId, code);
    CallbackState(u, cb, now, code);
    ActionExtends(u1, cb.chatId, now);
    ExtendsTransitive(u, u1, HandleCallback(u, cb, now, code).0);
  }

  lemma MessageExtends(u: Users, msg: Message, code: string)
    requires WellFormed(u)
    ensures var u1 := EnsureAccount(u, msg.chatId, code);
      var v := HandleMessage(u, msg, code).0;
      Extends(u1, v) && Extends(u, v)
  {
    var u1 := EnsureAccount(u, msg.chatId, code);
    StartLinkExtends(u1, msg.chatId, MessageText(msg));
    ExtendsTransitive(u, u1, HandleMessage(u, msg, code).0);
  }

  /**
   * Over a whole step: accounts are never removed or reordered, only the
   * actor can be added, referral codes never change, a new actor's code is
   * the generated one, and a referred_by once set is never changed.
   */
  lemma StepKeepsHistory(u: Users, up: Update, now: int, code: string)
    requires WellFormed(u)
    ensures var v := Step(u, up, now, code).0;
      && Extends(u, v)
      && v.records.Keys == u.records.Keys + (if Actor(up).Some? then {Actor(up).value} else {})
      && (Actor(up).Some? && Actor(up).value !in u.records ==> v.records[Actor(up).value].refCode == code)
  {
    if up.message.Some? {
      MessageExtends(u, up.message.value, code);
    } else if up.callback.Some? {
      CallbackExtends(u, up.callback.value, now, code);
    }
  }

  /** The generated code matters only when the actor is new. */
  lemma CodeUsedOnlyForNewActor(u: Users, up: Update, now: int, code: string, otherCode: string)
    requires WellFormed(u)
    requires Actor(up).None? || Actor(up).value in u.records
    ensures Step(u, up, now, code) == Step(u, up, now, otherCode)
  {
  }

  // ---------------------------------------------------------------------
  // Referral linking

  /** `k` is the first position in iteration order holding an account that can refer `actor`. */
  ghost predicate IsFirstReferrer(u: Users, actor: ChatId, token: string, k: int)
  {
    && 0 <= k < |u.order|
    && IsReferrerFor(u, actor, token, u.order[k])
    && forall j :: 0 <= j < k ==> !IsReferrerFor(u, actor, token, u.order[j])
  }

  /** Some account other than the actor carries `token`. */
  ghost predicate HasReferrer(u: Users, actor: ChatId, token: string)
  {
    exists k :: IsFirstReferrer(u, actor, token, k)
  }

  /** `r` is the account the scan finds first for `token`. */
  ghost predicate IsFirstReferrerId(u: Users, actor: ChatId, token: string, r: ChatId)
  {
    exists k :: IsFirstReferrer(u, actor, token, k) && u.order[k] == r
  }

  /**
   * A message links a referrer exactly when its trimmed text begins with
   * "/start", its second space-separated piece is present and truthy, the
   * actor (after creation) has no referrer yet, and some other account
   * carries that piece as its code; the referrer is then the first such
   * account in iteration order, never the actor itself. The reply always
   * carries the actor's own code.
   */
  lemma ReferralLinkConditions(u: Users, msg: Message, cb: Option<Callback>, now: int, code: string)
    requires WellFormed(u)
    ensures
      var id := msg.chatId;
      var u1 := EnsureAccount(u, id, code);
      var text := MessageText(msg);
      var arg := StartArgument(text);
      var res := Step(u, Update(Some(msg), cb), now, code);
      && (res.1.Welcome? <==> IsStartCommand(text))
      && (res.1.Welcome? ==> res.1.refCode == u1.records[id].refCode)
      && ((res.1.Welcome? && res.1.link.Linked?) <==>
            && IsStartCommand(text)
            && arg.Some? && PhpTruthy(arg.value)
            && u1.records[id].referredBy.None?
            && HasReferrer(u1, id, arg.value))
      && (res.1.Welcome? && res.1.link.Linked? ==>
            && res.1.link.referrer != id
            && IsFirstReferrerId(u1, id, arg.value, res.1.link.referrer))
  {
    var u1 := EnsureAccount(u, msg.chatId, code);
    MessageStep(u, msg, cb, now, code);
    StartLinkConditions(u1, msg.chatId, MessageText(msg));
    StartLinkEffect(u1, msg.chatId, MessageText(msg));
  }

  /** When the link a "/start" text attempts on an existing actor is made, and to whom. */
  lemma StartLinkConditions(u1: Users, id: ChatId, text: string)
    requires WellFormed(u1) && id in u1.records
    ensures
      var arg := StartArgument(text);
      var link := StartLink(u1, id, text).1;
      && (link.Linked? <==>
            && arg.Some? && PhpTruthy(arg.value)
            && u1.records[id].referredBy.None?
            && HasReferrer(u1, id, arg.value))
      && (link.Linked? ==>
            && link.referrer != id
            && IsFirstReferrerId(u1, id, arg.value, link.referrer))
  {
    var arg := StartArgument(text);
    if arg.Some? && PhpTruthy(arg.value) && u1.records[id].referredBy.None? {
      match FirstReferrer(u1, id, arg.value, 0)
      case None =>
        forall k | 0 <= k < |u1.order|
          ensures !IsFirstReferrer(u1, id, arg.value, k)
        {
        }
      case Some(k) =>
        assert IsFirstReferrer(u1, id, arg.value, k);
    }
  }

  /**
   * The effect of a link on the record set `u1` it starts from: the actor's
   * referred_by becomes the referrer, the referrer's referrals grow by
   * exactly 1 and its balance by exactly 50, and no other record or field
   * changes. Without a link, nothing changes.
   */
  ghost predicate LinkEffect(u1: Users, id: ChatId, v: Users, link: Link)
    requires id in u1.records
  {
    && (link.Linked? ==>
          var r := link.referrer;
          && r != id && r in u1.records
          && v.order == u1.order && v.records.Keys == u1.records.Keys
          && v.records[id] == u1.records[id].(referredBy := Some(r))
          && v.records[r] == u1.records[r].(referrals := u1.records[r].referrals + 1,
                                            balance := u1.records[r].balance + ReferralBonus)
          && forall k :: k in u1.records && k != id && k != r ==> v.records[k] == u1.records[k])
    && (link.NoLink? ==> v == u1)
  }

  /**
   * A message's referral link has exactly LinkEffect on the record set
   * after the actor's creation; a message that is not "/start" only
   * creates the actor's account.
   */
  lemma ReferralLinkEffect(u: Users, msg: Message, cb: Option<Callback>, now: int, code: string)
    requires WellFormed(u)
    ensures
      var u1 := EnsureAccount(u, msg.chatId, code);
      var res := Step(u, Update(Some(msg), cb), now, code);
      && (res.1.Welcome? ==> LinkEffect(u1, msg.chatId, res.0, res.1.link))
      && (!res.1.Welcome? ==> res.0 == u1)
  {
    MessageStep(u, msg, cb, now, code);
    StartLinkEffect(EnsureAccount(u, msg.chatId, code), msg.chatId, MessageText(msg));
  }

  /** A message step: creation, then the "/start" link and the welcome, or silence. */
  lemma MessageStep(u: Users, msg: Message, cb: Option<Callback>, now: int, code: string)
    requires WellFormed(u)
    ensures
      var u1 := EnsureAccount(u, msg.chatId, code);
      var text := MessageText(msg);
      var res := Step(u, Update(Some(msg), cb), now, code);
      var link := StartLink(u1, msg.chatId, text);
      && (IsStartCommand(text) ==> res.0 == link.0 && res.1 == Welcome(link.0.records[msg.chatId].refCode, link.1))
      && (!IsStartCommand(text) ==> res.0 == u1 && res.1 == Silent)
  {
  }

  /** The link a "/start" text attempts on an existing actor has exactly LinkEffect. */
  lemma StartLinkEffect(u1: Users, id: ChatId, text: string)
    requires WellFormed(u1) && id in u1.records
    ensures LinkEffect(u1, id, StartLink(u1, id, text).0, StartLink(u1, id, text).1)
  {
    var arg := StartArgument(text);
    if arg.Some? && PhpTruthy(arg.value) && LinkAllowed(u1.records[id]) {
      match FindReferrer(u1, id, arg.value)
      case None =>
      case Some(r) =>
    }
  }

  /** A "/start" link changes no record but the actor's and the reported referrer's. */
  lemma StartLinkFrame(u1: Users, id: ChatId, text: string, k: ChatId)
    requires WellFormed(u1) && id in u1.records && k in u1.records && k != id
    ensures
      var res := StartLink(u1, id, text);
      res.0.records[k] == u1.records[k] || res.1 == Linked(k)
  {
    var arg := StartArgument(text);
    if arg.Some? && PhpTruthy(arg.value) && LinkAllowed(u1.records[id]) {
      match FindReferrer(u1, id, arg.value)
      case None =>
      case Some(r) =>
        assert Refer(u1, id, r).records[k] == u1.records[k] || r == k;
    }
  }

  /** A button press changes no record but the actor's. */
  lemma CallbackFrame(u: Users, cb: Callback, now: int, code: string, k: ChatId)
    requires WellFormed(u) && k in u.records && k != cb.chatId
    ensures HandleCallback(u, cb, now, code).0.records[k] == u.records[k]
  {
    var u1 := EnsureAccount(u, cb.chatId, code);
    assert u1.records[k] == u.records[k];
    assert Earn(u1, cb.chatId, now).0.records[k] == u.records[k];
    assert Withdraw(u1, cb.chatId).0.records[k] == u.records[k];
  }

  /**
   * At most one account other than the actor changes in a step, and only
   * when it is the referrer the step reports.
   */
  lemma StepFrame(u: Users, up: Update, now: int, code: string, k: ChatId)
    requires WellFormed(u) && k in u.records && Actor(up) != Some(k)
    ensures
      var res := Step(u, up, now, code);
      res.0.records[k] == u.records[k] || (res.1.Welcome? && res.1.link == Linked(k))
  {
    if up.message.Some? {
      var msg := up.message.value;
      var u1 := EnsureAccount(u, msg.chatId, code);
      assert u1.records[k] == u.records[k];
      StartLinkFrame(u1, msg.chatId, MessageText(msg), k);
    } else if up.callback.Some? {
      CallbackFrame(u, up.callback.value, now, code, k);
    }
  }

  // ---------------------------------------------------------------------
  // The ledger invariant

  /** Records whose referred_by fields agree have the same referrers. */
  lemma ReferrersUnchanged(m: map<ChatId, Account>, m': map<ChatId, Account>, x: ChatId)
    requires m.Keys == m'.Keys
    requires forall k :: k in m ==> m'[k].referredBy == m[k].referredBy
    ensures Referrers(m', x) == Referrers(m, x)
  {
    forall y | y in Referrers(m', x)
      ensures y in Referrers(m, x)
    {
    }
    forall y | y in Referrers(m, x)
      ensures y in Referrers(m', x)
    {
    }
  }

  /** A step that changes no referrals or referred_by field keeps the counts consistent. */
  lemma CountsUnchanged(m: map<ChatId, Account>, m': map<ChatId, Account>)
    requires CountsConsistent(m)
    requires m.Keys == m'.Keys
    requires forall k :: k in m ==> m'[k].referredBy == m[k].referredBy && m'[k].referrals == m[k].referrals
    ensures CountsConsistent(m')
  {
    forall x | x in m'
      ensures m'[x].referrals == |Referrers(m', x)|
    {
      ReferrersUnchanged(m, m', x);
    }
  }

  lemma EnsureAccountKeepsInvariant(u: Users, id: ChatId, code: string)
    requires LedgerInvariant(u)
    ensures LedgerInvariant(EnsureAccount(u, id, code))
  {
    if id !in u.records {
      var m := u.records;
      var m' := EnsureAccount(u, id, code).records;
      forall x | x in m'
        ensures m'[x].referrals == |Referrers(m', x)|
      {
        if x == id {
          forall y | y in m'
            ensures m'[y].referredBy != Some(id)
          {
            if y != id {
              assert m'[y] == m[y];
            }
          }
          assert Referrers(m', x) == {};
        } else {
          assert Referrers(m', x) == Referrers(m, x);
        }
      }
    }
  }

  lemma ReferKeepsInvariant(u: Users, actor: ChatId, r: ChatId)
    requires LedgerInvariant(u) && actor in u.records && r in u.records && actor != r
    requires LinkAllowed(u.records[actor])
    ensures LedgerInvariant(Refer(u, actor, r))
  {
    var m := u.records;
    var m' := Refer(u, actor, r).records;
    forall x | x in m'
      ensures m'[x].referrals == |Referrers(m', x)|
    {
      if x == r {
        assert Referrers(m', r) == Referrers(m, r) + {actor};
        assert actor !in Referrers(m, r);
      } else {
        assert Referrers(m', x) == Referrers(m, x);
      }
    }
  }

  lemma StartLinkKeepsInvariant(u1: Users, id: ChatId, text: string)
    requires LedgerInvariant(u1) && id in u1.records
    ensures LedgerInvariant(StartLink(u1, id, text).0)
  {
    var arg := StartArgument(text);
    if arg.Some? && PhpTruthy(arg.value) && LinkAllowed(u1.records[id]) {
      match FindReferrer(u1, id, arg.value)
      case None =>
      case Some(r) => ReferKeepsInvariant(u1, id, r);
    }
  }

  /** "earn" and "withdraw" keep the ledger invariant. */
  lemma ActionKeepsInvariant(u1: Users, id: ChatId, now: int)
    requires LedgerInvariant(u1) && id in u1.records
    ensures LedgerInvariant(Earn(u1, id, now).0)
    ensures LedgerInvariant(Withdraw(u1, id).0)
  {
    CountsUnchanged(u1.records, Earn(u1, id, now).0.records);
    CountsUnchanged(u1.records, Withdraw(u1, id).0.records);
  }

  lemma CallbackKeepsInvariant(u: Users, cb: Callback, now: int, code: string)
    requires LedgerInvariant(u)
    ensures LedgerInvariant(HandleCallback(u, cb, now, code).0)
  {
    EnsureAccountKeepsInvariant(u, cb.chatId, code);
    ActionKeepsInvariant(EnsureAccount(u, cb.chatId, code), cb.chatId, now);
    CallbackState(u, cb, now, code);
  }

  /**
   * Every step keeps the ledger invariant: each account's referrals equals
   * the number of accounts whose referred_by names it, every referred_by
   * names an existing account other than its own, and no balance is
   * negative.
   */
  lemma StepKeepsInvariant(u: Users, up: Update, now: int, code: string)
    requires LedgerInvariant(u)
    ensures LedgerInvariant(Step(u, up, now, code).0)
  {
    if up.message.Some? {
      var msg := up.message.value;
      EnsureAccountKeepsInvariant(u, msg.chatId, code);
      StartLinkKeepsInvariant(EnsureAccount(u, msg.chatId, code), msg.chatId, MessageText(msg));
    } else if up.callback.Some? {
      CallbackKeepsInvariant(u, up.callback.value, now, code);
    }
  }

  // ---------------------------------------------------------------------
  // Earn

  /**
   * "earn" with time_diff = now - last_earn: under 60 seconds nothing
   * changes and the reply gives 60 - time_diff seconds to wait; from 60
   * seconds on (60 included) the balance grows by exactly 10 and last_earn
   * becomes now.
   */
  lemma EarnRule(u: Users, id: ChatId, now: int, code: string)
    requires WellFormed(u)
    ensures
      var u1 := EnsureAccount(u, id, code);
      var a := u1.records[id];
      var timeDiff := now - a.lastEarn;
      var res := Step(u, Update(None, Some(Callback(id, "earn"))), now, code);
      && (timeDiff < EarnCooldown ==> res.0 == u1 && res.1 == Cooldown(EarnCooldown - timeDiff) && res.1.remaining > 0)
      && (timeDiff >= EarnCooldown ==>
            && res.1 == Earned(a.balance + EarnReward)
            && res.0 == Users(u1.records[id := a.(balance := a.balance + EarnReward, lastEarn := now)], u1.order))
  {
  }

  /**
   * Two presses of "earn": after a credited earn at t1, a press at t2 less
   * than 60 seconds later is refused with 60 - (t2 - t1) seconds to wait and
   * changes nothing; a press 60 or more seconds later is credited again.
   */
  lemma EarnTwice(u: Users, id: ChatId, t1: int, t2: int, code: string)
    requires WellFormed(u) && t1 <= t2
    ensures
      var press := Update(None, Some(Callback(id, "earn")));
      var first := Step(u, press, t1, code);
      var second := Step(first.0, press, t2, code);
      first.1.Earned? ==>
        && (t2 - t1 < EarnCooldown ==> second.1 == Cooldown(EarnCooldown - (t2 - t1)) && second.0 == first.0)
        && (t2 - t1 >= EarnCooldown ==> second.1 == Earned(first.1.newBalance + EarnReward))
  {
    var press := Update(None, Some(Callback(id, "earn")));
    var first := Step(u, press, t1, code);
    if first.1.Earned? {
      var u1 := EnsureAccount(u, id, code);
      assert first.0.records[id].lastEarn == t1;
      assert first.0.records[id].balance == first.1.newBalance;
      assert EnsureAccount(first.0, id, code) == first.0;
    }
  }

  // ---------------------------------------------------------------------
  // Withdraw

  /**
   * "withdraw": below 100 points the balance is unchanged and the reply
   * gives the shortfall 100 - balance; otherwise the reply gives the whole
   * balance and the balance becomes exactly 0.
   */
  lemma WithdrawRule(u: Users, id: ChatId, now: int, code: string)
    requires WellFormed(u)
    ensures
      var u1 := EnsureAccount(u, id, code);
      var a := u1.records[id];
      var res := Step(u, Update(None, Some(Callback(id, "withdraw"))), now, code);
      && (a.balance < MinWithdrawal ==> res.0 == u1 && res.1 == Insufficient(MinWithdrawal - a.balance) && res.1.deficit > 0)
      && (a.balance >= MinWithdrawal ==>
            && res.1 == Withdrawn(a.balance)
            && res.0 == Users(u1.records[id := a.(balance := 0)], u1.order))
  {
  }

  /** A successful withdrawal leaves nothing: pressing again reports the full minimum as missing. */
  lemma WithdrawTwice(u: Users, id: ChatId, t1: int, t2: int, code: string)
    requires WellFormed(u)
    ensures
      var press := Update(None, Some(Callback(id, "withdraw")));
      var first := Step(u, press, t1, code);
      var second := Step(first.0, press, t2, code);
      first.1.Withdrawn? ==> second.1 == Insufficient(MinWithdrawal) && second.0 == first.0
  {
    var press := Update(None, Some(Callback(id, "withdraw")));
    var first := Step(u, press, t1, code);
    if first.1.Withdrawn? {
      assert first.0.records[id].balance == 0;
      assert EnsureAccount(first.0, id, code) == first.0;
    }
  }

  // ---------------------------------------------------------------------
  // Leaderboard and the read-only actions

  /**
   * "leaderboard" changes nothing but the actor's creation, and replies
   * with min(5, #accounts) distinct accounts in non-increasing order of
   * balance, each with its own balance; pressing it again gives the same
   * reply.
   */
  lemma LeaderboardRule(u: Users, id: ChatId, now: int, later: int, code: string)
    requires WellFormed(u)
    ensures
      var u1 := EnsureAccount(u, id, code);
      var press := Update(None, Some(Callback(id, "leaderboard")));
      var res := Step(u, press, now, code);
      && res.0 == u1
      && res.1.Leaderboard?
      && |res.1.entries| == Min(LeaderboardSize, |u1.order|)
      && (forall i, j :: 0 <= i < j < |res.1.entries| ==> res.1.entries[i].balance >= res.1.entries[j].balance)
      && (forall i, j :: 0 <= i < j < |res.1.entries| ==> res.1.entries[i].chatId != res.1.entries[j].chatId)
      && (forall i :: 0 <= i < |res.1.entries| ==>
            var e := res.1.entries[i];
            e.chatId in u1.records && e.balance == u1.records[e.chatId].balance)
      && Step(res.0, press, later, code) == res
  {
    var u1 := EnsureAccount(u, id, code);
    StandingsShape(u1);
    StandingsDistinct(u1);
  }

  /**
   * "balance", "referrals", "help", any unknown tag, and any message that
   * is not "/start" change nothing but the actor's creation.
   */
  lemma ReadOnlyActions(u: Users, up: Update, now: int, code: string)
    requires WellFormed(u) && Actor(up).Some?
    requires up.message.Some? ==> !IsStartCommand(MessageText(up.message.value))
    requires up.message.None? ==> up.callback.value.data != "earn" && up.callback.value.data != "withdraw"
    ensures Step(u, up, now, code).0 == EnsureAccount(u, Actor(up).value, code)
  {
  }

  /**
   * "balance" replies with the actor's balance and referral count,
   * "referrals" with its code and referral count, "help" with the fixed
   * help text.
   */
  lemma InfoReplies(u: Users, id: ChatId, now: int, code: string)
    requires WellFormed(u)
    ensures
      var a := EnsureAccount(u, id, code).records[id];
      && Step(u, Update(None, Some(Callback(id, "balance"))), now, code).1 == BalanceInfo(a.balance, a.referrals)
      && Step(u, Update(None, Some(Callback(id, "referrals"))), now, code).1 == ReferralInfo(a.refCode, a.referrals)
      && Step(u, Update(None, Some(Callback(id, "help"))), now, code).1 == Help
  {
  }

  /** A "/start <code>" text that carries no trim characters in `c` survives trim() unchanged. */
  lemma TrimDeepLink(c: string)
    requires c != [] && forall i :: 0 <= i < |c| ==> !IsTrimChar(c[i])
    ensures Trim("/start " + c) == "/start " + c
  {
    var s := "/start " + c;
    assert TrimLeft(s) == s;
    assert s[|s| - 1] == c[|c| - 1];
  }

  /**
   * The invite link round trip: a new user who follows the link of an
   * account whose code is `c` (and no other account's) is welcomed with the
   * generated code and linked to that account.
   */
  lemma DeepLinkRefers(u: Users, actor: ChatId, r: ChatId, c: string, now: int, code: string)
    requires WellFormed(u) && actor !in u.records && r in u.records
    requires u.records[r].refCode == c && PhpTruthy(c)
    requires forall i :: 0 <= i < |c| ==> !IsTrimChar(c[i])
    requires forall k :: k in u.records && k != r ==> u.records[k].refCode != c
    ensures Step(u, Update(Some(Message(actor, Some("/start " + c))), None), now, code).1 == Welcome(code, Linked(r))
  {
    var msg := Message(actor, Some("/start " + c));
    var u1 := EnsureAccount(u, actor, code);
    TrimDeepLink(c);
    assert MessageText(msg) == "/start " + c;
    StartArgumentOfDeepLink(c);
    UniqueCodeFound(u1, actor, r, c);
  }

  /** The scan finds the one account other than the actor that carries the code. */
  lemma UniqueCodeFound(u: Users, actor: ChatId, r: ChatId, c: string)
    requires WellFormed(u) && r in u.records && r != actor && u.records[r].refCode == c
    requires forall k :: k in u.records && k != r && k != actor ==> u.records[k].refCode != c
    ensures FindReferrer(u, actor, c) == Some(r)
  {
    var p :| 0 <= p < |u.order| && u.order[p] == r;
    assert IsReferrerFor(u, actor, c, u.order[p]);
  }

  /** An update with neither a message nor a callback changes nothing. */
  lemma EmptyUpdateChangesNothing(u: Users, now: int, code: string)
    requires WellFormed(u)
    ensures Step(u, Update(None, None), now, code) == (u, Silent)
  {
  }

  /** The keyboard has three rows of two buttons, and every button's tag has a handler. */
  lemma KeyboardActionsHandled(u: Users, id: ChatId, now: int, code: string, row: nat, col: nat)
    requires WellFormed(u) && row < 3 && col < 2
    ensures |MainKeyboard()| == 3 && forall r :: 0 <= r < 3 ==> |MainKeyboard()[r]| == 2
    ensures
      var tag := MainKeyboard()[row][col].callbackData;
      var out := Step(u, Update(None, Some(Callback(id, tag))), now, code).1;
      out != NoOp && out != Silent
  {
  }
}

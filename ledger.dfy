/**
 * The ledger step that processUpdate performs for one webhook update,
 * written as functions over the record set: lazy account creation, the
 * "/start <code>" referral link, and the six callback actions of the
 * keyboard. The clock (`now`) and the generated referral code (`code`,
 * the first eight hex digits of md5(chat id . time())) are supplied by
 * the environment.
 */
module Ledger {
  import opened Wrappers
  import opened Accounts
  import opened Text
  import opened Board

  /** The fields of an update's "message" that processUpdate reads. */
  datatype Message = Message(chatId: ChatId, text: Option<string>)

  /** The fields of an update's "callback_query" that the ledger reads. */
  datatype Callback = Callback(chatId: ChatId, data: string)

  /** A decoded webhook update; a message takes precedence over a callback. */
  datatype Update = Update(message: Option<Message>, callback: Option<Callback>)

  /** What the referral scan of a "/start" message did. */
  datatype Link = Linked(referrer: ChatId) | NoLink

  /** The reply of one step, in place of the reply text. */
  datatype Outcome =
    | Welcome(refCode: string, link: Link)
    | Cooldown(remaining: int)
    | Earned(newBalance: int)
    | BalanceInfo(balance: int, referrals: int)
    | Leaderboard(entries: seq<Standing>)
    | ReferralInfo(refCode: string, referrals: int)
    | Insufficient(deficit: int)
    | Withdrawn(amount: int)
    | Help
    /** An unknown callback tag: a reply is sent, but its text is undefined. */
    | NoOp
    /** No reply is sent (a message that is not "/start", or an update with neither part). */
    | Silent

  /** One inline-keyboard button: its caption and its callback tag. */
  datatype Button = Button(text: string, callbackData: string)

  /** getMainKeyboard(): three rows of two buttons. */
  function MainKeyboard(): (kb: seq<seq<Button>>)
    ensures |kb| == 3 && forall i :: 0 <= i < 3 ==> |kb[i]| == 2
    ensures forall i, j :: 0 <= i < |kb| && 0 <= j < |kb[i]| ==> ParseAction(kb[i][j].callbackData) != UnknownAction
  {
    [ [Button("💰 Earn", "earn"), Button("💳 Balance", "balance")],
      [Button("🏆 Leaderboard", "leaderboard"), Button("👥 Referrals", "referrals")],
      [Button("🏧 Withdraw", "withdraw"), Button("❓ Help", "help")] ]
  }

  /** The chat id whose account the update acts on, if any. */
  function Actor(up: Update): Option<ChatId>
  {
    if up.message.Some? then Some(up.message.value.chatId)
    else if up.callback.Some? then Some(up.callback.value.chatId)
    else None
  }

  /** Creates the account of an unknown chat id, appended to the iteration order. */
  function EnsureAccount(u: Users, id: ChatId, code: string): (r: Users)
    requires WellFormed(u)
    ensures WellFormed(r) && r.records.Keys == u.records.Keys + {id}
  {
    if id in u.records then u
    else Users(u.records[id := NewAccount(code)], u.order + [id])
  }

  /** `id` is an account whose code is `token` and that is not the actor. */
  predicate IsReferrerFor(u: Users, actor: ChatId, token: string, id: ChatId)
  {
    id in u.records && u.records[id].refCode == token && id != actor
  }

  /** The first position at or after `from` whose account can refer `actor` with `token`. */
  function FirstReferrer(u: Users, actor: ChatId, token: string, from: nat): (k: Option<nat>)
    requires from <= |u.order|
    ensures k.Some? ==>
      && from <= k.value < |u.order|
      && IsReferrerFor(u, actor, token, u.order[k.value])
      && forall j :: from <= j < k.value ==> !IsReferrerFor(u, actor, token, u.order[j])
    ensures k.None? ==> forall j :: from <= j < |u.order| ==> !IsReferrerFor(u, actor, token, u.order[j])
    decreases |u.order| - from
  {
    if from == |u.order| then None
    else if IsReferrerFor(u, actor, token, u.order[from]) then Some(from)
    else FirstReferrer(u, actor, token, from + 1)
  }

  /** The referrer the foreach scan picks: the first match in iteration order. */
  function FindReferrer(u: Users, actor: ChatId, token: string): (r: Option<ChatId>)
    ensures r.Some? ==> IsReferrerFor(u, actor, token, r.value)
  {
    match FirstReferrer(u, actor, token, 0)
    case None => None
    case Some(k) => Some(u.order[k])
  }

  /** The guard on the actor: the referral link is attempted only while referred_by is unset. */
  predicate LinkAllowed(a: Account)
  {
    a.referredBy.None?
  }

  /** Records the link: the actor names its referrer, which gains one referral and the bonus. */
  function Refer(u: Users, actor: ChatId, r: ChatId): (v: Users)
    requires WellFormed(u) && actor in u.records && r in u.records && actor != r
    ensures WellFormed(v) && v.records.Keys == u.records.Keys && v.order == u.order
  {
    var a := u.records[actor];
    var b := u.records[r];
    var records := u.records[actor := a.(referredBy := Some(r))];
    Users(records[r := b.(referrals := b.referrals + 1, balance := b.balance + ReferralBonus)], u.order)
  }

  /** The referral scan with its effect. */
  function LinkReferral(u: Users, actor: ChatId, token: string): (res: (Users, Link))
    requires WellFormed(u) && actor in u.records
    ensures WellFormed(res.0) && res.0.records.Keys == u.records.Keys && res.0.order == u.order
  {
    match FindReferrer(u, actor, token)
    case None => (u, NoLink)
    case Some(r) => (Refer(u, actor, r), Linked(r))
  }

  /** The referral link a "/start" text attempts, once the actor's account exists. */
  function StartLink(u: Users, actor: ChatId, text: string): (res: (Users, Link))
    requires WellFormed(u) && actor in u.records
    ensures WellFormed(res.0) && res.0.records.Keys == u.records.Keys && res.0.order == u.order
  {
    var arg := StartArgument(text);
    if arg.Some? && PhpTruthy(arg.value) && LinkAllowed(u.records[actor])
    then LinkReferral(u, actor, arg.value)
    else (u, NoLink)
  }

  /** The text of a message, trimmed; a missing text is the empty string. */
  function MessageText(msg: Message): (t: string)
    ensures msg.text.None? ==> t == ""
    ensures t == [] || (!IsTrimChar(t[0]) && !IsTrimChar(t[|t| - 1]))
  {
    Trim(if msg.text.Some? then msg.text.value else "")
  }

  /** A message update: only "/start" is answered, with the actor's own referral code. */
  function HandleMessage(u: Users, msg: Message, code: string): (res: (Users, Outcome))
    requires WellFormed(u)
    ensures WellFormed(res.0) && res.0.records.Keys == u.records.Keys + {msg.chatId}
  {
    var id := msg.chatId;
    var u1 := EnsureAccount(u, id, code);
    if !IsStartCommand(MessageText(msg)) then (u1, Silent)
    else
      var (u2, link) := StartLink(u1, id, MessageText(msg));
      (u2, Welcome(u2.records[id].refCode, link))
  }

  /** The "earn" action: +10 points unless the last credited earn was under 60 seconds ago. */
  function Earn(u: Users, id: ChatId, now: int): (res: (Users, Outcome))
    requires WellFormed(u) && id in u.records
    ensures WellFormed(res.0) && res.0.records.Keys == u.records.Keys && res.0.order == u.order
  {
    var a := u.records[id];
    var timeDiff := now - a.lastEarn;
    if timeDiff < EarnCooldown then (u, Cooldown(EarnCooldown - timeDiff))
    else
      var credited := a.(balance := a.balance + EarnReward, lastEarn := now);
      (Users(u.records[id := credited], u.order), Earned(credited.balance))
  }

  /** The "withdraw" action: the whole balance, once it reaches 100. */
  function Withdraw(u: Users, id: ChatId): (res: (Users, Outcome))
    requires WellFormed(u) && id in u.records
    ensures WellFormed(res.0) && res.0.records.Keys == u.records.Keys && res.0.order == u.order
  {
    var a := u.records[id];
    if a.balance < MinWithdrawal then (u, Insufficient(MinWithdrawal - a.balance))
    else (Users(u.records[id := a.(balance := 0)], u.order), Withdrawn(a.balance))
  }

  /** The cases of the switch on a callback's data. */
  datatype Action =
    | EarnAction | BalanceAction | LeaderboardAction | ReferralsAction | WithdrawAction | HelpAction
    | UnknownAction

  /** switch ($data): the tag compared with each case label in turn. */
  function ParseAction(data: string): (a: Action)
    ensures a == UnknownAction <==> data !in {"earn", "balance", "leaderboard", "referrals", "withdraw", "help"}
  {
    if data == "earn" then EarnAction
    else if data == "balance" then BalanceAction
    else if data == "leaderboard" then LeaderboardAction
    else if data == "referrals" then ReferralsAction
    else if data == "withdraw" then WithdrawAction
    else if data == "help" then HelpAction
    else UnknownAction
  }

  /** A callback (button press) update, dispatched on its tag. */
  function HandleCallback(u: Users, cb: Callback, now: int, code: string): (res: (Users, Outcome))
    requires WellFormed(u)
    ensures WellFormed(res.0) && res.0.records.Keys == u.records.Keys + {cb.chatId}
  {
    var id := cb.chatId;
    var u1 := EnsureAccount(u, id, code);
    var a := u1.records[id];
    match ParseAction(cb.data)
    case EarnAction => Earn(u1, id, now)
    case BalanceAction => (u1, BalanceInfo(a.balance, a.referrals))
    case LeaderboardAction => (u1, Leaderboard(Standings(u1)))
    case ReferralsAction => (u1, ReferralInfo(a.refCode, a.referrals))
    case WithdrawAction => Withdraw(u1, id)
    case HelpAction => (u1, Help)
    case UnknownAction => (u1, NoOp)
  }

  /** processUpdate: the record set saved afterwards and the reply. */
  function Step(u: Users, up: Update, now: int, code: string): (res: (Users, Outcome))
    requires WellFormed(u)
    ensures WellFormed(res.0)
    ensures res.0.records.Keys == u.records.Keys + (if Actor(up).Some? then {Actor(up).value} else {})
  {
    if up.message.Some? then HandleMessage(u, up.message.value, code)
    else if up.callback.Some? then HandleCallback(u, up.callback.value, now, code)
    else (u, Silent)
  }
}

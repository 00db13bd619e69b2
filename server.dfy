/**
 * The development game server: the status and level helpers and the
 * `/game/action` handler, which settles an action against the server's single
 * running balance.  The random roll, the FORCE_WIN / FORCE_BONUS switches and
 * the ISO time stamp are parameters; the log record is returned as data.
 */
module Server {
  import opened Util

  const MaxCracks: int := 5
  const InitialBalance: int := 1000
  /** The part of the win range that also pays the bonus. */
  const BonusChance: real := 0.01
  const NormalWinChance: real := 0.5 - BonusChance

  /** The `tryIndex` of a request body: a JSON number, or anything else (NaN included). */
  datatype TryIndex = Num(value: real) | NotANumber

  /** `buildStatus`: the numeric status code of a result string. */
  function BuildStatus(result: string): (status: Option<int>)
    ensures status == Some(1) <==> result == "win"
    ensures status == Some(0) <==> result == "lose"
    ensures status == Some(2) <==> result == "cashout" || result == "redeemed"
    ensures status.None? <==> result !in {"win", "lose", "cashout", "redeemed"}
  {
    if result == "win" then Some(1)
    else if result == "lose" then Some(0)
    else if result == "cashout" || result == "redeemed" then Some(2)
    else None
  }

  /** `buildLevel`: the crack level of a try, one above the try index, clamped to 1..MaxCracks. */
  function BuildLevel(tryIndex: TryIndex): (level: real)
    ensures 1.0 <= level <= MaxCracks as real
    ensures tryIndex.NotANumber? ==> level == 1.0
    ensures tryIndex.Num? && 0.0 <= tryIndex.value <= (MaxCracks - 1) as real ==> level == tryIndex.value + 1.0
    ensures tryIndex.Num? && tryIndex.value <= 0.0 ==> level == 1.0
    ensures tryIndex.Num? && tryIndex.value >= (MaxCracks - 1) as real ==> level == MaxCracks as real
  {
    match tryIndex
    case NotANumber => 1.0
    case Num(v) =>
      // Math.min(Math.max(v + 1, 1), MaxCracks)
      var atLeastOne := if v + 1.0 >= 1.0 then v + 1.0 else 1.0;
      if atLeastOne <= MaxCracks as real then atLeastOne else MaxCracks as real
  }

  /** A request body as received; `None` is a field the client left out. */
  datatype ActionRequest = ActionRequest(
    userId: Option<string>,
    token: Option<string>,
    action: Option<string>,
    betAmount: Option<int>,
    eggId: Option<string>,
    eggType: Option<string>,
    tryIndex: Option<TryIndex>)

  /** The request body after the handler's destructuring defaults. */
  datatype Body = Body(
    userId: string,
    token: string,
    action: string,
    betAmount: int,
    eggId: Option<string>,
    eggType: string,
    tryIndex: TryIndex)

  function WithDefaults(req: ActionRequest): Body {
    Body(req.userId.GetOr(""), req.token.GetOr(""), req.action.GetOr("crack"),
         req.betAmount.GetOr(0), req.eggId, req.eggType.GetOr("gold"),
         req.tryIndex.GetOr(Num(0.0)))
  }

  datatype ActionResponse = ActionResponse(
    apiStatus: string,
    status: Option<int>,
    result: string,
    winAmount: int,
    balance: int,
    eggId: Option<string>,
    eggType: string,
    tryIndex: TryIndex,
    level: real,
    bonus: bool,
    serverTime: string)

  /** One line of the transaction log. */
  datatype LogRecord = LogRecord(
    time: string,
    userId: string,
    token: string,
    action: string,
    eggId: Option<string>,
    eggType: string,
    tryIndex: TryIndex,
    level: real,
    betAmount: int,
    result: string,
    status: Option<int>,
    winAmount: int,
    balanceBefore: int,
    balanceAfter: int,
    bonus: bool)

  /** What one request produces: the response, the log line and the new balance. */
  datatype Decision = Decision(response: ActionResponse, log: LogRecord, balanceAfter: int)

  /** The response every branch builds; only status, result, amount, balance and bonus differ. */
  function Respond(b: Body, status: Option<int>, result: string, winAmount: int,
                   balance: int, bonus: bool, now: string): ActionResponse
  {
    ActionResponse("ok", status, result, winAmount, balance, b.eggId, b.eggType,
                   b.tryIndex, BuildLevel(b.tryIndex), bonus, now)
  }

  /** The log line written after a response: request fields plus the response's outcome. */
  function LogOf(b: Body, r: ActionResponse, before: int): (log: LogRecord)
    ensures log.balanceBefore == before && log.balanceAfter == r.balance
    ensures log.result == r.result && log.status == r.status
    ensures log.winAmount == r.winAmount && log.bonus == r.bonus
    ensures log.time == r.serverTime
  {
    LogRecord(r.serverTime, b.userId, b.token, b.action, b.eggId, b.eggType,
              b.tryIndex, r.level, b.betAmount, r.result, r.status, r.winAmount,
              before, r.balance, r.bonus)
  }

  /** How one crack roll comes out. */
  datatype Crack = Crack(didWin: bool, didBonus: bool, winAmount: int)

  /**
   * One roll decides both the win and the bonus: the bonus range lies inside
   * the win range, so a bonus is always a win, whichever switches are on.
   */
  function ResolveCrack(bet: int, roll: real, forceWin: bool, forceBonus: bool): (c: Crack)
    ensures c.didBonus ==> c.didWin
    ensures c.didWin <==> forceWin || roll < 0.5
    ensures !forceBonus ==> (c.didBonus <==> roll < BonusChance)
    ensures forceBonus ==> c.didBonus == c.didWin
    ensures c.winAmount == if !c.didWin then 0 else if c.didBonus then 2 * bet else bet
    ensures c.winAmount == 0 || c.winAmount == bet || c.winAmount == 2 * bet
    ensures bet != 0 ==> (c.winAmount == 0 <==> !c.didWin)
  {
    var didWin := if forceWin then true else roll < BonusChance + NormalWinChance;
    var didBonus := if forceBonus then didWin else roll < BonusChance;
    Crack(didWin, didBonus, if didWin then bet * (if didBonus then 2 else 1) else 0)
  }

  /** The `store` branch: nothing is settled. */
  function StoreDecision(b: Body, before: int, now: string): (d: Decision)
    ensures d.balanceAfter == before
    ensures d.response.result == "stored" && d.response.status.None?
    ensures d.response.winAmount == 0 && !d.response.bonus
  {
    var r := Respond(b, None, "stored", 0, before, false, now);
    Decision(r, LogOf(b, r, before), before)
  }

  /** The `cashout` / `redeem` branch: the bet amount is paid out, the balance never below zero. */
  function CashoutDecision(b: Body, before: int, now: string): (d: Decision)
    ensures d.response.winAmount == b.betAmount
    ensures d.balanceAfter == Max(0, before + b.betAmount)
    ensures d.response.status == Some(2)
    ensures d.response.result == (if b.action == "redeem" then "redeemed" else "cashout")
    ensures !d.response.bonus
  {
    var after := Max(0, before + b.betAmount);
    var result := if b.action == "redeem" then "redeemed" else "cashout";
    var r := Respond(b, Some(2), result, b.betAmount, after, false, now);
    Decision(r, LogOf(b, r, before), after)
  }

  /** Every other action is a crack: win or lose on the roll, the bet is always charged. */
  function CrackDecision(b: Body, before: int, roll: real, forceWin: bool, forceBonus: bool,
                         now: string): (d: Decision)
    ensures var c := ResolveCrack(b.betAmount, roll, forceWin, forceBonus);
      && d.response.result == (if c.didWin then "win" else "lose")
      && d.response.winAmount == c.winAmount
      && d.response.bonus == c.didBonus
      && d.balanceAfter == Max(0, before + c.winAmount - b.betAmount)
    ensures d.response.status == Some(if d.response.result == "win" then 1 else 0)
  {
    var c := ResolveCrack(b.betAmount, roll, forceWin, forceBonus);
    var after := Max(0, before + c.winAmount - b.betAmount);
    var result := if c.didWin then "win" else "lose";
    var r := Respond(b, BuildStatus(result), result, c.winAmount, after, c.didBonus, now);
    Decision(r, LogOf(b, r, before), after)
  }

  /** The whole `/game/action` decision, dispatched on the action name. */
  function Decide(b: Body, before: int, roll: real, forceWin: bool, forceBonus: bool,
                  now: string): (d: Decision)
    ensures d.response.apiStatus == "ok" && d.response.serverTime == now
    ensures d.response.balance == d.balanceAfter
    ensures d.log == LogOf(b, d.response, before)
    ensures d.response.status == BuildStatus(d.response.result)
    ensures d.response.level == BuildLevel(b.tryIndex)
    ensures d.response.eggId == b.eggId && d.response.eggType == b.eggType
    ensures d.response.bonus ==> d.response.result == "win"
    ensures b.action != "store" ==> d.balanceAfter >= 0
    ensures b.action == "store" ==> d.balanceAfter == before
  {
    if b.action == "store" then StoreDecision(b, before, now)
    else if b.action == "cashout" || b.action == "redeem" then CashoutDecision(b, before, now)
    else CrackDecision(b, before, roll, forceWin, forceBonus, now)
  }

  /** `/game/init`: the greeting with the server's egg catalogue. */
  datatype EggConfig = EggConfig(id: string, title: string, bet: int)

  datatype InitResponse = InitResponse(
    apiStatus: string,
    userId: string,
    lang: string,
    balance: int,
    eggs: seq<EggConfig>,
    currency: string,
    maxStored: int,
    serverTime: string)

  const ServerEggs: seq<EggConfig> :=
    [EggConfig("gold", "Gold Egg", 100), EggConfig("premium", "Premium Egg", 1000)]

  /** The server's in-memory state: one running balance shared by every player. */
  class GameServer {
    var balance: int

    ghost predicate Valid()
      reads this
    {
      balance >= 0
    }

    constructor()
      ensures balance == InitialBalance && Valid()
    {
      balance := InitialBalance;
    }

    /** `/game/init`: echoes the user and language (defaults "" and "en") and reports the balance. */
    method HandleInit(userId: Option<string>, lang: Option<string>, now: string)
      returns (r: InitResponse)
      ensures r.apiStatus == "ok" && r.balance == balance
      ensures r.userId == userId.GetOr("") && r.lang == lang.GetOr("en")
      ensures r.eggs == ServerEggs
      ensures |r.eggs| == 2 && r.eggs[0].id != r.eggs[1].id
      ensures forall i :: 0 <= i < |r.eggs| ==> r.eggs[i].bet > 0
      ensures r.currency == "RM" && r.maxStored == 3 && r.serverTime == now
    {
      r := InitResponse("ok", userId.GetOr(""), lang.GetOr("en"), balance, ServerEggs,
                        "RM", 3, now);
    }

    /**
     * `/game/action`: settles one request against the balance and returns the
     * response with the log line it writes.
     */
    method HandleAction(req: ActionRequest, roll: real, forceWin: bool, forceBonus: bool,
                        now: string)
      returns (response: ActionResponse, log: LogRecord)
      modifies this
      ensures var d := Decide(WithDefaults(req), old(balance), roll, forceWin, forceBonus, now);
        response == d.response && log == d.log && balance == d.balanceAfter
      ensures old(Valid()) ==> Valid()
    {
      var b := WithDefaults(req);
      var balanceBefore := balance;
      var level := BuildLevel(b.tryIndex);
      if b.action == "store" {
        response := ActionResponse("ok", None, "stored", 0, balance, b.eggId, b.eggType,
                                   b.tryIndex, level, false, now);
      } else if b.action == "cashout" || b.action == "redeem" {
        var winAmount := b.betAmount;
        balance := Max(0, balance + winAmount);
        var result := if b.action == "redeem" then "redeemed" else "cashout";
        response := ActionResponse("ok", Some(2), result, winAmount, balance, b.eggId,
                                   b.eggType, b.tryIndex, level, false, now);
      } else {
        var didWin := if forceWin then true else roll < BonusChance + NormalWinChance;
        var didBonus := if forceBonus then didWin else roll < BonusChance;
        var winAmount := if didWin then b.betAmount * (if didBonus then 2 else 1) else 0;
        balance := Max(0, balance + winAmount - b.betAmount);
        var result := if didWin then "win" else "lose";
        response := ActionResponse("ok", BuildStatus(result), result, winAmount, balance,
                                   b.eggId, b.eggType, b.tryIndex, level, didBonus, now);
      }
      log := LogRecord(now, b.userId, b.token, b.action, b.eggId, b.eggType, b.tryIndex,
                       level, b.betAmount, response.result, response.status,
                       response.winAmount, balanceBefore, balance, response.bonus);
    }
  }

  /** A request together with the roll the server draws for it. */
  datatype Step = Step(req: ActionRequest, roll: real)

  /** The balance after a run of requests. */
  function BalanceAfter(before: int, steps: seq<Step>, forceWin: bool, forceBonus: bool): int
    decreases |steps|
  {
    if |steps| == 0 then before
    else
      var d := Decide(WithDefaults(steps[0].req), before, steps[0].roll, forceWin, forceBonus, "");
      BalanceAfter(d.balanceAfter, steps[1..], forceWin, forceBonus)
  }

  /** Starting from a non-negative balance, no sequence of requests drives it below zero. */
  lemma {:induction false} BalanceStaysNonNegative(before: int, steps: seq<Step>,
                                                   forceWin: bool, forceBonus: bool)
    requires before >= 0
    ensures BalanceAfter(before, steps, forceWin, forceBonus) >= 0
    decreases |steps|
  {
    if |steps| > 0 {
      var d := Decide(WithDefaults(steps[0].req), before, steps[0].roll, forceWin, forceBonus, "");
      BalanceStaysNonNegative(d.balanceAfter, steps[1..], forceWin, forceBonus);
    }
  }
}

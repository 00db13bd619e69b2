/**
 * The client's API module: the base-URL normalisation and URL building used
 * for every request, and the in-browser mock backend that answers when no
 * server is configured.  Build-time environment values are parameters; the
 * mock's win chance is kept as a whole percentage.
 */
module GameApi {
  import opened Util

  /** `VITE_API_BASE_URL || ''` with one trailing `/` removed. */
  function NormalizeBaseUrl(raw: Option<string>): (base: string)
    ensures raw.None? ==> base == ""
    ensures raw.Some? && |raw.value| > 0 && raw.value[|raw.value| - 1] == '/' ==>
      base == raw.value[..|raw.value| - 1]
    ensures raw.Some? && (|raw.value| == 0 || raw.value[|raw.value| - 1] != '/') ==>
      base == raw.value
  {
    var s := raw.GetOr("");
    if |s| > 0 && s[|s| - 1] == '/' then s[..|s| - 1] else s
  }

  /** Only one slash is stripped: a base ending in `//` keeps one of them. */
  lemma NormalizeStripsOneSlash(s: string)
    ensures NormalizeBaseUrl(Some(s + "/")) == s
    ensures NormalizeBaseUrl(Some(s + "//")) == s + "/"
  {
    assert (s + "/")[..|s|] == s;
    assert (s + "//")[..|s| + 1] == s + "/";
  }

  /** `SHOULD_MOCK`: mock when asked to, or in development when no base URL is set. */
  function ShouldMock(useMock: Option<string>, rawBaseUrl: Option<string>, dev: bool): (mock: bool)
    ensures useMock == Some("true") ==> mock
    ensures !dev ==> (mock <==> useMock == Some("true"))
    ensures dev && useMock != Some("true") ==>
      (mock <==> rawBaseUrl.None? || rawBaseUrl.value == "" || rawBaseUrl.value == "/")
  {
    useMock == Some("true") || (NormalizeBaseUrl(rawBaseUrl) == "" && dev)
  }

  /** `buildUrl`: the path alone when there is no base, otherwise the base followed by the path. */
  function BuildUrl(base: string, path: string): (url: string)
    ensures base == "" ==> url == path
    ensures base != "" ==> url == base + path
    ensures |url| >= |path| && url[|url| - |path|..] == path
  {
    if base == "" then path else base + path
  }

  /** A configured base with a trailing slash joins an absolute path without a doubled slash. */
  lemma BuildUrlJoinsOnce(host: string, path: string)
    requires host != "" && host[|host| - 1] != '/'
    ensures BuildUrl(NormalizeBaseUrl(Some(host + "/")), "/" + path) == host + "/" + path
  {
    NormalizeStripsOneSlash(host);
  }

  const InitialMockBalance: int := 1000
  /** The mock's starting win chance, in percent. */
  const InitialWinChance: int := 50
  const MinWinChance: int := 20
  const MaxWinChance: int := 80
  const ChanceStep: int := 5

  /** The mock's two module-level variables. */
  datatype MockState = MockState(balance: int, winChance: int)

  /** A value `Math.random` can return. */
  predicate IsRandom(r: real) {
    0.0 <= r < 1.0
  }

  /** `2 + Math.floor(r * 3)`: the payout multiplier. */
  function Multiplier(r: real): (m: int)
    requires IsRandom(r)
    ensures 2 <= m <= 4
    ensures m == 2 <==> r < 1.0 / 3.0
    ensures m == 4 <==> r >= 2.0 / 3.0
  {
    2 + (r * 3.0).Floor
  }

  datatype MockOutcome = MockOutcome(next: MockState, didWin: bool, winAmount: int)

  /**
   * One mock action on a state: a win pays the bet times 2..4 and makes the
   * next win less likely, a loss charges the bet (never below zero) and makes
   * the next win more likely.
   */
  function MockStep(s: MockState, bet: int, roll: real, multiplierRoll: real): (o: MockOutcome)
    requires IsRandom(multiplierRoll)
    ensures o.didWin <==> roll * 100.0 < s.winChance as real
    ensures o.didWin ==> (o.winAmount == bet * Multiplier(multiplierRoll) &&
      o.next == MockState(s.balance + o.winAmount, Max(MinWinChance, s.winChance - ChanceStep)))
    ensures !o.didWin ==> (o.winAmount == 0 &&
      o.next == MockState(Max(0, s.balance - bet), Min(MaxWinChance, s.winChance + ChanceStep)))
  {
    if roll < s.winChance as real / 100.0 then
      var winAmount := bet * Multiplier(multiplierRoll);
      MockOutcome(MockState(s.balance + winAmount, Max(MinWinChance, s.winChance - ChanceStep)),
                  true, winAmount)
    else
      MockOutcome(MockState(Max(0, s.balance - bet), Min(MaxWinChance, s.winChance + ChanceStep)),
                  false, 0)
  }

  /** The chance lies on the 5% grid between the two bounds. */
  predicate ChanceInRange(c: int) {
    MinWinChance <= c <= MaxWinChance && c % ChanceStep == 0
  }

  /**
   * One step keeps the chance on the grid whatever the bet, and from a
   * non-negative balance a non-negative bet keeps the balance non-negative.
   */
  lemma MockStepKeepsBounds(s: MockState, bet: int, roll: real, multiplierRoll: real)
    requires IsRandom(multiplierRoll)
    requires ChanceInRange(s.winChance)
    ensures ChanceInRange(MockStep(s, bet, roll, multiplierRoll).next.winChance)
    ensures s.balance >= 0 && bet >= 0 ==> MockStep(s, bet, roll, multiplierRoll).next.balance >= 0
  {
    var o := MockStep(s, bet, roll, multiplierRoll);
    if o.didWin && bet >= 0 {
      assert o.winAmount >= 0 by {
        assert Multiplier(multiplierRoll) >= 2;
      }
    }
  }

  /** The inputs of one mock action: the bet and the two rolls. */
  datatype MockInput = MockInput(bet: int, roll: real, multiplierRoll: real)

  predicate ValidInputs(inputs: seq<MockInput>) {
    forall i :: 0 <= i < |inputs| ==> IsRandom(inputs[i].multiplierRoll)
  }

  /** The state after a run of mock actions. */
  function MockRun(s: MockState, inputs: seq<MockInput>): MockState
    requires ValidInputs(inputs)
    decreases |inputs|
  {
    if |inputs| == 0 then s
    else
      var o := MockStep(s, inputs[0].bet, inputs[0].roll, inputs[0].multiplierRoll);
      MockRun(o.next, inputs[1..])
  }

  /** Every bet of the run is non-negative. */
  predicate NonNegativeBets(inputs: seq<MockInput>) {
    forall i :: 0 <= i < |inputs| ==> inputs[i].bet >= 0
  }

  /**
   * Across any run the chance stays on the grid within 20..80; from a
   * non-negative balance, a run of non-negative bets keeps it non-negative.
   */
  lemma {:induction false} MockRunKeepsBounds(s: MockState, inputs: seq<MockInput>)
    requires ValidInputs(inputs)
    requires ChanceInRange(s.winChance)
    ensures ChanceInRange(MockRun(s, inputs).winChance)
    ensures s.balance >= 0 && NonNegativeBets(inputs) ==> MockRun(s, inputs).balance >= 0
    decreases |inputs|
  {
    if |inputs| > 0 {
      var x := inputs[0];
      MockStepKeepsBounds(s, x.bet, x.roll, x.multiplierRoll);
      var o := MockStep(s, x.bet, x.roll, x.multiplierRoll);
      assert ValidInputs(inputs[1..]) by {
        forall i | 0 <= i < |inputs[1..]|
          ensures IsRandom(inputs[1..][i].multiplierRoll)
        {
          assert inputs[1..][i] == inputs[i + 1];
        }
      }
      if NonNegativeBets(inputs) {
        assert x.bet >= 0;
        forall i | 0 <= i < |inputs[1..]|
          ensures inputs[1..][i].bet >= 0
        {
          assert inputs[1..][i] == inputs[i + 1];
        }
      }
      MockRunKeepsBounds(o.next, inputs[1..]);
    }
  }

  /**
   * From the initial 1000 / 50%, any run keeps the chance within 20..80,
   * and a run of non-negative bets keeps the balance non-negative.
   */
  lemma InitialMockRunKeepsBounds(inputs: seq<MockInput>)
    requires ValidInputs(inputs)
    ensures var s := MockRun(MockState(InitialMockBalance, InitialWinChance), inputs);
      MinWinChance <= s.winChance <= MaxWinChance
    ensures NonNegativeBets(inputs) ==>
      MockRun(MockState(InitialMockBalance, InitialWinChance), inputs).balance >= 0
  {
    MockRunKeepsBounds(MockState(InitialMockBalance, InitialWinChance), inputs);
  }

  /** The value `mockAction` resolves to. */
  datatype MockActionResponse = MockActionResponse(
    status: string,
    result: string,
    winAmount: int,
    balance: int,
    reels: seq<int>,
    mock: bool)

  datatype EggConfig = EggConfig(id: string, title: string, bet: int)

  datatype MockConfig = MockConfig(betSizes: seq<int>, eggs: seq<EggConfig>, currency: string)

  /** The value `mockInit` resolves to. */
  datatype MockInitResponse = MockInitResponse(
    status: string,
    balance: int,
    config: MockConfig,
    lang: string,
    mock: bool)

  const MockEggs: seq<EggConfig> :=
    [EggConfig("gold", "金蛋", 1), EggConfig("ruby", "红蛋", 5), EggConfig("jade", "玉蛋", 10)]

  /** The mock backend's module-level state. */
  class MockBackend {
    var balance: int
    var winChance: int

    function State(): MockState
      reads this
    {
      MockState(balance, winChance)
    }

    constructor()
      ensures State() == MockState(InitialMockBalance, InitialWinChance)
    {
      balance := InitialMockBalance;
      winChance := InitialWinChance;
    }

    /**
     * `mockInit`: the fixed three-egg catalogue, every egg's bet one of the
     * offered bet sizes, and the requested language (default "en").
     */
    method MockInit(lang: Option<string>) returns (r: MockInitResponse)
      ensures r.status == "ok" && r.mock && r.balance == balance
      ensures r.config == MockConfig([1, 5, 10], MockEggs, "CNY")
      ensures r.lang == lang.GetOr("en")
      ensures |r.config.eggs| == 3 && r.config.currency == "CNY"
      ensures forall i, j :: 0 <= i < j < |r.config.eggs| ==> r.config.eggs[i].id != r.config.eggs[j].id
      ensures forall i :: 0 <= i < |r.config.eggs| ==> r.config.eggs[i].bet in r.config.betSizes
    {
      r := MockInitResponse("ok", balance, MockConfig([1, 5, 10], MockEggs, "CNY"),
                            lang.GetOr("en"), true);
    }

    /** `mockAction`: one step of the random walk, applied to the module state. */
    method MockAction(betAmount: Option<int>, roll: real, multiplierRoll: real)
      returns (r: MockActionResponse)
      requires IsRandom(multiplierRoll)
      modifies this
      ensures var o := MockStep(old(State()), betAmount.GetOr(1), roll, multiplierRoll);
        && State() == o.next
        && r == MockActionResponse("ok", if o.didWin then "win" else "lose", o.winAmount,
                                   o.next.balance, [1, 2, 3], true)
    {
      var bet := betAmount.GetOr(1);
      var didWin := roll < winChance as real / 100.0;
      var winAmount := 0;
      var outcome := "lose";
      if didWin {
        var multiplier := Multiplier(multiplierRoll);
        winAmount := bet * multiplier;
        balance := balance + winAmount;
        winChance := Max(MinWinChance, winChance - ChanceStep);
        outcome := "win";
      } else {
        balance := Max(0, balance - bet);
        winChance := Min(MaxWinChance, winChance + ChanceStep);
      }
      r := MockActionResponse("ok", outcome, winAmount, balance, [1, 2, 3], true);
    }
  }
}

/**
 * The heuristic risk scorer `calculate_risk_score`: four independent checks on a wallet
 * address, the total amount it moved and its number of transactions, each adding a fixed
 * weight to the score and one reason to the list, then a cap at 100 and a three-way level.
 *
 * `Assess` and the predicates it is built from are the reference definition;
 * `CalculateRiskScore` is the source's step-by-step accumulation, proved equal to it;
 * the lemmas state what the scorer promises about its result.
 */
module Scorer {
  import opened Text

  /** The addresses the source hard-codes as known to be risky. */
  const HIGH_RISK_ADDRESSES: seq<string> := [
    "0x1a2b3d4e5f6a7b8d9e0f1a2c3d4e5f6a7c8d0e1f",
    "0x2b3c4d5e7f8a9b0c1d2e3f4a5b6c7d8e0f1a3c4",
    "0x3c4d5e7f8b9a1c2d3e4f5a6b7c8d0e1f2a3b4d5"
  ]

  const KNOWN_RISKY_REASON := "Known risky address"
  const HIGH_AMOUNT_REASON := "High transaction amount"
  const MANY_TRANSACTIONS_REASON := "Many transactions"
  const SMALL_AVERAGE_REASON := "Small average transactions"

  /** The four reasons in the order the checks run. */
  const ALL_REASONS := [KNOWN_RISKY_REASON, HIGH_AMOUNT_REASON, MANY_TRANSACTIONS_REASON, SMALL_AVERAGE_REASON]

  const DENYLIST_WEIGHT := 50
  const HIGH_AMOUNT_WEIGHT := 20
  const MANY_TRANSACTIONS_WEIGHT := 15
  const SMALL_AVERAGE_WEIGHT := 10

  const AMOUNT_LIMIT: real := 5000.0
  const TRANSACTION_LIMIT := 100
  const AVERAGE_LIMIT: real := 100.0
  const SCORE_CAP := 100
  const HIGH_FROM := 70
  const MEDIUM_FROM := 30

  datatype Level = Low | Medium | High {
    /** The level's text, as the source returns it. */
    function Name(): string {
      match this
      case Low => "Low"
      case Medium => "Medium"
      case High => "High"
    }
  }

  /** The scorer's result: `(score, risk_level, reasons)`. */
  datatype Risk = Risk(score: int, level: Level, reasons: seq<string>)

  function Min(a: int, b: int): int {
    if a <= b then a else b
  }

  /** The level bucket: High from 70, Medium from 30, Low below. */
  function LevelOf(score: int): Level {
    if score >= HIGH_FROM then High else if score >= MEDIUM_FROM then Medium else Low
  }

  /** The denylist with every entry lower-cased, the list the source builds with a comprehension. */
  function LowerAll(denylist: seq<string>): (r: seq<string>)
    ensures |r| == |denylist|
    ensures forall k :: 0 <= k < |denylist| ==> r[k] == ToLower(denylist[k])
  {
    seq(|denylist|, k requires 0 <= k < |denylist| => ToLower(denylist[k]))
  }

  /** The lower-cased address is one of the lower-cased denylist entries. */
  predicate Listed(address: string, denylist: seq<string>) {
    ToLower(address) in LowerAll(denylist)
  }

  predicate HighAmount(amount: real) {
    amount > AMOUNT_LIMIT
  }

  predicate ManyTransactions(transactions: int) {
    transactions > TRANSACTION_LIMIT
  }

  /** The average is computed only when there is at least one transaction; the division is
      well defined here because the left operand of `&&` guards it. */
  predicate SmallAverage(amount: real, transactions: int) {
    transactions > 0 && amount / (transactions as real) < AVERAGE_LIMIT
  }

  /** The reasons, in the order the checks run. */
  function Reasons(address: string, amount: real, transactions: int, denylist: seq<string>): seq<string> {
    (if Listed(address, denylist) then [KNOWN_RISKY_REASON] else [])
    + (if HighAmount(amount) then [HIGH_AMOUNT_REASON] else [])
    + (if ManyTransactions(transactions) then [MANY_TRANSACTIONS_REASON] else [])
    + (if SmallAverage(amount, transactions) then [SMALL_AVERAGE_REASON] else [])
  }

  /** The sum of the weights of the checks that fire, before the cap. */
  function RawScore(address: string, amount: real, transactions: int, denylist: seq<string>): int {
    (if Listed(address, denylist) then DENYLIST_WEIGHT else 0)
    + (if HighAmount(amount) then HIGH_AMOUNT_WEIGHT else 0)
    + (if ManyTransactions(transactions) then MANY_TRANSACTIONS_WEIGHT else 0)
    + (if SmallAverage(amount, transactions) then SMALL_AVERAGE_WEIGHT else 0)
  }

  /** The scorer's result for one address, as a value. */
  function Assess(address: string, amount: real, transactions: int, denylist: seq<string>): Risk {
    var score := Min(RawScore(address, amount, transactions, denylist), SCORE_CAP);
    Risk(score, LevelOf(score), Reasons(address, amount, transactions, denylist))
  }

  /** `address.lower() in [addr.lower() for addr in denylist]`, scanning the list in order
      and stopping at the first match. */
  method IsListed(address: string, denylist: seq<string>) returns (found: bool)
    ensures found <==> exists k :: 0 <= k < |denylist| && ToLower(denylist[k]) == ToLower(address)
  {
    var lowered := ToLower(address);
    found := false;
    var k := 0;
    while k < |denylist| && !found
      invariant 0 <= k <= |denylist|
      invariant found ==> exists j :: 0 <= j < |denylist| && ToLower(denylist[j]) == lowered
      invariant !found ==> forall j :: 0 <= j < k ==> ToLower(denylist[j]) != lowered
    {
      found := ToLower(denylist[k]) == lowered;
      k := k + 1;
    }
  }

  /** `calculate_risk_score`: the checks run one after the other, each adding its weight to
      `score` and appending its reason; then the cap and the level. */
  method CalculateRiskScore(address: string, amount: real, transactions: int, denylist: seq<string>)
    returns (score: int, level: Level, reasons: seq<string>)
    ensures Risk(score, level, reasons) == Assess(address, amount, transactions, denylist)
  {
    score := 0;
    reasons := [];
    var listed := IsListed(address, denylist);
    ListedIffSomeEntryMatches(address, denylist);
    if listed {
      score := score + DENYLIST_WEIGHT;
      reasons := reasons + [KNOWN_RISKY_REASON];
    }
    if amount > AMOUNT_LIMIT {
      score := score + HIGH_AMOUNT_WEIGHT;
      reasons := reasons + [HIGH_AMOUNT_REASON];
    }
    if transactions > TRANSACTION_LIMIT {
      score := score + MANY_TRANSACTIONS_WEIGHT;
      reasons := reasons + [MANY_TRANSACTIONS_REASON];
    }
    if transactions > 0 && amount / (transactions as real) < AVERAGE_LIMIT {
      score := score + SMALL_AVERAGE_WEIGHT;
      reasons := reasons + [SMALL_AVERAGE_REASON];
    }
    score := Min(score, SCORE_CAP);
    level := LevelOf(score);
  }

  // ---------------------------------------------------------------------------------------
  // What the scorer promises

  /** Membership in the lower-cased list is the same as some entry having the same lower-cased text. */
  lemma ListedIffSomeEntryMatches(address: string, denylist: seq<string>)
    ensures Listed(address, denylist) <==> exists k :: 0 <= k < |denylist| && ToLower(denylist[k]) == ToLower(address)
  {
  }

  /** The denylist test is case-insensitive on both sides: an address is listed exactly when it
      equals some entry up to the case of its letters. */
  lemma ListedIffSameUpToCase(address: string, denylist: seq<string>)
    ensures Listed(address, denylist) <==> exists k :: 0 <= k < |denylist| && SameUpToCase(address, denylist[k])
  {
    ListedIffSomeEntryMatches(address, denylist);
    forall k | 0 <= k < |denylist|
      ensures ToLower(denylist[k]) == ToLower(address) <==> SameUpToCase(address, denylist[k])
    {
      LowerEqualIffSameUpToCase(address, denylist[k]);
    }
  }

  /** Two addresses that differ only in letter case get the same score, level and reasons. */
  lemma CaseInsensitive(a: string, b: string, amount: real, transactions: int, denylist: seq<string>)
    requires SameUpToCase(a, b)
    ensures Assess(a, amount, transactions, denylist) == Assess(b, amount, transactions, denylist)
  {
    LowerEqualIffSameUpToCase(a, b);
  }

  /** The score lies in [0, 100]. At most 95 can be collected, so the cap never lowers it. */
  lemma ScoreBounds(address: string, amount: real, transactions: int, denylist: seq<string>)
    ensures 0 <= Assess(address, amount, transactions, denylist).score <= SCORE_CAP
    ensures Assess(address, amount, transactions, denylist).score == RawScore(address, amount, transactions, denylist) <= 95
  {
  }

  /** The level is a function of the score alone, with both directions of each threshold. */
  lemma LevelThresholds(score: int)
    ensures LevelOf(score) == High <==> score >= 70
    ensures LevelOf(score) == Medium <==> 30 <= score < 70
    ensures LevelOf(score) == Low <==> score < 30
    ensures LevelOf(score).Name() == (if score >= 70 then "High" else if score >= 30 then "Medium" else "Low")
  {
  }

  /** The weight a reason stands for. */
  function Weight(reason: string): int {
    if reason == KNOWN_RISKY_REASON then DENYLIST_WEIGHT
    else if reason == HIGH_AMOUNT_REASON then HIGH_AMOUNT_WEIGHT
    else if reason == MANY_TRANSACTIONS_REASON then MANY_TRANSACTIONS_WEIGHT
    else if reason == SMALL_AVERAGE_REASON then SMALL_AVERAGE_WEIGHT
    else 0
  }

  function WeightSum(reasons: seq<string>): int {
    if reasons == [] then 0 else Weight(reasons[0]) + WeightSum(reasons[1..])
  }

  lemma {:induction false} WeightSumAppend(a: seq<string>, b: seq<string>)
    ensures WeightSum(a + b) == WeightSum(a) + WeightSum(b)
  {
    if a != [] {
      assert (a + b)[1..] == a[1..] + b;
      WeightSumAppend(a[1..], b);
    } else {
      assert a + b == b;
    }
  }

  /** The score is determined by the reasons: the weights of the reasons given, summed and capped. */
  lemma ScoreIsWeightOfReasons(address: string, amount: real, transactions: int, denylist: seq<string>)
    ensures var risk := Assess(address, amount, transactions, denylist);
      risk.score == Min(WeightSum(risk.reasons), SCORE_CAP)
  {
    var p1 := if Listed(address, denylist) then [KNOWN_RISKY_REASON] else [];
    var p2 := if HighAmount(amount) then [HIGH_AMOUNT_REASON] else [];
    var p3 := if ManyTransactions(transactions) then [MANY_TRANSACTIONS_REASON] else [];
    var p4 := if SmallAverage(amount, transactions) then [SMALL_AVERAGE_REASON] else [];
    WeightSumAppend(p1, p2);
    WeightSumAppend(p1 + p2, p3);
    WeightSumAppend(p1 + p2 + p3, p4);
  }

  /** Each reason is present exactly when its check fires. */
  lemma ReasonIffCondition(address: string, amount: real, transactions: int, denylist: seq<string>)
    ensures var reasons := Assess(address, amount, transactions, denylist).reasons;
      && (KNOWN_RISKY_REASON in reasons <==> Listed(address, denylist))
      && (HIGH_AMOUNT_REASON in reasons <==> HighAmount(amount))
      && (MANY_TRANSACTIONS_REASON in reasons <==> ManyTransactions(transactions))
      && (SMALL_AVERAGE_REASON in reasons <==> SmallAverage(amount, transactions))
  {
  }

  /** The position of a reason in the order the checks run. */
  function Rank(reason: string): int {
    if reason == KNOWN_RISKY_REASON then 0
    else if reason == HIGH_AMOUNT_REASON then 1
    else if reason == MANY_TRANSACTIONS_REASON then 2
    else 3
  }

  /** The reasons are four known strings, listed in check order, so none appears twice. */
  lemma ReasonsOrdered(address: string, amount: real, transactions: int, denylist: seq<string>)
    ensures var reasons := Assess(address, amount, transactions, denylist).reasons;
      && |reasons| <= 4
      && (forall i :: 0 <= i < |reasons| ==> reasons[i] in ALL_REASONS)
      && (forall i, j :: 0 <= i < j < |reasons| ==> Rank(reasons[i]) < Rank(reasons[j]))
      && (forall i, j :: 0 <= i < j < |reasons| ==> reasons[i] != reasons[j])
  {
  }

  /** With `transactions > 0` the average test is the multiplication test
      `amount < 100 * transactions`. */
  lemma SmallAverageByMultiplication(amount: real, transactions: int)
    ensures SmallAverage(amount, transactions) <==> transactions > 0 && amount < AVERAGE_LIMIT * (transactions as real)
  {
  }

  /** Without transactions the average is never taken and its reason never given. */
  lemma NoTransactionsNoAverage(address: string, amount: real, transactions: int, denylist: seq<string>)
    requires transactions <= 0
    ensures !SmallAverage(amount, transactions)
    ensures SMALL_AVERAGE_REASON !in Assess(address, amount, transactions, denylist).reasons
  {
  }

  // ---------------------------------------------------------------------------------------
  // The worked examples

  /** Not listed, 6000 over 150 transactions: high amount, many transactions and an average of 40. */
  lemma ExampleBusyAddress(address: string)
    requires !Listed(address, HIGH_RISK_ADDRESSES)
    ensures Assess(address, 6000.0, 150, HIGH_RISK_ADDRESSES)
         == Risk(45, Medium, [HIGH_AMOUNT_REASON, MANY_TRANSACTIONS_REASON, SMALL_AVERAGE_REASON])
  {
  }

  /** The first hard-coded risky address, in any mix of letter cases, with nothing moved: only
      the denylist check fires. */
  lemma ExampleListedIdle(address: string)
    requires SameUpToCase(address, HIGH_RISK_ADDRESSES[0])
    ensures Assess(address, 0.0, 0, HIGH_RISK_ADDRESSES) == Risk(50, Medium, [KNOWN_RISKY_REASON])
  {
    ListedWhenSameUpToCase(address, HIGH_RISK_ADDRESSES, 0);
    ListedIdle(address, HIGH_RISK_ADDRESSES);
  }

  /** A listed address with no amount and no transactions: only the denylist weight counts. */
  lemma ListedIdle(address: string, denylist: seq<string>)
    requires Listed(address, denylist)
    ensures Assess(address, 0.0, 0, denylist) == Risk(50, Medium, [KNOWN_RISKY_REASON])
  {
  }

  /** An address equal to the `k`-th entry up to letter case is listed. */
  lemma ListedWhenSameUpToCase(address: string, denylist: seq<string>, k: nat)
    requires k < |denylist| && SameUpToCase(address, denylist[k])
    ensures Listed(address, denylist)
  {
    ListedIffSameUpToCase(address, denylist);
  }

  /** One transaction of 100000: only the amount check fires. */
  lemma ExampleOneLargeTransaction(address: string)
    requires !Listed(address, HIGH_RISK_ADDRESSES)
    ensures Assess(address, 100000.0, 1, HIGH_RISK_ADDRESSES) == Risk(20, Low, [HIGH_AMOUNT_REASON])
  {
  }
}

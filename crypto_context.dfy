/** The account actions the application context offers on top of the store.
    Each action reads the in-memory copy of the record (`userData`), checks its
    guard, runs a fixed sequence of store operations and keeps the last record
    the store returned as the new in-memory copy. */
module CryptoContext {
  import opened Text
  import opened DataService
  import MiningUtils

  /** Scoins needed before a conversion is allowed. */
  const MIN_CONVERSION: real := 10.0

  /** Where an account stands on the experience curve. */
  datatype Progress = Progress(level: int, exp: real, expRequired: real)

  /** `addExp`: one level-up step at most. The threshold compared is the
      stored `expRequired`; the new threshold is floor(100 * 1.5^(level - 1)). */
  function ExpStep(p: Progress, amount: real): Progress
  {
    var newExp := p.exp + amount;
    if newExp >= p.expRequired && p.level < 10 then
      Progress(p.level + 1, newExp - p.expRequired, MiningUtils.CalculateExpRequired(p.level + 1) as real)
    else
      p.(exp := newExp)
  }

  /** A level-up happens exactly when the threshold is reached below level
      10; it gains one level, carries over the surplus and recomputes the
      threshold. Otherwise only the experience changes. The level never
      passes 10 and never drops. */
  lemma ExpStepEffect(p: Progress, amount: real)
    requires p.level <= 10
    ensures var q := ExpStep(p, amount);
      (p.exp + amount >= p.expRequired && p.level < 10 ==>
         q.level == p.level + 1 && q.exp == p.exp + amount - p.expRequired
         && q.expRequired == MiningUtils.CalculateExpRequired(q.level) as real)
      && (!(p.exp + amount >= p.expRequired && p.level < 10) ==>
         q == p.(exp := p.exp + amount))
      && p.level <= q.level <= p.level + 1 && q.level <= 10
  {
  }

  /** After a level-up from level 1 or more the new threshold is above the default 100. */
  lemma ExpStepRaisesThreshold(p: Progress, amount: real)
    requires 1 <= p.level < 10 && p.exp + amount >= p.expRequired
    ensures ExpStep(p, amount).expRequired > 100.0
  {
    MiningUtils.ExpRequiredStrictlyIncreasing(1, p.level + 1);
    MiningUtils.ExpRequiredAtLevelOne();
  }

  /** Scoins a conversion consumes: `Math.floor(scoins / 10) * 10`. */
  function ConvertedScoins(scoins: real): real
  {
    ((scoins / 10.0).Floor * 10) as real
  }

  /** SCR a conversion credits: `(converted / 10) * 0.01`. */
  function ScrForScoins(converted: real): real
  {
    (converted / 10.0) * 0.01
  }

  /** The conversion takes the largest multiple of 10 not above the balance,
      leaves between 0 and 10 Scoins, and credits 10 Scoins as 0.01 SCR. */
  lemma ConversionAmounts(scoins: real)
    requires scoins >= MIN_CONVERSION
    ensures var c := ConvertedScoins(scoins);
      10.0 <= c <= scoins && 0.0 <= scoins - c < 10.0
      && (exists k: int :: c == (10 * k) as real)
      && (forall k: int :: (10 * k) as real <= scoins ==> (10 * k) as real <= c)
      && ScrForScoins(c) == c / 1000.0
  {
    var q := (scoins / 10.0).Floor;
    var c := ConvertedScoins(scoins);
    assert q as real <= scoins / 10.0 < q as real + 1.0;
    assert c == 10.0 * q as real;
    assert c == (10 * q) as real;
    forall k: int | (10 * k) as real <= scoins
      ensures (10 * k) as real <= c
    {
      assert k as real <= scoins / 10.0;
      assert k <= q;
    }
  }

  /** 10 Scoins are credited as 0.01 SCR. */
  lemma ScrIsThousandth(converted: real)
    ensures ScrForScoins(converted) == converted / 1000.0
  {
  }

  /** The ledger entry a conversion records. */
  function ConvertDraft(scr: real, price: real, now: int): TxDraft
  {
    TxDraft(Convert, scr, SCR, now, Some(scr * price), None, Completed, None)
  }

  /** The ledger entry `addScr` records. */
  function MineDraft(amount: real, price: real, now: int): TxDraft
  {
    TxDraft(Mine, amount, SCR, now, Some(amount * price), None, Completed, None)
  }

  function ScoinsPatch(scoins: real): StatsPatch
  {
    EMPTY_STATS_PATCH.(scoins := Some(scoins))
  }

  /** A Scoins patch changes the Scoins balance and nothing else. */
  lemma ScoinsPatchEffect(s: UserStats, scoins: real)
    ensures MergeStats(s, ScoinsPatch(scoins)) == s.(scoins := scoins)
  {
  }

  /** The holdings after a conversion: the SCR holding set to its old amount
      plus the credit. */
  function CreditedHoldings(d: UserData): seq<CryptoHolding>
  {
    var scr := ScrForScoins(ConvertedScoins(d.userStats.scoins));
    HoldingsAfterUpdate(d.holdings, d.marketData, SCR, HoldingAmount(d.holdings, SCR) + scr)
  }

  /** The ledger entry of a conversion, priced at the SCR price before it. */
  function ConversionEntry(d: UserData, now: int, idSuffix: string): Transaction
  {
    var scr := ScrForScoins(ConvertedScoins(d.userStats.scoins));
    WithId(ConvertDraft(scr, ScrPrice(d.marketData), now), TxId(now, idSuffix))
  }

  /** The record a conversion leaves: the converted Scoins taken from the
      balance, the credited holdings, and the `convert` entry at the head of the ledger. */
  function AfterConversion(d: UserData, now: int, idSuffix: string): UserData
  {
    d.(userStats := d.userStats.(scoins := d.userStats.scoins - ConvertedScoins(d.userStats.scoins)),
       holdings := CreditedHoldings(d),
       transactions := PrependTransaction(d.transactions, ConversionEntry(d, now, idSuffix)),
       lastUpdated := now)
  }

  /** A conversion leaves fewer than 10 Scoins and never a negative balance,
      takes exactly the converted amount, and changes no other statistic, the
      market data or the mining spaces. */
  lemma ConversionLeavesScoins(d: UserData, now: int, idSuffix: string)
    requires d.userStats.scoins >= MIN_CONVERSION
    ensures var r := AfterConversion(d, now, idSuffix);
      0.0 <= r.userStats.scoins < 10.0
      && r.userStats == d.userStats.(scoins := d.userStats.scoins - ConvertedScoins(d.userStats.scoins))
      && r.marketData == d.marketData && r.miningSpaces == d.miningSpaces && r.lastUpdated == now
  {
    ConversionAmounts(d.userStats.scoins);
  }

  /** The entry a conversion records is a completed `convert` of the credited
      SCR, valued at that amount times the SCR price, stamped `now`. */
  lemma ConversionEntryFields(d: UserData, now: int, idSuffix: string)
    ensures var tx := ConversionEntry(d, now, idSuffix);
      var scr := ScrForScoins(ConvertedScoins(d.userStats.scoins));
      tx.txType == Convert && tx.status == Completed && tx.symbol == SCR && tx.timestamp == now
      && tx.amount == scr && tx.valueUsd == Some(scr * ScrPrice(d.marketData)) && tx.id == TxId(now, idSuffix)
  {
  }

  /** The newest ledger entry of a conversion is its `convert` entry; the
      older entries follow it in order, up to the ledger cap. */
  lemma ConversionLedgerHead(d: UserData, now: int, idSuffix: string)
    ensures var ledger := AfterConversion(d, now, idSuffix).transactions;
      |ledger| >= 1 && ledger[0] == ConversionEntry(d, now, idSuffix)
      && forall i :: 1 <= i < |ledger| ==> ledger[i] == d.transactions[i - 1]
    ensures |AfterConversion(d, now, idSuffix).transactions| == if |d.transactions| < LEDGER_CAP then |d.transactions| + 1 else LEDGER_CAP
  {
  }

  /** A holding that was not negative grows by a thousandth of the converted Scoins. */
  lemma ConversionCreditsScr(d: UserData, now: int, idSuffix: string)
    requires d.userStats.scoins >= MIN_CONVERSION
    requires HoldingAmount(d.holdings, SCR) >= 0.0
    ensures HoldingAmount(AfterConversion(d, now, idSuffix).holdings, SCR)
              == HoldingAmount(d.holdings, SCR) + ConvertedScoins(d.userStats.scoins) / 1000.0
  {
    var c := ConvertedScoins(d.userStats.scoins);
    var amount := HoldingAmount(d.holdings, SCR) + ScrForScoins(c);
    assert CreditedHoldings(d) == HoldingsAfterUpdate(d.holdings, d.marketData, SCR, amount);
    assert 10.0 <= c by { ConversionAmounts(d.userStats.scoins); }
    ScrIsThousandth(c);
    UpdateHoldingReadsBack(d.holdings, d.marketData, SCR, amount);
  }

  /** The three saves of a conversion (Scoins, then the SCR holding read
      from the saved record, then the ledger entry priced before the saves)
      leave the record `AfterConversion` describes. */
  lemma ConversionSteps(d0: UserData, d1: UserData, d2: UserData, d3: UserData,
                        price: real, now: int, idSuffix: string)
    requires price == ScrPrice(d0.marketData)
    requires var c := ConvertedScoins(d0.userStats.scoins);
      d1 == d0.(userStats := MergeStats(d0.userStats, ScoinsPatch(d0.userStats.scoins - c)), lastUpdated := now)
    requires var scr := ScrForScoins(ConvertedScoins(d0.userStats.scoins));
      d2 == d1.(holdings := HoldingsAfterUpdate(d1.holdings, d1.marketData, SCR, HoldingAmount(d1.holdings, SCR) + scr),
                lastUpdated := now)
    requires var scr := ScrForScoins(ConvertedScoins(d0.userStats.scoins));
      d3 == d2.(transactions := PrependTransaction(d2.transactions, WithId(ConvertDraft(scr, price, now), TxId(now, idSuffix))),
                lastUpdated := now)
    ensures d3 == AfterConversion(d0, now, idSuffix)
  {
    var c := ConvertedScoins(d0.userStats.scoins);
    var scr := ScrForScoins(c);
    ScoinsPatchEffect(d0.userStats, d0.userStats.scoins - c);
    ThreeUpdates(d0, d1, d2, d3, d0.userStats.(scoins := d0.userStats.scoins - c),
                 CreditedHoldings(d0), PrependTransaction(d0.transactions, ConversionEntry(d0, now, idSuffix)), now);
  }

  /** The record `addScr` leaves: the SCR holding set to its old amount plus
      `amount`, and a `mine` entry at the head of the ledger. */
  function AfterMine(d: UserData, amount: real, now: int, idSuffix: string): UserData
  {
    d.(holdings := HoldingsAfterUpdate(d.holdings, d.marketData, SCR, HoldingAmount(d.holdings, SCR) + amount),
       transactions := PrependTransaction(d.transactions,
                         WithId(MineDraft(amount, ScrPrice(d.marketData), now), TxId(now, idSuffix))),
       lastUpdated := now)
  }

  /** When the new amount is positive the SCR holding reads back as the old
      amount plus `amount`. */
  lemma MineCreditsScr(d: UserData, amount: real, now: int, idSuffix: string)
    requires HoldingAmount(d.holdings, SCR) + amount > 0.0
    ensures HoldingAmount(AfterMine(d, amount, now, idSuffix).holdings, SCR) == HoldingAmount(d.holdings, SCR) + amount
  {
    var target := HoldingAmount(d.holdings, SCR) + amount;
    assert AfterMine(d, amount, now, idSuffix).holdings == HoldingsAfterUpdate(d.holdings, d.marketData, SCR, target);
    UpdateHoldingReadsBack(d.holdings, d.marketData, SCR, target);
  }

  /** The newest ledger entry after `addScr` is a completed `mine` of
      `amount` SCR; statistics, market data and mining spaces are unchanged. */
  lemma MineLedgerHead(d: UserData, amount: real, now: int, idSuffix: string)
    ensures var r := AfterMine(d, amount, now, idSuffix);
      |r.transactions| >= 1 && r.transactions[0].txType == Mine && r.transactions[0].amount == amount
      && r.transactions[0].symbol == SCR && r.transactions[0].status == Completed
      && forall i :: 1 <= i < |r.transactions| ==> r.transactions[i] == d.transactions[i - 1]
    ensures var r := AfterMine(d, amount, now, idSuffix);
      r.userStats == d.userStats && r.marketData == d.marketData && r.miningSpaces == d.miningSpaces
  {
  }

  /** The two saves of `addScr` (the holding read from the record before
      them, then the ledger entry priced before them) leave `AfterMine`. */
  lemma MineSteps(d0: UserData, d1: UserData, d2: UserData, amount: real, price: real, now: int, idSuffix: string)
    requires price == ScrPrice(d0.marketData)
    requires d1 == d0.(holdings := HoldingsAfterUpdate(d0.holdings, d0.marketData, SCR, HoldingAmount(d0.holdings, SCR) + amount),
                       lastUpdated := now)
    requires d2 == d1.(transactions := PrependTransaction(d1.transactions,
                         WithId(MineDraft(amount, price, now), TxId(now, idSuffix))), lastUpdated := now)
    ensures d2 == AfterMine(d0, amount, now, idSuffix)
  {
    assert d1.transactions == d0.transactions;
  }

  /** Three store updates in a row, each stamping the time: the result is the
      first record with all three fields replaced. */
  lemma ThreeUpdates(d0: UserData, d1: UserData, d2: UserData, d3: UserData,
                     stats: UserStats, holdings: seq<CryptoHolding>, ledger: seq<Transaction>, now: int)
    requires d1 == d0.(userStats := stats, lastUpdated := now)
    requires d2 == d1.(holdings := holdings, lastUpdated := now)
    requires d3 == d2.(transactions := ledger, lastUpdated := now)
    ensures d3 == d0.(userStats := stats, holdings := holdings, transactions := ledger, lastUpdated := now)
    ensures d1.holdings == d0.holdings && d1.marketData == d0.marketData
    ensures d2.transactions == d0.transactions
  {
  }

  function ExpPatch(p: Progress): StatsPatch
  {
    EMPTY_STATS_PATCH.(level := Some(p.level), exp := Some(p.exp), expRequired := Some(p.expRequired))
  }

  /** The provider: the store, the in-memory record, and whether a user is signed in. */
  class Account {
    const store: Store
    var userData: UserData
    var signedIn: bool

    /** The in-memory record is the one the store yields. */
    ghost predicate Valid()
      reads this, store
    {
      userData == store.Current()
    }

    constructor (store: Store, signedIn: bool)
      ensures this.store == store && this.signedIn == signedIn
      ensures userData == store.Current() && Valid()
    {
      this.store := store;
      this.signedIn := signedIn;
      userData := store.Current();
    }

    function Stats(): UserStats
      reads this
    {
      userData.userStats
    }

    method RefreshData()
      modifies this`userData
      ensures userData == store.Current()
      ensures Valid()
    {
      userData := store.InitData();
    }

    method UpdateUserStats(stats: StatsPatch, now: int)
      requires Valid()
      modifies this`userData, store
      ensures Valid()
      ensures userData == old(userData).(userStats := MergeStats(old(userData).userStats, stats), lastUpdated := now)
    {
      userData := store.UpdateUserStats(stats, now);
    }

    method UpdateMiningSpace(id: int, patch: SpacePatch, now: int)
      requires Valid()
      modifies this`userData, store
      ensures Valid()
      ensures userData == old(userData).(miningSpaces := MergeSpaceById(old(userData).miningSpaces, id, patch),
                                         lastUpdated := now)
    {
      userData := store.UpdateMiningSpace(id, patch, now);
    }

    /** `resetData`: the store is reset to the defaults and the user is signed out. */
    method ResetData(now: int)
      modifies this, store
      ensures Valid() && !signedIn
      ensures userData == DefaultUserData(store.loadTime).(lastUpdated := now)
    {
      userData := store.ResetData(now);
      signedIn := false;
    }

    method AddScoins(amount: real, now: int)
      requires Valid()
      modifies this`userData, store
      ensures Valid()
      ensures userData == old(userData).(
        userStats := old(userData).userStats.(scoins := old(userData).userStats.scoins + amount),
        lastUpdated := now)
    {
      userData := store.UpdateUserStats(ScoinsPatch(userData.userStats.scoins + amount), now);
    }

    /** `convertScoinsToScr`: below 10 Scoins nothing changes; otherwise the
        largest multiple of 10 is taken from the Scoins, the SCR holding grows by
        a thousandth of it, and one `convert` entry is put at the head of the ledger. */
    method ConvertScoinsToScr(now: int, idSuffix: string) returns (converted: bool)
      requires Valid()
      modifies this`userData, store
      ensures Valid()
      ensures converted <==> old(userData).userStats.scoins >= MIN_CONVERSION
      ensures !converted ==> userData == old(userData) && store.slot == old(store.slot)
      ensures converted ==> userData == AfterConversion(old(userData), now, idSuffix)
    {
      if userData.userStats.scoins < MIN_CONVERSION {
        return false;
      }
      ApplyConversion(now, idSuffix);
      converted := true;
    }

    /** The store updates of a conversion, run once the guard has passed: the
        Scoins, then the SCR holding, then the ledger, each saved in turn. */
    method ApplyConversion(now: int, idSuffix: string)
      requires Valid()
      modifies this`userData, store
      ensures Valid()
      ensures userData == AfterConversion(old(userData), now, idSuffix)
    {
      var before := userData;
      var scoins := userData.userStats.scoins;
      var scrPrice := store.GetScrPrice();
      var scoinsToConvert := ConvertedScoins(scoins);
      var scrToAdd := ScrForScoins(scoinsToConvert);
      var statsData := store.UpdateUserStats(ScoinsPatch(scoins - scoinsToConvert), now);
      var currentAmount := HoldingAmount(statsData.holdings, SCR);
      var holdingsData := store.UpdateHolding(SCR, currentAmount + scrToAdd, now);
      userData := store.AddTransaction(ConvertDraft(scrToAdd, scrPrice, now), now, idSuffix);
      ConversionSteps(before, statsData, holdingsData, userData, scrPrice, now, idSuffix);
    }

    /** `addScr`: the SCR holding becomes the previous amount plus `amount`
        and one `mine` entry of `amount` is put at the head of the ledger. */
    method AddScr(amount: real, now: int, idSuffix: string)
      requires Valid()
      modifies this`userData, store
      ensures Valid()
      ensures userData == AfterMine(old(userData), amount, now, idSuffix)
    {
      var before := userData;
      var scrPrice := store.GetScrPrice();
      var currentAmount := HoldingAmount(userData.holdings, SCR);
      var holdingsData := store.UpdateHolding(SCR, currentAmount + amount, now);
      userData := store.AddTransaction(MineDraft(amount, scrPrice, now), now, idSuffix);
      MineSteps(before, holdingsData, userData, amount, scrPrice, now, idSuffix);
    }

    /** `addExp`: the stats take one `ExpStep`; only level, exp and expRequired can change. */
    method AddExp(amount: real, now: int)
      requires Valid()
      modifies this`userData, store
      ensures Valid()
      ensures var s := old(userData).userStats;
        var q := ExpStep(Progress(s.level, s.exp, s.expRequired), amount);
        userData == old(userData).(
          userStats := s.(level := q.level, exp := q.exp, expRequired := q.expRequired),
          lastUpdated := now)
    {
      var currentExp := userData.userStats.exp;
      var currentLevel := userData.userStats.level;
      var expRequired := userData.userStats.expRequired;
      var newExp := currentExp + amount;
      var newLevel := currentLevel;
      if newExp >= expRequired && currentLevel < 10 {
        newLevel := currentLevel + 1;
        newExp := newExp - expRequired;
        var newExpRequired := MiningUtils.CalculateExpRequired(newLevel) as real;
        userData := store.UpdateUserStats(ExpPatch(Progress(newLevel, newExp, newExpRequired)), now);
      } else {
        userData := store.UpdateUserStats(EMPTY_STATS_PATCH.(exp := Some(newExp)), now);
      }
    }
  }
}

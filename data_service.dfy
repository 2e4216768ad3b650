/** The persisted user record (`UserData`) and the store that loads it,
    transforms it and writes it back under one storage key. Each store
    operation reads the record (or the defaults), applies one transformation,
    stamps `lastUpdated` with the current time and saves the result. */
module DataService {
  import opened Text
  import opened JsArray

  datatype CryptoHolding = CryptoHolding(
    symbol: string, name: string, amount: real, valueUsd: real, icon: Option<string>)

  /** The stats record. The profile form spreads extra keys into it
      (`firstName` ... `profileCompleted`), so they are fields here too. */
  datatype UserStats = UserStats(
    level: int, exp: real, expRequired: real,
    successfulMines: int, totalAttempts: int,
    balance: real, scoins: real, activeMiningTime: real,
    autoMining: bool, lastMiningTimestamp: Option<int>,
    firstName: Option<string>, lastName: Option<string>, username: Option<string>,
    countryCode: Option<string>, phoneNumber: Option<string>,
    referralCode: Option<string>, profileCompleted: Option<bool>)

  datatype MiningSpace = MiningSpace(
    id: int, active: bool, unlocked: bool, isPremium: bool,
    expiresAt: Option<int>, scoinsEarned: real)

  datatype MarketData = MarketData(
    symbol: string, name: string, price: real, change24h: real,
    volume24h: real, marketCap: real, lastUpdated: int)

  datatype TxType = Mine | Buy | Sell | Transfer | Convert

  datatype TxStatus = Completed | Pending | Failed

  datatype Transaction = Transaction(
    id: string, txType: TxType, amount: real, symbol: string, timestamp: int,
    valueUsd: Option<real>, fee: Option<real>, status: TxStatus, txHash: Option<string>)

  /** A transaction before the store gives it an id (`Omit<Transaction, 'id'>`). */
  datatype TxDraft = TxDraft(
    txType: TxType, amount: real, symbol: string, timestamp: int,
    valueUsd: Option<real>, fee: Option<real>, status: TxStatus, txHash: Option<string>)

  datatype UserData = UserData(
    userStats: UserStats,
    holdings: seq<CryptoHolding>,
    miningSpaces: seq<MiningSpace>,
    marketData: seq<MarketData>,
    transactions: seq<Transaction>,
    lastUpdated: int)

  /** `Partial<UserStats>`: `None` means the key is absent from the patch.
      For keys that are optional in the record, `Some(None)` is a key present
      with the value `undefined`, which the spread copies over the old value. */
  datatype StatsPatch = StatsPatch(
    level: Option<int>, exp: Option<real>, expRequired: Option<real>,
    successfulMines: Option<int>, totalAttempts: Option<int>,
    balance: Option<real>, scoins: Option<real>, activeMiningTime: Option<real>,
    autoMining: Option<bool>, lastMiningTimestamp: Option<Option<int>>,
    firstName: Option<Option<string>>, lastName: Option<Option<string>>,
    username: Option<Option<string>>, countryCode: Option<Option<string>>,
    phoneNumber: Option<Option<string>>, referralCode: Option<Option<string>>,
    profileCompleted: Option<Option<bool>>)

  /** `Partial<MiningSpace>`, with the same convention as `StatsPatch`. */
  datatype SpacePatch = SpacePatch(
    id: Option<int>, active: Option<bool>, unlocked: Option<bool>,
    isPremium: Option<bool>, expiresAt: Option<Option<int>>, scoinsEarned: Option<real>)

  const EMPTY_STATS_PATCH := StatsPatch(None, None, None, None, None, None, None, None,
    None, None, None, None, None, None, None, None, None)

  const EMPTY_SPACE_PATCH := SpacePatch(None, None, None, None, None, None)

  /** The ledger keeps the most recent 100 transactions. */
  const LEDGER_CAP: nat := 100

  /** Price used when the market snapshot has no usable SCR entry. */
  const FALLBACK_SCR_PRICE: real := 0.15

  const SCR: string := "SCR"

  /** `DEFAULT_USER_DATA`; `loadTime` is the clock reading taken when the
      module was loaded, used for every `lastUpdated` in it. */
  function DefaultUserData(loadTime: int): UserData
  {
    UserData(
      UserStats(1, 0.0, 100.0, 0, 0, 0.0, 0.0, 0.0, true, None,
                None, None, None, None, None, None, None),
      [CryptoHolding(SCR, "ScremyCoin", 0.0, 0.0, Some("\U{1F48E}"))],
      [MiningSpace(1, false, true, false, None, 0.0),
       MiningSpace(2, false, false, false, None, 0.0),
       MiningSpace(3, false, false, false, None, 0.0),
       MiningSpace(4, false, false, false, None, 0.0),
       MiningSpace(5, false, false, false, None, 0.0)],
      [MarketData("BTC", "Bitcoin", 49876.32, 2.5, 29645123890.0, 967453921834.0, loadTime),
       MarketData("ETH", "Ethereum", 3226.74, 1.2, 15432678945.0, 387654321098.0, loadTime),
       MarketData(SCR, "ScremyCoin", 0.15, 5.8, 7865432.0, 15000000.0, loadTime)],
      [],
      loadTime)
  }

  /** The documented defaults: level 1, no experience, 100 to the next level,
      a single SCR holding of 0, five spaces of which only the first is
      unlocked and none is active, and an empty ledger. */
  lemma DefaultsAreFresh(loadTime: int)
    ensures var d := DefaultUserData(loadTime);
      d.userStats.level == 1 && d.userStats.exp == 0.0 && d.userStats.expRequired == 100.0
      && d.holdings == [CryptoHolding(SCR, "ScremyCoin", 0.0, 0.0, Some("\U{1F48E}"))]
      && |d.miningSpaces| == 5
      && (forall i :: 0 <= i < 5 ==> d.miningSpaces[i].id == i + 1)
      && (forall i :: 0 <= i < 5 ==> (d.miningSpaces[i].unlocked <==> i == 0))
      && (forall i :: 0 <= i < 5 ==> !d.miningSpaces[i].active)
      && d.transactions == []
  {
  }

  function Pick<T>(patch: Option<T>, old_: T): T
  {
    if patch.Some? then patch.value else old_
  }

  /** `{ ...stats, ...patch }`. */
  function MergeStats(s: UserStats, p: StatsPatch): UserStats
  {
    UserStats(
      Pick(p.level, s.level), Pick(p.exp, s.exp), Pick(p.expRequired, s.expRequired),
      Pick(p.successfulMines, s.successfulMines), Pick(p.totalAttempts, s.totalAttempts),
      Pick(p.balance, s.balance), Pick(p.scoins, s.scoins),
      Pick(p.activeMiningTime, s.activeMiningTime), Pick(p.autoMining, s.autoMining),
      Pick(p.lastMiningTimestamp, s.lastMiningTimestamp),
      Pick(p.firstName, s.firstName), Pick(p.lastName, s.lastName),
      Pick(p.username, s.username), Pick(p.countryCode, s.countryCode),
      Pick(p.phoneNumber, s.phoneNumber), Pick(p.referralCode, s.referralCode),
      Pick(p.profileCompleted, s.profileCompleted))
  }

  /** Merging is idempotent, and an empty patch changes nothing. */
  lemma MergeStatsIdempotent(s: UserStats, p: StatsPatch)
    ensures MergeStats(MergeStats(s, p), p) == MergeStats(s, p)
    ensures MergeStats(s, EMPTY_STATS_PATCH) == s
  {
  }

  /** `{ ...space, ...patch }`. */
  function MergeSpace(s: MiningSpace, p: SpacePatch): MiningSpace
  {
    MiningSpace(Pick(p.id, s.id), Pick(p.active, s.active), Pick(p.unlocked, s.unlocked),
                Pick(p.isPremium, s.isPremium), Pick(p.expiresAt, s.expiresAt),
                Pick(p.scoinsEarned, s.scoinsEarned))
  }

  /** `[tx, ...ledger].slice(0, 100)`: the new entry first, the old ledger
      after it in order, at most 100 entries. */
  function PrependTransaction(ledger: seq<Transaction>, tx: Transaction): (r: seq<Transaction>)
    ensures |r| == if |ledger| + 1 < LEDGER_CAP then |ledger| + 1 else LEDGER_CAP
    ensures r[0] == tx
    ensures forall i :: 1 <= i < |r| ==> r[i] == ledger[i - 1]
  {
    var whole := [tx] + ledger;
    if |whole| <= LEDGER_CAP then whole else whole[..LEDGER_CAP]
  }

  /** Transaction id `tx-<now>-<suffix>`; the suffix is random in the application. */
  function TxId(now: int, suffix: string): string
  {
    "tx-" + IntToString(now) + "-" + suffix
  }

  function WithId(d: TxDraft, id: string): Transaction
  {
    Transaction(id, d.txType, d.amount, d.symbol, d.timestamp, d.valueUsd, d.fee, d.status, d.txHash)
  }

  // ---- holdings -----------------------------------------------------------

  function SymbolIs(symbol: string): CryptoHolding -> bool
  {
    (h: CryptoHolding) => h.symbol == symbol
  }

  function SymbolIsNot(symbol: string): CryptoHolding -> bool
  {
    (h: CryptoHolding) => h.symbol != symbol
  }

  function MarketSymbolIs(symbol: string): MarketData -> bool
  {
    (m: MarketData) => m.symbol == symbol
  }

  predicate IsPositive(h: CryptoHolding) { h.amount > 0.0 }

  /** Holdings for `symbol`, in order. */
  function Matching(hs: seq<CryptoHolding>, symbol: string): seq<CryptoHolding>
  {
    Filter(hs, SymbolIs(symbol))
  }

  /** Holdings for every other symbol, in order. */
  function Others(hs: seq<CryptoHolding>, symbol: string): seq<CryptoHolding>
  {
    Filter(hs, SymbolIsNot(symbol))
  }

  /** `marketData.find(m => m.symbol === symbol)`. */
  function MarketFor(market: seq<MarketData>, symbol: string): (r: Option<MarketData>)
    ensures r.Some? ==> r.value in market && r.value.symbol == symbol
    ensures r.None? ==> forall i :: 0 <= i < |market| ==> market[i].symbol != symbol
  {
    match FindIndex(market, MarketSymbolIs(symbol))
    case Some(i) => Some(market[i])
    case None => None
  }

  /** `price * amount` for a symbol with a market entry, 0 otherwise. */
  function HoldingValue(market: seq<MarketData>, symbol: string, amount: real): real
  {
    match MarketFor(market, symbol)
    case Some(m) => m.price * amount
    case None => 0.0
  }

  /** The holding `updateHolding` pushes for a symbol it did not hold. */
  function NewHolding(market: seq<MarketData>, symbol: string, amount: real): CryptoHolding
  {
    var m := MarketFor(market, symbol);
    CryptoHolding(
      symbol,
      if m.Some? && m.value.name != "" then m.value.name else symbol,
      amount,
      HoldingValue(market, symbol, amount),
      if symbol == SCR then Some("\U{1F48E}") else None)
  }

  /** The first holding for the symbol gets the new amount and value; a
      symbol not held is appended when the amount is positive. */
  function UpsertHolding(hs: seq<CryptoHolding>, market: seq<MarketData>, symbol: string, amount: real)
    : seq<CryptoHolding>
  {
    match FindIndex(hs, SymbolIs(symbol))
    case Some(i) => hs[i := hs[i].(amount := amount, valueUsd := HoldingValue(market, symbol, amount))]
    case None => if amount > 0.0 then hs + [NewHolding(market, symbol, amount)] else hs
  }

  /** The holdings `updateHolding` stores: upsert, then drop every holding that is not positive. */
  function HoldingsAfterUpdate(hs: seq<CryptoHolding>, market: seq<MarketData>, symbol: string, amount: real)
    : seq<CryptoHolding>
  {
    Filter(UpsertHolding(hs, market, symbol, amount), IsPositive)
  }

  /** Amount held of `symbol` as the actions read it: the first holding's amount, or 0. */
  function HoldingAmount(hs: seq<CryptoHolding>, symbol: string): real
  {
    match FindIndex(hs, SymbolIs(symbol))
    case Some(i) => hs[i].amount
    case None => 0.0
  }

  /** The imperative `updateHolding`: copy, find the index, assign or push,
      then filter out the holdings that are not positive. */
  method UpdatedHoldings(hs: seq<CryptoHolding>, market: seq<MarketData>, symbol: string, amount: real)
    returns (r: seq<CryptoHolding>)
    ensures r == HoldingsAfterUpdate(hs, market, symbol, amount)
  {
    var valueUsd := HoldingValue(market, symbol, amount);
    var holdings := hs;
    var existing := -1;
    var i := 0;
    while i < |holdings| && existing < 0
      invariant 0 <= i <= |holdings|
      invariant existing == -1 || (existing == i - 1 && holdings[existing].symbol == symbol)
      invariant forall j :: 0 <= j < i && j != existing ==> holdings[j].symbol != symbol
    {
      if holdings[i].symbol == symbol {
        existing := i;
      }
      i := i + 1;
    }
    if existing >= 0 {
      FindIndexIsFirst(holdings, SymbolIs(symbol), existing);
      holdings := holdings[existing := holdings[existing].(amount := amount, valueUsd := valueUsd)];
    } else {
      assert FindIndex(holdings, SymbolIs(symbol)) == None;
      if amount > 0.0 {
        holdings := holdings + [NewHolding(market, symbol, amount)];
      }
    }
    assert holdings == UpsertHolding(hs, market, symbol, amount);
    r := [];
    var k := 0;
    while k < |holdings|
      invariant 0 <= k <= |holdings|
      invariant r == Filter(holdings[..k], IsPositive)
    {
      assert holdings[..k + 1][..k] == holdings[..k];
      if holdings[k].amount > 0.0 {
        r := r + [holdings[k]];
      }
      k := k + 1;
    }
    assert holdings[..k] == holdings;
  }

  /** Holdings of every other symbol keep their values and relative order,
      except that those not positive are dropped; every stored holding is positive. */
  lemma UpdateHoldingKeepsOthers(hs: seq<CryptoHolding>, market: seq<MarketData>, symbol: string, amount: real)
    ensures var r := HoldingsAfterUpdate(hs, market, symbol, amount);
      (forall i :: 0 <= i < |r| ==> r[i].amount > 0.0)
      && Others(r, symbol) == Filter(Others(hs, symbol), IsPositive)
  {
    var u := UpsertHolding(hs, market, symbol, amount);
    FilterCommute(u, IsPositive, SymbolIsNot(symbol));
    match FindIndex(hs, SymbolIs(symbol))
    case Some(i) =>
      FilterUpdateDropped(hs, i, hs[i].(amount := amount, valueUsd := HoldingValue(market, symbol, amount)),
                          SymbolIsNot(symbol));
    case None =>
      if amount > 0.0 {
        var n := NewHolding(market, symbol, amount);
        assert u == hs + [n];
        FilterConcat(hs, [n], SymbolIsNot(symbol));
        assert Filter([n], SymbolIsNot(symbol)) == [] by {
          assert [n][..0] == [];
        }
        assert Filter(u, SymbolIsNot(symbol)) == Others(hs, symbol);
      }
  }

  /** With at most one holding per symbol beforehand: a positive amount
      leaves exactly one holding for the symbol, carrying that amount and
      `price * amount`; any other amount leaves none and never adds a holding. */
  lemma UpdateHoldingSetsSymbol(hs: seq<CryptoHolding>, market: seq<MarketData>, symbol: string, amount: real)
    requires |Matching(hs, symbol)| <= 1
    ensures var r := HoldingsAfterUpdate(hs, market, symbol, amount);
      (amount > 0.0 ==> |Matching(r, symbol)| == 1
                        && Matching(r, symbol)[0].amount == amount
                        && Matching(r, symbol)[0].valueUsd == HoldingValue(market, symbol, amount))
      && (amount <= 0.0 ==> Matching(r, symbol) == [] && |r| <= |hs|)
      && |Matching(r, symbol)| <= 1
      && HoldingAmount(r, symbol) == (if amount > 0.0 then amount else 0.0)
  {
    var u := UpsertHolding(hs, market, symbol, amount);
    var r := HoldingsAfterUpdate(hs, market, symbol, amount);
    FilterCommute(u, IsPositive, SymbolIs(symbol));
    match FindIndex(hs, SymbolIs(symbol))
    case Some(i) =>
      var x := hs[i].(amount := amount, valueUsd := HoldingValue(market, symbol, amount));
      FilterSingleMatch(hs, i, SymbolIs(symbol));
      FilterSplitAt(u, i, SymbolIs(symbol));
      assert u[..i] == hs[..i] && u[i + 1..] == hs[i + 1..];
      assert Filter([x], SymbolIs(symbol)) == [x] by { assert [x][..0] == []; }
      assert Filter(u, SymbolIs(symbol)) == [x];
      assert Filter([x], IsPositive) == (if amount > 0.0 then [x] else []) by { assert [x][..0] == []; }
      HoldingAmountOfMatch(r, symbol);
    case None =>
      assert Filter(hs, SymbolIs(symbol)) == [] by {
        FilterNone(hs, SymbolIs(symbol));
      }
      if amount > 0.0 {
        var n := NewHolding(market, symbol, amount);
        FilterConcat(hs, [n], SymbolIs(symbol));
        assert Filter([n], SymbolIs(symbol)) == [n] by { assert [n][..0] == []; }
        assert Filter([n], IsPositive) == [n] by { assert [n][..0] == []; }
      }
      HoldingAmountOfMatch(r, symbol);
  }

  /** The amount the actions read is the amount of the first matching holding. */
  lemma {:induction false} HoldingAmountOfMatch(hs: seq<CryptoHolding>, symbol: string)
    ensures Matching(hs, symbol) == [] ==> HoldingAmount(hs, symbol) == 0.0
    ensures Matching(hs, symbol) != [] ==> HoldingAmount(hs, symbol) == Matching(hs, symbol)[0].amount
  {
    match FindIndex(hs, SymbolIs(symbol))
    case Some(i) =>
      FilterSplitAt(hs, i, SymbolIs(symbol));
      assert Filter(hs[..i], SymbolIs(symbol)) == [] by {
        FilterNone(hs[..i], SymbolIs(symbol));
      }
      assert Filter([hs[i]], SymbolIs(symbol)) == [hs[i]] by { assert [hs[i]][..0] == []; }
    case None =>
      FilterNone(hs, SymbolIs(symbol));
  }

  /** Setting a positive amount is read back by the actions, whatever
      duplicates the holdings may contain. */
  lemma UpdateHoldingReadsBack(hs: seq<CryptoHolding>, market: seq<MarketData>, symbol: string, amount: real)
    requires amount > 0.0
    ensures HoldingAmount(HoldingsAfterUpdate(hs, market, symbol, amount), symbol) == amount
  {
    var u := UpsertHolding(hs, market, symbol, amount);
    var r := HoldingsAfterUpdate(hs, market, symbol, amount);
    FilterCommute(u, IsPositive, SymbolIs(symbol));
    match FindIndex(hs, SymbolIs(symbol))
    case Some(i) =>
      var x := hs[i].(amount := amount, valueUsd := HoldingValue(market, symbol, amount));
      FilterSplitAt(u, i, SymbolIs(symbol));
      assert u[..i] == hs[..i];
      FilterNone(hs[..i], SymbolIs(symbol));
      assert Filter([x], SymbolIs(symbol)) == [x] by { assert [x][..0] == []; }
      var rest := Filter(u[i + 1..], SymbolIs(symbol));
      assert Filter(u, SymbolIs(symbol)) == [x] + rest;
      FilterConcat([x], rest, IsPositive);
      assert Filter([x], IsPositive) == [x] by { assert [x][..0] == []; }
      HoldingAmountOfMatch(r, symbol);
    case None =>
      var n := NewHolding(market, symbol, amount);
      FilterNone(hs, SymbolIs(symbol));
      FilterConcat(hs, [n], SymbolIs(symbol));
      assert Filter([n], SymbolIs(symbol)) == [n] by { assert [n][..0] == []; }
      assert Filter([n], IsPositive) == [n] by { assert [n][..0] == []; }
      HoldingAmountOfMatch(r, symbol);
  }

  /** A symbol not held before and set to a positive amount is appended as the last holding. */
  lemma UpdateHoldingAppendsNew(hs: seq<CryptoHolding>, market: seq<MarketData>, symbol: string, amount: real)
    requires forall i :: 0 <= i < |hs| ==> hs[i].symbol != symbol
    requires amount > 0.0
    ensures var r := HoldingsAfterUpdate(hs, market, symbol, amount);
      |r| >= 1 && r[|r| - 1] == NewHolding(market, symbol, amount)
      && r[..|r| - 1] == Filter(hs, IsPositive)
  {
    var n := NewHolding(market, symbol, amount);
    assert UpsertHolding(hs, market, symbol, amount) == hs + [n];
    FilterConcat(hs, [n], IsPositive);
    assert Filter([n], IsPositive) == [n] by { assert [n][..0] == []; }
  }

  // ---- mining spaces --------------------------------------------------------

  function SpaceIdIs(id: int): MiningSpace -> bool
  {
    (s: MiningSpace) => s.id == id
  }

  /** The spaces after `updateMiningSpace(id, patch)`: the first space with
      that id is merged with the patch; every other space is unchanged. */
  function MergeSpaceById(spaces: seq<MiningSpace>, id: int, patch: SpacePatch): (r: seq<MiningSpace>)
    ensures |r| == |spaces|
    ensures forall j :: 0 <= j < |r| && spaces[j].id != id ==> r[j] == spaces[j]
    ensures (forall j :: 0 <= j < |spaces| ==> spaces[j].id != id) ==> r == spaces
    ensures forall j :: (0 <= j < |spaces| && spaces[j].id == id
                         && forall k :: 0 <= k < j ==> spaces[k].id != id)
                        ==> r[j] == MergeSpace(spaces[j], patch)
    ensures forall j, k :: 0 <= k < j < |spaces| && spaces[k].id == id ==> r[j] == spaces[j]
  {
    match FindIndex(spaces, SpaceIdIs(id))
    case Some(i) => spaces[i := MergeSpace(spaces[i], patch)]
    case None => spaces
  }

  /** `getScrPrice`: the first SCR market entry's price when it is nonzero, 0.15 otherwise. */
  function ScrPrice(market: seq<MarketData>): real
  {
    match MarketFor(market, SCR)
    case Some(m) => if m.price != 0.0 then m.price else FALLBACK_SCR_PRICE
    case None => FALLBACK_SCR_PRICE
  }

  /** The SCR price is read from the first SCR entry of the market data, a
      zero price there falling back to 0.15, as does a market without SCR. */
  lemma ScrPriceLookup(market: seq<MarketData>)
    ensures (forall i :: 0 <= i < |market| ==> market[i].symbol != SCR) ==> ScrPrice(market) == FALLBACK_SCR_PRICE
    ensures forall i :: (0 <= i < |market| && market[i].symbol == SCR
                         && forall k :: 0 <= k < i ==> market[k].symbol != SCR)
                        ==> ScrPrice(market) == if market[i].price != 0.0 then market[i].price else FALLBACK_SCR_PRICE
  {
    forall i | 0 <= i < |market| && market[i].symbol == SCR && forall k :: 0 <= k < i ==> market[k].symbol != SCR
      ensures ScrPrice(market) == if market[i].price != 0.0 then market[i].price else FALLBACK_SCR_PRICE
    {
      FindIndexIsFirst(market, MarketSymbolIs(SCR), i);
    }
  }

  // ---- the store --------------------------------------------------------------

  /** What the storage key holds: nothing, something that does not parse, or a record. */
  datatype Slot = Empty | Corrupt | Saved(record: UserData)

  /** The local-storage backed `DataService`. */
  class Store {
    var slot: Slot
    const loadTime: int

    constructor (loadTime: int)
      ensures slot == Empty && this.loadTime == loadTime
    {
      slot := Empty;
      this.loadTime := loadTime;
    }

    /** The record `initData` yields in the current state. */
    function Current(): UserData
      reads this
    {
      if slot.Saved? then slot.record else DefaultUserData(loadTime)
    }

    /** `initData`: the stored record, or the defaults when nothing is stored
        or what is stored does not parse. */
    method InitData() returns (d: UserData)
      ensures slot.Saved? ==> d == slot.record
      ensures !slot.Saved? ==> d == DefaultUserData(loadTime)
    {
      match slot
      case Saved(r) => d := r;
      case _ => d := DefaultUserData(loadTime);
    }

    /** `saveData`: stamps `lastUpdated` and writes the whole record. */
    method SaveData(data: UserData, now: int) returns (saved: UserData)
      modifies this
      ensures saved == data.(lastUpdated := now)
      ensures slot == Saved(saved)
    {
      saved := data.(lastUpdated := now);
      slot := Saved(saved);
    }

    method UpdateUserStats(stats: StatsPatch, now: int) returns (d: UserData)
      modifies this
      ensures d == old(Current()).(userStats := MergeStats(old(Current()).userStats, stats), lastUpdated := now)
      ensures slot == Saved(d)
    {
      var current := InitData();
      d := SaveData(current.(userStats := MergeStats(current.userStats, stats)), now);
    }

    method AddTransaction(draft: TxDraft, now: int, idSuffix: string) returns (d: UserData)
      modifies this
      ensures d == old(Current()).(
        transactions := PrependTransaction(old(Current()).transactions, WithId(draft, TxId(now, idSuffix))),
        lastUpdated := now)
      ensures slot == Saved(d)
    {
      var current := InitData();
      var tx := WithId(draft, TxId(now, idSuffix));
      d := SaveData(current.(transactions := PrependTransaction(current.transactions, tx)), now);
    }

    method UpdateHolding(symbol: string, amount: real, now: int) returns (d: UserData)
      modifies this
      ensures d == old(Current()).(
        holdings := HoldingsAfterUpdate(old(Current()).holdings, old(Current()).marketData, symbol, amount),
        lastUpdated := now)
      ensures slot == Saved(d)
    {
      var current := InitData();
      var holdings := UpdatedHoldings(current.holdings, current.marketData, symbol, amount);
      d := SaveData(current.(holdings := holdings), now);
    }

    method UpdateMiningSpace(id: int, patch: SpacePatch, now: int) returns (d: UserData)
      modifies this
      ensures d == old(Current()).(
        miningSpaces := MergeSpaceById(old(Current()).miningSpaces, id, patch),
        lastUpdated := now)
      ensures slot == Saved(d)
    {
      var current := InitData();
      d := SaveData(current.(miningSpaces := MergeSpaceById(current.miningSpaces, id, patch)), now);
    }

    method GetScrPrice() returns (price: real)
      ensures price == ScrPrice(Current().marketData)
      ensures price != 0.0
    {
      var current := InitData();
      price := ScrPrice(current.marketData);
    }

    /** `resetData`: writes the defaults (stamped) and returns them. */
    method ResetData(now: int) returns (d: UserData)
      modifies this
      ensures d == DefaultUserData(loadTime).(lastUpdated := now)
      ensures slot == Saved(d)
    {
      d := SaveData(DefaultUserData(loadTime), now);
    }
  }

  /** Saving and loading back gives the saved record with `lastUpdated = now`. */
  method SaveThenLoad(store: Store, d: UserData, now: int) returns (loaded: UserData)
    modifies store
    ensures loaded == d.(lastUpdated := now)
  {
    var _ := store.SaveData(d, now);
    loaded := store.InitData();
  }

  /** After a reset, loading gives the defaults stamped with the reset time. */
  method ResetThenLoad(store: Store, now: int) returns (loaded: UserData)
    modifies store
    ensures loaded == DefaultUserData(store.loadTime).(lastUpdated := now)
  {
    var _ := store.ResetData(now);
    loaded := store.InitData();
  }
}

/**
 * The vault subgraph of `packages/subgraph/src/priime-vault.ts`: each log bumps the vault's
 * running counters and the bucket of its day, entity by entity. Amounts are unbounded, as
 * the mapping's `BigInt` is; the immutable row every handler also writes is not modelled.
 */
module Subgraph {

  type Address = string

  const SECONDS_PER_DAY: nat := 86400

  datatype Vault = Vault(
    createdTimestamp: nat,
    totalShares: nat, totalDepositRequested: nat, totalDepositFulfilled: nat,
    totalRedeemRequested: nat, totalRedeemFulfilled: nat,
    lastNav: nat, lastInputsBlock: nat, updateCount: nat, breachFlags: int)

  datatype Daily = Daily(
    strikeCount: nat, navEnd: nat, navMin: nat, navMax: nat,
    depositRequests: nat, redeemRequests: nat, depositsFulfilled: nat, redeemsFulfilled: nat,
    planExecuted: nat, planRejected: nat)

  const EMPTY_DAY := Daily(0, 0, 0, 0, 0, 0, 0, 0, 0, 0)

  datatype Body =
    | NavUpdated(nav: nat, inputsBlock: nat, updateCount: nat, breachFlags: int)
    | DepositRequest(assets: nat)
    | RedeemRequest(shares: nat)
    | DepositRequestFulfilled(assets: nat, shares: nat)
    | RedeemRequestFulfilled(shares: nat, assets: nat)
    | PlanExecuted
    | PlanRejected
    | RowOnly                                    // refunds, manual calls and deleverages

  datatype Log = Log(vault: Address, timestamp: nat, body: Body)

  type Vaults = map<Address, Vault>

  type Days = map<Address, map<nat, Daily>>

  function NewVault(timestamp: nat): Vault {
    Vault(timestamp, 0, 0, 0, 0, 0, 0, 0, 0, 0)
  }

  function DayOf(timestamp: nat): nat {
    timestamp / SECONDS_PER_DAY * SECONDS_PER_DAY
  }

  // The timestamp falls into the day that starts at `day`.
  predicate InDay(timestamp: nat, day: nat) {
    day % 86_400 == 0 && day <= timestamp < day + 86_400
  }

  lemma DayOfIs(timestamp: nat, day: nat)
    ensures DayOf(timestamp) == day <==> InDay(timestamp, day)
  {
  }

  function VaultIn(vaults: Vaults, log: Log): Vault {
    if log.vault in vaults then vaults[log.vault] else NewVault(log.timestamp)
  }

  function DaysIn(days: Days, vault: Address): map<nat, Daily> {
    if vault in days then days[vault] else map[]
  }

  function DayIn(days: map<nat, Daily>, day: nat): Daily {
    if day in days then days[day] else EMPTY_DAY
  }

  predicate Bucketed(body: Body) {
    !body.RowOnly?
  }

  // ---------------------------------------------------------------- one log

  function OnVault(vault: Vault, body: Body): Vault {
    match body
    case NavUpdated(nav, inputsBlock, updateCount, breachFlags) =>
      vault.(lastNav := nav, lastInputsBlock := inputsBlock, updateCount := updateCount, breachFlags := breachFlags)
    case DepositRequest(assets) => vault.(totalDepositRequested := vault.totalDepositRequested + assets)
    case RedeemRequest(shares) => vault.(totalRedeemRequested := vault.totalRedeemRequested + shares)
    case DepositRequestFulfilled(assets, shares) =>
      vault.(totalDepositFulfilled := vault.totalDepositFulfilled + assets, totalShares := vault.totalShares + shares)
    case RedeemRequestFulfilled(shares, assets) =>
      vault.(totalRedeemFulfilled := vault.totalRedeemFulfilled + assets,
             totalShares := if vault.totalShares >= shares then vault.totalShares - shares else vault.totalShares)
    case _ => vault
  }

  function OnDay(m: Daily, body: Body): Daily {
    match body
    case NavUpdated(nav, _, _, _) =>
      m.(strikeCount := m.strikeCount + 1, navEnd := nav,
         navMin := if m.navMin == 0 || nav < m.navMin then nav else m.navMin,
         navMax := if nav > m.navMax then nav else m.navMax)
    case DepositRequest(_) => m.(depositRequests := m.depositRequests + 1)
    case RedeemRequest(_) => m.(redeemRequests := m.redeemRequests + 1)
    case DepositRequestFulfilled(assets, _) => m.(depositsFulfilled := m.depositsFulfilled + assets)
    case RedeemRequestFulfilled(_, assets) => m.(redeemsFulfilled := m.redeemsFulfilled + assets)
    case PlanExecuted => m.(planExecuted := m.planExecuted + 1)
    case PlanRejected => m.(planRejected := m.planRejected + 1)
    case RowOnly => m
  }

  function VaultsAfter(vaults: Vaults, log: Log): Vaults {
    vaults[log.vault := OnVault(VaultIn(vaults, log), log.body)]
  }

  function WithDay(days: Days, vault: Address, timestamp: nat, m: Daily): Days {
    days[vault := DaysIn(days, vault)[DayOf(timestamp) := m]]
  }

  lemma WithDayTwice(days: Days, vault: Address, timestamp: nat, first: Daily, second: Daily)
    ensures WithDay(WithDay(days, vault, timestamp, first), vault, timestamp, second)
            == WithDay(days, vault, timestamp, second)
  {
    var mine, day := DaysIn(days, vault), DayOf(timestamp);
    assert mine[day := first][day := second] == mine[day := second];
  }

  function DaysAfter(days: Days, log: Log): Days {
    if !Bucketed(log.body) then days
    else
      var m := DayIn(DaysIn(days, log.vault), DayOf(log.timestamp));
      WithDay(days, log.vault, log.timestamp, OnDay(m, log.body))
  }

  function VaultsOf(logs: seq<Log>): Vaults {
    if logs == [] then map[] else VaultsAfter(VaultsOf(logs[..|logs| - 1]), logs[|logs| - 1])
  }

  function DaysOf(logs: seq<Log>): Days {
    if logs == [] then map[] else DaysAfter(DaysOf(logs[..|logs| - 1]), logs[|logs| - 1])
  }

  // ---------------------------------------------------------------- the handlers

  class Store {
    var vaults: Vaults
    var days: Days

    constructor ()
      ensures vaults == VaultsOf([]) && days == DaysOf([])
    {
      vaults, days := map[], map[];
    }

    method EnsureVault(address: Address, timestamp: nat) returns (vault: Vault)
      modifies `vaults
      ensures vault == if address in old(vaults) then old(vaults)[address] else NewVault(timestamp)
      ensures vaults == old(vaults)[address := vault]
    {
      if address in vaults {
        return vaults[address];
      }
      vault := NewVault(timestamp);
      vaults := vaults[address := vault];
    }

    method DayBucket(vault: Address, timestamp: nat) returns (m: Daily)
      modifies `days
      ensures m == DayIn(DaysIn(old(days), vault), DayOf(timestamp))
      ensures days == WithDay(old(days), vault, timestamp, m)
    {
      m := DayIn(DaysIn(days, vault), DayOf(timestamp));
      days := WithDay(days, vault, timestamp, m);
    }

    // Saves the bucket over the one just loaded.
    method SaveDay(vault: Address, timestamp: nat, m: Daily, ghost before: Days, ghost loaded: Daily)
      requires days == WithDay(before, vault, timestamp, loaded)
      modifies `days
      ensures days == WithDay(before, vault, timestamp, m)
    {
      days := WithDay(days, vault, timestamp, m);
      WithDayTwice(before, vault, timestamp, loaded, m);
    }

    method HandleNavUpdated(
        address: Address, timestamp: nat, nav: nat, inputsBlock: nat, updateCount: nat, breachFlags: int)
      modifies this
      ensures var log := Log(address, timestamp, NavUpdated(nav, inputsBlock, updateCount, breachFlags));
              vaults == VaultsAfter(old(vaults), log) && days == DaysAfter(old(days), log)
    {
      var vault := EnsureVault(address, timestamp);
      vault := vault.(lastNav := nav);
      vault := vault.(lastInputsBlock := inputsBlock);
      vault := vault.(updateCount := updateCount);
      vault := vault.(breachFlags := breachFlags);
      vaults := vaults[address := vault];

      var bucket := DayBucket(address, timestamp);
      var m := bucket;
      m := m.(strikeCount := m.strikeCount + 1);
      m := m.(navEnd := nav);
      if m.navMin == 0 || nav < m.navMin {
        m := m.(navMin := nav);
      }
      if nav > m.navMax {
        m := m.(navMax := nav);
      }
      SaveDay(address, timestamp, m, old(days), bucket);
    }

    method HandleDepositRequest(address: Address, timestamp: nat, assets: nat)
      modifies this
      ensures var log := Log(address, timestamp, DepositRequest(assets));
              vaults == VaultsAfter(old(vaults), log) && days == DaysAfter(old(days), log)
    {
      var vault := EnsureVault(address, timestamp);
      vaults := vaults[address := vault.(totalDepositRequested := vault.totalDepositRequested + assets)];
      var m := DayBucket(address, timestamp);
      SaveDay(address, timestamp, m.(depositRequests := m.depositRequests + 1), old(days), m);
    }

    method HandleRedeemRequest(address: Address, timestamp: nat, shares: nat)
      modifies this
      ensures var log := Log(address, timestamp, RedeemRequest(shares));
              vaults == VaultsAfter(old(vaults), log) && days == DaysAfter(old(days), log)
    {
      var vault := EnsureVault(address, timestamp);
      vaults := vaults[address := vault.(totalRedeemRequested := vault.totalRedeemRequested + shares)];
      var m := DayBucket(address, timestamp);
      SaveDay(address, timestamp, m.(redeemRequests := m.redeemRequests + 1), old(days), m);
    }

    method HandleDepositRequestFulfilled(address: Address, timestamp: nat, assets: nat, shares: nat)
      modifies this
      ensures var log := Log(address, timestamp, DepositRequestFulfilled(assets, shares));
              vaults == VaultsAfter(old(vaults), log) && days == DaysAfter(old(days), log)
    {
      var vault := EnsureVault(address, timestamp);
      vault := vault.(totalDepositFulfilled := vault.totalDepositFulfilled + assets);
      vault := vault.(totalShares := vault.totalShares + shares);
      vaults := vaults[address := vault];
      var m := DayBucket(address, timestamp);
      SaveDay(address, timestamp, m.(depositsFulfilled := m.depositsFulfilled + assets), old(days), m);
    }

    method HandleRedeemRequestFulfilled(address: Address, timestamp: nat, shares: nat, assets: nat)
      modifies this
      ensures var log := Log(address, timestamp, RedeemRequestFulfilled(shares, assets));
              vaults == VaultsAfter(old(vaults), log) && days == DaysAfter(old(days), log)
    {
      var vault := EnsureVault(address, timestamp);
      vault := vault.(totalRedeemFulfilled := vault.totalRedeemFulfilled + assets);
      if vault.totalShares >= shares {
        vault := vault.(totalShares := vault.totalShares - shares);
      }
      vaults := vaults[address := vault];
      var m := DayBucket(address, timestamp);
      SaveDay(address, timestamp, m.(redeemsFulfilled := m.redeemsFulfilled + assets), old(days), m);
    }

    method HandlePlan(address: Address, timestamp: nat, executed: bool)
      modifies this
      ensures var log := Log(address, timestamp, if executed then PlanExecuted else PlanRejected);
              vaults == VaultsAfter(old(vaults), log) && days == DaysAfter(old(days), log)
    {
      var _ := EnsureVault(address, timestamp);
      var bucket := DayBucket(address, timestamp);
      var m := bucket;
      if executed {
        m := m.(planExecuted := m.planExecuted + 1);
      } else {
        m := m.(planRejected := m.planRejected + 1);
      }
      SaveDay(address, timestamp, m, old(days), bucket);
    }

    /** The handler of each kind of log. */
    method Handle(log: Log)
      modifies this
      ensures vaults == VaultsAfter(old(vaults), log) && days == DaysAfter(old(days), log)
    {
      match log.body {
        case NavUpdated(nav, inputsBlock, updateCount, breachFlags) =>
          HandleNavUpdated(log.vault, log.timestamp, nav, inputsBlock, updateCount, breachFlags);
        case DepositRequest(assets) => HandleDepositRequest(log.vault, log.timestamp, assets);
        case RedeemRequest(shares) => HandleRedeemRequest(log.vault, log.timestamp, shares);
        case DepositRequestFulfilled(assets, shares) =>
          HandleDepositRequestFulfilled(log.vault, log.timestamp, assets, shares);
        case RedeemRequestFulfilled(shares, assets) =>
          HandleRedeemRequestFulfilled(log.vault, log.timestamp, shares, assets);
        case PlanExecuted => HandlePlan(log.vault, log.timestamp, true);
        case PlanRejected => HandlePlan(log.vault, log.timestamp, false);
        case RowOnly => var _ := EnsureVault(log.vault, log.timestamp);
      }
    }

    method Replay(logs: seq<Log>)
      requires vaults == VaultsOf([]) && days == DaysOf([])
      modifies this
      ensures vaults == VaultsOf(logs) && days == DaysOf(logs)
    {
      for i := 0 to |logs|
        invariant vaults == VaultsOf(logs[..i]) && days == DaysOf(logs[..i])
      {
        assert logs[..i + 1][..i] == logs[..i];
        Handle(logs[i]);
      }
      assert logs[..|logs|] == logs;
    }
  }

  // ---------------------------------------------------------------- sums over logs and over days

  // What a vault's logs add up to, by some measure of a log.
  function Sum(logs: seq<Log>, vault: Address, measure: Body -> nat): nat {
    if logs == [] then 0
    else
      var last := logs[|logs| - 1];
      Sum(logs[..|logs| - 1], vault, measure) + if last.vault == vault then measure(last.body) else 0
  }

  // A column of the daily table added up over all its days.
  ghost function DaySum(days: map<nat, Daily>, column: Daily -> nat): nat
    decreases |days|
  {
    if days == map[] then 0
    else
      var day :| day in days;
      column(days[day]) + DaySum(days - {day}, column)
  }

  lemma {:induction false} DaySumPick(days: map<nat, Daily>, column: Daily -> nat, day: nat)
    requires day in days
    ensures DaySum(days, column) == column(days[day]) + DaySum(days - {day}, column)
    decreases |days|
  {
    var first :| first in days && DaySum(days, column) == column(days[first]) + DaySum(days - {first}, column);
    if first != day {
      DaySumPick(days - {first}, column, day);
      DaySumPick(days - {day}, column, first);
      assert days - {first} - {day} == days - {day} - {first};
    }
  }

  lemma DaySumPut(days: map<nat, Daily>, column: Daily -> nat, day: nat, m: Daily)
    requires column(EMPTY_DAY) == 0
    ensures DaySum(days[day := m], column) + column(DayIn(days, day)) == DaySum(days, column) + column(m)
  {
    DaySumPick(days[day := m], column, day);
    assert days[day := m] - {day} == days - {day};
    if day in days {
      DaySumPick(days, column, day);
    } else {
      assert days - {day} == days;
    }
  }

  // ---------------------------------------------------------------- double entry

  // A column that each log moves by its measure.
  ghost predicate Tracks(column: Daily -> nat, measure: Body -> nat) {
    && column(EMPTY_DAY) == 0
    && (forall m, body :: column(OnDay(m, body)) == column(m) + measure(body))
    && measure(RowOnly) == 0
  }

  // Over any log the daily table adds up to what the logs do.
  lemma {:induction false} DaysAddUp(logs: seq<Log>, vault: Address, column: Daily -> nat, measure: Body -> nat)
    requires Tracks(column, measure)
    ensures DaySum(DaysIn(DaysOf(logs), vault), column) == Sum(logs, vault, measure)
    decreases |logs|
  {
    if logs != [] {
      var last, before := logs[|logs| - 1], DaysOf(logs[..|logs| - 1]);
      DaysAddUp(logs[..|logs| - 1], vault, column, measure);
      if last.vault == vault && Bucketed(last.body) {
        var mine, day := DaysIn(before, vault), DayOf(last.timestamp);
        DaySumPut(mine, column, day, OnDay(DayIn(mine, day), last.body));
      }
    }
  }

  function DepositsColumn(m: Daily): nat {
    m.depositsFulfilled
  }

  function RedeemsColumn(m: Daily): nat {
    m.redeemsFulfilled
  }

  function StrikesColumn(m: Daily): nat {
    m.strikeCount
  }

  function PlansColumn(m: Daily): nat {
    m.planExecuted
  }

  function DepositAssets(body: Body): nat {
    if body.DepositRequestFulfilled? then body.assets else 0
  }

  function RedeemAssets(body: Body): nat {
    if body.RedeemRequestFulfilled? then body.assets else 0
  }

  function Strikes(body: Body): nat {
    if body.NavUpdated? then 1 else 0
  }

  function Plans(body: Body): nat {
    if body.PlanExecuted? then 1 else 0
  }

  lemma DepositsTrack()
    ensures Tracks(DepositsColumn, DepositAssets)
  {
  }

  lemma RedeemsTrack()
    ensures Tracks(RedeemsColumn, RedeemAssets)
  {
  }

  lemma StrikesTrack()
    ensures Tracks(StrikesColumn, Strikes)
  {
  }

  lemma PlansTrack()
    ensures Tracks(PlansColumn, Plans)
  {
  }

  lemma {:induction false} CountersAddUp(logs: seq<Log>, vault: Address)
    requires vault in VaultsOf(logs)
    ensures VaultsOf(logs)[vault].totalDepositFulfilled == Sum(logs, vault, DepositAssets)
    ensures VaultsOf(logs)[vault].totalRedeemFulfilled == Sum(logs, vault, RedeemAssets)
    decreases |logs|
  {
    var front, last := logs[..|logs| - 1], logs[|logs| - 1];
    if vault in VaultsOf(front) {
      CountersAddUp(front, vault);
    } else {
      UnknownSum(front, vault, DepositAssets);
      UnknownSum(front, vault, RedeemAssets);
    }
  }

  lemma {:induction false} UnknownSum(logs: seq<Log>, vault: Address, measure: Body -> nat)
    requires vault !in VaultsOf(logs)
    ensures Sum(logs, vault, measure) == 0
    decreases |logs|
  {
    if logs != [] {
      UnknownSum(logs[..|logs| - 1], vault, measure);
    }
  }

  lemma DepositsAddUp(logs: seq<Log>, vault: Address)
    ensures DaySum(DaysIn(DaysOf(logs), vault), DepositsColumn) == Sum(logs, vault, DepositAssets)
  {
    DepositsTrack();
    DaysAddUp(logs, vault, DepositsColumn, DepositAssets);
  }

  lemma RedeemsAddUp(logs: seq<Log>, vault: Address)
    ensures DaySum(DaysIn(DaysOf(logs), vault), RedeemsColumn) == Sum(logs, vault, RedeemAssets)
  {
    RedeemsTrack();
    DaysAddUp(logs, vault, RedeemsColumn, RedeemAssets);
  }

  lemma StrikesAddUp(logs: seq<Log>, vault: Address)
    ensures DaySum(DaysIn(DaysOf(logs), vault), StrikesColumn) == Sum(logs, vault, Strikes)
  {
    StrikesTrack();
    DaysAddUp(logs, vault, StrikesColumn, Strikes);
  }

  lemma PlansAddUp(logs: seq<Log>, vault: Address)
    ensures DaySum(DaysIn(DaysOf(logs), vault), PlansColumn) == Sum(logs, vault, Plans)
  {
    PlansTrack();
    DaysAddUp(logs, vault, PlansColumn, Plans);
  }

  // Double entry: summed over its days, a vault's deposits and redeems fulfilled are its
  // running totals, its strikes are the NAV logs, and its executed plans are the plan logs.
  lemma DailyTotalsAreTheCounters(logs: seq<Log>, vault: Address)
    requires vault in VaultsOf(logs)
    ensures var v, days := VaultsOf(logs)[vault], DaysIn(DaysOf(logs), vault);
            && DaySum(days, DepositsColumn) == v.totalDepositFulfilled == Sum(logs, vault, DepositAssets)
            && DaySum(days, RedeemsColumn) == v.totalRedeemFulfilled == Sum(logs, vault, RedeemAssets)
            && DaySum(days, StrikesColumn) == Sum(logs, vault, Strikes)
            && DaySum(days, PlansColumn) == Sum(logs, vault, Plans)
  {
    CountersAddUp(logs, vault);
    DepositsAddUp(logs, vault);
    RedeemsAddUp(logs, vault);
    StrikesAddUp(logs, vault);
    PlansAddUp(logs, vault);
  }

  function DepositRequestsColumn(m: Daily): nat {
    m.depositRequests
  }

  function RedeemRequestsColumn(m: Daily): nat {
    m.redeemRequests
  }

  function RejectionsColumn(m: Daily): nat {
    m.planRejected
  }

  function DepositRequests(body: Body): nat {
    if body.DepositRequest? then 1 else 0
  }

  function RedeemRequests(body: Body): nat {
    if body.RedeemRequest? then 1 else 0
  }

  function Rejections(body: Body): nat {
    if body.PlanRejected? then 1 else 0
  }

  function AssetsRequested(body: Body): nat {
    if body.DepositRequest? then body.assets else 0
  }

  function SharesRequested(body: Body): nat {
    if body.RedeemRequest? then body.shares else 0
  }

  lemma DepositRequestsAddUp(logs: seq<Log>, vault: Address)
    ensures DaySum(DaysIn(DaysOf(logs), vault), DepositRequestsColumn) == Sum(logs, vault, DepositRequests)
  {
    assert Tracks(DepositRequestsColumn, DepositRequests);
    DaysAddUp(logs, vault, DepositRequestsColumn, DepositRequests);
  }

  lemma RedeemRequestsAddUp(logs: seq<Log>, vault: Address)
    ensures DaySum(DaysIn(DaysOf(logs), vault), RedeemRequestsColumn) == Sum(logs, vault, RedeemRequests)
  {
    assert Tracks(RedeemRequestsColumn, RedeemRequests);
    DaysAddUp(logs, vault, RedeemRequestsColumn, RedeemRequests);
  }

  lemma RejectionsAddUp(logs: seq<Log>, vault: Address)
    ensures DaySum(DaysIn(DaysOf(logs), vault), RejectionsColumn) == Sum(logs, vault, Rejections)
  {
    assert Tracks(RejectionsColumn, Rejections);
    DaysAddUp(logs, vault, RejectionsColumn, Rejections);
  }

  lemma {:induction false} RequestsAddUp(logs: seq<Log>, vault: Address)
    requires vault in VaultsOf(logs)
    ensures VaultsOf(logs)[vault].totalDepositRequested == Sum(logs, vault, AssetsRequested)
    ensures VaultsOf(logs)[vault].totalRedeemRequested == Sum(logs, vault, SharesRequested)
    decreases |logs|
  {
    var front := logs[..|logs| - 1];
    if vault in VaultsOf(front) {
      RequestsAddUp(front, vault);
    } else {
      UnknownSum(front, vault, AssetsRequested);
      UnknownSum(front, vault, SharesRequested);
    }
  }

  // The requested totals are the amounts asked for, and the days count each request and
  // each rejected plan once.
  lemma RequestsAreCounted(logs: seq<Log>, vault: Address)
    requires vault in VaultsOf(logs)
    ensures var v, days := VaultsOf(logs)[vault], DaysIn(DaysOf(logs), vault);
            && v.totalDepositRequested == Sum(logs, vault, AssetsRequested)
            && v.totalRedeemRequested == Sum(logs, vault, SharesRequested)
            && DaySum(days, DepositRequestsColumn) == Sum(logs, vault, DepositRequests)
            && DaySum(days, RedeemRequestsColumn) == Sum(logs, vault, RedeemRequests)
            && DaySum(days, RejectionsColumn) == Sum(logs, vault, Rejections)
  {
    RequestsAddUp(logs, vault);
    DepositRequestsAddUp(logs, vault);
    RedeemRequestsAddUp(logs, vault);
    RejectionsAddUp(logs, vault);
  }

  // ---------------------------------------------------------------- day by day

  // What a vault's logs of one day add up to.
  function SumInDay(logs: seq<Log>, vault: Address, day: nat, measure: Body -> nat): nat {
    if logs == [] then 0
    else
      var last := logs[|logs| - 1];
      SumInDay(logs[..|logs| - 1], vault, day, measure)
      + if last.vault == vault && InDay(last.timestamp, day) then measure(last.body) else 0
  }

  lemma {:induction false} DayAddsUp(
      logs: seq<Log>, vault: Address, day: nat, column: Daily -> nat, measure: Body -> nat)
    requires Tracks(column, measure)
    ensures column(DayIn(DaysIn(DaysOf(logs), vault), day)) == SumInDay(logs, vault, day, measure)
    decreases |logs|
  {
    if logs != [] {
      var n := |logs| - 1;
      DayAddsUp(logs[..n], vault, day, column, measure);
      DayOfIs(logs[n].timestamp, day);
    }
  }

  // Every column of a day's bucket counts that day's logs of that vault, and no others.
  lemma DaysCountTheirOwn(logs: seq<Log>, vault: Address, day: nat)
    ensures var m := DayIn(DaysIn(DaysOf(logs), vault), day);
            && m.strikeCount == SumInDay(logs, vault, day, Strikes)
            && m.depositRequests == SumInDay(logs, vault, day, DepositRequests)
            && m.redeemRequests == SumInDay(logs, vault, day, RedeemRequests)
            && m.depositsFulfilled == SumInDay(logs, vault, day, DepositAssets)
            && m.redeemsFulfilled == SumInDay(logs, vault, day, RedeemAssets)
            && m.planExecuted == SumInDay(logs, vault, day, Plans)
            && m.planRejected == SumInDay(logs, vault, day, Rejections)
  {
    DayAddsUp(logs, vault, day, StrikesColumn, Strikes);
    DayAddsUp(logs, vault, day, DepositRequestsColumn, DepositRequests);
    DayAddsUp(logs, vault, day, RedeemRequestsColumn, RedeemRequests);
    DayAddsUp(logs, vault, day, DepositsColumn, DepositAssets);
    DayAddsUp(logs, vault, day, RedeemsColumn, RedeemAssets);
    DayAddsUp(logs, vault, day, PlansColumn, Plans);
    DayAddsUp(logs, vault, day, RejectionsColumn, Rejections);
  }

  // ---------------------------------------------------------------- the latest strike

  predicate IsStrike(log: Log, vault: Address) {
    log.vault == vault && log.body.NavUpdated?
  }

  // A vault shows the readings of this log.
  ghost predicate Shows(vault: Vault, body: Body)
    requires body.NavUpdated?
  {
    && vault.lastNav == body.nav && vault.lastInputsBlock == body.inputsBlock
    && vault.updateCount == body.updateCount && vault.breachFlags == body.breachFlags
  }

  // A vault shows its latest strike, and zeros before any.
  lemma {:induction false} LatestStrikeIsShown(logs: seq<Log>, vault: Address)
    requires vault in VaultsOf(logs)
    ensures forall i | 0 <= i < |logs| && IsStrike(logs[i], vault)
                       && (forall k | i < k < |logs| :: !IsStrike(logs[k], vault)) ::
              Shows(VaultsOf(logs)[vault], logs[i].body)
    ensures (forall i | 0 <= i < |logs| :: !IsStrike(logs[i], vault)) ==>
              Shows(VaultsOf(logs)[vault], NavUpdated(0, 0, 0, 0))
    decreases |logs|
  {
    var n := |logs| - 1;
    var front := logs[..n];
    assert forall i | 0 <= i < n :: front[i] == logs[i];
    if vault in VaultsOf(front) {
      LatestStrikeIsShown(front, vault);
    } else {
      UnknownHasNoLogs(front, vault);
    }
  }

  lemma {:induction false} UnknownHasNoLogs(logs: seq<Log>, vault: Address)
    requires vault !in VaultsOf(logs)
    ensures forall i | 0 <= i < |logs| :: logs[i].vault != vault
    decreases |logs|
  {
    if logs != [] {
      UnknownHasNoLogs(logs[..|logs| - 1], vault);
    }
  }

  // A vault exists from its first log on, and keeps that time.
  lemma {:induction false} CreatedByTheFirstLog(logs: seq<Log>, vault: Address, i: nat)
    requires i < |logs| && logs[i].vault == vault && forall k | 0 <= k < i :: logs[k].vault != vault
    ensures vault in VaultsOf(logs) && VaultsOf(logs)[vault].createdTimestamp == logs[i].timestamp
    decreases |logs|
  {
    var n := |logs| - 1;
    if i < n {
      CreatedByTheFirstLog(logs[..n], vault, i);
    } else {
      KnownHasLogs(logs[..n], vault);
    }
  }

  lemma {:induction false} KnownHasLogs(logs: seq<Log>, vault: Address)
    requires forall i | 0 <= i < |logs| :: logs[i].vault != vault
    ensures vault !in VaultsOf(logs)
    decreases |logs|
  {
    if logs != [] {
      KnownHasLogs(logs[..|logs| - 1], vault);
    }
  }

  // ---------------------------------------------------------------- shares

  function Minted(body: Body): nat {
    if body.DepositRequestFulfilled? then body.shares else 0
  }

  function Burned(body: Body): nat {
    if body.RedeemRequestFulfilled? then body.shares else 0
  }

  function Outstanding(logs: seq<Log>, vault: Address): int {
    Sum(logs, vault, Minted) - Sum(logs, vault, Burned)
  }

  // No redeem takes more shares than were outstanding when it came.
  ghost predicate NeverOverdrawn(logs: seq<Log>, vault: Address) {
    forall i | 0 <= i < |logs| && logs[i].vault == vault ::
      Burned(logs[i].body) <= Outstanding(logs[..i], vault)
  }

  function SharesIn(vaults: Vaults, vault: Address): nat {
    if vault in vaults then vaults[vault].totalShares else 0
  }

  // The mapping skips a redeem it cannot cover, so its total is the true one exactly as
  // long as no redeem has been larger than that, and above it ever after.
  lemma {:induction false} SharesAreMintedMinusRedeemed(logs: seq<Log>, vault: Address)
    ensures SharesIn(VaultsOf(logs), vault) >= Outstanding(logs, vault)
    ensures SharesIn(VaultsOf(logs), vault) == Outstanding(logs, vault) <==> NeverOverdrawn(logs, vault)
    decreases |logs|
  {
    if logs != [] {
      var n := |logs| - 1;
      SharesAreMintedMinusRedeemed(logs[..n], vault);
      OverdrawnOneMore(logs, vault);
    }
  }

  lemma OverdrawnOneMore(logs: seq<Log>, vault: Address)
    requires logs != []
    ensures var n := |logs| - 1;
            NeverOverdrawn(logs, vault) <==>
              && NeverOverdrawn(logs[..n], vault)
              && (logs[n].vault == vault ==> Burned(logs[n].body) <= Outstanding(logs[..n], vault))
  {
    var n := |logs| - 1;
    var front := logs[..n];
    assert forall i | 0 <= i < n :: front[i] == logs[i] && front[..i] == logs[..i];
  }

  // ---------------------------------------------------------------- a day's range

  function DayNavs(logs: seq<Log>, vault: Address, day: nat): seq<nat> {
    if logs == [] then []
    else
      var last := logs[|logs| - 1];
      DayNavs(logs[..|logs| - 1], vault, day)
      + if last.vault == vault && InDay(last.timestamp, day) && last.body.NavUpdated? then [last.body.nav] else []
  }

  ghost predicate IsLeast(navs: seq<nat>, nav: nat) {
    nav in navs && forall x | x in navs :: nav <= x
  }

  ghost predicate IsGreatest(navs: seq<nat>, nav: nat) {
    nav in navs && forall x | x in navs :: x <= nav
  }

  ghost predicate RangeOf(m: Daily, navs: seq<nat>) {
    && m.strikeCount == |navs|
    && (navs == [] ==> m.navEnd == m.navMin == m.navMax == 0)
    && (navs != [] ==>
          && m.navEnd == navs[|navs| - 1]
          && IsGreatest(navs, m.navMax)
          && m.navMin in navs
          && (m.navMin == 0 <==> navs[|navs| - 1] == 0)
          && (0 !in navs ==> IsLeast(navs, m.navMin)))
  }

  lemma {:induction false} DayTracksNavs(logs: seq<Log>, vault: Address, day: nat)
    ensures RangeOf(DayIn(DaysIn(DaysOf(logs), vault), day), DayNavs(logs, vault, day))
    decreases |logs|
  {
    if logs != [] {
      var n := |logs| - 1;
      DayTracksNavs(logs[..n], vault, day);
      var before := DayIn(DaysIn(DaysOf(logs[..n]), vault), day);
      DayOfIs(logs[n].timestamp, day);
      if logs[n].vault == vault && InDay(logs[n].timestamp, day) && logs[n].body.NavUpdated? {
        RangeOneMore(before, DayNavs(logs[..n], vault, day), logs[n].body);
      }
    }
  }

  lemma RangeOneMore(m: Daily, navs: seq<nat>, body: Body)
    requires RangeOf(m, navs) && body.NavUpdated?
    ensures RangeOf(OnDay(m, body), navs + [body.nav])
  {
    var more := navs + [body.nav];
    assert forall x :: x in more <==> x in navs || x == body.nav;
  }

  // A day's last and greatest NAV and its strike count are those of its logs. Its least
  // NAV is too, unless a NAV of zero came before its last strike: zero stands for "none
  // yet", so the strike after it starts the minimum afresh.
  lemma DayRangeIsExact(logs: seq<Log>, vault: Address, day: nat)
    requires DayNavs(logs, vault, day) != []
    ensures var navs, m := DayNavs(logs, vault, day), DayIn(DaysIn(DaysOf(logs), vault), day);
            && m.strikeCount == |navs| && m.navEnd == navs[|navs| - 1] && IsGreatest(navs, m.navMax)
            && (IsLeast(navs, m.navMin) <==> 0 !in navs || navs[|navs| - 1] == 0)
  {
    DayTracksNavs(logs, vault, day);
  }
}

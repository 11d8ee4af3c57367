/** Sums grouped by key, over sequences that grow at the end. */
module Grouping {

  type Keyed = seq<(string, int)>

  function Last<T>(s: seq<T>): T
    requires s != []
  {
    s[|s| - 1]
  }

  function Init<T>(s: seq<T>): seq<T>
    requires s != []
  {
    s[..|s| - 1]
  }

  function Total(ps: Keyed): int {
    if ps == [] then 0 else Total(Init(ps)) + Last(ps).1
  }

  function KeySum(ps: Keyed, k: string): int {
    if ps == [] then 0 else KeySum(Init(ps), k) + if Last(ps).0 == k then Last(ps).1 else 0
  }

  function Keys(ps: Keyed): set<string> {
    set p | p in ps :: p.0
  }

  predicate Distinct(ks: seq<string>) {
    forall i, j | 0 <= i < j < |ks| :: ks[i] != ks[j]
  }

  function SumOver(ps: Keyed, ks: seq<string>): int {
    if ks == [] then 0 else SumOver(ps, Init(ks)) + KeySum(ps, Last(ks))
  }

  lemma {:induction false} SumOverNothing(ks: seq<string>)
    ensures SumOver([], ks) == 0
  {
    if ks != [] { SumOverNothing(Init(ks)); }
  }

  lemma {:induction false} SumOverStep(ps: Keyed, ks: seq<string>)
    requires ps != [] && Distinct(ks)
    ensures SumOver(ps, ks) == SumOver(Init(ps), ks) + if Last(ps).0 in ks then Last(ps).1 else 0
    decreases |ks|
  {
    if ks != [] {
      SumOverStep(ps, Init(ks));
      assert ks == Init(ks) + [Last(ks)];
    }
  }

  /** Grouping conserves the total: listing every key exactly once, the group sums add back up. */
  lemma {:induction false} GroupsConserve(ps: Keyed, ks: seq<string>)
    requires Distinct(ks) && forall p | p in ps :: p.0 in ks
    ensures SumOver(ps, ks) == Total(ps)
    decreases |ps|
  {
    if ps == [] {
      SumOverNothing(ks);
    } else {
      GroupsConserve(Init(ps), ks);
      SumOverStep(ps, ks);
      assert Last(ps) in ps;
    }
  }

  lemma Extend(ps: Keyed, p: (string, int))
    ensures Total(ps + [p]) == Total(ps) + p.1
    ensures forall k :: KeySum(ps + [p], k) == KeySum(ps, k) + if p.0 == k then p.1 else 0
    ensures Keys(ps + [p]) == Keys(ps) + {p.0}
  {
    assert Init(ps + [p]) == ps;
    assert p in ps + [p];
  }
}

/** Collected fees summed per asset and, within an asset, per tenant. */
module FeeSummary {
  import opened Common
  import opened Grouping

  datatype Collection = Collection(asset: string, tenant: Option<string>, amount: int)

  datatype TenantTotal = TenantTotal(tenant: Option<string>, total: int)

  datatype Summary = Summary(asset: string, total: int, tenants: seq<TenantTotal>)

  function TenantKey(c: Collection): string {
    if c.tenant.Some? then c.tenant.value else ""
  }

  function TenantId(key: string): Option<string> {
    if key != "" then Some(key) else None
  }

  function ByAsset(cs: seq<Collection>): (ps: Keyed)
    ensures |ps| == |cs|
  {
    seq(|cs|, i requires 0 <= i < |cs| => (cs[i].asset, cs[i].amount))
  }

  /** The collections of one asset, keyed by tenant. */
  function ByTenant(cs: seq<Collection>, asset: string): Keyed {
    if cs == [] then []
    else if Last(cs).asset == asset then ByTenant(Init(cs), asset) + [(TenantKey(Last(cs)), Last(cs).amount)]
    else ByTenant(Init(cs), asset)
  }

  /** The total of an asset is the sum of its collections, whichever way they are keyed. */
  lemma {:induction false} AssetTotals(cs: seq<Collection>, asset: string)
    ensures KeySum(ByAsset(cs), asset) == Total(ByTenant(cs, asset))
    ensures asset in Keys(ByAsset(cs)) <==> ByTenant(cs, asset) != []
    decreases |cs|
  {
    if cs != [] {
      AssetTotals(Init(cs), asset);
      var p := (Last(cs).asset, Last(cs).amount);
      assert ByAsset(cs) == ByAsset(Init(cs)) + [p];
      Extend(ByAsset(Init(cs)), p);
      if Last(cs).asset == asset { Extend(ByTenant(Init(cs), asset), (TenantKey(Last(cs)), Last(cs).amount)); }
    }
  }

  /** One asset's line: its total, and every tenant exactly once with that tenant's total. */
  ghost predicate Correct(cs: seq<Collection>, s: Summary) {
    var ps := ByTenant(cs, s.asset);
    && s.total == Total(ps)
    && exists ks: seq<string> ::
         && Distinct(ks) && (set k | k in ks) == Keys(ps) && |ks| == |s.tenants|
         && forall i | 0 <= i < |ks| :: s.tenants[i] == TenantTotal(TenantId(ks[i]), KeySum(ps, ks[i]))
  }

  /** The same tenant; the empty identifier is none. */
  predicate SameTenant(a: Option<string>, b: Option<string>) {
    a == b || (a in {None, Some("")} && b in {None, Some("")})
  }

  /** What a tenant was charged in an asset. */
  function Charged(cs: seq<Collection>, asset: string, tenant: Option<string>): int {
    if cs == [] then 0
    else Charged(Init(cs), asset, tenant)
         + if Last(cs).asset == asset && SameTenant(Last(cs).tenant, tenant) then Last(cs).amount else 0
  }

  /** What everybody was charged in an asset. */
  function Raised(cs: seq<Collection>, asset: string): int {
    if cs == [] then 0 else Raised(Init(cs), asset) + if Last(cs).asset == asset then Last(cs).amount else 0
  }

  ghost predicate WasCharged(cs: seq<Collection>, asset: string, tenant: Option<string>) {
    exists c | c in cs :: c.asset == asset && SameTenant(c.tenant, tenant)
  }

  ghost predicate IsListed(ts: seq<TenantTotal>, tenant: Option<string>) {
    exists i | 0 <= i < |ts| :: SameTenant(ts[i].tenant, tenant)
  }

  /** The line lists each tenant that was charged in the asset exactly once, with what it was charged. */
  ghost predicate ListsTenants(cs: seq<Collection>, s: Summary) {
    && s.total == Raised(cs, s.asset)
    && (forall i, j | 0 <= i < j < |s.tenants| :: !SameTenant(s.tenants[i].tenant, s.tenants[j].tenant))
    && (forall i | 0 <= i < |s.tenants| :: s.tenants[i].total == Charged(cs, s.asset, s.tenants[i].tenant))
    && (forall tenant :: IsListed(s.tenants, tenant) <==> WasCharged(cs, s.asset, tenant))
  }

  /** A tenant's key, and the tenant it stands for. */
  lemma KeysAreTenants(c: Collection, key: string)
    ensures SameTenant(c.tenant, TenantId(key)) <==> TenantKey(c) == key
  {
  }

  lemma {:induction false} KeySumIsCharged(cs: seq<Collection>, asset: string, key: string)
    ensures KeySum(ByTenant(cs, asset), key) == Charged(cs, asset, TenantId(key))
    ensures Total(ByTenant(cs, asset)) == Raised(cs, asset)
    decreases |cs|
  {
    if cs != [] {
      hide SameTenant, TenantId;
      KeySumIsCharged(Init(cs), asset, key);
      KeysAreTenants(Last(cs), key);
      if Last(cs).asset == asset { Extend(ByTenant(Init(cs), asset), (TenantKey(Last(cs)), Last(cs).amount)); }
    }
  }

  lemma {:induction false} KeyIsCharged(cs: seq<Collection>, asset: string, key: string)
    ensures key in Keys(ByTenant(cs, asset)) <==> WasCharged(cs, asset, TenantId(key))
    decreases |cs|
  {
    if cs != [] {
      hide SameTenant, TenantId;
      var init, c := Init(cs), Last(cs);
      KeyIsCharged(init, asset, key);
      KeysAreTenants(c, key);
      assert cs == init + [c];
      assert WasCharged(cs, asset, TenantId(key)) <==>
             WasCharged(init, asset, TenantId(key)) || (c.asset == asset && SameTenant(c.tenant, TenantId(key)));
      if c.asset == asset { Extend(ByTenant(init, asset), (TenantKey(c), c.amount)); }
    }
  }

  lemma ListedByKey(cs: seq<Collection>, s: Summary, ks: seq<string>, tenant: Option<string>)
    requires |ks| == |s.tenants| && (set k | k in ks) == Keys(ByTenant(cs, s.asset))
    requires forall i | 0 <= i < |ks| :: s.tenants[i].tenant == TenantId(ks[i])
    ensures IsListed(s.tenants, tenant) <==> WasCharged(cs, s.asset, tenant)
  {
    var key := if tenant.Some? then tenant.value else "";
    KeyIsCharged(cs, s.asset, key);
    assert forall t :: SameTenant(t, tenant) <==> SameTenant(t, TenantId(key));
    if key in ks {
      var i :| 0 <= i < |ks| && ks[i] == key;
      assert SameTenant(s.tenants[i].tenant, tenant);
    }
    if i :| 0 <= i < |ks| && SameTenant(s.tenants[i].tenant, tenant) { assert ks[i] == key; }
    assert key in ks <==> key in (set k | k in ks);
  }

  /** So a correct line says what the collections say, tenant by tenant. */
  lemma CorrectListsTenants(cs: seq<Collection>, s: Summary)
    requires Correct(cs, s)
    ensures ListsTenants(cs, s)
  {
    var ps := ByTenant(cs, s.asset);
    var ks :| Distinct(ks) && (set k | k in ks) == Keys(ps) && |ks| == |s.tenants|
              && forall i | 0 <= i < |ks| :: s.tenants[i] == TenantTotal(TenantId(ks[i]), KeySum(ps, ks[i]));
    KeySumIsCharged(cs, s.asset, "");
    forall i | 0 <= i < |ks| ensures s.tenants[i].total == Charged(cs, s.asset, s.tenants[i].tenant) {
      KeySumIsCharged(cs, s.asset, ks[i]);
    }
    forall tenant ensures IsListed(s.tenants, tenant) <==> WasCharged(cs, s.asset, tenant) {
      ListedByKey(cs, s, ks, tenant);
    }
  }

  function TenantSum(ts: seq<TenantTotal>): int {
    if ts == [] then 0 else TenantSum(Init(ts)) + Last(ts).total
  }

  function GrandTotal(r: seq<Summary>): int {
    if r == [] then 0 else GrandTotal(Init(r)) + Last(r).total
  }

  lemma {:induction false} TenantSumIsSumOver(ps: Keyed, ks: seq<string>, ts: seq<TenantTotal>)
    requires |ks| == |ts| && forall i | 0 <= i < |ks| :: ts[i].total == KeySum(ps, ks[i])
    ensures TenantSum(ts) == SumOver(ps, ks)
    decreases |ks|
  {
    if ks != [] { TenantSumIsSumOver(ps, Init(ks), Init(ts)); }
  }

  lemma {:induction false} GrandTotalIsSumOver(ps: Keyed, ks: seq<string>, r: seq<Summary>)
    requires |ks| == |r| && forall i | 0 <= i < |ks| :: r[i].total == KeySum(ps, ks[i])
    ensures GrandTotal(r) == SumOver(ps, ks)
    decreases |ks|
  {
    if ks != [] { GrandTotalIsSumOver(ps, Init(ks), Init(r)); }
  }

  /** Within a line, the tenant totals add up to the asset's total. */
  lemma TenantsConserve(cs: seq<Collection>, s: Summary)
    requires Correct(cs, s)
    ensures TenantSum(s.tenants) == s.total
  {
    var ps := ByTenant(cs, s.asset);
    var ks :| Distinct(ks) && (set k | k in ks) == Keys(ps) && |ks| == |s.tenants|
              && forall i | 0 <= i < |ks| :: s.tenants[i] == TenantTotal(TenantId(ks[i]), KeySum(ps, ks[i]));
    forall p | p in ps ensures p.0 in ks {
      assert p.0 in Keys(ps);
    }
    GroupsConserve(ps, ks);
    TenantSumIsSumOver(ps, ks, s.tenants);
  }

  /** Lines written so far: distinct assets, exactly the given ones, each correct. */
  ghost predicate Written(cs: seq<Collection>, r: seq<Summary>, assets: set<string>) {
    && (forall i, j | 0 <= i < j < |r| :: r[i].asset != r[j].asset)
    && (forall a :: (exists i | 0 <= i < |r| :: r[i].asset == a) <==> a in assets)
    && (forall i | 0 <= i < |r| :: Correct(cs, r[i]))
  }

  /** The whole report: one correct line per asset that collected anything. */
  ghost predicate Complete(cs: seq<Collection>, r: seq<Summary>) {
    Written(cs, r, Keys(ByAsset(cs)))
  }

  /** The report conserves money: its totals add up to everything collected. */
  lemma {:induction false} ReportConserves(cs: seq<Collection>, r: seq<Summary>)
    requires Complete(cs, r)
    ensures GrandTotal(r) == Total(ByAsset(cs))
    ensures forall i | 0 <= i < |r| :: TenantSum(r[i].tenants) == r[i].total == KeySum(ByAsset(cs), r[i].asset)
  {
    var ks := seq(|r|, i requires 0 <= i < |r| => r[i].asset);
    var ps := ByAsset(cs);
    forall i | 0 <= i < |r|
      ensures TenantSum(r[i].tenants) == r[i].total == KeySum(ps, ks[i])
    {
      AssetTotals(cs, r[i].asset);
      TenantsConserve(cs, r[i]);
    }
    forall p | p in ps ensures p.0 in ks {
      assert p.0 in Keys(ps);
      var i :| 0 <= i < |r| && r[i].asset == p.0;
      assert ks[i] == p.0;
    }
    GroupsConserve(ps, ks);
    GrandTotalIsSumOver(ps, ks, r);
  }

  /** One asset's running totals agree with the collections seen so far. */
  ghost predicate Line(ps: Keyed, total: int, tenants: map<string, int>) {
    && total == Total(ps)
    && tenants.Keys == Keys(ps)
    && forall k | k in tenants :: tenants[k] == KeySum(ps, k)
  }

  ghost predicate Accumulated(cs: seq<Collection>, totals: map<string, int>, tenants: map<string, map<string, int>>) {
    && totals.Keys == tenants.Keys == Keys(ByAsset(cs))
    && forall a | a in totals :: Line(ByTenant(cs, a), totals[a], tenants[a])
  }

  function AddTo(tenants: map<string, int>, key: string, amount: int): map<string, int> {
    tenants[key := (if key in tenants then tenants[key] else 0) + amount]
  }

  lemma LineStep(ps: Keyed, total: int, tenants: map<string, int>, key: string, amount: int)
    requires Line(ps, total, tenants)
    ensures Line(ps + [(key, amount)], total + amount, AddTo(tenants, key, amount))
  {
    Extend(ps, (key, amount));
    if key !in tenants { UnseenKeySumsToZero(ps, key); }
  }

  lemma {:induction false} UnseenKeySumsToZero(ps: Keyed, k: string)
    requires k !in Keys(ps)
    ensures KeySum(ps, k) == 0
    decreases |ps|
  {
    if ps != [] {
      assert Last(ps) in ps && forall p | p in Init(ps) :: p in ps;
      UnseenKeySumsToZero(Init(ps), k);
    }
  }

  /** What one more collection changes: its own asset's line, nothing else. */
  lemma ByTenantStep(cs: seq<Collection>, c: Collection)
    ensures Keys(ByAsset(cs + [c])) == Keys(ByAsset(cs)) + {c.asset}
    ensures forall a | a != c.asset :: ByTenant(cs + [c], a) == ByTenant(cs, a)
    ensures ByTenant(cs + [c], c.asset) == ByTenant(cs, c.asset) + [(TenantKey(c), c.amount)]
    ensures c.asset !in Keys(ByAsset(cs)) ==> ByTenant(cs, c.asset) == []
  {
    assert Init(cs + [c]) == cs;
    assert ByAsset(cs + [c]) == ByAsset(cs) + [(c.asset, c.amount)];
    Extend(ByAsset(cs), (c.asset, c.amount));
    AssetTotals(cs, c.asset);
  }

  lemma LineAfter(cs: seq<Collection>, c: Collection, a: string, total: int, tenants: map<string, int>)
    requires Line(ByTenant(cs, a), total, tenants)
    ensures a == c.asset ==> Line(ByTenant(cs + [c], a), total + c.amount, AddTo(tenants, TenantKey(c), c.amount))
    ensures a != c.asset ==> Line(ByTenant(cs + [c], a), total, tenants)
  {
    ByTenantStep(cs, c);
    if a == c.asset { LineStep(ByTenant(cs, a), total, tenants, TenantKey(c), c.amount); }
  }

  lemma AccumulateStep(cs: seq<Collection>, c: Collection, totals: map<string, int>, tenants: map<string, map<string, int>>)
    requires totals.Keys == tenants.Keys == Keys(ByAsset(cs)) + {c.asset}
    requires forall a | a in totals :: Line(ByTenant(cs, a), totals[a], tenants[a])
    ensures Accumulated(cs + [c], totals[c.asset := totals[c.asset] + c.amount],
                        tenants[c.asset := AddTo(tenants[c.asset], TenantKey(c), c.amount)])
  {
    var totals' := totals[c.asset := totals[c.asset] + c.amount];
    var tenants' := tenants[c.asset := AddTo(tenants[c.asset], TenantKey(c), c.amount)];
    forall a | a in totals' ensures Line(ByTenant(cs + [c], a), totals'[a], tenants'[a]) {
      LineAfter(cs, c, a, totals[a], tenants[a]);
    }
    assert totals'.Keys == tenants'.Keys == totals.Keys;
    AssetKeysStep(cs, c);
  }

  lemma AssetKeysStep(cs: seq<Collection>, c: Collection)
    ensures Keys(ByAsset(cs + [c])) == Keys(ByAsset(cs)) + {c.asset}
  {
    ByTenantStep(cs, c);
  }

  method Accumulate(cs: seq<Collection>) returns (totals: map<string, int>, tenants: map<string, map<string, int>>)
    ensures Accumulated(cs, totals, tenants)
  {
    totals, tenants := map[], map[];
    for i := 0 to |cs|
      invariant Accumulated(cs[..i], totals, tenants)
    {
      var c := cs[i];
      assert cs[..i + 1] == cs[..i] + [c];
      if c.asset !in totals {
        ByTenantStep(cs[..i], c);
        totals := totals[c.asset := 0];
        tenants := tenants[c.asset := map[]];
      }
      AccumulateStep(cs[..i], c, totals, tenants);
      totals := totals[c.asset := totals[c.asset] + c.amount];
      tenants := tenants[c.asset := AddTo(tenants[c.asset], TenantKey(c), c.amount)];
    }
    assert cs[..|cs|] == cs;
  }

  /** Lists a map in whatever order iteration takes. */
  method ListTenants(totals: map<string, int>) returns (ts: seq<TenantTotal>, ghost ks: seq<string>)
    ensures Distinct(ks) && (set k | k in ks) == totals.Keys && |ks| == |ts|
    ensures forall i | 0 <= i < |ks| :: ks[i] in totals && ts[i] == TenantTotal(TenantId(ks[i]), totals[ks[i]])
  {
    ts, ks := [], [];
    var rest := totals.Keys;
    while rest != {}
      invariant rest <= totals.Keys && Distinct(ks) && |ks| == |ts|
      invariant forall k :: k in ks <==> k in totals.Keys - rest
      invariant forall i | 0 <= i < |ks| :: ks[i] in totals && ts[i] == TenantTotal(TenantId(ks[i]), totals[ks[i]])
    {
      var k :| k in rest;
      assert forall i | 0 <= i < |ks| :: ks[i] in ks && ks[i] != k;
      rest := rest - {k};
      ts := ts + [TenantTotal(TenantId(k), totals[k])];
      ks := ks + [k];
    }
  }

  lemma WriteLine(cs: seq<Collection>, r: seq<Summary>, assets: set<string>, s: Summary)
    requires Written(cs, r, assets) && s.asset !in assets && Correct(cs, s)
    ensures Written(cs, r + [s], assets + {s.asset})
  {
    var r' := r + [s];
    assert r'[|r|] == s;
    forall a ensures (exists i | 0 <= i < |r'| :: r'[i].asset == a) <==> a in assets + {s.asset} {
      if a in assets {
        var i :| 0 <= i < |r| && r[i].asset == a;
        assert r'[i].asset == a;
      }
    }
    forall i | 0 <= i < |r| ensures r[i].asset in assets {}
  }

  lemma CorrectLine(cs: seq<Collection>, s: Summary, tenants: map<string, int>, ks: seq<string>)
    requires Line(ByTenant(cs, s.asset), s.total, tenants)
    requires Distinct(ks) && (set k | k in ks) == tenants.Keys && |ks| == |s.tenants|
    requires forall i | 0 <= i < |ks| :: ks[i] in tenants && s.tenants[i] == TenantTotal(TenantId(ks[i]), tenants[ks[i]])
    ensures Correct(cs, s)
  {
  }

  /** One line per asset that was charged, and in it one entry per tenant charged in it. */
  method ListCollectedSummary(cs: seq<Collection>) returns (r: seq<Summary>)
    ensures Complete(cs, r)
    ensures forall i | 0 <= i < |r| :: ListsTenants(cs, r[i])
    ensures forall c | c in cs :: exists i | 0 <= i < |r| :: r[i].asset == c.asset
  {
    var totals, tenants := Accumulate(cs);
    r := [];
    var rest := totals.Keys;
    while rest != {}
      invariant rest <= totals.Keys
      invariant Written(cs, r, totals.Keys - rest)
    {
      var a :| a in rest;
      var ts;
      ghost var ks;
      ts, ks := ListTenants(tenants[a]);
      var s := Summary(a, totals[a], ts);
      CorrectLine(cs, s, tenants[a], ks);
      WriteLine(cs, r, totals.Keys - rest, s);
      assert totals.Keys - (rest - {a}) == totals.Keys - rest + {a};
      rest := rest - {a};
      r := r + [s];
    }
    assert totals.Keys - rest == totals.Keys;
    forall i | 0 <= i < |r| ensures ListsTenants(cs, r[i]) { CorrectListsTenants(cs, r[i]); }
    forall c | c in cs ensures exists i | 0 <= i < |r| :: r[i].asset == c.asset {
      var k :| 0 <= k < |cs| && cs[k] == c;
      assert ByAsset(cs)[k] in ByAsset(cs) && ByAsset(cs)[k].0 == c.asset;
      assert c.asset in Keys(ByAsset(cs));
    }
  }
}

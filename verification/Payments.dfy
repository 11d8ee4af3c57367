/** The payments the settlement engine builds, and what reconciliation accepts on chain. */
module Payments {
  import opened Common
  import opened Fees

  /** The stored fields of a transfer that payment building and reconciliation read. */
  datatype Transfer =
    Transfer(fromWallet: string, toWallet: string, toAddress: string, asset: string, amount: int, fee: int)
  {
    function NetAmount(): int { amount - fee }
  }

  datatype Asset = Native | Credit(code: string, issuer: string)

  datatype Payment = Payment(destination: string, asset: Asset, amount: int)

  datatype RegistryEntry = RegistryEntry(code: string, issuer: string)

  /** Issuers and fee wallet as read from the environment; "" when unset. */
  datatype Config = Config(usdcIssuer: string, eurcIssuer: string, feeWallet: string)
  {
    /** The engine's issuer map always has both codes, even when unset. */
    function EngineIssuers(): map<string, string> {
      map["USDC" := usdcIssuer, "EURC" := eurcIssuer]
    }

    /** The reconciler's registry leaves out what is unset. */
    function Registry(): map<string, RegistryEntry> {
      var r0 := map["XLM" := RegistryEntry("XLM", "")];
      var r1 := if usdcIssuer != "" then r0["USDC" := RegistryEntry("USDC", usdcIssuer)] else r0;
      if eurcIssuer != "" then r1["EURC" := RegistryEntry("EURC", eurcIssuer)] else r1
    }
  }

  function Upper(s: string): string {
    if s == "" then ""
    else [if 'a' <= s[0] <= 'z' then (s[0] as int - 32) as char else s[0]] + Upper(s[1..])
  }

  // ---- settlement engine ----

  datatype BuildError = UnsupportedPayout | WalletNotFound | InvalidAsset | NoFeeWallet

  function BuildAsset(cfg: Config, code: string): Result<Asset, BuildError> {
    if code == "XLM" then Ok(Native)
    else if code in cfg.EngineIssuers() then Ok(Credit(code, cfg.EngineIssuers()[code]))
    else Err(InvalidAsset)
  }

  /** The operation list of one envelope; `wallets` maps wallet ids to public keys. */
  function BuildPayments(cfg: Config, wallets: map<string, string>, tx: Transfer): Result<seq<Payment>, BuildError> {
    if tx.toAddress != "" then Err(UnsupportedPayout)
    else if tx.fromWallet !in wallets || tx.toWallet !in wallets then Err(WalletNotFound)
    else
      match BuildAsset(cfg, tx.asset)
      case Err(e) => Err(e)
      case Ok(asset) =>
        var main := Payment(wallets[tx.toWallet], asset, tx.NetAmount());
        if tx.fee <= 0 then Ok([main])
        else if cfg.feeWallet == "" then Err(NoFeeWallet)
        else Ok([main, Payment(cfg.feeWallet, asset, tx.fee)])
  }

  // ---- Horizon ----

  datatype OpStruct = PaymentStruct | PathPaymentStruct | OtherStruct

  /** An operation as Horizon reports it; the amount is None when missing or unparseable. */
  datatype Op = Op(opType: string, struct: OpStruct, from: string, to: string, amount: Option<int>,
                   assetType: string, assetCode: string, assetIssuer: string)

  /** What Horizon reports for a payment of an envelope whose source account is `source`. */
  function Reported(source: string, p: Payment): Op {
    match p.asset
    case Native => Op("payment", PaymentStruct, source, p.destination, Some(p.amount), "native", "", "")
    case Credit(code, issuer) =>
      Op("payment", PaymentStruct, source, p.destination, Some(p.amount), "credit_alphanum4", code, issuer)
  }

  // ---- reconciliation ----

  datatype Expected = Expected(from: string, to: string, assetCode: string, assetIssuer: string,
                               net: int, fee: int, feeWallet: string)

  datatype ExpectError = UnknownWallet | UnregisteredAsset

  function ExpectedAsset(cfg: Config, code: string): Option<RegistryEntry> {
    if code == "XLM" then Some(RegistryEntry("XLM", ""))
    else if Upper(code) in cfg.Registry() then Some(cfg.Registry()[Upper(code)])
    else None
  }

  function BuildExpected(cfg: Config, wallets: map<string, string>, tx: Transfer): Result<Expected, ExpectError> {
    if tx.fromWallet != "" && tx.fromWallet !in wallets then Err(UnknownWallet)
    else if tx.toWallet != "" && tx.toWallet !in wallets then Err(UnknownWallet)
    else
      var from := if tx.fromWallet != "" then wallets[tx.fromWallet] else "";
      var to := if tx.toWallet != "" then wallets[tx.toWallet] else "";
      match ExpectedAsset(cfg, tx.asset)
      case None => Err(UnregisteredAsset)
      case Some(a) => Ok(Expected(from, to, a.code, a.issuer, tx.NetAmount(), tx.fee, cfg.feeWallet))
  }

  datatype Candidate =
    Candidate(from: string, to: string, amount: int, assetType: string, assetCode: string, assetIssuer: string)
  {
    predicate AssetMatches(e: Expected) {
      if e.assetCode == "XLM" then assetType == "native"
      else assetType != "native" && assetCode == e.assetCode && assetIssuer == e.assetIssuer
    }

    predicate MatchesMainLeg(e: Expected) {
      && (e.from != "" ==> from == e.from)
      && (e.to != "" ==> to == e.to)
      && AssetMatches(e)
      && amount == e.net
    }

    predicate MatchesFeeLeg(e: Expected) {
      && e.feeWallet != "" && to == e.feeWallet
      && AssetMatches(e)
      && amount == e.fee
    }
  }

  /** Only operations of three types, held in one of two structs, with a parseable amount. */
  function ExtractCandidate(op: Op): Option<Candidate> {
    if op.opType !in {"payment", "path_payment_strict_send", "path_payment_strict_receive"} then None
    else if op.struct.OtherStruct? || op.amount.None? then None
    else Some(Candidate(op.from, op.to, op.amount.value, op.assetType, op.assetCode, op.assetIssuer))
  }

  /** The operation pays this amount of this asset, directly or along a path; no other operation counts, and none
      whose amount is missing or unparseable. */
  predicate Shows(op: Op, code: string, issuer: string, amount: int) {
    && op.opType in {"payment", "path_payment_strict_send", "path_payment_strict_receive"}
    && !op.struct.OtherStruct? && op.amount == Some(amount)
    && if code == "XLM" then op.assetType == "native"
       else op.assetType != "native" && op.assetCode == code && op.assetIssuer == issuer
  }

  /** It is the main leg: from the sender to the recipient, where known, the net amount. */
  predicate IsMain(op: Op, e: Expected) {
    Shows(op, e.assetCode, e.assetIssuer, e.net) && e.from in {"", op.from} && e.to in {"", op.to}
  }

  /** It is the fee leg: the fee to the platform's fee wallet, from anyone. */
  predicate IsFee(op: Op, e: Expected) {
    Shows(op, e.assetCode, e.assetIssuer, e.fee) && e.feeWallet != "" && op.to == e.feeWallet
  }

  /** All three flags hold iff some operation is the whole main leg and, when there is a fee, some
      operation is the whole fee leg; the amount and asset flags never differ. */
  method VerifyOps(ops: seq<Op>, e: Expected) returns (amountOk: bool, assetOk: bool, feeOk: bool)
    ensures amountOk == assetOk
    ensures amountOk <==> exists op | op in ops :: IsMain(op, e)
    ensures feeOk <==> e.fee <= 0 || exists op | op in ops :: IsFee(op, e)
  {
    amountOk, assetOk := false, false;
    feeOk := !(e.fee > 0);
    for i := 0 to |ops|
      invariant amountOk == assetOk
      invariant amountOk <==> exists op | op in ops[..i] :: IsMain(op, e)
      invariant feeOk <==> e.fee <= 0 || exists op | op in ops[..i] :: IsFee(op, e)
    {
      assert ops[..i + 1] == ops[..i] + [ops[i]];
      var candidate := ExtractCandidate(ops[i]);
      if candidate.None? { continue; }
      if !amountOk && candidate.value.MatchesMainLeg(e) {
        assert IsMain(ops[i], e);
        amountOk, assetOk := true, true;
      }
      if !feeOk && candidate.value.MatchesFeeLeg(e) {
        assert IsFee(ops[i], e);
        feeOk := true;
      }
      if amountOk && feeOk {
        assert forall op | op in ops[..i + 1] :: op in ops;
        return true, true, true;
      }
    }
    assert ops[..|ops|] == ops;
  }

  ghost predicate Accepted(ops: seq<Op>, e: Expected) {
    && (exists op | op in ops :: IsMain(op, e))
    && (e.fee <= 0 || exists op | op in ops :: IsFee(op, e))
  }

  /** The verdict depends on which operations there are, not on their order. */
  lemma OrderIrrelevant(ops: seq<Op>, ops': seq<Op>, e: Expected)
    requires multiset(ops) == multiset(ops')
    ensures (exists op | op in ops :: IsMain(op, e)) <==> (exists op | op in ops' :: IsMain(op, e))
    ensures (exists op | op in ops :: IsFee(op, e)) <==> (exists op | op in ops' :: IsFee(op, e))
    ensures Accepted(ops, e) <==> Accepted(ops', e)
  {
    assert forall op :: op in ops <==> op in multiset(ops);
    assert forall op :: op in ops' <==> op in multiset(ops');
  }

  /** One operation can pass for both legs iff the two legs are indistinguishable. */
  lemma BothLegsIff(e: Expected)
    ensures (exists op :: IsMain(op, e) && IsFee(op, e))
            <==> e.feeWallet != "" && (e.to == "" || e.to == e.feeWallet) && e.net == e.fee
  {
    var native := e.assetCode == "XLM";
    var op := Op("payment", PaymentStruct, e.from, e.feeWallet, Some(e.fee),
                 if native then "native" else "credit_alphanum4",
                 if native then "" else e.assetCode, if native then "" else e.assetIssuer);
    if e.feeWallet != "" && (e.to == "" || e.to == e.feeWallet) && e.net == e.fee {
      assert IsMain(op, e) && IsFee(op, e);
    }
  }

  /** So otherwise an accepted transfer with a fee shows two distinct operations. */
  lemma {:induction false} LegsAreDistinct(ops: seq<Op>, e: Expected)
    requires Accepted(ops, e) && e.fee > 0
    requires (e.to != "" && e.to != e.feeWallet) || e.net != e.fee
    ensures exists i, j | 0 <= i < |ops| && 0 <= j < |ops| :: i != j && IsMain(ops[i], e) && IsFee(ops[j], e)
  {
    BothLegsIff(e);
    var m :| m in ops && IsMain(m, e);
    var f :| f in ops && IsFee(f, e);
    var i :| 0 <= i < |ops| && ops[i] == m;
    var j :| 0 <= j < |ops| && ops[j] == f;
    assert !(IsMain(m, e) && IsFee(m, e));
    assert i != j && IsMain(ops[i], e) && IsFee(ops[j], e);
  }

  function ReportedAll(source: string, ps: seq<Payment>): (ops: seq<Op>)
    ensures |ops| == |ps| && forall i | 0 <= i < |ps| :: ops[i] == Reported(source, ps[i])
  {
    seq(|ps|, i requires 0 <= i < |ps| => Reported(source, ps[i]))
  }

  /** What the engine can pay in: each code has the issuer configured for it. */
  lemma EngineAssets(cfg: Config, code: string)
    ensures BuildAsset(cfg, code) ==
              if code == "XLM" then Ok(Native)
              else if code == "USDC" then Ok(Credit("USDC", cfg.usdcIssuer))
              else if code == "EURC" then Ok(Credit("EURC", cfg.eurcIssuer))
              else Err(InvalidAsset)
  {
  }

  /** `s` spells `t`, given in capitals, in any case. */
  predicate Spells(s: string, t: string) {
    |s| == |t| && forall i | 0 <= i < |s| :: s[i] == t[i] || ('A' <= t[i] <= 'Z' && s[i] as int == t[i] as int + 32)
  }

  predicate Capitals(t: string) {
    forall i | 0 <= i < |t| :: 'A' <= t[i] <= 'Z'
  }

  lemma {:induction false} UpperSpells(s: string, t: string)
    requires Capitals(t)
    ensures Upper(s) == t <==> Spells(s, t)
  {
    if s != "" && t != "" {
      UpperSpells(s[1..], t[1..]);
      assert Upper(s) == t <==> Upper(s)[0] == t[0] && Upper(s[1..]) == t[1..] by {
        assert Upper(s)[1..] == Upper(s[1..]);
        assert t == [t[0]] + t[1..];
      }
      if Spells(s, t) {
        assert forall i | 0 <= i < |s[1..]| :: s[1..][i] == s[i + 1] && t[1..][i] == t[i + 1];
      } else if Spells(s[1..], t[1..]) && |s| == |t| {
        assert forall i | 1 <= i < |s| :: s[i] == s[1..][i - 1] && t[i] == t[1..][i - 1];
      }
    } else if s == "" {
      assert Upper(s) == "";
    } else {
      assert |Upper(s)| > 0;
    }
  }

  /** What the reconciler can expect: the same assets, in any spelling, if their issuer is configured. */
  lemma ReconciledAssets(cfg: Config, code: string)
    ensures ExpectedAsset(cfg, code) ==
              if Spells(code, "XLM") then Some(RegistryEntry("XLM", ""))
              else if Spells(code, "USDC") && cfg.usdcIssuer != "" then Some(RegistryEntry("USDC", cfg.usdcIssuer))
              else if Spells(code, "EURC") && cfg.eurcIssuer != "" then Some(RegistryEntry("EURC", cfg.eurcIssuer))
              else None
  {
    UpperSpells(code, "XLM");
    UpperSpells(code, "USDC");
    UpperSpells(code, "EURC");
  }

  lemma KnownCodes()
    ensures Upper("USDC") == "USDC" && Upper("EURC") == "EURC"
  {
    assert Upper("C") == "C" && Upper("DC") == "DC" && Upper("SDC") == "SDC" && Upper("USDC") == "USDC";
    assert Upper("RC") == "RC" && Upper("URC") == "URC" && Upper("EURC") == "EURC";
  }

  /** Where both resolve an asset, they mean the same one; the reconciler needs a configured issuer. */
  lemma AssetsAgree(cfg: Config, code: string)
    requires BuildAsset(cfg, code).Ok?
    ensures ExpectedAsset(cfg, code).Some? <==> code == "XLM" || cfg.EngineIssuers()[code] != ""
    ensures ExpectedAsset(cfg, code).Some? ==>
              var built, entry := BuildAsset(cfg, code).value, ExpectedAsset(cfg, code).value;
              if built.Native? then entry == RegistryEntry("XLM", "")
              else entry.code != "XLM" && entry == RegistryEntry(built.code, built.issuer)
  {
    if code != "XLM" { KnownCodes(); }
  }

  lemma ReportedMatches(e: Expected, source: string, p: Payment)
    requires if p.asset.Native? then e.assetCode == "XLM"
             else e.assetCode != "XLM" && e.assetCode == p.asset.code && e.assetIssuer == p.asset.issuer
    ensures e.from in {"", source} && e.to in {"", p.destination} && p.amount == e.net ==> IsMain(Reported(source, p), e)
    ensures e.feeWallet != "" && e.feeWallet == p.destination && p.amount == e.fee ==> IsFee(Reported(source, p), e)
  {
  }

  /** Whatever the engine builds, reconciliation can rebuild the expectation iff the issuer was
      configured, and then accepts what Horizon reports. */
  lemma EngineOpsAccepted(cfg: Config, wallets: map<string, string>, tx: Transfer)
    requires BuildPayments(cfg, wallets, tx).Ok?
    ensures BuildExpected(cfg, wallets, tx).Ok? <==> tx.asset == "XLM" || cfg.EngineIssuers()[tx.asset] != ""
    ensures BuildExpected(cfg, wallets, tx).Ok? ==>
              Accepted(ReportedAll(wallets[tx.fromWallet], BuildPayments(cfg, wallets, tx).value),
                       BuildExpected(cfg, wallets, tx).value)
  {
    AssetsAgree(cfg, tx.asset);
    if ExpectedAsset(cfg, tx.asset).Some? {
      var ps, e := BuildPayments(cfg, wallets, tx).value, BuildExpected(cfg, wallets, tx).value;
      var ops := ReportedAll(wallets[tx.fromWallet], ps);
      ReportedMatches(e, wallets[tx.fromWallet], ps[0]);
      assert ops[0] in ops;
      if tx.fee > 0 {
        ReportedMatches(e, wallets[tx.fromWallet], ps[1]);
        assert ops[1] in ops;
      }
    }
  }

  /** The operation makes this payment, directly or along a path. */
  predicate Makes(op: Op, p: Payment) {
    && op.opType in {"payment", "path_payment_strict_send", "path_payment_strict_receive"}
    && !op.struct.OtherStruct? && op.to == p.destination && op.amount == Some(p.amount)
    && match p.asset
       case Native => op.assetType == "native"
       case Credit(code, issuer) => op.assetType != "native" && op.assetCode == code && op.assetIssuer == issuer
  }

  /** Reconciliation knows both ends of the transfer. */
  predicate EndsKnown(wallets: map<string, string>, tx: Transfer) {
    && tx.fromWallet != "" && tx.fromWallet in wallets && wallets[tx.fromWallet] != ""
    && tx.toWallet != "" && tx.toWallet in wallets && wallets[tx.toWallet] != ""
  }

  /** Of what the engine builds, the ledger shows the main payment, made by the sender, and the fee payment. */
  ghost predicate ShowsBuilt(cfg: Config, wallets: map<string, string>, tx: Transfer, ops: seq<Op>)
    requires BuildPayments(cfg, wallets, tx).Ok?
  {
    var ps := BuildPayments(cfg, wallets, tx).value;
    && (exists op | op in ops :: Makes(op, ps[0]) && op.from == wallets[tx.fromWallet])
    && (tx.fee > 0 ==> exists op | op in ops :: Makes(op, ps[1]))
  }

  /** Reconciliation accepts exactly the operations that make what the engine builds: the main payment by the sender
      and, with a fee, the fee payment by anyone. Any other asset, issuer, amount or account is refused. */
  lemma AcceptedIff(cfg: Config, wallets: map<string, string>, tx: Transfer, ops: seq<Op>)
    requires BuildPayments(cfg, wallets, tx).Ok? && BuildExpected(cfg, wallets, tx).Ok? && EndsKnown(wallets, tx)
    ensures Accepted(ops, BuildExpected(cfg, wallets, tx).value) <==> ShowsBuilt(cfg, wallets, tx, ops)
  {
    AssetsAgree(cfg, tx.asset);
    var ps, e := BuildPayments(cfg, wallets, tx).value, BuildExpected(cfg, wallets, tx).value;
    forall op ensures IsMain(op, e) <==> Makes(op, ps[0]) && op.from == wallets[tx.fromWallet] {}
    forall op ensures tx.fee > 0 ==> (IsFee(op, e) <==> Makes(op, ps[1])) {}
  }

  /** So of a list of payments from one account it accepts exactly one by the sender that holds the built ones. */
  lemma ReportedAcceptedIff(cfg: Config, wallets: map<string, string>, tx: Transfer, source: string, ps: seq<Payment>)
    requires BuildPayments(cfg, wallets, tx).Ok? && BuildExpected(cfg, wallets, tx).Ok? && EndsKnown(wallets, tx)
    ensures var built := BuildPayments(cfg, wallets, tx).value;
            Accepted(ReportedAll(source, ps), BuildExpected(cfg, wallets, tx).value) <==>
            source == wallets[tx.fromWallet] && built[0] in ps && (tx.fee > 0 ==> built[1] in ps)
  {
    var built, ops := BuildPayments(cfg, wallets, tx).value, ReportedAll(source, ps);
    AcceptedIff(cfg, wallets, tx, ops);
    forall p, q ensures Makes(Reported(source, p), q) <==> p == q {}
    forall q ensures (exists op | op in ops :: Makes(op, q)) <==> q in ps {
      ReportedMakes(source, ps, q);
    }
    if built[0] in ps {
      var i :| 0 <= i < |ps| && ps[i] == built[0];
      assert ops[i] in ops && Makes(ops[i], built[0]) && ops[i].from == source;
    }
  }

  lemma ReportedMakes(source: string, ps: seq<Payment>, q: Payment)
    ensures (exists op | op in ReportedAll(source, ps) :: Makes(op, q)) <==> q in ps
  {
    var ops := ReportedAll(source, ps);
    if op :| op in ops && Makes(op, q) {
      var i :| 0 <= i < |ops| && ops[i] == op;
      assert ps[i] == q;
    }
    if q in ps {
      var i :| 0 <= i < |ps| && ps[i] == q;
      assert ops[i] in ops && Makes(ops[i], q);
    }
  }

  /** A transfer whose sender the platform does not know is accepted from any account. */
  lemma UnknownSender(cfg: Config, wallets: map<string, string>, tx: Transfer, ops: seq<Op>)
    requires tx.fromWallet == "" && tx.fee <= 0 && tx.toWallet != "" && tx.toWallet in wallets && wallets[tx.toWallet] != ""
    requires BuildAsset(cfg, tx.asset).Ok? && BuildExpected(cfg, wallets, tx).Ok?
    ensures Accepted(ops, BuildExpected(cfg, wallets, tx).value) <==>
            exists op | op in ops :: Makes(op, Payment(wallets[tx.toWallet], BuildAsset(cfg, tx.asset).value, tx.amount - tx.fee))
  {
    AssetsAgree(cfg, tx.asset);
    var p, e := Payment(wallets[tx.toWallet], BuildAsset(cfg, tx.asset).value, tx.amount - tx.fee), BuildExpected(cfg, wallets, tx).value;
    forall op ensures IsMain(op, e) <==> Makes(op, p) {}
  }

  /** What reconciliation can rebuild: the wallets it names are there, and the asset is registered. */
  lemma RebuiltIff(cfg: Config, wallets: map<string, string>, tx: Transfer)
    ensures BuildExpected(cfg, wallets, tx).Ok? <==>
            && tx.fromWallet in wallets.Keys + {""} && tx.toWallet in wallets.Keys + {""}
            && (|| Spells(tx.asset, "XLM")
                || (Spells(tx.asset, "USDC") && cfg.usdcIssuer != "")
                || (Spells(tx.asset, "EURC") && cfg.eurcIssuer != ""))
    ensures BuildExpected(cfg, wallets, tx) == Err(UnknownWallet) <==>
            (tx.fromWallet != "" && tx.fromWallet !in wallets) || (tx.toWallet != "" && tx.toWallet !in wallets)
  {
    ReconciledAssets(cfg, tx.asset);
  }

  function Total(ps: seq<Payment>): int {
    if ps == [] then 0 else ps[0].amount + Total(ps[1..])
  }

  /** The shape of what is built, and that it always adds up to the amount. */
  lemma BuiltPayments(cfg: Config, wallets: map<string, string>, tx: Transfer)
    requires BuildPayments(cfg, wallets, tx).Ok? && tx.fee >= 0
    ensures var ps := BuildPayments(cfg, wallets, tx).value;
            && Total(ps) == tx.amount
            && ps[0].destination == wallets[tx.toWallet] && ps[0].amount == tx.amount - tx.fee
            && BuildAsset(cfg, tx.asset) == Ok(ps[0].asset)
            && if tx.fee > 0 then |ps| == 2 && ps[1] == Payment(cfg.feeWallet, ps[0].asset, tx.fee) else |ps| == 1
  {
    var ps := BuildPayments(cfg, wallets, tx).value;
    assert ps[1..] == if tx.fee > 0 then [ps[1]] else [];
    assert tx.fee > 0 ==> ps[1..][1..] == [];
    assert Total(ps[1..]) == if tx.fee > 0 then tx.fee else 0;
  }

  /** From fee schedule to chain: with the fee the service computed, the built payments add up to the
      amount, none is negative, the platform is paid exactly its fee, and reconciliation accepts them. */
  lemma EndToEnd(cfg: Config, wallets: map<string, string>, tx: Transfer, schedule: FeeSchedule)
    requires tx.amount > 0 && (schedule.maxFee.Some? ==> schedule.maxFee.value >= 0)
    requires tx.fee == CalculateFee(schedule, tx.amount, true).fee
    requires tx.toAddress == "" && tx.fromWallet in wallets && tx.toWallet in wallets && cfg.feeWallet != ""
    requires tx.asset == "XLM" || (tx.asset in cfg.EngineIssuers() && cfg.EngineIssuers()[tx.asset] != "")
    ensures BuildPayments(cfg, wallets, tx).Ok? && BuildExpected(cfg, wallets, tx).Ok?
    ensures var ps := BuildPayments(cfg, wallets, tx).value;
            && (if tx.fee > 0 then |ps| == 2 && ps[1] == Payment(cfg.feeWallet, ps[0].asset, tx.fee) else |ps| == 1)
            && ps[0].amount + (if tx.fee > 0 then ps[1].amount else 0) == tx.amount
            && ps[0].destination == wallets[tx.toWallet]
            && ps[0].amount == CalculateFee(schedule, tx.amount, true).net >= 0
            && Accepted(ReportedAll(wallets[tx.fromWallet], ps), BuildExpected(cfg, wallets, tx).value)
  {
    FeeSplitsAmount(schedule, tx.amount, true);
    Buildable(cfg, wallets, tx);
    EngineOpsAccepted(cfg, wallets, tx);
    BuiltPayments(cfg, wallets, tx);
  }

  lemma Buildable(cfg: Config, wallets: map<string, string>, tx: Transfer)
    ensures BuildPayments(cfg, wallets, tx).Ok?
            <==> && tx.toAddress == "" && tx.fromWallet in wallets && tx.toWallet in wallets
                 && (tx.asset == "XLM" || tx.asset in cfg.EngineIssuers())
                 && (tx.fee > 0 ==> cfg.feeWallet != "")
    ensures BuildPayments(cfg, wallets, tx) == Err(UnsupportedPayout) <==> tx.toAddress != ""
    ensures BuildPayments(cfg, wallets, tx) == Err(WalletNotFound) <==>
            tx.toAddress == "" && (tx.fromWallet !in wallets || tx.toWallet !in wallets)
    ensures BuildPayments(cfg, wallets, tx) == Err(NoFeeWallet) ==> tx.fee > 0 && cfg.feeWallet == ""
  {
  }
}

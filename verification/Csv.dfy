/** The batch export, and an independent reader that follows section 2 of RFC 4180
    (LF as the record separator, a bare CR as ordinary text). */
module Csv {
  import opened Common

  /** The exported columns of one transaction, already rendered as text. */
  datatype Row = Row(toWallet: string, toAddress: string, asset: string, amount: string,
                     reference: string, status: string, txHash: string)
  {
    function Fields(): (fs: seq<string>)
      ensures |fs| == 7
    {
      [toWallet, toAddress, asset, amount, reference, status, txHash]
    }
  }

  const HEADER: Row := Row("to_wallet", "to_address", "asset", "amount", "reference", "status", "tx_hash")
  const HEADER_LINE: string :=
    "to_wallet" + "," + "to_address" + "," + "asset" + "," + "amount" + "," + "reference" + "," + "status" + "," + "tx_hash" + "\n"

  // ---- writing ----

  predicate NeedsQuotes(v: string) {
    ',' in v || '"' in v || '\n' in v
  }

  /** Doubles every quote. */
  function Escape(v: string): string {
    if v == "" then ""
    else if v[0] == '"' then "\"\"" + Escape(v[1..])
    else [v[0]] + Escape(v[1..])
  }

  function Field(v: string): string {
    if NeedsQuotes(v) then "\"" + Escape(v) + "\"" else v
  }

  function Line(fields: seq<string>): string
    requires fields != []
  {
    if |fields| == 1 then Field(fields[0]) + "\n" else Field(fields[0]) + "," + Line(fields[1..])
  }

  function Lines(rows: seq<Row>): string {
    if rows == [] then "" else Line(rows[0].Fields()) + Lines(rows[1..])
  }

  lemma Assoc(a: string, b: string, c: string)
    ensures (a + b) + c == a + (b + c)
  {
  }

  /** Writing one field and its comma leaves the rest of the line to write. */
  lemma Wrote(before: string, fields: seq<string>)
    requires |fields| > 1
    ensures before + Field(fields[0]) + "," + Line(fields[1..]) == before + Line(fields)
  {
    var f, rest := Field(fields[0]), Line(fields[1..]);
    Assoc(before, f, ",");
    Assoc(before, f + ",", rest);
  }

  lemma WroteLast(before: string, fields: seq<string>)
    requires |fields| == 1
    ensures before + Field(fields[0]) + "\n" == before + Line(fields)
  {
    Assoc(before, Field(fields[0]), "\n");
  }

  /** Seven fields written one after the other make one line. */
  lemma WroteRow(sb: string, r: Row)
    ensures sb + Field(r.toWallet) + "," + Field(r.toAddress) + "," + Field(r.asset) + "," + Field(r.amount) + ","
              + Field(r.reference) + "," + Field(r.status) + "," + Field(r.txHash) + "\n"
            == sb + Line(r.Fields())
  {
    var f := r.Fields();
    assert f[1..][1..] == f[2..] && f[2..][1..] == f[3..] && f[3..][1..] == f[4..];
    assert f[4..][1..] == f[5..] && f[5..][1..] == f[6..];
    var s1 := sb + Field(r.toWallet) + ",";
    Wrote(sb, f);
    var s2 := s1 + Field(r.toAddress) + ",";
    Wrote(s1, f[1..]);
    var s3 := s2 + Field(r.asset) + ",";
    Wrote(s2, f[2..]);
    var s4 := s3 + Field(r.amount) + ",";
    Wrote(s3, f[3..]);
    var s5 := s4 + Field(r.reference) + ",";
    Wrote(s4, f[4..]);
    var s6 := s5 + Field(r.status) + ",";
    Wrote(s5, f[5..]);
    WroteLast(s6, f[6..]);
  }

  method WriteRow(sb: string, tx: Row) returns (s: string)
    ensures s == sb + Line(tx.Fields())
  {
    s := sb;
    s := s + Field(tx.toWallet) + ",";
    s := s + Field(tx.toAddress) + ",";
    s := s + Field(tx.asset) + ",";
    s := s + Field(tx.amount) + ",";
    s := s + Field(tx.reference) + ",";
    s := s + Field(tx.status) + ",";
    s := s + Field(tx.txHash) + "\n";
    WroteRow(sb, tx);
  }

  method ToCSV(txs: seq<Row>) returns (s: string)
    ensures s == HEADER_LINE + Lines(txs)
  {
    s := HEADER_LINE;
    for i := 0 to |txs|
      invariant s + Lines(txs[i..]) == HEADER_LINE + Lines(txs)
    {
      LinesStep(s, txs, i);
      s := WriteRow(s, txs[i]);
    }
  }

  lemma LinesStep(s: string, txs: seq<Row>, i: nat)
    requires i < |txs|
    ensures s + Lines(txs[i..]) == s + Line(txs[i].Fields()) + Lines(txs[i + 1..])
  {
    assert txs[i..][1..] == txs[i + 1..];
  }

  // ---- reading ----

  /** Inside quotes: a doubled quote is one quote, a single one ends the field. */
  function ReadQuoted(s: string): (r: Option<(string, string)>)
    ensures r.Some? ==> |r.value.1| < |s|
  {
    if s == "" then None
    else if s[0] != '"' then
      match ReadQuoted(s[1..])
      case None => None
      case Some((v, rest)) => Some(([s[0]] + v, rest))
    else if |s| >= 2 && s[1] == '"' then
      match ReadQuoted(s[2..])
      case None => None
      case Some((v, rest)) => Some((['"'] + v, rest))
    else Some(("", s[1..]))
  }

  /** Outside quotes: up to the next separator; a quote here is malformed. */
  function ReadPlain(s: string): (r: Option<(string, string)>)
    ensures r.Some? ==> |r.value.1| <= |s|
  {
    if s == "" || s[0] == ',' || s[0] == '\n' then Some(("", s))
    else if s[0] == '"' then None
    else
      match ReadPlain(s[1..])
      case None => None
      case Some((v, rest)) => Some(([s[0]] + v, rest))
  }

  function ReadField(s: string): (r: Option<(string, string)>)
    ensures r.Some? ==> |r.value.1| <= |s|
  {
    if s != "" && s[0] == '"' then ReadQuoted(s[1..]) else ReadPlain(s)
  }

  function ReadRecord(s: string): (r: Option<(seq<string>, string)>)
    requires s != ""
    ensures r.Some? ==> |r.value.1| < |s|
    decreases |s|
  {
    match ReadField(s)
    case None => None
    case Some((v, rest)) =>
      if rest == "" then Some(([v], ""))
      else if rest[0] == '\n' then Some(([v], rest[1..]))
      else if rest[0] == ',' then
        if rest[1..] == "" then Some(([v, ""], ""))
        else match ReadRecord(rest[1..])
             case None => None
             case Some((vs, rest')) => Some(([v] + vs, rest'))
      else None
  }

  function ReadRecords(s: string): Option<seq<seq<string>>>
    decreases |s|
  {
    if s == "" then Some([])
    else
      match ReadRecord(s)
      case None => None
      case Some((r, rest)) =>
        match ReadRecords(rest)
        case None => None
        case Some(rs) => Some([r] + rs)
  }

  // ---- reading undoes writing ----

  predicate Separator(c: char) {
    c == ',' || c == '\n'
  }

  lemma {:induction false} PlainReadsBack(v: string, rest: string)
    requires !NeedsQuotes(v) && rest != "" && Separator(rest[0])
    ensures ReadPlain(v + rest) == Some((v, rest))
  {
    if v == "" {
      assert v + rest == rest;
    } else {
      assert (v + rest)[1..] == v[1..] + rest;
      assert v[0] in v && forall c | c in v[1..] :: c in v;
      PlainReadsBack(v[1..], rest);
      assert v == [v[0]] + v[1..];
    }
  }

  lemma {:induction false} QuotedReadsBack(v: string, rest: string)
    requires rest != "" && rest[0] != '"'
    ensures ReadQuoted(Escape(v) + "\"" + rest) == Some((v, rest))
  {
    var s := Escape(v) + "\"" + rest;
    if v == "" {
      assert s[1..] == rest;
    } else {
      QuotedReadsBack(v[1..], rest);
      var tail := Escape(v[1..]) + "\"" + rest;
      assert v[0] == '"' ==> s[2..] == tail;
      assert v[0] != '"' ==> s[1..] == tail;
      assert v == [v[0]] + v[1..];
    }
  }

  lemma FieldReadsBack(v: string, rest: string)
    requires rest != "" && Separator(rest[0])
    ensures ReadField(Field(v) + rest) == Some((v, rest))
  {
    var s := Field(v) + rest;
    if NeedsQuotes(v) {
      assert s[1..] == Escape(v) + "\"" + rest;
      QuotedReadsBack(v, rest);
    } else {
      assert v != "" ==> v[0] in v;
      PlainReadsBack(v, rest);
    }
  }

  lemma {:induction false} LineReadsBack(fields: seq<string>, rest: string)
    requires fields != []
    ensures Line(fields) + rest != ""
    ensures ReadRecord(Line(fields) + rest) == Some((fields, rest))
    decreases |fields|
  {
    var s := Line(fields) + rest;
    if |fields| == 1 {
      assert s == Field(fields[0]) + ("\n" + rest);
      FieldReadsBack(fields[0], "\n" + rest);
      assert fields == [fields[0]];
    } else {
      var more := Line(fields[1..]) + rest;
      assert s == Field(fields[0]) + ("," + more);
      FieldReadsBack(fields[0], "," + more);
      LineReadsBack(fields[1..], rest);
      assert fields == [fields[0]] + fields[1..];
    }
  }

  function AllFields(rows: seq<Row>): (r: seq<seq<string>>) {
    if rows == [] then [] else [rows[0].Fields()] + AllFields(rows[1..])
  }

  lemma {:induction false} LinesReadBack(rows: seq<Row>)
    ensures ReadRecords(Lines(rows)) == Some(AllFields(rows))
  {
    if rows != [] {
      LineReadsBack(rows[0].Fields(), Lines(rows[1..]));
      LinesReadBack(rows[1..]);
    }
  }

  lemma HeaderIsALine()
    ensures HEADER_LINE == Line(HEADER.Fields())
  {
    PlainWallets();
    PlainAmounts();
    PlainRest();
    WroteRow("", HEADER);
    assert "" + "to_wallet" == "to_wallet" && "" + Line(HEADER.Fields()) == Line(HEADER.Fields());
  }

  lemma PlainWallets()
    ensures !NeedsQuotes("to_wallet") && !NeedsQuotes("to_address")
  {
  }

  lemma PlainAmounts()
    ensures !NeedsQuotes("asset") && !NeedsQuotes("amount")
  {
  }

  lemma PlainRest()
    ensures !NeedsQuotes("reference") && !NeedsQuotes("status") && !NeedsQuotes("tx_hash")
  {
  }

  /** Printing then reading is the identity, whatever commas, quotes or newlines the fields hold. */
  lemma RoundTrip(rows: seq<Row>)
    ensures ReadRecords(HEADER_LINE + Lines(rows)) ==
              Some([["to_wallet", "to_address", "asset", "amount", "reference", "status", "tx_hash"]] + AllFields(rows))
  {
    HeaderIsALine();
    LineReadsBack(HEADER.Fields(), Lines(rows));
    LinesReadBack(rows);
  }

  /** The value of a transaction that a column title promises. */
  function ValueOf(r: Row, title: string): Option<string> {
    if title == "to_wallet" then Some(r.toWallet)
    else if title == "to_address" then Some(r.toAddress)
    else if title == "asset" then Some(r.asset)
    else if title == "amount" then Some(r.amount)
    else if title == "reference" then Some(r.reference)
    else if title == "status" then Some(r.status)
    else if title == "tx_hash" then Some(r.txHash)
    else None
  }

  lemma {:induction false} AllFieldsAt(rows: seq<Row>, i: nat)
    requires i < |rows|
    ensures |AllFields(rows)| == |rows| && AllFields(rows)[i] == rows[i].Fields()
    decreases |rows|
  {
    if i > 0 {
      AllFieldsAt(rows[1..], i - 1);
    } else if |rows| > 1 {
      AllFieldsAt(rows[1..], 0);
    }
  }

  /** Every transaction has a record of its own, in order, and under each title the value it promises. */
  lemma ColumnsUnderTitles(rows: seq<Row>, i: nat, k: nat)
    requires i < |rows| && k < 7
    ensures var records := ReadRecords(HEADER_LINE + Lines(rows));
            && records.Some? && |records.value| == |rows| + 1
            && |records.value[0]| == |records.value[i + 1]| == 7
            && ValueOf(rows[i], records.value[0][k]) == Some(records.value[i + 1][k])
  {
    RoundTrip(rows);
    AllFieldsAt(rows, i);
    TitlesInOrder(rows[i], k);
  }

  lemma TitlesInOrder(r: Row, k: nat)
    requires k < 7
    ensures ValueOf(r, ["to_wallet", "to_address", "asset", "amount", "reference", "status", "tx_hash"][k]) == Some(r.Fields()[k])
  {
    TitlesDiffer();
  }

  lemma TitlesDiffer()
    ensures "to_address" != "to_wallet" && "asset" != "to_wallet" && "asset" != "to_address"
    ensures "amount" !in {"to_wallet", "to_address", "asset"}
    ensures "reference" !in {"to_wallet", "to_address", "asset", "amount"}
    ensures "status" !in {"to_wallet", "to_address", "asset", "amount", "reference"}
    ensures "tx_hash" !in {"to_wallet", "to_address", "asset", "amount", "reference", "status"}
  {
    assert |"to_wallet"| == 9 && |"to_address"| == 10 && |"asset"| == 5 && |"amount"| == 6;
    assert |"reference"| == 9 && |"status"| == 6 && |"tx_hash"| == 7;
    assert "reference"[0] == 'r' && "to_wallet"[0] == 't' && "status"[0] == 's' && "amount"[0] == 'a';
  }

  lemma {:induction false} EscapeOnlyAdds(v: string)
    ensures |Escape(v)| >= |v|
  {
    if v != "" { EscapeOnlyAdds(v[1..]); }
  }

  /** A field is written as it is exactly if it holds no comma, quote or line break. */
  lemma PlainIff(v: string)
    ensures Field(v) == v <==> forall i | 0 <= i < |v| :: v[i] != ',' && v[i] != '"' && v[i] != '\n'
  {
    EscapeOnlyAdds(v);
    if NeedsQuotes(v) {
      assert |Field(v)| > |v|;
      var c :| c in v && (c == ',' || c == '"' || c == '\n');
      var i :| 0 <= i < |v| && v[i] == c;
    }
  }

  lemma {:induction false} FieldsDetermineRows(a: seq<Row>, b: seq<Row>)
    requires AllFields(a) == AllFields(b)
    ensures a == b
    decreases |a|
  {
    if a != [] && b != [] {
      assert a[0].Fields() == AllFields(a)[0] == b[0].Fields();
      SameFields(a[0], b[0]);
      assert AllFields(a)[1..] == AllFields(a[1..]) && AllFields(b)[1..] == AllFields(b[1..]);
      FieldsDetermineRows(a[1..], b[1..]);
      assert a == [a[0]] + a[1..] && b == [b[0]] + b[1..];
    }
  }

  lemma SameFields(a: Row, b: Row)
    requires a.Fields() == b.Fields()
    ensures a == b
  {
    var f, g := a.Fields(), b.Fields();
    assert f[0] == g[0] && f[1] == g[1] && f[2] == g[2] && f[3] == g[3] && f[4] == g[4] && f[5] == g[5] && f[6] == g[6];
  }

  /** No two different exports print the same text. */
  lemma ExportIsInjective(a: seq<Row>, b: seq<Row>)
    requires HEADER_LINE + Lines(a) == HEADER_LINE + Lines(b)
    ensures a == b
  {
    RoundTrip(a);
    RoundTrip(b);
    var h := [["to_wallet", "to_address", "asset", "amount", "reference", "status", "tx_hash"]];
    assert (h + AllFields(a))[1..] == AllFields(a) && (h + AllFields(b))[1..] == AllFields(b);
    FieldsDetermineRows(a, b);
  }
}

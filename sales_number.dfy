/** `generate_sale_number`: the tenant's largest sale id (0 without sales)
    plus one, rendered as `V-` and at least six zero-padded digits. */
module SalesNumber {
  import opened Http
  import opened Text
  import opened Models

  const Prefix: string := "V-"
  const Width: nat := 6

  /** `coalesce(max(sales.id), 0)` over the tenant's sales. */
  function MaxSaleId(sales: seq<Sale>, tenantId: nat): (r: nat)
    ensures forall k :: 0 <= k < |sales| && sales[k].tenantId == tenantId ==> sales[k].id <= r
    ensures r == 0 || exists k :: 0 <= k < |sales| && sales[k].tenantId == tenantId && sales[k].id == r
  {
    if sales == [] then 0
    else
      var rest := MaxSaleId(sales[..|sales| - 1], tenantId);
      var last := sales[|sales| - 1];
      assert forall k :: 0 <= k < |sales| - 1 ==> sales[k] == sales[..|sales| - 1][k];
      if last.tenantId == tenantId && last.id > rest then last.id else rest
  }

  /** `f"V-{n:06d}"`. */
  function FormatSaleNumber(n: nat): string {
    Prefix + ZeroPad(Digits(n), Width)
  }

  /** The value that `generate_sale_number` formats. */
  function NextSaleValue(sales: seq<Sale>, tenantId: nat): nat {
    MaxSaleId(sales, tenantId) + 1
  }

  function GenerateSaleNumber(sales: seq<Sale>, tenantId: nat): string {
    FormatSaleNumber(NextSaleValue(sales, tenantId))
  }

  /** Reads a sale number back: `V-` followed by decimal digits. */
  function ParseSaleNumber(s: string): Option<nat> {
    if |s| >= |Prefix| && s[..|Prefix|] == Prefix && AllDigits(s[|Prefix|..])
    then Some(ParseDigits(s[|Prefix|..]))
    else None
  }

  /** Formatting loses nothing: the number reads back as its value. */
  lemma FormatRoundTrip(n: nat)
    ensures ParseSaleNumber(FormatSaleNumber(n)) == Some(n)
  {
    var body := ZeroPad(Digits(n), Width);
    ParseZeroPad(Digits(n), Width);
    ParseDigitsOfDigits(n);
    assert FormatSaleNumber(n)[|Prefix|..] == body;
    assert FormatSaleNumber(n)[..|Prefix|] == Prefix;
  }

  /** Distinct values give distinct sale numbers. */
  lemma FormatInjective(m: nat, n: nat)
    requires FormatSaleNumber(m) == FormatSaleNumber(n)
    ensures m == n
  {
    FormatRoundTrip(m);
    FormatRoundTrip(n);
  }

  /** Six digits is a minimum width, not a maximum: values from 1,000,000
      on get more than six digits. */
  lemma FormatWidth(n: nat)
    ensures n < 1000000 ==> |FormatSaleNumber(n)| == 8
    ensures n >= 1000000 ==> |FormatSaleNumber(n)| > 8
  {
    var d := Digits(n);
    ParseZeroPad(d, Width);
    DigitsLength(n);
    assert Pow10(6) == 1000000;
    if n < 1000000 && |d| > 6 {
      Pow10Monotone(6, |d| - 1);
    }
    if n >= 1000000 && |d| <= 6 {
      Pow10Monotone(|d|, 6);
    }
  }

  /** A tenant without sales starts at `V-000001`. */
  lemma FirstSaleNumber(sales: seq<Sale>, tenantId: nat)
    requires forall k :: 0 <= k < |sales| ==> sales[k].tenantId != tenantId
    ensures GenerateSaleNumber(sales, tenantId) == "V-000001"
  {
    assert MaxSaleId(sales, tenantId) == 0;
    assert Digits(1) == "1";
    assert Zeros(5) == "00000";
  }

  /** Only the tenant's own rows matter: another tenant's sale does not
      change the number. */
  lemma OtherTenantIgnored(sales: seq<Sale>, s: Sale, tenantId: nat)
    requires s.tenantId != tenantId
    ensures GenerateSaleNumber(sales + [s], tenantId) == GenerateSaleNumber(sales, tenantId)
  {
    assert (sales + [s])[..|sales|] == sales;
  }

  /** Recording a sale of the tenant whose id is larger than every existing
      id (the shared counter) strictly raises the tenant's next value. */
  lemma NextValueIncreases(sales: seq<Sale>, s: Sale)
    requires SalesOk(sales, s.id)
    requires s.id > 0
    ensures NextSaleValue(sales, s.tenantId) <= s.id
    ensures NextSaleValue(sales + [s], s.tenantId) == s.id + 1
    ensures NextSaleValue(sales, s.tenantId) < NextSaleValue(sales + [s], s.tenantId)
  {
    assert (sales + [s])[..|sales|] == sales;
  }

  /** Numbers need not be consecutive: tenant 1's second sale gets
      V-000002 but id 3, because tenant 2's sale took id 2, so its third
      sale is V-000004 and V-000003 is never issued. */
  lemma NumbersHaveGaps()
    ensures GenerateSaleNumber([Sale(1, 1, 1, 1, "V-000001", CASH, None, 0, false, []),
                                Sale(2, 2, 1, 1, "V-000001", CASH, None, 0, false, [])], 1) == "V-000002"
    ensures GenerateSaleNumber([Sale(1, 1, 1, 1, "V-000001", CASH, None, 0, false, []),
                                Sale(2, 2, 1, 1, "V-000001", CASH, None, 0, false, []),
                                Sale(3, 1, 1, 1, "V-000002", CASH, None, 0, false, [])], 1) == "V-000004"
  {
    var a := Sale(1, 1, 1, 1, "V-000001", CASH, None, 0, false, []);
    var b := Sale(2, 2, 1, 1, "V-000001", CASH, None, 0, false, []);
    var c := Sale(3, 1, 1, 1, "V-000002", CASH, None, 0, false, []);
    assert [a, b, c][..2] == [a, b];
    assert [a, b][..1] == [a];
    assert [a][..0] == [];
    assert MaxSaleId([a, b], 1) == 1;
    assert MaxSaleId([a, b, c], 1) == 3;
    assert Digits(2) == "2" && Digits(4) == "4";
    assert Zeros(5) == "00000";
    assert ZeroPad("2", Width) == "000002";
    assert ZeroPad("4", Width) == "000004";
  }
}

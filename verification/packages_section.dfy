/** The package picker (`src/components/PackagesSection.tsx`): quick
    packages priced in USDT, a free-form USDT amount, and the wallet gate in
    front of both. The `onConnectWallet` and `onAmountSelect` callbacks are
    returned as an effect instead of being called. */
module PackagesSection {
  import opened Js
  import opened Types

  /** `Math.round(chips * pricePerChip * 100) / 100`: the USDT price of a
      package, rounded to cents. */
  function PackagePrice(chips: int, pricePerChip: real): (r: real)
    ensures (r * 100.0).Floor as real == r * 100.0
    ensures chips as real * pricePerChip - 0.005 < r <= chips as real * pricePerChip + 0.005
  {
    Round(chips as real * pricePerChip * 100.0) as real / 100.0
  }

  /** A price that is already a whole number of cents is shown exactly. */
  lemma PackagePriceExactOnCents(chips: int, pricePerChip: real, cents: int)
    requires chips as real * pricePerChip * 100.0 == cents as real
    ensures PackagePrice(chips, pricePerChip) == cents as real / 100.0
  {
    var r := Round(chips as real * pricePerChip * 100.0);
    assert (r - cents) as real < 1.0 && (cents - r) as real < 1.0;
    assert r == cents;
  }

  /** At one cent per chip a package of `n` chips costs exactly `n / 100`
      USDT. */
  lemma CentPerChipPrice(chips: int)
    ensures PackagePrice(chips, 0.01) == chips as real / 100.0
  {
    PackagePriceExactOnCents(chips, 0.01, chips);
  }

  /** One element of the custom-range hint. */
  datatype RangePart = From(min: real) | UpTo(max: real) | StepOf(step: real)

  /** The position of a part in the hint. */
  function Rank(p: RangePart): nat {
    match p
    case From(_) => 0
    case UpTo(_) => 1
    case StepOf(_) => 2
  }

  /** `!!x` for an optional number. */
  predicate Truthy(x: Option<real>) {
    x.Some? && x.value != 0.0
  }

  /** `customRangeParts`: the minimum, maximum and step, in that order, each
      present only when truthy. */
  function CustomRangeParts(sale: Sale): (r: seq<RangePart>)
    ensures forall i, j :: 0 <= i < j < |r| ==> Rank(r[i]) < Rank(r[j])
    ensures forall x :: From(x) in r <==> Truthy(sale.minCustomAmount) && x == sale.minCustomAmount.value
    ensures forall x :: UpTo(x) in r <==> Truthy(sale.maxCustomAmount) && x == sale.maxCustomAmount.value
    ensures forall x :: StepOf(x) in r <==> Truthy(sale.customStep) && x == sale.customStep.value
  {
    (if Truthy(sale.minCustomAmount) then [From(sale.minCustomAmount.value)] else [])
    + (if Truthy(sale.maxCustomAmount) then [UpTo(sale.maxCustomAmount.value)] else [])
    + (if Truthy(sale.customStep) then [StepOf(sale.customStep.value)] else [])
  }

  datatype PackageOption = PackageOption(chips: int, price: real)

  datatype PackagesView = PackagesView(
    clubMessage: string,
    options: seq<PackageOption>,
    showsCustomAmount: bool,
    rangeHint: seq<RangePart>)

  /** The rendered picker; nothing at all without sale terms. */
  function Render(sale: Option<Sale>, clubMessage: string): (r: Option<PackagesView>)
    ensures r.None? <==> sale.None?
    ensures r.Some? ==> |r.value.options| == |sale.value.quickPackages|
    ensures r.Some? ==> forall i :: 0 <= i < |r.value.options| ==>
              r.value.options[i].chips == sale.value.quickPackages[i]
              && r.value.options[i].price == PackagePrice(sale.value.quickPackages[i], sale.value.pricePerChip)
    ensures r.Some? ==> r.value.showsCustomAmount == sale.value.allowCustomAmount
  {
    match sale
    case None => None
    case Some(s) =>
      var options := seq(|s.quickPackages|, i requires 0 <= i < |s.quickPackages| =>
        PackageOption(s.quickPackages[i], PackagePrice(s.quickPackages[i], s.pricePerChip)));
      Some(PackagesView(clubMessage, options, s.allowCustomAmount, CustomRangeParts(s)))
  }

  /** The picker's own state: the custom-amount text and the highlighted
      package. */
  datatype PickerState = PickerState(customAmount: string, selectedPackage: Option<int>)

  /** What a click hands to the parent: a wallet-connection request, an
      amount for `onAmountSelect`, or nothing. */
  datatype Effect = ConnectWallet | SelectAmount(usdt: Num) | NoEffect

  /** `handlePackageClick(chips)`: without a wallet it only asks for one;
      otherwise it highlights the package and hands over its USDT price. */
  function PackageClick(st: PickerState, sale: Sale, walletConnected: bool, chips: int): (r: (PickerState, Effect))
    ensures !walletConnected ==> r == (st, ConnectWallet)
    ensures walletConnected ==> r.0.selectedPackage == Some(chips) && r.0.customAmount == st.customAmount
    ensures walletConnected ==> r.1 == SelectAmount(Fin(PackagePrice(chips, sale.pricePerChip)))
  {
    if !walletConnected then (st, ConnectWallet)
    else (st.(selectedPackage := Some(chips)), SelectAmount(Fin(PackagePrice(chips, sale.pricePerChip))))
  }

  /** Every package the list shows hands over, when clicked with a wallet,
      exactly the price printed on its button, and highlights that
      package. */
  lemma ClickHandsOverShownPrice(st: PickerState, sale: Sale, clubMessage: string, i: int)
    requires 0 <= i < |sale.quickPackages|
    ensures var option := Render(Some(sale), clubMessage).value.options[i];
            var (st', effect) := PackageClick(st, sale, true, option.chips);
            effect == SelectAmount(Fin(option.price)) && st'.selectedPackage == Some(option.chips)
  {
  }

  /** `handleCustomAmount()`, where `parsed` is `parseFloat(customAmount)`:
      an empty, unparsable or non-positive amount selects nothing; any other
      amount is handed over unchanged, whatever the sale's minimum, maximum
      and step, and clears the highlighted package. */
  function CustomSubmit(st: PickerState, sale: Sale, walletConnected: bool, parsed: Num): (r: (PickerState, Effect))
    ensures !walletConnected ==> r == (st, ConnectWallet)
    ensures walletConnected && (st.customAmount == [] || parsed.NaN? || AtMostZero(parsed)) ==> r == (st, NoEffect)
    ensures r.1.SelectAmount? <==> walletConnected && st.customAmount != [] && !parsed.NaN? && !AtMostZero(parsed)
    ensures r.1.SelectAmount? ==> r.1.usdt == parsed && r.0 == st.(selectedPackage := None)
  {
    if !walletConnected then (st, ConnectWallet)
    else if st.customAmount == [] || parsed.NaN? || AtMostZero(parsed) then (st, NoEffect)
    else (st.(selectedPackage := None), SelectAmount(parsed))
  }

  /** An accepted custom amount is never clamped to the advertised range:
      an amount above the maximum goes through as typed. */
  lemma CustomAmountNotClamped(st: PickerState, sale: Sale, v: real)
    requires st.customAmount != [] && 0.0 < v
    requires sale.maxCustomAmount.Some? && sale.maxCustomAmount.value < v
    ensures CustomSubmit(st, sale, true, Fin(v)).1 == SelectAmount(Fin(v))
  {
  }
}

/** What the confirmation screen (`src/components/SummarySection.tsx`)
    computes from the selected amount: the chips to credit, the price shown
    and the balance after the purchase, plus the club card. */
module SummarySection {
  import opened Js
  import opened Types
  import LogoUrl
  import FormSection

  /** `parseInt(String(x), 10)` for the selected amount `x`: the decimal
      text of a finite number is cut at the decimal point, and the texts
      `NaN` and `Infinity` do not parse. */
  function ParseIntOfNumber(x: Num): (r: Num)
    ensures r.Fin? <==> x.Fin?
    ensures x.Fin? ==> r.v == Trunc(x.v) as real
  {
    match x
    case Fin(v) => Fin(Trunc(v) as real)
    case _ => NaN
  }

  /** `Math.round(amount * pricePerChip)`. */
  function RoundedProduct(amount: Num, pricePerChip: real): (r: Num)
    ensures amount.Fin? ==> r.Fin? && r.v == Round(amount.v * pricePerChip) as real
    ensures amount.NaN? ==> r.NaN?
  {
    if amount.Fin? then Fin(Round(amount.v * pricePerChip) as real) else NaN
  }

  datatype Totals = Totals(amount: Num, price: Num, balanceAfter: Num)

  /** `amount`, `price` and `balanceAfter` for `selectedAmount || ''`; the
      empty selection parses as `'0'`. */
  function ComputeTotals(selected: Option<Num>, pricePerChip: real, memberBalance: real): (r: Totals)
    ensures selected.None? ==> r.amount == Fin(0.0) && r.balanceAfter == Fin(memberBalance)
    ensures selected.Some? ==> r.amount == ParseIntOfNumber(selected.value)
    ensures r.amount.Fin? ==> r.amount.v == r.amount.v.Floor as real
    ensures r.amount.Fin? ==> r.balanceAfter == Fin(memberBalance + r.amount.v)
    ensures r.price == RoundedProduct(r.amount, pricePerChip)
    ensures r.amount.NaN? ==> r.price.NaN? && r.balanceAfter.NaN?
  {
    var amount := if selected.None? then Fin(0.0) else ParseIntOfNumber(selected.value);
    var price := RoundedProduct(amount, pricePerChip);
    Totals(amount, price, AddFin(memberBalance, amount))
  }

  /** The whole-chip part of a finite non-negative selection is what the
      screen shows as chips to credit: never more than the selection, and
      less than one chip below it. */
  lemma AmountIsWholePart(x: real, pricePerChip: real, memberBalance: real)
    requires 0.0 <= x
    ensures var t := ComputeTotals(Some(Fin(x)), pricePerChip, memberBalance);
            t.amount.Fin? && t.amount.v <= x < t.amount.v + 1.0
            && t.balanceAfter.v - memberBalance == t.amount.v
  {
  }

  /** A negative selection is cut toward zero: the chips credited lie at
      or above the selection, less than one chip above it, and the balance
      moves by exactly that. */
  lemma NegativeAmountRoundsUp(x: real, pricePerChip: real, memberBalance: real)
    requires x < 0.0
    ensures var t := ComputeTotals(Some(Fin(x)), pricePerChip, memberBalance);
            t.amount.Fin? && t.amount.v - 1.0 < x <= t.amount.v <= 0.0
            && t.balanceAfter.v - memberBalance == t.amount.v
  {
  }

  /** A NaN or infinite selection (a custom amount such as `1e400` parses
      to Infinity) prints as `NaN` or `Infinity`, which `parseInt` cannot
      read: chips, price and balance after are all NaN. */
  lemma NonFiniteSelectionGivesNaN(x: Num, pricePerChip: real, memberBalance: real)
    requires !x.Fin?
    ensures var t := ComputeTotals(Some(x), pricePerChip, memberBalance);
            t.amount.NaN? && t.price.NaN? && t.balanceAfter.NaN?
  {
  }

  datatype ClubCard = ClubCard(logoUrl: string, title: string, subtitle: string)

  /** The club card, shown only when club data is present. */
  function Card(clubInfo: Option<ClubInfo>, cdnUrl: string): (r: Option<ClubCard>)
    ensures r.Some? <==> clubInfo.Some?
    ensures r.Some? ==> r.value.logoUrl == LogoUrl.ResolveLogoUrl(clubInfo.value.logo, cdnUrl)
    ensures r.Some? ==> r.value.title != []
    ensures r.Some? && TruthyOptStr(clubInfo.value.title) ==> r.value.title == clubInfo.value.title.value
    ensures r.Some? && !TruthyOptStr(clubInfo.value.title) ==> r.value.title == "Клуб"
    ensures r.Some? ==> (r.value.subtitle == [] <==> !TruthyShortId(clubInfo.value.shortId))
    ensures r.Some? && TruthyShortId(clubInfo.value.shortId) ==>
              r.value.subtitle == "ID клуба: " + ShortIdText(clubInfo.value.shortId.value)
  {
    match clubInfo
    case None => None
    case Some(c) =>
      Some(ClubCard(
        LogoUrl.ResolveLogoUrl(c.logo, cdnUrl),
        OrElse(c.title, "Клуб"),
        if TruthyShortId(c.shortId) then "ID клуба: " + ShortIdText(c.shortId.value) else ""))
  }

  /** The summary card and the lookup form's preview card show the same
      logo for the same club; with a title and an id they also show the same
      title and the same id. An untitled club is `Клуб` on the summary but
      `Клуб <typed id>` on the form. */
  lemma CardAgreesWithFormPreview(c: ClubInfo, clubLocked: bool, clubShortId: string, cdnUrl: string)
    ensures var card := Card(Some(c), cdnUrl).value;
            var pre := FormSection.Preview(clubLocked, clubShortId, Some(c), cdnUrl);
            && card.logoUrl == pre.logoUrl
            && (TruthyOptStr(c.title) ==> card.title == pre.title)
            && (TruthyShortId(c.shortId) ==> card.subtitle == "ID клуба: " + ShortIdText(pre.shortId))
            && (!TruthyOptStr(c.title) && clubShortId != [] ==> card.title == "Клуб" && pre.title == ClubWord + clubShortId)
  {
  }
}

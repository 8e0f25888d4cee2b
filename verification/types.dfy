/** The records exchanged between the purchase-flow screens and the backend
    (`src/types.ts`). Optional fields are `Option`s; a `short_id` that may be
    a string or a number keeps its JavaScript representation. */
module Types {
  import opened Js
  import Text

  /** A `short_id` typed `string | number`. */
  datatype ShortId = IdText(text: string) | IdNumber(number: int)

  /** `!!short_id`: the empty string and the number 0 are falsy. */
  predicate TruthyShortId(id: Option<ShortId>) {
    match id
    case None => false
    case Some(IdText(t)) => t != []
    case Some(IdNumber(n)) => n != 0
  }

  datatype Contact = Contact(
    channel: Option<string>,
    labelText: string,
    value: Option<string>,
    link: Option<string>)

  datatype ClubInfo = ClubInfo(
    id: Option<string>,
    title: Option<string>,
    shortId: Option<ShortId>,
    logo: Option<string>,
    balanceType: Option<string>,
    contacts: Option<seq<Contact>>,
    unionTitle: Option<string>)

  datatype Account = Account(id: Option<string>, shortId: Option<int>, nickname: Option<string>)

  datatype Sale = Sale(
    pricePerChip: real,
    currencyCode: Option<string>,
    quickPackages: seq<int>,
    allowCustomAmount: bool,
    minCustomAmount: Option<real>,
    maxCustomAmount: Option<real>,
    customStep: Option<real>,
    customMessage: Option<string>)

  datatype Preview = Preview(
    allowed: bool,
    reason: Option<string>,
    account: Option<Account>,
    club: Option<ClubInfo>,
    sale: Option<Sale>,
    memberBalance: Option<real>)

  datatype OwnerClub = OwnerClub(shortId: int, title: Option<string>, logo: Option<string>)

  datatype Payment = Payment(amount: real, accountShortId: Option<int>, createdOn: string)

  datatype OwnerStats = OwnerStats(
    allowed: bool,
    reason: Option<string>,
    clubShortId: Option<int>,
    clubTitle: Option<string>,
    clubLogo: Option<string>,
    xtrBalance: Option<real>,
    payments: Option<seq<Payment>>)

  /** `"Клуб "`: the title of a club known only by its id is this word
      followed by the id. */
  const ClubWord: string := "Клуб "

  /** `String(short_id)`. */
  function ShortIdText(id: ShortId): string {
    match id
    case IdText(t) => t
    case IdNumber(n) => Text.IntToString(n)
  }

  /** The screens of the purchase flow. */
  datatype Step = Form | Error | Packages | Summary | Success | Withdraw
}

/** What the owner dashboard card (`src/components/OwnerSelector.tsx`)
    derives from its props: whether it renders, its hint message, the state
    of its button, the club option labels and the payment rows. */
module OwnerSelector {
  import opened Js
  import opened Text
  import opened Types

  const ChooseClubHint: string := "Выберите клуб, чтобы посмотреть баланс и транзакции."
  const NoClubsHint: string := "У вас нет клубов с правом управления фишками."
  const PlayerIdLabel: string := "ID игрока: "
  const MissingIdMark: string := "—"

  /** The card renders nothing before the clubs are loaded unless there is
      a message to show. */
  predicate RendersNothing(clubsLoaded: bool, selectorMessage: Option<string>) {
    !clubsLoaded && !TruthyOptStr(selectorMessage)
  }

  /** The hint: the selector message if there is one, else the "choose a
      club" text when there are clubs, else the "no clubs" text. */
  function Hint(clubs: seq<OwnerClub>, selectorMessage: Option<string>): (r: string)
    ensures TruthyOptStr(selectorMessage) ==> r == selectorMessage.value
    ensures !TruthyOptStr(selectorMessage) && |clubs| > 0 ==> r == ChooseClubHint
    ensures !TruthyOptStr(selectorMessage) && |clubs| == 0 ==> r == NoClubsHint
  {
    OrElse(selectorMessage, if |clubs| > 0 then ChooseClubHint else NoClubsHint)
  }

  /** The "show data" button is disabled without a selection (`null`; a
      selected id 0 counts as a selection) or while stats load. */
  predicate ButtonDisabled(selected: Option<int>, statsLoading: bool) {
    selected.None? || statsLoading
  }

  /** The option text for a club. */
  function OptionLabel(club: OwnerClub): (r: string)
    ensures TruthyOptStr(club.title) ==>
              r == club.title.value + " (" + IntToString(club.shortId) + ")"
    ensures !TruthyOptStr(club.title) ==> r == ClubWord + IntToString(club.shortId)
  {
    if TruthyOptStr(club.title) then club.title.value + " (" + IntToString(club.shortId) + ")"
    else ClubWord + IntToString(club.shortId)
  }

  /** Two untitled clubs with different ids are told apart by their
      labels. */
  lemma UntitledLabelsDistinct(a: OwnerClub, b: OwnerClub)
    requires !TruthyOptStr(a.title) && !TruthyOptStr(b.title)
    requires a.shortId != b.shortId
    ensures OptionLabel(a) != OptionLabel(b)
  {
    if OptionLabel(a) == OptionLabel(b) {
      assert OptionLabel(a)[|ClubWord|..] == IntToString(a.shortId);
      assert OptionLabel(b)[|ClubWord|..] == IntToString(b.shortId);
      IntToStringInjective(a.shortId, b.shortId);
    }
  }

  /** The stats card is shown only for stats the backend allowed. */
  predicate ShowsStatsCard(stats: Option<OwnerStats>) {
    stats.Some? && stats.value.allowed
  }

  /** The player column of a payment row; a payment without a (truthy)
      account id shows a dash. */
  function PaymentPlayer(p: Payment): (r: string)
    ensures StartsWith(r, PlayerIdLabel)
    ensures !TruthyOptInt(p.accountShortId) ==> r == PlayerIdLabel + MissingIdMark
    ensures TruthyOptInt(p.accountShortId) ==> r[|PlayerIdLabel|..] == IntToString(p.accountShortId.value)
  {
    var r := PlayerIdLabel + (if TruthyOptInt(p.accountShortId) then IntToString(p.accountShortId.value)
                              else MissingIdMark);
    assert r[..|PlayerIdLabel|] == PlayerIdLabel;
    r
  }

  /** A payment row never shows the dash for a real account id: the dash
      is not the text of any number. */
  lemma DashOnlyForMissingId(p: Payment)
    ensures PaymentPlayer(p) == PlayerIdLabel + MissingIdMark <==> !TruthyOptInt(p.accountShortId)
  {
    if TruthyOptInt(p.accountShortId) {
      var t := IntToString(p.accountShortId.value);
      assert PaymentPlayer(p)[|PlayerIdLabel|..] == t;
      assert (PlayerIdLabel + MissingIdMark)[|PlayerIdLabel|..] == MissingIdMark;
      assert t[0] == '-' || '0' <= t[0] <= '9';
    }
  }
}

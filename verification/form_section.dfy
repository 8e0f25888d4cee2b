/** What the lookup form (`src/components/FormSection.tsx`) derives from its
    props: whether the locked-club preview card is shown, and the logo, title
    and id it shows. */
module FormSection {
  import opened Js
  import opened Types
  import LogoUrl

  datatype ClubPreview = ClubPreview(
    showClubPreview: bool,
    logoUrl: string,
    title: string,
    shortId: ShortId)

  function Preview(clubLocked: bool, clubShortId: string, clubInfo: Option<ClubInfo>, cdnUrl: string): (r: ClubPreview)
    ensures r.showClubPreview <==> clubLocked && clubShortId != [] && clubInfo.Some?
    ensures clubInfo.Some? ==> r.logoUrl == LogoUrl.ResolveLogoUrl(clubInfo.value.logo, cdnUrl)
    ensures clubInfo.None? ==> r.logoUrl == LogoUrl.ResolveLogoUrl(None, cdnUrl)
    ensures clubInfo.Some? && TruthyOptStr(clubInfo.value.title) ==> r.title == clubInfo.value.title.value
    ensures !(clubInfo.Some? && TruthyOptStr(clubInfo.value.title)) ==>
              r.title == (if clubShortId != [] then ClubWord + clubShortId else "")
    ensures clubInfo.Some? && TruthyShortId(clubInfo.value.shortId) ==> r.shortId == clubInfo.value.shortId.value
    ensures !(clubInfo.Some? && TruthyShortId(clubInfo.value.shortId)) ==> r.shortId == IdText(clubShortId)
  {
    var logoUrl := if clubInfo.Some? then LogoUrl.ResolveLogoUrl(clubInfo.value.logo, cdnUrl)
                   else LogoUrl.ResolveLogoUrl(None, cdnUrl);
    var title := if clubInfo.Some? && TruthyOptStr(clubInfo.value.title) then clubInfo.value.title.value
                 else if clubShortId != [] then ClubWord + clubShortId
                 else "";
    var shortId := if clubInfo.Some? && TruthyShortId(clubInfo.value.shortId) then clubInfo.value.shortId.value
                   else IdText(clubShortId);
    ClubPreview(clubLocked && clubShortId != [] && clubInfo.Some?, logoUrl, title, shortId)
  }

  /** Whenever the preview card is shown it has a non-empty title and a
      truthy id to display. */
  lemma ShownPreviewIsLabelled(clubLocked: bool, clubShortId: string, clubInfo: Option<ClubInfo>, cdnUrl: string)
    requires Preview(clubLocked, clubShortId, clubInfo, cdnUrl).showClubPreview
    ensures Preview(clubLocked, clubShortId, clubInfo, cdnUrl).title != []
    ensures TruthyShortId(Some(Preview(clubLocked, clubShortId, clubInfo, cdnUrl).shortId))
  {
  }
}

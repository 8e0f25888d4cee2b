/** `resolveLogoUrl` (`src/components/SummarySection.tsx`, repeated verbatim
    in `src/components/FormSection.tsx`): turns a club's `logo` field into a
    URL, resolving relative paths against the CDN base and falling back to
    the default club avatar. */
module LogoUrl {
  import opened Js
  import opened Text

  /** The CDN used when the page does not configure one. */
  const DefaultCdn: string := "https:" + "//ppnards.ams3.cdn.digitaloceanspaces.com"

  /** The default club avatar, relative to the CDN base. */
  const FallbackPath: string := "/ppnards/default-avatars/club.png"

  /** `(cdnUrl || DefaultCdn).replace(/\/$/, '')`. */
  function BaseCdn(cdnUrl: string): (r: string)
    ensures cdnUrl == [] ==> r == DefaultCdn
    ensures cdnUrl != [] && EndsWith(cdnUrl, "/") ==> cdnUrl == r + "/"
    ensures cdnUrl != [] && !EndsWith(cdnUrl, "/") ==> r == cdnUrl
  {
    assert DefaultCdn[|DefaultCdn| - 1] == 'm';
    DropTrailingSlash(if cdnUrl != [] then cdnUrl else DefaultCdn)
  }

  /** ASCII lower-casing; the `i` flag of a regular expression without the
      `u` flag folds no other character onto an ASCII letter. */
  function LowerAscii(c: char): char {
    if 'A' <= c <= 'Z' then (c as int + 32) as char else c
  }

  /** `s` begins with the lower-case text `p`, ignoring ASCII case. */
  predicate StartsWithIgnoringCase(s: string, p: string) {
    |p| <= |s| && forall i :: 0 <= i < |p| ==> LowerAscii(s[i]) == p[i]
  }

  /** `/^https?:/i.test(s)`. */
  predicate IsHttpUrl(s: string) {
    StartsWithIgnoringCase(s, "http:") || StartsWithIgnoringCase(s, "https:")
  }

  function ResolveLogoUrl(raw: Option<string>, cdnUrl: string): (r: string)
    ensures !TruthyOptStr(raw) ==> r == BaseCdn(cdnUrl) + FallbackPath
    ensures TruthyOptStr(raw) && IsHttpUrl(raw.value) ==> r == raw.value
    ensures TruthyOptStr(raw) && !IsHttpUrl(raw.value) ==>
              r == BaseCdn(cdnUrl) + "/" + DropLeadingSlash(raw.value)
  {
    var baseCdn := BaseCdn(cdnUrl);
    if raw.None? || raw.value == [] then baseCdn + FallbackPath
    else if IsHttpUrl(raw.value) then raw.value
    else baseCdn + "/" + DropLeadingSlash(raw.value)
  }

  /** The CDN base keeps the scheme of an absolute CDN URL: removing one
      trailing slash never reaches the colon of `http:` or `https:`. */
  lemma BaseCdnKeepsScheme(cdnUrl: string)
    requires cdnUrl == [] || IsHttpUrl(cdnUrl)
    ensures IsHttpUrl(BaseCdn(cdnUrl))
  {
    var b := BaseCdn(cdnUrl);
    if cdnUrl == [] {
      forall i | 0 <= i < 6 ensures LowerAscii(b[i]) == "https:"[i] {
        assert b[i] == "https:"[i];
      }
    } else if EndsWith(cdnUrl, "/") {
      assert cdnUrl == b + "/";
      if StartsWithIgnoringCase(cdnUrl, "http:") {
        assert cdnUrl[4] == ':' by { assert LowerAscii(cdnUrl[4]) == ':'; }
        assert |b| >= 5;
        forall i | 0 <= i < 5 ensures LowerAscii(b[i]) == "http:"[i] {
          assert b[i] == cdnUrl[i];
        }
      } else {
        assert cdnUrl[5] == ':' by { assert LowerAscii(cdnUrl[5]) == ':'; }
        assert |b| >= 6;
        forall i | 0 <= i < 6 ensures LowerAscii(b[i]) == "https:"[i] {
          assert b[i] == cdnUrl[i];
        }
      }
    }
  }

  /** Appending to an absolute URL keeps it absolute. */
  lemma HttpUrlExtends(s: string, tail: string)
    requires IsHttpUrl(s)
    ensures IsHttpUrl(s + tail)
  {
    if StartsWithIgnoringCase(s, "http:") {
      forall i | 0 <= i < 5 ensures LowerAscii((s + tail)[i]) == "http:"[i] {
        assert (s + tail)[i] == s[i];
      }
    } else {
      forall i | 0 <= i < 6 ensures LowerAscii((s + tail)[i]) == "https:"[i] {
        assert (s + tail)[i] == s[i];
      }
    }
  }

  /** With the default CDN, or any absolute CDN URL, every logo resolves to
      an absolute URL, whatever the club's `logo` field holds. */
  lemma ResolvedLogoIsAbsolute(raw: Option<string>, cdnUrl: string)
    requires cdnUrl == [] || IsHttpUrl(cdnUrl)
    ensures IsHttpUrl(ResolveLogoUrl(raw, cdnUrl))
  {
    BaseCdnKeepsScheme(cdnUrl);
    var b := BaseCdn(cdnUrl);
    if !TruthyOptStr(raw) {
      HttpUrlExtends(b, FallbackPath);
    } else if !IsHttpUrl(raw.value) {
      HttpUrlExtends(b, "/" + DropLeadingSlash(raw.value));
      assert b + "/" + DropLeadingSlash(raw.value) == b + ("/" + DropLeadingSlash(raw.value));
    }
  }

  /** Resolving an already resolved logo changes nothing, for the default
      or any absolute CDN. */
  lemma ResolveIdempotent(raw: Option<string>, cdnUrl: string)
    requires cdnUrl == [] || IsHttpUrl(cdnUrl)
    ensures ResolveLogoUrl(Some(ResolveLogoUrl(raw, cdnUrl)), cdnUrl) == ResolveLogoUrl(raw, cdnUrl)
  {
    ResolvedLogoIsAbsolute(raw, cdnUrl);
  }
}

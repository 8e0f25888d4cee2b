/** `getApiUrl` (`src/config/api.config.ts`): joins the backend base URL and
    an endpoint path with exactly the one separating slash the two sides do
    not already supply. */
module ApiConfig {
  import opened Text

  /** `API_BASE_URL` when the build does not inject one. */
  const DefaultApiBase: string := "https://aa9be1c56c6b.ngrok-free.app/tg-club-chip-sales-ton/"

  /** `getApiUrl(path)` against the base URL `base`. */
  function GetApiUrl(base: string, path: string): (r: string)
    ensures EndsWith(base, "/") ==> StartsWith(r, base)
    ensures !EndsWith(base, "/") ==> StartsWith(r, base + "/")
    ensures StartsWith(path, "/") ==> EndsWith(r, path)
    ensures !StartsWith(path, "/") ==> EndsWith(r, "/" + path)
    ensures |r| == |base| + 1 + |path|
                   - (if EndsWith(base, "/") then 1 else 0)
                   - (if StartsWith(path, "/") then 1 else 0)
  {
    var cleanPath := DropLeadingSlash(path);
    var baseUrl := DropTrailingSlash(base);
    var r := baseUrl + "/" + cleanPath;
    assert r[..|baseUrl| + 1] == baseUrl + "/";
    assert r[|baseUrl|..] == "/" + cleanPath;
    r
  }

  /** Only one leading slash of the path is dropped, so a path that starts
      with a single slash addresses the same URL as the bare path. */
  lemma LeadingSlashIrrelevant(base: string, p: string)
    requires !StartsWith(p, "/")
    ensures GetApiUrl(base, "/" + p) == GetApiUrl(base, p)
  {
    assert StartsWith("/" + p, "/");
    assert ("/" + p)[1..] == p;
  }
}

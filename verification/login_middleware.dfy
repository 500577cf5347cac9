/** `LoginRequiredMiddleware` (core/middleware.py): anonymous requests may only
    reach the login page, the admin site and the static and media files;
    everything else is redirected to the login page. */
module LoginMiddleware {

  import opened Text

  /** The path prefixes an anonymous request may reach, matched with `startswith`. */
  const AllowPrefixes: seq<string> := ["/accounts/login", "/admin", "/static/", "/media/"]

  /** `_is_allowed`: the path starts with one of the allowed prefixes. */
  predicate IsAllowed(path: string)
  {
    exists i :: 0 <= i < |AllowPrefixes| && StartsWith(path, AllowPrefixes[i])
  }

  datatype Response = PassThrough | Redirect(location: string)

  /** `__call__`: authenticated or allowlisted requests go on to the view;
      the rest are sent to `loginUrl?next=<path>`, the path inserted as is. */
  function Handle(authenticated: bool, path: string, loginUrl: string): (r: Response)
    ensures r.PassThrough? <==> authenticated || IsAllowed(path)
    ensures r.Redirect? ==> r.location == loginUrl + "?next=" + path
  {
    if !authenticated && !IsAllowed(path) then Redirect(loginUrl + "?next=" + path) else PassThrough
  }

  /** An allowed path stays allowed however it is extended. */
  lemma ExtensionStaysAllowed(path: string, suffix: string)
    requires IsAllowed(path)
    ensures IsAllowed(path + suffix)
  {
    var i :| 0 <= i < |AllowPrefixes| && StartsWith(path, AllowPrefixes[i]);
    var p := AllowPrefixes[i];
    assert (path + suffix)[..|p|] == path[..|p|];
  }

  /** A path that differs from a prefix at some position does not start with it. */
  lemma DiffersAt(path: string, prefix: string, k: nat)
    requires k < |path| && k < |prefix| && path[k] != prefix[k]
    ensures !StartsWith(path, prefix)
  {
  }

  /** Plain prefix matching: "/administrator" gets through on "/admin", while
      "/static" without its slash does not, nor does the site root; an
      anonymous request elsewhere is redirected with its path as `next`. */
  lemma PrefixExamples()
    ensures IsAllowed("/administrator")
    ensures !IsAllowed("/static")
    ensures !IsAllowed("/")
    ensures Handle(false, "/orders/", "/accounts/login/") == Redirect("/accounts/login/?next=/orders/")
  {
    assert StartsWith("/administrator", AllowPrefixes[1]);
    DiffersAt("/static", AllowPrefixes[0], 1);
    DiffersAt("/static", AllowPrefixes[1], 1);
    assert !StartsWith("/static", AllowPrefixes[2]);
    DiffersAt("/static", AllowPrefixes[3], 1);
    DiffersAt("/orders/", AllowPrefixes[0], 1);
    DiffersAt("/orders/", AllowPrefixes[1], 1);
    DiffersAt("/orders/", AllowPrefixes[2], 1);
    DiffersAt("/orders/", AllowPrefixes[3], 1);
    assert "/accounts/login/" + "?next=" + "/orders/" == "/accounts/login/?next=/orders/";
  }
}

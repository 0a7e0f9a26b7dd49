/**
 * Resolution of an image path from the backend to something an <img>
 * can load: a placeholder when there is no path, absolute URLs as they
 * are, and anything else placed under the backend's base URL.
 */
module ImageUrl {
  import opened JsValues
  import opened JsStrings

  const DefaultImage: string := "/assets/image4.png"
  const BaseUrl: string := "http://10.10.7.111:5002"

  predicate IsAbsolute(path: string) {
    StartsWith(path, "http://") || StartsWith(path, "https://")
  }

  /** getImageUrl(path?). */
  function GetImageUrl(path: Option<string>): (url: string)
    ensures !Truthy(path) ==> url == DefaultImage
    ensures Truthy(path) && IsAbsolute(path.value) ==> url == path.value
    ensures Truthy(path) && !IsAbsolute(path.value) ==> url == BaseUrl + "/" + path.value
    ensures url != ""
  {
    if !Truthy(path) then DefaultImage
    else if IsAbsolute(path.value) then path.value
    else BaseUrl + "/" + path.value
  }

  /** A given path always survives as the tail of the URL; a leading '/' is not collapsed. */
  lemma PathIsSuffix(path: string)
    requires path != ""
    ensures |path| <= |GetImageUrl(Some(path))|
    ensures GetImageUrl(Some(path))[|GetImageUrl(Some(path))| - |path|..] == path
  {
  }

  /** Every URL made from a non-empty path is absolute. */
  lemma ResolvedIsAbsolute(path: string)
    requires path != ""
    ensures IsAbsolute(GetImageUrl(Some(path)))
  {
    var url := GetImageUrl(Some(path));
    if !IsAbsolute(path) {
      assert url[..7] == "http://";
    }
  }

  /** Resolving a resolved non-empty path again changes nothing. */
  lemma ResolveIdempotent(path: string)
    requires path != ""
    ensures GetImageUrl(Some(GetImageUrl(Some(path)))) == GetImageUrl(Some(path))
  {
    ResolvedIsAbsolute(path);
  }

  /** The placeholder is relative, so resolving it again prefixes the base URL. */
  lemma DefaultNotIdempotent()
    ensures GetImageUrl(Some(GetImageUrl(None))) == "http://10.10.7.111:5002//assets/image4.png"
    ensures GetImageUrl(Some(GetImageUrl(None))) != GetImageUrl(None)
  {
    assert !IsAbsolute(DefaultImage) by {
      assert DefaultImage[0] == '/' && "http://"[0] == 'h' && "https://"[0] == 'h';
      assert DefaultImage[..7][0] != "http://"[0];
      assert DefaultImage[..8][0] != "https://"[0];
    }
  }
}

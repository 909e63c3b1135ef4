/** Object keys and public URLs of the file store
    (src/services/storage/r2.client.ts): `uploadFile` stores an object under
    `folder/fileName` and returns its public URL; `deleteFile` recovers the key
    from such a URL. The object-store requests themselves are not modelled;
    the random identifier for an unnamed file is a parameter. */
module R2Client {
  import opened Common

  const DefaultFolder := "other"

  /** The key `uploadFile` stores under: the folder (default "other"), a
      slash, then the file name, or the fresh identifier when the name is empty. */
  function ObjectKey(folder: Option<string>, fileName: Option<string>, freshId: string): (key: string)
    ensures key == folder.GetOr(DefaultFolder) + "/" + (if Truthy(fileName) then fileName.value else freshId)
    ensures StartsWith(key, folder.GetOr(DefaultFolder) + "/")
  {
    var prefix := folder.GetOr(DefaultFolder) + "/";
    var name := if Truthy(fileName) then fileName.value else freshId;
    assert (prefix + name)[..|prefix|] == prefix;
    prefix + name
  }

  /** The URL `uploadFile` returns for a key. */
  function PublicUrlFor(publicUrl: string, key: string): (url: string)
    ensures StartsWith(url, publicUrl) && |url| == |publicUrl| + 1 + |key|
    ensures url[|publicUrl|] == '/' && url[|publicUrl| + 1..] == key
  {
    var url := publicUrl + "/" + key;
    assert url[..|publicUrl|] == publicUrl;
    url
  }

  /** The key `deleteFile` deletes: `None` when the URL is not under the public
      URL (the call is skipped); otherwise the URL past the public URL and one
      more character, clamped to the end of the URL. */
  function KeyToDelete(publicUrl: string, url: string): (key: Option<string>)
    ensures key.None? <==> !StartsWith(url, publicUrl)
    ensures key.Some? && |url| > |publicUrl| ==> key.value == url[|publicUrl| + 1..]
    ensures key.Some? && |url| == |publicUrl| ==> key.value == ""
  {
    if !StartsWith(url, publicUrl) then None
    else if |publicUrl| + 1 <= |url| then Some(url[|publicUrl| + 1..])
    else Some("")
  }

  /** Deleting by the URL an upload returned deletes the object that upload stored. */
  lemma DeleteFindsUploadedKey(publicUrl: string, folder: Option<string>, fileName: Option<string>, freshId: string)
    ensures var key := ObjectKey(folder, fileName, freshId);
      KeyToDelete(publicUrl, PublicUrlFor(publicUrl, key)) == Some(key)
  {
  }

  /** The character after the public URL is dropped unexamined: a URL that
      merely extends the public URL's last path segment still yields a key. */
  lemma SeparatorNotChecked(publicUrl: string, rest: string, c: char)
    requires c != '/'
    ensures KeyToDelete(publicUrl, publicUrl + [c] + rest) == Some(rest)
  {
    var url := publicUrl + [c] + rest;
    assert url[..|publicUrl|] == publicUrl;
    assert url[|publicUrl| + 1..] == rest;
  }

  /** Distinct keys give distinct URLs, so deleting one upload never deletes another. */
  lemma UrlsDistinguishKeys(publicUrl: string, k1: string, k2: string)
    requires k1 != k2
    ensures PublicUrlFor(publicUrl, k1) != PublicUrlFor(publicUrl, k2)
  {
  }
}

/**
 * Media handling of app.py: rewriting a provider media URL onto the
 * account's own host, choosing the extension and the file name of a
 * download, and `download_file` itself with the HTTP GET as a parameter.
 */
module Media {
  import opened Wrappers
  import opened Text

  /** The path marker kept when a media URL is moved to the account's host. */
  const Marker: string := "/whatsapp"

  /** INFOBIP_BASE_URL when the environment does not set it. */
  const DefaultBaseUrl: string := "https://m3n6y4.api.infobip.com"

  /** The name used when neither a caption nor the URL gives one. */
  const FallbackFilename: string := "whatsapp-file"

  /**
   * `normalize_infobip_media_url`: an empty URL or one without "/whatsapp" is
   * kept; otherwise everything before the first "/whatsapp" is replaced by
   * `base`.
   */
  function NormalizeMediaUrl(base: string, raw: string): (url: string)
    ensures raw == "" ==> url == ""
    ensures url != raw ==>
      && |base + Marker| <= |url| && url[..|base + Marker|] == base + Marker
      && EndsWith(raw, url[|base + Marker|..])
  {
    if raw == "" then raw
    else match FindFirst(raw, Marker)
      case None => raw
      case Some(i) => base + Marker + raw[i + |Marker|..]
  }

  /** The three outcomes of the rewrite, each with what it keeps of the input. */
  lemma NormalizeMediaUrlCases(base: string, raw: string)
    ensures raw == "" ==> NormalizeMediaUrl(base, raw) == ""
    ensures (forall j :: !OccursAt(raw, Marker, j)) ==> NormalizeMediaUrl(base, raw) == raw
    ensures forall i ::
              OccursAt(raw, Marker, i) && (forall j :: 0 <= j < i ==> !OccursAt(raw, Marker, j))
              ==> NormalizeMediaUrl(base, raw) == base + raw[i..]
  {
    forall i | OccursAt(raw, Marker, i) && (forall j :: 0 <= j < i ==> !OccursAt(raw, Marker, j))
      ensures NormalizeMediaUrl(base, raw) == base + raw[i..]
    {
      NormalizeAtFirst(base, raw, i);
    }
  }

  /** With its first "/whatsapp" at `i`, the URL keeps everything from `i` on, behind `base`. */
  lemma NormalizeAtFirst(base: string, raw: string, i: nat)
    requires OccursAt(raw, Marker, i) && forall j :: 0 <= j < i ==> !OccursAt(raw, Marker, j)
    ensures NormalizeMediaUrl(base, raw) == base + raw[i..]
  {
    var k := FindFirst(raw, Marker);
    assert k == Some(i) by {
      assert k.Some?;
      assert k.value <= i;
    }
    assert raw[i..] == Marker + raw[i + |Marker|..];
  }

  /**
   * When `base` itself holds no "/whatsapp" (its first occurrence in
   * `base + "/whatsapp"` is the appended one), a rewritten URL is rewritten
   * to itself.
   */
  lemma {:induction false} NormalizeMediaUrlIdempotent(base: string, raw: string)
    requires FindFirst(base + Marker, Marker) == Some(|base|)
    ensures NormalizeMediaUrl(base, NormalizeMediaUrl(base, raw)) == NormalizeMediaUrl(base, raw)
  {
    var url := NormalizeMediaUrl(base, raw);
    if url != raw {
      var i := FindFirst(raw, Marker).value;
      var path := raw[i + |Marker|..];
      assert url == (base + Marker) + path;
      forall j | 0 <= j < |base|
        ensures !OccursAt(url, Marker, j)
      {
        assert !OccursAt(base + Marker, Marker, j);
        assert url[j..j + |Marker|] == (base + Marker)[j..j + |Marker|];
      }
      assert OccursAt(url, Marker, |base|) by {
        assert url[|base|..|base| + |Marker|] == Marker;
      }
      var k := FindFirst(url, Marker);
      assert k == Some(|base|);
      assert url[|base| + |Marker|..] == path;
    }
  }

  /** The default host holds no "/whatsapp", so URLs rewritten onto it are stable. */
  lemma DefaultBaseUrlIsStable()
    ensures FindFirst(DefaultBaseUrl + Marker, Marker) == Some(|DefaultBaseUrl|)
  {
    var s := DefaultBaseUrl + Marker;
    assert 'w' !in DefaultBaseUrl;
    forall j | 0 <= j < |DefaultBaseUrl|
      ensures !OccursAt(s, Marker, j)
    {
      assert s[j + 1] != 'w' by {
        if j + 1 < |DefaultBaseUrl| {
          assert s[j + 1] == DefaultBaseUrl[j + 1];
        } else {
          assert s[j + 1] == Marker[0];
        }
      }
      if j + |Marker| <= |s| {
        assert s[j..j + |Marker|][1] == s[j + 1];
      }
    }
    assert OccursAt(s, Marker, |DefaultBaseUrl|) by {
      assert s[|DefaultBaseUrl|..|DefaultBaseUrl| + |Marker|] == Marker;
    }
  }

  /**
   * The extension taken from the Content-Type header, by first match in the
   * order jpeg, jpg, png, pdf, gif; "" when none occurs.
   */
  function Extension(contentType: string): (ext: string)
    ensures ext == "" || ext == ".jpg" || ext == ".png" || ext == ".pdf" || ext == ".gif"
  {
    var ct := Lower(contentType);
    if Contains(ct, "jpeg") then ".jpg"
    else if Contains(ct, "jpg") then ".jpg"
    else if Contains(ct, "png") then ".png"
    else if Contains(ct, "pdf") then ".pdf"
    else if Contains(ct, "gif") then ".gif"
    else ""
  }

  /**
   * The first keyword found in the lowered Content-Type, in the order jpeg,
   * jpg, png, pdf, gif, decides the extension; none found gives none.
   */
  lemma ExtensionChoice(contentType: string)
    ensures var ext := Extension(contentType); var ct := Lower(contentType);
      && (ext == ".jpg" <==> Contains(ct, "jpeg") || Contains(ct, "jpg"))
      && (ext == ".png" <==> !Contains(ct, "jpeg") && !Contains(ct, "jpg") && Contains(ct, "png"))
      && (ext == ".pdf" <==> !Contains(ct, "jpeg") && !Contains(ct, "jpg") && !Contains(ct, "png") && Contains(ct, "pdf"))
      && (ext == ".gif" <==>
            !Contains(ct, "jpeg") && !Contains(ct, "jpg") && !Contains(ct, "png") && !Contains(ct, "pdf")
            && Contains(ct, "gif"))
      && (ext == "" <==> !Contains(ct, "jpeg") && !Contains(ct, "jpg") && !Contains(ct, "png")
                          && !Contains(ct, "pdf") && !Contains(ct, "gif"))
  {
  }

  lemma ExtensionIsLower(contentType: string)
    ensures Lower(Extension(contentType)) == Extension(contentType)
  {
    assert Lower(".jpg") == ".jpg";
    assert Lower(".png") == ".png";
    assert Lower(".pdf") == ".pdf";
    assert Lower(".gif") == ".gif";
  }

  /** The name before any extension: the caption, else the URL's last segment, else the fallback. */
  function BaseFilename(finalUrl: string, suggested: string): (name: string)
    ensures name != ""
    ensures suggested != "" ==> name == suggested
    ensures suggested == "" ==> name == (if LastSegment(finalUrl) != "" then LastSegment(finalUrl) else FallbackFilename)
    ensures suggested == "" && name != FallbackFilename ==> '/' !in name && EndsWith(finalUrl, name)
  {
    if suggested != "" then suggested
    else
      var seg := LastSegment(finalUrl);
      if seg != "" then seg else FallbackFilename
  }

  /** Appends `ext` unless it is empty or the name already ends with it, ignoring ASCII case. */
  function WithExtension(name: string, ext: string): (file: string)
    ensures |name| <= |file| <= |name| + |ext| && file[..|name|] == name
  {
    if ext != "" && !EndsWith(Lower(name), ext) then name + ext else name
  }

  /**
   * The result starts with the name, ends with the extension (ignoring case)
   * when there is one, and adding the same extension again changes nothing.
   */
  lemma WithExtensionProperties(name: string, ext: string)
    requires Lower(ext) == ext
    ensures var file := WithExtension(name, ext);
      && (ext != "" && !EndsWith(Lower(name), ext) ==> file == name + ext)
      && (ext == "" || EndsWith(Lower(name), ext) ==> file == name)
      && (ext != "" ==> EndsWith(Lower(file), ext))
      && WithExtension(file, ext) == file
  {
    var file := WithExtension(name, ext);
    if ext != "" && !EndsWith(Lower(name), ext) {
      LowerAppend(name, ext);
      assert Lower(file)[|Lower(file)| - |ext|..] == ext;
    }
  }

  /** The file name `download_file` returns for a successful download. */
  function DownloadFilename(finalUrl: string, suggested: string, contentType: string): (file: string)
    ensures var name := BaseFilename(finalUrl, suggested); var ext := Extension(contentType);
      && (ext != "" && !EndsWith(Lower(name), ext) ==> file == name + ext)
      && (ext == "" || EndsWith(Lower(name), ext) ==> file == name)
      && (ext != "" ==> EndsWith(Lower(file), ext))
    ensures file != ""
  {
    ExtensionIsLower(contentType);
    WithExtensionProperties(BaseFilename(finalUrl, suggested), Extension(contentType));
    WithExtension(BaseFilename(finalUrl, suggested), Extension(contentType))
  }

  /** What the HTTP GET of a media URL gives back: a transport failure or a response. */
  datatype FetchResult = TransportError | Response(status: int, contentType: string, body: seq<bv8>)

  /** `resp.raise_for_status()` raises for client and server errors. */
  predicate IsHttpError(status: int)
  {
    400 <= status < 600
  }

  /**
   * `download_file(url, suggested_filename)`: no payload and no name for an
   * empty URL, a transport failure or an HTTP error; otherwise the body and
   * the chosen file name. The GET is `fetch`, applied to the rewritten URL.
   */
  function DownloadFile(fetch: string -> FetchResult, base: string, url: string, suggested: string)
    : (r: (Option<seq<bv8>>, string))
    ensures r.0.None? <==> r.1 == ""
    ensures url == "" ==> r.0.None?
    ensures r.0.Some? ==>
      var final := NormalizeMediaUrl(base, url);
      && fetch(final).Response?
      && !IsHttpError(fetch(final).status)
      && r.0.value == fetch(final).body
      && r.1 == DownloadFilename(final, suggested, fetch(final).contentType)
    ensures (url != "" && fetch(NormalizeMediaUrl(base, url)).Response?
             && !IsHttpError(fetch(NormalizeMediaUrl(base, url)).status)) ==> r.0.Some?
  {
    if url == "" then (None, "")
    else
      var final := NormalizeMediaUrl(base, url);
      match fetch(final)
      case TransportError => (None, "")
      case Response(status, contentType, body) =>
        if IsHttpError(status) then (None, "")
        else (Some(body), DownloadFilename(final, suggested, contentType))
  }
}

/** `CompoundOpener`: which opener a file path is handed to. The HTTP and S3 clients are
    not modelled; the result says which of them would be called, with what. */
module Opener {
  import opened Wrappers
  import opened Text

  /** The parts of a parsed URL this code looks at (`url.URL`). */
  datatype Url = Url(scheme: string, host: string, path: string)

  /** A call into one of the two concrete openers. */
  datatype Request = HttpOpen(url: string) | S3Open(bucket: string, key: string)

  /** Which openers are configured, and the bucket for bare keys. */
  datatype Config = Config(hasHttp: bool, hasS3: bool, defaultBucket: string)

  const ErrHttpMissing := "http opener not configured"
  const ErrS3Missing := "s3 opener not configured"
  const ErrNoBucket := "missing bucket: pass s3://bucket/key or https url"

  predicate IsHttpPath(fp: string) {
    HasPrefix(fp, "http://") || HasPrefix(fp, "https://")
  }

  /** `parseS3URL`; `parseUrl` stands for `url.Parse` and `clean` for `path.Clean`. */
  function ParseS3Url(raw: string, parseUrl: string -> Result<Url>, clean: string -> string): (r: Result<(string, string)>)
    ensures parseUrl(raw).Err? ==> r == Err(parseUrl(raw).error)
    ensures parseUrl(raw).Ok? && parseUrl(raw).value.scheme != "s3" ==> r == Err("scheme must be s3")
    ensures r.Ok? ==> (parseUrl(raw).Ok? && parseUrl(raw).value.scheme == "s3"
      && r.value.0 == parseUrl(raw).value.host && r.value.0 != ""
      && r.value.1 == clean(TrimPrefix(parseUrl(raw).value.path, "/"))
      && r.value.1 != "" && r.value.1 != "." && r.value.1 != "/")
    ensures parseUrl(raw).Ok? && parseUrl(raw).value.scheme == "s3" && r.Err? ==> r.error == "empty bucket or key"
  {
    match parseUrl(raw)
    case Err(e) => Err(e)
    case Ok(u) =>
      if u.scheme != "s3" then Err("scheme must be s3")
      else
        var key := clean(TrimPrefix(u.path, "/"));
        if u.host == "" || key == "" || key == "." || key == "/" then Err("empty bucket or key")
        else Ok((u.host, key))
  }

  /** `CompoundOpener.Open`: the trimmed path picks the opener by its prefix. */
  function Open(c: Config, filePath: string, parseUrl: string -> Result<Url>, clean: string -> string): (r: Result<Request>)
    ensures var fp := TrimSpace(filePath);
      (IsHttpPath(fp) ==> r == if c.hasHttp then Ok(HttpOpen(fp)) else Err(ErrHttpMissing))
      && (!IsHttpPath(fp) && HasPrefix(fp, "s3://") && !c.hasS3 ==> r == Err(ErrS3Missing))
      && (!IsHttpPath(fp) && HasPrefix(fp, "s3://") && c.hasS3 ==>
            r == (match ParseS3Url(fp, parseUrl, clean)
                  case Ok(bk) => Ok(S3Open(bk.0, bk.1))
                  case Err(e) => Err(e)))
      && (!IsHttpPath(fp) && !HasPrefix(fp, "s3://") ==>
            r == if c.hasS3 && c.defaultBucket != "" then Ok(S3Open(c.defaultBucket, fp)) else Err(ErrNoBucket))
  {
    var fp := TrimSpace(filePath);
    if IsHttpPath(fp) then
      if !c.hasHttp then Err(ErrHttpMissing) else Ok(HttpOpen(fp))
    else if HasPrefix(fp, "s3://") then
      if !c.hasS3 then Err(ErrS3Missing)
      else match ParseS3Url(fp, parseUrl, clean)
        case Err(e) => Err(e)
        case Ok(bk) => Ok(S3Open(bk.0, bk.1))
    else if !c.hasS3 || c.defaultBucket == "" then Err(ErrNoBucket)
    else Ok(S3Open(c.defaultBucket, fp))
  }

  /** Whatever opener is chosen, it only ever receives a non-empty bucket and a key that is
      not empty, "." or "/" when the path was an s3:// URL. */
  lemma OpenS3Arguments(c: Config, filePath: string, parseUrl: string -> Result<Url>, clean: string -> string)
    requires Open(c, filePath, parseUrl, clean).Ok? && Open(c, filePath, parseUrl, clean).value.S3Open?
    ensures var q := Open(c, filePath, parseUrl, clean).value;
      q.bucket != "" && (HasPrefix(TrimSpace(filePath), "s3://") ==> q.key != "" && q.key != "." && q.key != "/")
  {
  }

  /** Surrounding white space never changes where a path goes. */
  lemma OpenIgnoresSurroundingSpace(c: Config, filePath: string, parseUrl: string -> Result<Url>, clean: string -> string)
    ensures Open(c, TrimSpace(filePath), parseUrl, clean) == Open(c, filePath, parseUrl, clean)
  {
    TrimSpaceIdempotent(filePath);
  }
}

/** Uploaded media rows and their clean-up on the image host. */
module MediaService {
  import opened Common
  import opened Store
  import opened Query

  // ---------------------------------------------------------------- the public id of a hosted file

  /** The path segment after which the host's URLs carry the public id. */
  const UPLOAD := "/upload/"

  predicate IsDigit(c: char) { '0' <= c <= '9' }

  /** The characters a regular-expression `.` does not match. */
  predicate LineTerminator(c: char)
  {
    c == '\n' || c == '\r' || c == '\U{2028}' || c == '\U{2029}'
  }

  predicate NoLineTerminator(s: string) { forall i :: 0 <= i < |s| ==> !LineTerminator(s[i]) }
  predicate NoDot(s: string) { forall i :: 0 <= i < |s| ==> s[i] != '.' }

  /** `/upload/` occurs in `s` at index `k`. */
  predicate UploadAt(s: string, k: nat)
  {
    k + |UPLOAD| <= |s| && s[k..k + |UPLOAD|] == UPLOAD
  }

  /** No `.` at or after index `from`. */
  predicate NoDotFrom(s: string, from: nat) { forall k :: from <= k < |s| ==> s[k] != '.' }

  /** The index of the last `.` among the first `n` characters of `s`. */
  function LastDotBefore(s: string, n: nat): (r: Option<nat>)
    requires n <= |s|
    ensures r.Some? ==> r.value < n && s[r.value] == '.' && forall k :: r.value < k < n ==> s[k] != '.'
    ensures r.None? ==> forall k :: 0 <= k < n ==> s[k] != '.'
  {
    if n == 0 then None
    else if s[n - 1] == '.' then Some(n - 1)
    else LastDotBefore(s, n - 1)
  }

  /** The index of the last `.` of `s`, if it has one. */
  function LastDot(s: string): (r: Option<nat>)
    ensures r.Some? ==> r.value < |s| && s[r.value] == '.' && NoDotFrom(s, r.value + 1)
    ensures r.None? ==> NoDot(s)
  {
    LastDotBefore(s, |s|)
  }

  /** The end of the run of digits that starts at index `i`. */
  function DigitRun(s: string, i: nat): (j: nat)
    requires i <= |s|
    ensures i <= j <= |s| && (j == |s| || !IsDigit(s[j]))
    ensures forall k :: i <= k < j ==> IsDigit(s[k])
    decreases |s| - i
  {
    if i < |s| && IsDigit(s[i]) then DigitRun(s, i + 1) else i
  }

  /** The length of a `v<digits>/` version prefix of `s`, or 0 when `s` does not start with one. */
  function VersionLength(s: string): (n: nat)
    ensures n == 0 || (3 <= n <= |s| && s[0] == 'v' && s[n - 1] == '/')
    ensures n > 0 ==> forall k :: 1 <= k < n - 1 ==> IsDigit(s[k])
  {
    if 1 <= |s| && s[0] == 'v' then
      var d := DigitRun(s, 1);
      if 1 < d < |s| && s[d] == '/' then d + 1 else 0
    else 0
  }

  /**
   * `(.+)\.[^.]+$` matched at the start of `s`: the name is everything before the last dot, which
   * must be non-empty and free of line terminators, and the extension after it must be non-empty.
   */
  function NameBeforeExtension(s: string): (r: Option<string>)
    ensures r.Some? ==> LastDot(s).Some? && 0 < LastDot(s).value < |s| - 1 && r.value == s[..LastDot(s).value]
    ensures r.Some? ==> |r.value| > 0 && NoLineTerminator(r.value)
  {
    match LastDot(s)
    case None => None
    case Some(d) =>
      if d == 0 || d == |s| - 1 || !NoLineTerminator(s[..d]) then None else Some(s[..d])
  }

  /** What follows `/upload/`: the optional version group is tried first and dropped when the rest fails with it. */
  function AfterUpload(s: string): (r: Option<string>)
  {
    var v := VersionLength(s);
    if v > 0 && NameBeforeExtension(s[v..]).Some? then NameBeforeExtension(s[v..]) else NameBeforeExtension(s)
  }

  /** The leftmost `/upload/` at or after `i` after which the rest of the pattern matches. */
  function MatchFrom(url: string, i: nat): (r: Option<string>)
    requires i <= |url|
    ensures r.Some? ==> |r.value| > 0 && NoLineTerminator(r.value)
    decreases |url| - i
  {
    if i + |UPLOAD| > |url| then None
    else if UploadAt(url, i) && AfterUpload(url[i + |UPLOAD|..]).Some? then AfterUpload(url[i + |UPLOAD|..])
    else MatchFrom(url, i + 1)
  }

  /**
   * getPublicIdFromUrl: the text after `/upload/`, without a leading `v<digits>/`, up to the final
   * `.ext`; None when the URL has no such part.
   */
  function PublicIdFromUrl(url: string): (r: Option<string>)
    ensures r.Some? ==> |r.value| > 0 && NoLineTerminator(r.value)
  {
    MatchFrom(url, 0)
  }

  /** A dot with no dot after it is the last dot. */
  lemma LastDotIs(s: string, d: nat)
    requires d < |s| && s[d] == '.' && NoDotFrom(s, d + 1)
    ensures LastDot(s) == Some(d)
  {
    assert !NoDot(s);
  }

  /** Positions without `/upload/` are passed over. */
  lemma {:induction false} SkipTo(url: string, i: nat, j: nat)
    requires i <= j <= |url|
    requires forall k :: i <= k < j ==> !UploadAt(url, k)
    ensures MatchFrom(url, i) == MatchFrom(url, j)
    decreases j - i
  {
    if i < j {
      SkipTo(url, i + 1, j);
    }
  }

  /** A name, a dot and an extension without dots: the name is what the pattern captures. */
  lemma NameThenExtension(id: string, ext: string)
    requires |id| > 0 && NoLineTerminator(id)
    requires |ext| > 0 && NoDot(ext)
    ensures NameBeforeExtension(id + "." + ext) == Some(id)
  {
    var s := id + "." + ext;
    forall k | |id| + 1 <= k < |s|
      ensures s[k] != '.'
    {
      assert s[k] == ext[k - |id| - 1];
    }
    LastDotIs(s, |id|);
    assert s[..|id|] == id;
  }

  lemma {:induction false} DigitRunReaches(s: string, i: nat, j: nat)
    requires i <= j < |s|
    requires forall k :: i <= k < j ==> IsDigit(s[k])
    requires !IsDigit(s[j])
    ensures DigitRun(s, i) == j
    decreases j - i
  {
    if i < j {
      DigitRunReaches(s, i + 1, j);
    }
  }

  /** `v<digits>/` in front of anything is a version prefix of exactly that length. */
  lemma VersionPrefix(version: string, rest: string)
    requires |version| > 0 && forall i :: 0 <= i < |version| ==> IsDigit(version[i])
    ensures VersionLength("v" + version + "/" + rest) == |version| + 2
    ensures ("v" + version + "/" + rest)[|version| + 2..] == rest
  {
    var s := "v" + version + "/" + rest;
    assert forall k :: 1 <= k < |version| + 1 ==> s[k] == version[k - 1];
    assert s[|version| + 1] == '/';
    DigitRunReaches(s, 1, |version| + 1);
  }

  /** A string that does not start with `v` has no version prefix. */
  lemma NoVersionWithoutV(s: string)
    requires |s| == 0 || s[0] != 'v'
    ensures VersionLength(s) == 0
  {
  }

  /** When `/upload/` first occurs right after `base`, the match is decided by what follows it. */
  lemma {:induction false} FirstUpload(base: string, rest: string)
    requires forall k :: 0 <= k < |base| ==> !UploadAt(base + UPLOAD, k)
    requires AfterUpload(rest).Some?
    ensures PublicIdFromUrl(base + UPLOAD + rest) == AfterUpload(rest)
  {
    var url := base + UPLOAD + rest;
    forall k | 0 <= k < |base|
      ensures !UploadAt(url, k)
    {
      if UploadAt(url, k) {
        assert url[k..k + |UPLOAD|] == (base + UPLOAD)[k..k + |UPLOAD|];
        assert UploadAt(base + UPLOAD, k);
      }
    }
    SkipTo(url, 0, |base|);
    assert url[|base|..|base| + |UPLOAD|] == UPLOAD;
    assert url[|base| + |UPLOAD|..] == rest;
  }

  /** The URL the host hands out for a versioned upload yields the public id it was built from. */
  lemma {:induction false} VersionedUrlRoundTrip(base: string, version: string, id: string, ext: string)
    requires forall k :: 0 <= k < |base| ==> !UploadAt(base + UPLOAD, k)
    requires |version| > 0 && forall i :: 0 <= i < |version| ==> IsDigit(version[i])
    requires |id| > 0 && NoLineTerminator(id)
    requires |ext| > 0 && NoDot(ext)
    ensures PublicIdFromUrl(base + UPLOAD + ("v" + version + "/" + (id + "." + ext))) == Some(id)
  {
    var name := id + "." + ext;
    var rest := "v" + version + "/" + name;
    VersionPrefix(version, name);
    NameThenExtension(id, ext);
    assert rest[|version| + 2..] == name;
    assert AfterUpload(rest) == Some(id);
    FirstUpload(base, rest);
  }

  /** Without a version segment the public id comes back too, provided it does not start with `v`. */
  lemma {:induction false} UnversionedUrlRoundTrip(base: string, id: string, ext: string)
    requires forall k :: 0 <= k < |base| ==> !UploadAt(base + UPLOAD, k)
    requires |id| > 0 && NoLineTerminator(id) && id[0] != 'v'
    requires |ext| > 0 && NoDot(ext)
    ensures PublicIdFromUrl(base + UPLOAD + (id + "." + ext)) == Some(id)
  {
    var rest := id + "." + ext;
    NoVersionWithoutV(rest);
    NameThenExtension(id, ext);
    FirstUpload(base, rest);
  }

  /** No `/` in `s` is directly followed by `u`. */
  predicate NoSlashU(s: string)
  {
    forall k :: 0 <= k < |s| - 1 ==> s[k] != '/' || s[k + 1] != 'u'
  }

  /** A host part without `/u` and not ending in `/` cannot hold the start of an `/upload/`. */
  lemma NoSlashUHasNoUpload(base: string)
    requires NoSlashU(base) && (|base| == 0 || base[|base| - 1] != '/')
    ensures forall k :: 0 <= k < |base| ==> !UploadAt(base + UPLOAD, k)
  {
    var s := base + UPLOAD;
    forall k | 0 <= k < |base|
      ensures !UploadAt(s, k)
    {
      UploadStartsWithSlashU(s, k);
      if k + 1 < |base| {
        assert s[k] == base[k] && s[k + 1] == base[k + 1];
      } else {
        assert s[k] == base[k];
      }
    }
  }

  lemma UploadStartsWithSlashU(s: string, k: nat)
    ensures UploadAt(s, k) ==> s[k] == '/' && s[k + 1] == 'u'
  {
    if UploadAt(s, k) {
      assert s[k..k + |UPLOAD|][0] == s[k] && s[k..k + |UPLOAD|][1] == s[k + 1];
    }
  }

  /** Without an `/upload/` segment there is no public id. */
  lemma {:induction false} NoUploadNoId(url: string, i: nat)
    requires i <= |url|
    requires forall k :: !UploadAt(url, k)
    ensures MatchFrom(url, i).None?
    decreases |url| - i
  {
    if i + |UPLOAD| <= |url| {
      NoUploadNoId(url, i + 1);
    }
  }

  /** Without a dot there is no public id either: the extension is required. */
  lemma {:induction false} NoDotNoId(url: string, i: nat)
    requires i <= |url|
    requires NoDot(url)
    ensures MatchFrom(url, i).None?
    decreases |url| - i
  {
    if i + |UPLOAD| <= |url| {
      var s := url[i + |UPLOAD|..];
      assert NoDot(s) by {
        forall j | 0 <= j < |s| ensures s[j] != '.' { assert s[j] == url[i + |UPLOAD| + j]; }
      }
      var v := VersionLength(s);
      assert NoDot(s[v..]) by {
        forall j | 0 <= j < |s| - v ensures s[v..][j] != '.' { assert s[v..][j] == s[v + j]; }
      }
      NoDotNoId(url, i + 1);
    }
  }

  /** The last dot of a suffix is the last dot of the whole string. */
  lemma LastDotOfSuffix(s: string, m: nat, d: nat)
    requires m <= |s| && LastDot(s[m..]) == Some(d)
    ensures LastDot(s) == Some(m + d)
  {
    var t := s[m..];
    assert s[m + d] == t[d];
    forall k | m + d + 1 <= k < |s|
      ensures s[k] != '.'
    {
      assert s[k] == t[k - m];
    }
    LastDotIs(s, m + d);
  }

  /** A name captured from a suffix of the URL ends right before the URL's last dot. */
  lemma CaptureInSuffix(url: string, m: nat, r: string)
    requires m <= |url| && NameBeforeExtension(url[m..]) == Some(r)
    ensures m + |r| < |url| - 1 && LastDot(url) == Some(m + |r|) && url[m..m + |r|] == r
  {
    var t := url[m..];
    var dt := LastDot(t).value;
    assert r == t[..dt] && dt < |t| - 1;
    LastDotOfSuffix(url, m, dt);
    assert url[m..m + dt] == t[..dt];
  }

  /** A name captured after an `/upload/` ending at `m` ends right before the URL's last dot. */
  lemma HitSound(url: string, m: nat, r: string)
    requires m <= |url| && AfterUpload(url[m..]) == Some(r)
    ensures var d := LastDot(url);
      d.Some? && d.value < |url| - 1 && |r| <= d.value && url[d.value - |r|..d.value] == r
  {
    var s := url[m..];
    var v := VersionLength(s);
    var k := if v > 0 && NameBeforeExtension(s[v..]).Some? then m + v else m;
    assert s[v..] == url[m + v..];
    assert NameBeforeExtension(url[k..]) == Some(r);
    CaptureInSuffix(url, k, r);
    assert (k + |r|) - |r| == k;
  }

  lemma {:induction false} MatchSound(url: string, i: nat)
    requires i <= |url|
    ensures var r := MatchFrom(url, i);
      r.Some? ==> exists k :: i <= k && UploadAt(url, k)
    ensures var r := MatchFrom(url, i); var d := LastDot(url);
      r.Some? ==> d.Some? && d.value < |url| - 1 && |r.value| <= d.value && url[d.value - |r.value|..d.value] == r.value
    decreases |url| - i
  {
    if i + |UPLOAD| <= |url| {
      if UploadAt(url, i) && AfterUpload(url[i + |UPLOAD|..]).Some? {
        HitSound(url, i + |UPLOAD|, AfterUpload(url[i + |UPLOAD|..]).value);
      } else {
        MatchSound(url, i + 1);
      }
    }
  }

  /**
   * Whatever getPublicIdFromUrl returns comes after an `/upload/` of the URL and ends right before
   * the URL's final `.ext`.
   */
  lemma PublicIdIsBeforeTheExtension(url: string)
    requires PublicIdFromUrl(url).Some?
    ensures exists k :: UploadAt(url, k)
    ensures var r := PublicIdFromUrl(url).value; var d := LastDot(url);
      d.Some? && d.value < |url| - 1 && |r| <= d.value && url[d.value - |r|..d.value] == r
  {
    MatchSound(url, 0);
  }

  // ---------------------------------------------------------------- media rows

  datatype UploadMediaDto = UploadMediaDto(
    filename: string,
    mimeType: string,
    size: int,
    url: string,
    thumbnailUrl: Option<string>,
    width: Option<int>,
    height: Option<int>,
    duration: Option<int>)

  /** A request to the image host to destroy one stored file. */
  datatype Destroy = Destroy(publicId: string, resourceType: string)

  /** Video files are destroyed as videos, everything else as images. */
  function ResourceType(mimeType: string): (r: string)
    ensures r == "video" || r == "image"
    ensures r == "video" <==> |mimeType| >= 6 && mimeType[..6] == "video/"
  {
    if |mimeType| >= 6 && mimeType[..6] == "video/" then "video" else "image"
  }

  /** getMediaById: the row, or NotFound. */
  function GetMediaById(media: map<Id, Media>, mediaId: Id): (r: Result<Media>)
    ensures r.Ok? <==> mediaId in media
    ensures r.Ok? ==> r.value == media[mediaId]
    ensures r.Err? ==> r.error == NotFound("Media not found")
  {
    if mediaId in media then Ok(media[mediaId]) else Err(NotFound("Media not found"))
  }

  /**
   * deleteMedia: NotFound and Forbidden leave everything as it is; otherwise the row is deleted,
   * and a destroy request goes to the host when a public id can be read off the URL.
   */
  function Delete(media: map<Id, Media>, mediaId: Id, userId: UserId): (out: (Result<string>, Option<Destroy>, map<Id, Media>))
    ensures mediaId !in media ==> out == (Err(NotFound("Media not found")), None, media)
    ensures mediaId in media && media[mediaId].userId != userId ==>
      out == (Err(Forbidden("You can only delete your own media")), None, media)
    ensures out.0.Ok? <==> mediaId in media && media[mediaId].userId == userId
    ensures out.0.Ok? ==> out.0.value == "Media deleted successfully" && out.2 == media - {mediaId}
    ensures out.0.Ok? ==> (out.1.Some? <==> PublicIdFromUrl(media[mediaId].url).Some?)
    ensures out.0.Ok? && out.1.Some? ==>
      out.1.value == Destroy(PublicIdFromUrl(media[mediaId].url).value, ResourceType(media[mediaId].mimeType))
  {
    if mediaId !in media then (Err(NotFound("Media not found")), None, media)
    else if media[mediaId].userId != userId then (Err(Forbidden("You can only delete your own media")), None, media)
    else
      var m := media[mediaId];
      var destroy := match PublicIdFromUrl(m.url)
        case Some(p) => Some(Destroy(p, ResourceType(m.mimeType)))
        case None => None;
      (Ok("Media deleted successfully"), destroy, media - {mediaId})
  }

  /** uploadMedia: stores the row; the original name is the file name the client sent. */
  method UploadMedia(db: Store, id: Id, userId: UserId, dto: UploadMediaDto, now: int) returns (r: Media)
    requires id !in db.media
    modifies db`media
    ensures r == Media(userId, dto.filename, dto.filename, dto.mimeType, dto.size, dto.url,
                       dto.thumbnailUrl, dto.width, dto.height, dto.duration, now)
    ensures db.media == old(db.media)[id := r]
    ensures GetMediaById(db.media, id) == Ok(r)
  {
    r := Media(userId, dto.filename, dto.filename, dto.mimeType, dto.size, dto.url,
               dto.thumbnailUrl, dto.width, dto.height, dto.duration, now);
    db.media := db.media[id := r];
  }

  /**
   * The host's destroy call is outside the model: `destroyed` is its outcome, and an error from it
   * is swallowed, so the result and the table do not depend on it.
   */
  method DeleteMedia(db: Store, mediaId: Id, userId: UserId, destroyed: Result<()>) returns (r: Result<string>, destroy: Option<Destroy>)
    modifies db`media
    ensures (r, destroy, db.media) == Delete(old(db.media), mediaId, userId)
  {
    if mediaId !in db.media {
      return Err(NotFound("Media not found")), None;
    }
    var m := db.media[mediaId];
    if m.userId != userId {
      return Err(Forbidden("You can only delete your own media")), None;
    }
    destroy := None;
    var publicId := PublicIdFromUrl(m.url);
    if publicId.Some? {
      destroy := Some(Destroy(publicId.value, ResourceType(m.mimeType)));
    }
    db.media := db.media - {mediaId};
    r := Ok("Media deleted successfully");
  }

  /** getUserMedia: the user's media, newest first. */
  method GetUserMedia(db: Store, userId: UserId) returns (r: seq<Id>)
    ensures Distinct(r)
    ensures forall id :: id in r <==> id in db.media && db.media[id].userId == userId
    ensures forall i, j :: 0 <= i < j < |r| && r[i] in db.media && r[j] in db.media ==>
      db.media[r[i]].createdAt >= db.media[r[j]].createdAt
  {
    r := SelectOrdered(db.media, (id: Id, m: Media) => m.userId == userId, (m: Media) => -m.createdAt);
  }

  /** A deleted row is gone for good: looking it up gives NotFound, and deleting it again does too. */
  lemma {:induction false} DeletedMediaIsGone(media: map<Id, Media>, mediaId: Id, userId: UserId)
    requires Delete(media, mediaId, userId).0.Ok?
    ensures var after := Delete(media, mediaId, userId).2;
      GetMediaById(after, mediaId).Err? && Delete(after, mediaId, userId) == (Err(NotFound("Media not found")), None, after)
  {
    var after := Delete(media, mediaId, userId).2;
    assert mediaId !in after;
  }

  /** Only the owner's request deletes a row: anyone else's leaves the table as it was. */
  lemma OnlyOwnerDeletes(media: map<Id, Media>, mediaId: Id, userId: UserId)
    requires Delete(media, mediaId, userId).2 != media
    ensures mediaId in media && media[mediaId].userId == userId
  {
  }
}

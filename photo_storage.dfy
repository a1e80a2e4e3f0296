/**
 * The path handling of src/shared/api/storage.ts: the object path a diary
 * photo is uploaded under and the path `deletePhoto` rebuilds from its URL.
 * The storage service itself is outside the model; its errors are inputs.
 */
module PhotoStorage {
  import opened Wrappers
  import Decimal

  /** `s.split(sep)` for a one-character separator. */
  function Split(s: string, sep: char): (parts: seq<string>)
    ensures |parts| >= 1
  {
    if s == [] then [[]]
    else
      var rest := Split(s[1..], sep);
      if s[0] == sep then [[]] + rest else [[s[0]] + rest[0]] + rest[1..]
  }

  /**
   * What `split` returns, independently of how it scans: pieces free of the
   * separator that join back to the string, one piece exactly when the string
   * has no separator.
   */
  lemma {:induction false} SplitJoins(s: string, sep: char)
    ensures Join(Split(s, sep), sep) == s
    ensures forall i :: 0 <= i < |Split(s, sep)| ==> sep !in Split(s, sep)[i]
    ensures |Split(s, sep)| == 1 <==> sep !in s
    decreases |s|
  {
    if s != [] {
      SplitJoins(s[1..], sep);
      var rest := Split(s[1..], sep);
      assert s == [s[0]] + s[1..];
      if s[0] == sep {
        assert ([[]] + rest)[1..] == rest;
      } else {
        var parts := [[s[0]] + rest[0]] + rest[1..];
        assert parts[1..] == rest[1..];
        assert forall i :: 1 <= i < |parts| ==> parts[i] == rest[i];
      }
    }
  }

  /** The inverse of `Split`: the parts with the separator between them. */
  function Join(parts: seq<string>, sep: char): string
    requires |parts| >= 1
  {
    if |parts| == 1 then parts[0] else parts[0] + [sep] + Join(parts[1..], sep)
  }

  /** Splitting at one separator splits each side independently. */
  lemma {:induction false} SplitAround(a: string, sep: char, b: string)
    ensures Split(a + [sep] + b, sep) == Split(a, sep) + Split(b, sep)
    decreases |a|
  {
    var s := a + [sep] + b;
    if a == [] {
      assert s[0] == sep && s[1..] == b;
    } else {
      assert s[0] == a[0] && s[1..] == a[1..] + [sep] + b;
      SplitAround(a[1..], sep, b);
      var A, B := Split(a[1..], sep), Split(b, sep);
      if a[0] != sep {
        ExtendHead([a[0]], A, B);
      }
    }
  }

  /** Prefixing the first part of a concatenation prefixes the first part of its left side. */
  lemma ExtendHead(c: string, A: seq<string>, B: seq<string>)
    requires |A| >= 1
    ensures [c + (A + B)[0]] + (A + B)[1..] == ([c + A[0]] + A[1..]) + B
  {
    assert (A + B)[0] == A[0];
    assert (A + B)[1..] == A[1..] + B;
  }

  /** `parts.pop()`: the last element, or `undefined` for an empty array. */
  function Pop(parts: seq<string>): (r: Option<string>)
    ensures r.Some? <==> parts != []
  {
    if parts == [] then None else Some(parts[|parts| - 1])
  }

  /** `file.name.split('.').pop() ?? 'jpg'`. */
  function Extension(fileName: string): string
  {
    match Pop(Split(fileName, '.'))
    case Some(ext) => ext
    case None => "jpg"
  }

  /**
   * The extension is the text after the last '.', or the whole name when it has
   * none; it never holds a '.', and the 'jpg' fallback is never taken.
   */
  lemma ExtensionIsLastSegment(stem: string, ext: string)
    requires '.' !in ext
    ensures Extension(stem + "." + ext) == ext
    ensures Extension(ext) == ext
    ensures Pop(Split(stem + "." + ext, '.')).Some?
  {
    SplitAround(stem, '.', ext);
    SplitJoins(ext, '.');
    assert stem + "." + ext == stem + ['.'] + ext;
  }

  lemma ExtensionHasNoDot(fileName: string)
    ensures '.' !in Extension(fileName)
    ensures Pop(Split(fileName, '.')).Some?
  {
    SplitJoins(fileName, '.');
  }

  /** The object path of an upload: `${dateKey}/${timestamp}.${ext}`. */
  function UploadPath(dateKey: string, timestamp: nat, fileName: string): string
  {
    dateKey + "/" + Decimal.Digits(timestamp) + "." + Extension(fileName)
  }

  /** The public address of a path, below the bucket's public URL prefix. */
  function PublicUrl(bucketUrl: string, path: string): string
  {
    bucketUrl + "/" + path
  }

  /**
   * `uploadPhoto`: the upload fails with the storage error, or yields the
   * public URL of the path it stored the file under.
   */
  function UploadPhoto(fileName: string, dateKey: string, timestamp: nat, bucketUrl: string, uploadError: Option<string>)
    : (r: Result<string, string>)
    ensures r.Failure? <==> uploadError.Some?
    ensures r.Failure? ==> r.error == "사진 업로드 실패: " + uploadError.value
    ensures r.Success? ==> r.value == PublicUrl(bucketUrl, UploadPath(dateKey, timestamp, fileName))
  {
    if uploadError.Some? then Failure("사진 업로드 실패: " + uploadError.value)
    else Success(PublicUrl(bucketUrl, UploadPath(dateKey, timestamp, fileName)))
  }

  /**
   * The path `deletePhoto` removes: the URL's last two '/'-separated segments.
   * A URL without '/' has no second-to-last segment, which the template
   * string prints as "undefined".
   */
  function DeletePath(photoUrl: string): string
  {
    var parts := Split(photoUrl, '/');
    var fileName := parts[|parts| - 1];
    var dateKey := if |parts| >= 2 then parts[|parts| - 2] else "undefined";
    dateKey + "/" + fileName
  }

  /** `deletePhoto`: fails with the storage error, or removes `DeletePath(photoUrl)`. */
  function DeletePhoto(photoUrl: string, removeError: Option<string>): (r: Result<string, string>)
    ensures r.Failure? <==> removeError.Some?
    ensures r.Failure? ==> r.error == "사진 삭제 실패: " + removeError.value
    ensures r.Success? ==> r.value == DeletePath(photoUrl)
  {
    if removeError.Some? then Failure("사진 삭제 실패: " + removeError.value)
    else Success(DeletePath(photoUrl))
  }

  /** An upload path has exactly two segments: the date key and the file name. */
  lemma UploadPathSegments(dateKey: string, timestamp: nat, fileName: string)
    requires '/' !in dateKey && '/' !in fileName
    ensures Split(UploadPath(dateKey, timestamp, fileName), '/')
      == [dateKey, Decimal.Digits(timestamp) + "." + Extension(fileName)]
  {
    var digits, ext := Decimal.Digits(timestamp), Extension(fileName);
    StoredNameHasNoSlash(timestamp, fileName);
    TwoParts(dateKey, '/', digits + "." + ext);
    Regroup(dateKey, '/', digits, '.', ext);
  }

  /** Two pieces without the separator, joined by it, split back into the two. */
  lemma TwoParts(a: string, sep: char, b: string)
    requires sep !in a && sep !in b
    ensures Split(a + [sep] + b, sep) == [a, b]
  {
    SplitAround(a, sep, b);
    SinglePart(a, sep);
    SinglePart(b, sep);
  }

  lemma Regroup(a: string, x: char, b: string, y: char, c: string)
    ensures a + [x] + b + [y] + c == a + [x] + (b + [y] + c)
  {
  }

  /** A string without the separator splits into itself alone. */
  lemma SinglePart(s: string, sep: char)
    requires sep !in s
    ensures Split(s, sep) == [s]
  {
    SplitJoins(s, sep);
  }

  /** The stored file name keeps no '/' of the original name. */
  lemma StoredNameHasNoSlash(timestamp: nat, fileName: string)
    requires '/' !in fileName
    ensures '/' !in Decimal.Digits(timestamp) + "." + Extension(fileName)
  {
    assert '/' !in Extension(fileName) by {
      var parts := Split(fileName, '.');
      SplitJoins(fileName, '.');
      JoinedPartIn(parts, '.', |parts| - 1, '/');
    }
    assert '/' !in Decimal.Digits(timestamp);
  }

  /** A character of a part is a character of the joined string. */
  lemma {:induction false} JoinedPartIn(parts: seq<string>, sep: char, k: int, c: char)
    requires |parts| >= 1 && 0 <= k < |parts|
    requires c !in Join(parts, sep)
    ensures c !in parts[k]
    decreases |parts|
  {
    if |parts| > 1 && k > 0 {
      JoinedPartIn(parts[1..], sep, k - 1, c);
    }
  }

  /**
   * Deleting by the URL an upload returned removes the path that upload
   * stored, when the date key and the file name hold no '/'.
   */
  lemma DeleteFindsUploadedPath(bucketUrl: string, dateKey: string, timestamp: nat, fileName: string)
    requires '/' !in dateKey && '/' !in fileName
    ensures DeletePath(PublicUrl(bucketUrl, UploadPath(dateKey, timestamp, fileName)))
      == UploadPath(dateKey, timestamp, fileName)
  {
    var path := UploadPath(dateKey, timestamp, fileName);
    var rest := Decimal.Digits(timestamp) + "." + Extension(fileName);
    UploadPathSegments(dateKey, timestamp, fileName);
    SplitAround(bucketUrl, '/', path);
    assert PublicUrl(bucketUrl, path) == bucketUrl + ['/'] + path;
    var parts := Split(bucketUrl, '/') + [dateKey, rest];
    assert parts[|parts| - 1] == rest && parts[|parts| - 2] == dateKey;
    assert path == dateKey + "/" + rest;
  }

  /** Upload then delete: a successful upload's URL leads the delete to the uploaded object. */
  lemma UploadThenDelete(fileName: string, dateKey: string, timestamp: nat, bucketUrl: string)
    requires '/' !in dateKey && '/' !in fileName
    ensures var url := UploadPhoto(fileName, dateKey, timestamp, bucketUrl, None);
      url.Success? && DeletePhoto(url.value, None) == Success(UploadPath(dateKey, timestamp, fileName))
  {
    DeleteFindsUploadedPath(bucketUrl, dateKey, timestamp, fileName);
  }

  /** A URL without '/' makes `deletePhoto` remove "undefined/" followed by the URL. */
  lemma DeletePathWithoutSlash(photoUrl: string)
    requires '/' !in photoUrl
    ensures DeletePath(photoUrl) == "undefined/" + photoUrl
  {
    SplitJoins(photoUrl, '/');
  }
}

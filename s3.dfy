/**
 * The pure parts of the blob-storage helpers: the object key under which a
 * recording is stored, the public URL of a stored object, the size reported
 * after an upload, and the expiry of a signed download URL.
 *
 * The clock, the random id generator and the storage service are not called
 * here: the date, the epoch milliseconds and the random id are parameters, and
 * the signed URL is the value the storage client hands back.
 */
module S3 {
  import opened Text
  import opened Wrappers

  /** A calendar day, as moment formats it with 'YYYY-MM-DD'. */
  datatype Date = Date(year: nat, month: nat, day: nat)

  /** Text made only of digits and '-', as a formatted date is. */
  predicate DateText(s: string) {
    forall i :: 0 <= i < |s| ==> IsDigit(s[i]) || s[i] == '-'
  }

  /** One zero-padded field of a date, `width` digits or more. */
  function Field(n: nat, width: nat): (s: string)
    ensures width <= |s|
    ensures DateText(s)
  {
    var digits := NatToString(n);
    var r := ZeroPad(digits, width);
    assert forall i :: |r| - |digits| <= i < |r| ==> r[i] == digits[i - (|r| - |digits|)];
    r
  }

  /** Two date fields joined by '-'. */
  function Dashed(a: string, b: string): (s: string)
    requires DateText(a) && DateText(b)
    ensures |s| == |a| + 1 + |b|
    ensures DateText(s)
  {
    var s := a + "-" + b;
    assert forall i :: |a| < i < |s| ==> s[i] == b[i - |a| - 1];
    s
  }

  /** moment().format('YYYY-MM-DD'): zero-padded year, month and day joined by '-'. */
  function FormatDate(d: Date): (s: string)
    ensures 10 <= |s|
    ensures DateText(s)
  {
    Dashed(Dashed(Field(d.year, 4), Field(d.month, 2)), Field(d.day, 2))
  }

  lemma DateHasNoSlash(d: Date)
    ensures '/' !in FormatDate(d)
  {
  }

  /** The file name of a key without its extension: `kurento${epoch}-${rando}`. */
  function KeyStem(epoch: nat, rando: string): string {
    "kurento" + NatToString(epoch) + "-" + rando
  }

  /**
   * createS3Key(fileExtension): `${date}/kurento${epoch}-${rando}.${fileExtension}`.
   * The key is the date directory, then the epoch and the random id, then the extension.
   */
  function CreateS3Key(date: Date, epoch: nat, rando: string, fileExtension: string): (key: string)
    ensures |key| == |FormatDate(date)| + 1 + |KeyStem(epoch, rando)| + 1 + |fileExtension|
  {
    FormatDate(date) + "/" + KeyStem(epoch, rando) + "." + fileExtension
  }

  /** The key always ends with "." followed by the requested extension. */
  lemma KeyEndsWithExtension(date: Date, epoch: nat, rando: string, fileExtension: string)
    ensures var key := CreateS3Key(date, epoch, rando, fileExtension);
      |key| > |fileExtension| && key[|key| - |fileExtension| - 1] == '.' && key[|key| - |fileExtension|..] == fileExtension
  {
    EndsWith(FormatDate(date) + "/" + KeyStem(epoch, rando), '.', fileExtension);
  }

  /** The text before the first '/' of a key is the formatted date, so keys group by day. */
  lemma DateBeforeFirstSlash(date: Date, epoch: nat, rando: string, fileExtension: string)
    ensures TextBefore(CreateS3Key(date, epoch, rando, fileExtension), '/') == FormatDate(date)
  {
    DateHasNoSlash(date);
    TextBeforeFirst(FormatDate(date), '/', KeyStem(epoch, rando), ".", fileExtension);
  }

  /** For one date, epoch and extension, two different random ids never give the same key. */
  lemma DistinctRandomIdsGiveDistinctKeys(date: Date, epoch: nat, r1: string, r2: string, fileExtension: string)
    requires r1 != r2
    ensures CreateS3Key(date, epoch, r1, fileExtension) != CreateS3Key(date, epoch, r2, fileExtension)
  {
    PrefixCancels("kurento" + NatToString(epoch) + "-", r1, r2);
    FramedDiffer(FormatDate(date) + "/", KeyStem(epoch, r1), KeyStem(epoch, r2), ".", fileExtension);
  }

  /** The upload body: a file Buffer (read from disk) or a string. */
  datatype Body = Buffer(bytes: seq<bv8>) | Str(chars: string)

  /** `video.byteLength`: defined on a Buffer only; a string has no such property. */
  function ByteLength(video: Body): (n: Option<nat>)
  {
    match video
    case Buffer(bytes) => Some(|bytes|)
    case Str(_) => None
  }

  /**
   * `video.length`: bytes of a Buffer; for a string, the number of Dafny
   * characters (Unicode scalar values), which differs from JavaScript's UTF-16
   * code units for characters outside the Basic Multilingual Plane.
   */
  function Length(video: Body): nat {
    match video
    case Buffer(bytes) => |bytes|
    case Str(chars) => |chars|
  }

  /**
   * `video.byteLength ? video.byteLength : video.length`. A zero byteLength is
   * falsy and falls back to length, which for a Buffer is the same zero.
   */
  function UploadSize(video: Body): (size: nat)
    ensures video.Buffer? ==> size == |video.bytes|
    ensures video.Str? ==> size == |video.chars|
  {
    var byteLength := ByteLength(video);
    if byteLength.Some? && byteLength.value != 0 then byteLength.value else Length(video)
  }

  const UrlHost := ".s3.dualstack.us-east-1.amazonaws.com/"

  /** The public URL of an uploaded object: `https://${bucket}.s3.dualstack.us-east-1.amazonaws.com/${key}`. */
  function ObjectUrl(bucket: string, key: string): (url: string)
    ensures |url| == 8 + |bucket| + |UrlHost| + |key|
    ensures url[..8] == "https://"
    ensures url[|url| - |key|..] == key
    ensures url[8..|url| - |key|] == bucket + UrlHost
  {
    "https://" + bucket + UrlHost + key
  }

  /** Within one bucket the URL determines the key: distinct keys get distinct URLs. */
  lemma ObjectUrlDeterminesKey(bucket: string, k1: string, k2: string)
    requires ObjectUrl(bucket, k1) == ObjectUrl(bucket, k2)
    ensures k1 == k2
  {
    var u := ObjectUrl(bucket, k1);
    assert |k1| == |k2|;
  }

  /** What `upload` resolves to once the object is stored. */
  datatype UploadInfo = UploadInfo(size: nat, url: string, signedUrl: string)

  /**
   * `upload(video, key)` after the storage call succeeded; `signedUrl` is what
   * the storage client's `getSignedUrl` returned for the key.
   */
  function Upload(video: Body, bucket: string, key: string, signedUrl: string): (info: UploadInfo)
    ensures info.size == Length(video)
    ensures info.url == ObjectUrl(bucket, key)
    ensures info.signedUrl == signedUrl
  {
    UploadInfo(UploadSize(video), ObjectUrl(bucket, key), signedUrl)
  }

  const DefaultExpirySeconds := 600

  /**
   * The `Expires` of `getSignedDownloadUrl`: `options.expires ? options.expires : 600`.
   * An absent or zero expiry is falsy and gives the 600-second default.
   */
  function SignedUrlExpiry(expires: Option<int>): (seconds: int)
    ensures seconds != 0
    ensures expires.None? ==> seconds == DefaultExpirySeconds
    ensures expires.Some? && expires.value == 0 ==> seconds == DefaultExpirySeconds
    ensures expires.Some? && expires.value != 0 ==> seconds == expires.value
  {
    if expires.Some? && expires.value != 0 then expires.value else DefaultExpirySeconds
  }
}

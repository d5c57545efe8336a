/**
 * The text held by an image field, classified the way the URL getters and the
 * migration command test it, and the string helpers they share.
 */
module AssetIdentifier {

  /** What a stored image value denotes. */
  datatype Kind = Unset | AbsoluteUrl | RemoteVersionedId | LegacyLocalPath

  /**
   * The getters' prefix tests in their order: an empty value is unset, a value
   * starting with "http" is a full URL, one starting with 'v' is a Cloudinary
   * versioned id, anything else is a path under the local media root.
   */
  function Classify(raw: string): (k: Kind)
    ensures k == Unset <==> raw == []
    ensures k == AbsoluteUrl <==> "http" <= raw
    ensures k == RemoteVersionedId <==> raw != [] && raw[0] == 'v'
  {
    if raw == [] then Unset
    else if "http" <= raw then AbsoluteUrl
    else if "v" <= raw then RemoteVersionedId
    else LegacyLocalPath
  }

  /** The cloud name hard-coded in the product and news getters. */
  const HardcodedCloud: string := "dgkommeq9"

  /** Cloudinary's public delivery URL for an image in cloud `cloud`. */
  function UploadUrl(cloud: string, id: string): string
  {
    "https://res.cloudinary.com/" + cloud + "/image/upload/" + id
  }

  /** The folder legacy leadership images are looked up and uploaded under. */
  const LeadershipFolder: string := "leadership/"

  /** Python's `s.split('/')[-1]`: the text after the last '/', or `s` itself when it has none. */
  function LastSegment(s: string): (r: string)
    ensures '/' !in r
    ensures |r| <= |s| && r == s[|s| - |r|..]
    ensures |r| == |s| || s[|s| - |r| - 1] == '/'
    ensures '/' !in s ==> r == s
  {
    if s == [] then []
    else if s[|s| - 1] == '/' then []
    else LastSegment(s[..|s| - 1]) + [s[|s| - 1]]
  }

  /**
   * The path probed in the remote store for a legacy value: the value itself
   * when it already lies in the leadership folder, otherwise its file name
   * moved into that folder.
   */
  function DeriveRemotePath(raw: string): (p: string)
    ensures LeadershipFolder <= p
    ensures LeadershipFolder <= raw ==> p == raw
    ensures !(LeadershipFolder <= raw) ==>
      var name := p[|LeadershipFolder|..];
      '/' !in name && |name| <= |raw| && name == raw[|raw| - |name|..] &&
      (name == raw || raw[|raw| - |name| - 1] == '/')
  {
    if LeadershipFolder <= raw then raw
    else LeadershipFolder + LastSegment(raw)
  }

  lemma DeriveRemotePathIdempotent(raw: string)
    ensures DeriveRemotePath(DeriveRemotePath(raw)) == DeriveRemotePath(raw)
  {
  }

  /** The decimal digit for 0 <= d < 10. */
  function Digit(d: nat): (c: char)
    requires d < 10
    ensures '0' <= c <= '9' && (c - '0') as nat == d
  {
    "0123456789"[d]
  }

  predicate IsDigits(s: string)
  {
    forall i :: 0 <= i < |s| ==> '0' <= s[i] <= '9'
  }

  /** Python's `str(n)` for a natural number: its decimal digits, no leading zero. */
  function Decimal(n: nat): (s: string)
    ensures s != [] && IsDigits(s)
    ensures s[0] == '0' ==> n == 0
    decreases n
  {
    if n < 10 then [Digit(n)] else Decimal(n / 10) + [Digit(n % 10)]
  }

  /** Python's `str(i)` for any integer. */
  function IntText(i: int): (s: string)
    ensures s != [] && s[0] != 'v' && '/' !in s
  {
    if i < 0 then "-" + Decimal(-i) else Decimal(i)
  }

  /** The number a string of decimal digits denotes. */
  function DigitsValue(s: string): nat
    requires IsDigits(s)
  {
    if s == [] then 0 else DigitsValue(s[..|s| - 1]) * 10 + (s[|s| - 1] - '0') as nat
  }

  lemma {:induction false} DecimalRoundTrip(n: nat)
    ensures DigitsValue(Decimal(n)) == n
    decreases n
  {
    if n >= 10 {
      DecimalRoundTrip(n / 10);
      var s := Decimal(n);
      assert s[..|s| - 1] == Decimal(n / 10);
    }
  }

  /**
   * The canonical post-migration identifier `v<version>/<public_id>`, the form
   * the getters' 'v' test recognises.
   */
  function VersionedId(versionText: string, publicId: string): (id: string)
    ensures Classify(id) == RemoteVersionedId
  {
    "v" + versionText + "/" + publicId
  }

  /** Splits at the first '/': the text before it and the text after it. */
  function SplitAtSlash(s: string): (string, string)
  {
    if s == [] then ([], [])
    else if s[0] == '/' then ([], s[1..])
    else var (a, b) := SplitAtSlash(s[1..]); ([s[0]] + a, b)
  }

  lemma {:induction false} SplitAtSlashOf(head: string, tail: string)
    requires '/' !in head
    ensures SplitAtSlash(head + "/" + tail) == (head, tail)
  {
    var s := head + "/" + tail;
    if head == [] {
      assert s == "/" + tail;
    } else {
      assert s[0] == head[0] && s[1..] == head[1..] + "/" + tail;
      SplitAtSlashOf(head[1..], tail);
      assert [head[0]] + head[1..] == head;
    }
  }

  /**
   * Two canonical identifiers built from natural versions are equal only when
   * their versions and public ids are: the identifier determines the upload.
   */
  lemma {:induction false} VersionedIdInjective(v1: nat, p1: string, v2: nat, p2: string)
    requires VersionedId(Decimal(v1), p1) == VersionedId(Decimal(v2), p2)
    ensures v1 == v2 && p1 == p2
  {
    var id := VersionedId(Decimal(v1), p1);
    assert id[1..] == Decimal(v1) + "/" + p1;
    assert id[1..] == Decimal(v2) + "/" + p2;
    SplitAtSlashOf(Decimal(v1), p1);
    SplitAtSlashOf(Decimal(v2), p2);
    DecimalRoundTrip(v1);
    DecimalRoundTrip(v2);
  }
}

/** The storage path of an uploaded photo, 'userphotos/{}/{}/{}' formatted
    with the uploader's user id, the album id and the photo id, and the proof
    that distinct id triples give distinct paths. */
module Format {

  predicate IsDigit(c: char) {
    '0' <= c <= '9'
  }

  function DigitChar(d: nat): (c: char)
    requires d < 10
    ensures IsDigit(c)
  {
    (48 + d) as char
  }

  /** The value of a string of decimal digits. */
  function DecimalValue(s: string): int {
    if |s| == 0 then 0 else DecimalValue(s[..|s| - 1]) * 10 + (s[|s| - 1] as int - 48)
  }

  /** The decimal text of a non-negative integer, as str.format writes it:
      digits only, no leading zero, and reading it back gives the number. */
  function Decimal(n: nat): (r: string)
    ensures |r| > 0
    ensures forall k :: 0 <= k < |r| ==> IsDigit(r[k])
    ensures n > 0 ==> r[0] != '0'
    ensures DecimalValue(r) == n
    decreases n
  {
    if n < 10 then [DigitChar(n)]
    else
      var r := Decimal(n / 10) + [DigitChar(n % 10)];
      assert r[..|r| - 1] == Decimal(n / 10);
      r
  }

  lemma DecimalInjective(m: nat, n: nat)
    requires Decimal(m) == Decimal(n)
    ensures m == n
  {
    assert DecimalValue(Decimal(m)) == m;
  }

  predicate NoSlash(s: string) {
    forall k :: 0 <= k < |s| ==> s[k] != '/'
  }

  /** In a slash-free field followed by '/', that '/' is the first one. */
  lemma FirstSlash(x: string, y: string)
    requires NoSlash(x)
    ensures (x + "/" + y)[|x|] == '/'
    ensures forall k :: 0 <= k < |x| ==> (x + "/" + y)[k] != '/'
  {
  }

  /** A slash-free field followed by '/' is recovered from the joined text. */
  lemma SplitAtSlash(x: string, y: string, x': string, y': string)
    requires NoSlash(x) && NoSlash(x')
    requires x + "/" + y == x' + "/" + y'
    ensures x == x' && y == y'
  {
    var s := x + "/" + y;
    FirstSlash(x, y);
    FirstSlash(x', y');
    assert |x| == |x'|;
    assert x == s[..|x|] && x' == s[..|x'|];
    assert y == s[|x| + 1..] && y' == s[|x'| + 1..];
  }

  const PHOTO_ROOT: string := "userphotos/"

  /** The filename add_photo_to_album gives a photo. */
  function PhotoPath(userId: nat, albumId: nat, photoId: nat): string {
    PHOTO_ROOT + Decimal(userId) + "/" + Decimal(albumId) + "/" + Decimal(photoId)
  }

  lemma DecimalNoSlash(n: nat)
    ensures NoSlash(Decimal(n))
  {
  }

  /** The photo path as the root, then the user field, then the rest. */
  lemma PhotoPathShape(u: nat, a: nat, p: nat)
    ensures PhotoPath(u, a, p) == PHOTO_ROOT + (Decimal(u) + "/" + (Decimal(a) + "/" + Decimal(p)))
  {
  }

  lemma CancelPrefix(prefix: string, x: string, y: string)
    requires prefix + x == prefix + y
    ensures x == y
  {
    assert x == (prefix + x)[|prefix|..];
    assert y == (prefix + y)[|prefix|..];
  }

  /** Distinct (user, album, photo) triples are stored under distinct paths. */
  lemma PhotoPathInjective(u: nat, a: nat, p: nat, u': nat, a': nat, p': nat)
    requires PhotoPath(u, a, p) == PhotoPath(u', a', p')
    ensures u == u' && a == a' && p == p'
  {
    var rest := Decimal(a) + "/" + Decimal(p);
    var rest' := Decimal(a') + "/" + Decimal(p');
    PhotoPathShape(u, a, p);
    PhotoPathShape(u', a', p');
    CancelPrefix(PHOTO_ROOT, Decimal(u) + "/" + rest, Decimal(u') + "/" + rest');
    DecimalNoSlash(u);
    DecimalNoSlash(u');
    SplitAtSlash(Decimal(u), rest, Decimal(u'), rest');
    DecimalNoSlash(a);
    DecimalNoSlash(a');
    SplitAtSlash(Decimal(a), Decimal(p), Decimal(a'), Decimal(p'));
    DecimalInjective(u, u');
    DecimalInjective(a, a');
    DecimalInjective(p, p');
  }
}

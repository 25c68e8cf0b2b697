/**
  The canonical string signed by service-to-service webhooks:
  `v1:{timestamp}:{METHOD}:{pathAndQuery}:{bodyHash}`.
  The digest is a parameter: any function from bodies to text.
 */
module CanonicalString {
  import opened Prelude

  /** Upper-casing of the ASCII letters, the alphabet of HTTP method names. */
  function Upper(s: string): (u: string)
    ensures |u| == |s|
    ensures ':' !in s ==> ':' !in u
  {
    seq(|s|, i requires 0 <= i < |s| =>
      if 'a' <= s[i] <= 'z' then (s[i] as int - 32) as char else s[i])
  }

  const SMALL: string := "abcdefghijklmnopqrstuvwxyz"
  const CAPITAL: string := "ABCDEFGHIJKLMNOPQRSTUVWXYZ"

  /** Letter by letter: a small letter becomes its capital, and nothing else changes. */
  lemma UpperIsAlphabetic(s: string, i: nat, k: nat)
    requires i < |s| && k < 26
    ensures s[i] == SMALL[k] ==> Upper(s)[i] == CAPITAL[k]
    ensures s[i] !in SMALL ==> Upper(s)[i] == s[i]
  {
    Alphabet(k);
    if 'a' <= s[i] <= 'z' {
      Alphabet(s[i] as nat - 'a' as nat);
    }
  }

  lemma Alphabet(k: nat)
    requires k < 26
    ensures SMALL[k] as nat == 'a' as nat + k && CAPITAL[k] as nat == 'A' as nat + k
  {
    if k < 13 {
      FirstHalf(k);
    } else {
      SecondHalf(k);
    }
  }

  lemma FirstHalf(k: nat)
    requires k < 13
    ensures SMALL[k] as nat == 'a' as nat + k && CAPITAL[k] as nat == 'A' as nat + k
  {
  }

  lemma SecondHalf(k: nat)
    requires 13 <= k < 26
    ensures SMALL[k] as nat == 'a' as nat + k && CAPITAL[k] as nat == 'A' as nat + k
  {
  }

  function Build(digest: string -> string, timestamp: string, httpMethod: string,
                 pathAndQuery: string, body: Option<string>): string
  {
    var bodyHash := digest(if body.Some? then body.value else "");
    "v1:" + timestamp + ":" + Upper(httpMethod) + ":" + pathAndQuery + ":" + bodyHash
  }

  datatype Parts = Parts(timestamp: string, httpMethod: string, pathAndQuery: string, bodyHash: string)

  /** The receiver's reading: two colons from the left, one from the right. */
  function Parse(s: string): Option<Parts>
  {
    if !("v1:" <= s) then None else
      match CutFirst(s[3..])
      case None => None
      case Some((timestamp, afterTime)) =>
        match CutFirst(afterTime)
        case None => None
        case Some((httpMethod, afterMethod)) =>
          match CutLast(afterMethod)
          case None => None
          case Some((path, hash)) => Some(Parts(timestamp, httpMethod, path, hash))
  }

  /** The four parts are recovered exactly, whatever colons the path holds. */
  lemma ParseRecoversParts(digest: string -> string, timestamp: string, httpMethod: string,
                           pathAndQuery: string, body: Option<string>)
    requires ':' !in timestamp && ':' !in httpMethod
    requires ':' !in digest(if body.Some? then body.value else "")
    ensures Parse(Build(digest, timestamp, httpMethod, pathAndQuery, body)) ==
            Some(Parts(timestamp, Upper(httpMethod), pathAndQuery,
                       digest(if body.Some? then body.value else "")))
  {
    var h := digest(if body.Some? then body.value else "");
    var m := Upper(httpMethod);
    var s := Build(digest, timestamp, httpMethod, pathAndQuery, body);
    var afterMethod := pathAndQuery + ":" + h;
    var afterTime := m + ":" + afterMethod;
    var afterVersion := timestamp + ":" + afterTime;
    assert s == "v1:" + afterVersion;
    assert s[3..] == afterVersion;
    CutFirstJoined(timestamp, afterTime);
    CutFirstJoined(m, afterMethod);
    CutLastJoined(pathAndQuery, h);
  }

  /** Unambiguity: one signed string stands for one request (bodies up to the digest's collisions). */
  lemma CanonicalStringIsUnambiguous(digest: string -> string,
                                     t1: string, m1: string, p1: string, b1: Option<string>,
                                     t2: string, m2: string, p2: string, b2: Option<string>)
    requires ':' !in t1 && ':' !in m1 && ':' !in t2 && ':' !in m2
    requires forall x :: ':' !in digest(x)
    requires Build(digest, t1, m1, p1, b1) == Build(digest, t2, m2, p2, b2)
    ensures t1 == t2 && Upper(m1) == Upper(m2) && p1 == p2
    ensures digest(if b1.Some? then b1.value else "") == digest(if b2.Some? then b2.value else "")
  {
    ParseRecoversParts(digest, t1, m1, p1, b1);
    ParseRecoversParts(digest, t2, m2, p2, b2);
  }

  /** The colon-free timestamp is needed: with a colon in it, two requests share one string. */
  lemma ColonInTimestampIsAmbiguous(digest: string -> string)
    ensures Build(digest, "1", "A", "B:/p", None) == Build(digest, "1:A", "B", "/p", None)
  {
  }
}

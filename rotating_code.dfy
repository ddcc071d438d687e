/** The animated-QR payload of the BankID Relying Party API v6.0:
    `bankid.<qrStartToken>.<qrTime>.<qrAuthCode>`, where `qrTime` is the number
    of whole seconds since the order was started and `qrAuthCode` is the
    HMAC-SHA-256 of `qrTime` keyed by the order's `qrStartSecret`, in hex. Both
    route files build this string; what differs between them is when they
    refuse to (see Route.GenerateQrData and LegacyRoute.GenerateQrData). */
module RotatingCode {
  import opened Common

  const QrPrefix := "bankid"

  /** `Math.floor((now - orderTime) / 1000)` with both times in milliseconds:
      the whole seconds elapsed, rounded down also when `now` is earlier. */
  function ElapsedSeconds(now: int, orderTime: int): (t: int)
    ensures t * 1000 <= now - orderTime < t * 1000 + 1000
  {
    (now - orderTime) / 1000
  }

  /** The `qrTime` text. An order time that is an Invalid Date makes the
      difference NaN, which `toString` prints as "NaN". */
  function QrTime(now: int, orderTime: Option<int>): (t: string)
    ensures orderTime.None? ==> t == "NaN"
    ensures orderTime.Some? ==> ParseInt(t) == Some(ElapsedSeconds(now, orderTime.value))
    ensures '.' !in t
  {
    match orderTime
    case None => "NaN"
    case Some(start) =>
      IntDecimalRoundTrip(ElapsedSeconds(now, start));
      IntToDecimal(ElapsedSeconds(now, start))
  }

  /** The `qrAuthCode`: HMAC-SHA-256 keyed by the secret over the `qrTime` text. */
  function AuthCode(c: Crypto, secret: string, time: string): string {
    c.hmacSha256Hex(secret, time)
  }

  /** The payload string, laid out as the provider's protocol fixes it. */
  function Payload(token: string, time: string, authCode: string): string {
    QrPrefix + "." + token + "." + time + "." + authCode
  }

  /** The rotating code of an order at time `now`. */
  function RotatingQr(c: Crypto, token: string, secret: string, now: int, orderTime: Option<int>): string {
    var time := QrTime(now, orderTime);
    Payload(token, time, AuthCode(c, secret, time))
  }

  /** The three fields a scanner reads out of a payload. */
  datatype Fields = Fields(token: string, time: string, authCode: string)

  /** The position of the first '.' in `s`, if any. */
  function FirstDot(s: string): (i: Option<nat>)
    ensures i.None? ==> '.' !in s
    ensures i.Some? ==> i.value < |s| && s[i.value] == '.' && '.' !in s[..i.value]
  {
    if s == [] then None
    else if s[0] == '.' then Some(0)
    else match FirstDot(s[1..])
      case None => None
      case Some(j) =>
        assert s[..j + 1] == [s[0]] + s[1..][..j];
        Some(j + 1)
  }

  /** Reads a payload back: the prefix, then a token and a time that hold no
      '.', then the authentication code. */
  function Split(p: string): Option<Fields> {
    var head := QrPrefix + ".";
    if |p| < |head| || p[..|head|] != head then None
    else
      var rest := p[|head|..];
      match FirstDot(rest)
      case None => None
      case Some(i) =>
        var tail := rest[i + 1..];
        match FirstDot(tail)
        case None => None
        case Some(j) => Some(Fields(rest[..i], tail[..j], tail[j + 1..]))
  }

  lemma FirstDotAfter(a: string, b: string)
    requires '.' !in a
    ensures FirstDot(a + "." + b) == Some(|a|)
  {
    var s := a + "." + b;
    assert s[|a|] == '.';
    assert forall k :: 0 <= k < |a| ==> s[k] == a[k];
    var i := FirstDot(s);
    assert i.Some?;
    assert i.value >= |a|;
    assert i.value <= |a| by {
      assert forall k :: 0 <= k < i.value ==> s[..i.value][k] == s[k];
    }
  }

  /** A payload reads back as the token, time and code it was built from,
      provided the token holds no '.' (the provider's tokens are UUIDs). */
  lemma PayloadRoundTrip(token: string, time: string, authCode: string)
    requires '.' !in token && '.' !in time
    ensures Split(Payload(token, time, authCode)) == Some(Fields(token, time, authCode))
  {
    var p := Payload(token, time, authCode);
    var head := QrPrefix + ".";
    assert p == head + (token + "." + (time + "." + authCode));
    assert p[..|head|] == head;
    var rest := p[|head|..];
    assert rest == token + "." + (time + "." + authCode);
    FirstDotAfter(token, time + "." + authCode);
    assert rest[..|token|] == token;
    var tail := rest[|token| + 1..];
    assert tail == time + "." + authCode;
    FirstDotAfter(time, authCode);
    assert tail[..|time|] == time;
    assert tail[|time| + 1..] == authCode;
  }

  /** The code of an order read back from its payload: the token, the whole
      seconds elapsed, and the HMAC of that time keyed by the secret. */
  lemma RotatingQrReadsBack(c: Crypto, token: string, secret: string, now: int, orderTime: int)
    requires '.' !in token
    ensures var f := Split(RotatingQr(c, token, secret, now, Some(orderTime)));
      f.Some? && f.value.token == token &&
      ParseInt(f.value.time) == Some(ElapsedSeconds(now, orderTime)) &&
      f.value.authCode == c.hmacSha256Hex(secret, f.value.time)
  {
    var time := QrTime(now, Some(orderTime));
    PayloadRoundTrip(token, time, AuthCode(c, secret, time));
  }

  /** The code rotates: two instants in different whole seconds since the
      order started give different payloads, whatever the authentication codes. */
  lemma CodeChangesEachSecond(c: Crypto, token: string, secret: string, orderTime: int, now1: int, now2: int)
    requires ElapsedSeconds(now1, orderTime) != ElapsedSeconds(now2, orderTime)
    ensures RotatingQr(c, token, secret, now1, Some(orderTime)) != RotatingQr(c, token, secret, now2, Some(orderTime))
  {
    var t1, t2 := QrTime(now1, Some(orderTime)), QrTime(now2, Some(orderTime));
    var c1, c2 := AuthCode(c, secret, t1), AuthCode(c, secret, t2);
    assert t1 != t2;
    // after the common `bankid.<token>.`, the time runs up to the next '.'
    var head := QrPrefix + "." + token + ".";
    var p1, p2 := RotatingQr(c, token, secret, now1, Some(orderTime)), RotatingQr(c, token, secret, now2, Some(orderTime));
    assert p1 == head + (t1 + "." + c1);
    assert p2 == head + (t2 + "." + c2);
    var s1, s2 := t1 + "." + c1, t2 + "." + c2;
    assert p1[|head|..] == s1 && p2[|head|..] == s2;
    FirstDotAfter(t1, c1);
    FirstDotAfter(t2, c2);
    assert s1 != s2 by {
      if |t1| == |t2| {
        assert s1[..|t1|] == t1 && s2[..|t2|] == t2;
      } else {
        assert FirstDot(s1) != FirstDot(s2);
      }
    }
  }

  /** The shape the provider expects once the order has started:
      `bankid.` token `.` decimal digits `.` 64 lowercase hex characters. */
  lemma RotatingQrShape(c: Crypto, token: string, secret: string, now: int, orderTime: int)
    requires HmacIsHex(c)
    requires orderTime <= now
    ensures exists time: string, code: string ::
      RotatingQr(c, token, secret, now, Some(orderTime)) == QrPrefix + "." + token + "." + time + "." + code &&
      |time| > 0 && AllDigits(time) && IsHexDigest(code)
  {
    var time := QrTime(now, Some(orderTime));
    var code := AuthCode(c, secret, time);
    assert ElapsedSeconds(now, orderTime) >= 0;
    assert AllDigits(time);
    assert IsHexDigest(code);
  }
}

/**
 Signed tokens (dashboard/lib/peer-token.ts).

 A token is `base64url(json).base64url(mac)`. Only the base64url encoding is spelled out, as in
 sections 4 and 5 of RFC 4648; JSON, UTF-8 and the MAC are parameters. `Atob` follows the
 forgiving-base64 decode of the WHATWG Infra standard, which is what `atob` does.
*/
module PeerToken {
  import opened JsText
  import opened Wrappers

  type byte = b: int | 0 <= b < 256
  type digit = d: int | 0 <= d < 64

  // ---- The alphabets -------------------------------------------------------------------------

  function StdChar(d: digit): char {
    if d < 26 then 'A' + d as char
    else if d < 52 then 'a' + (d - 26) as char
    else if d < 62 then '0' + (d - 52) as char
    else if d == 62 then '+' else '/'
  }

  function StdValue(c: char): Option<digit> {
    if 'A' <= c <= 'Z' then Some(c as int - 'A' as int)
    else if 'a' <= c <= 'z' then Some(c as int - 'a' as int + 26)
    else if '0' <= c <= '9' then Some(c as int - '0' as int + 52)
    else if c == '+' then Some(62) else if c == '/' then Some(63) else None
  }

  predicate UrlAlphabet(c: char) { (StdValue(c).Some? && c != '+' && c != '/') || c == '-' || c == '_' }

  predicate IsAsciiSpace(c: char) { c in {'\t', '\n', '\U{c}', '\r', ' '} }

  // ---- Digits and bytes ----------------------------------------------------------------------

  // Three bytes make four digits: six bits each, from the top.
  function First(a: byte): digit { a / 4 }
  function Second(a: byte, b: byte): digit { a % 4 * 16 + b / 16 }
  function Third(b: byte, c: byte): digit { b % 16 * 4 + c / 64 }
  function Fourth(c: byte): digit { c % 64 }

  // And back.
  function Top(w: digit, x: digit): byte { var n: int := w; n * 4 + x / 16 }
  function Middle(x: digit, y: digit): byte { var n: int := x % 16; n * 16 + y / 4 }
  function Bottom(y: digit, z: digit): byte { var n: int := y % 4; n * 64 + z }

  lemma GroupInverts(a: byte, b: byte, c: byte)
    ensures Top(First(a), Second(a, b)) == a
    ensures Middle(Second(a, b), Third(b, c)) == b
    ensures Bottom(Third(b, c), Fourth(c)) == c
  {
  }

  function Digits(b: seq<byte>): seq<digit> {
    if |b| == 0 then []
    else if |b| == 1 then [First(b[0]), Second(b[0], 0)]
    else if |b| == 2 then [First(b[0]), Second(b[0], b[1]), Third(b[1], 0)]
    else [First(b[0]), Second(b[0], b[1]), Third(b[1], b[2]), Fourth(b[2])] + Digits(b[3..])
  }

  /** Leftover bits of an incomplete last group are dropped. */
  function Bytes(d: seq<digit>): seq<byte> {
    if |d| < 2 then []
    else if |d| == 2 then [Top(d[0], d[1])]
    else if |d| == 3 then [Top(d[0], d[1]), Middle(d[1], d[2])]
    else [Top(d[0], d[1]), Middle(d[1], d[2]), Bottom(d[2], d[3])] + Bytes(d[4..])
  }

  // ---- btoa and atob -------------------------------------------------------------------------

  function Chars(d: seq<digit>): (s: string)
    ensures |s| == |d|
    ensures forall i :: 0 <= i < |d| ==> s[i] == StdChar(d[i])
  {
    if d == [] then "" else [StdChar(d[0])] + Chars(d[1..])
  }

  function Values(s: string): Option<seq<digit>> {
    if s == "" then Some([])
    else
      var rest := Values(s[1..]);
      if StdValue(s[0]).Some? && rest.Some? then Some([StdValue(s[0]).value] + rest.value) else None
  }

  function Btoa(b: seq<byte>): string {
    Chars(Digits(b)) + (if |b| % 3 == 0 then "" else if |b| % 3 == 1 then "==" else "=")
  }

  function DropSpaces(s: string): string {
    if s == "" then "" else (if IsAsciiSpace(s[0]) then "" else [s[0]]) + DropSpaces(s[1..])
  }

  function DropPads(s: string, most: nat): string {
    if most > 0 && s != "" && s[|s| - 1] == '=' then DropPads(s[..|s| - 1], most - 1) else s
  }

  function Atob(s: string): Option<seq<byte>> {
    var t := DropSpaces(s);
    var u := if |t| % 4 == 0 then DropPads(t, 2) else t;
    if |u| % 4 == 1 then None
    else
      var d := Values(u);
      if d.Some? then Some(Bytes(d.value)) else None
  }

  // ---- base64url -----------------------------------------------------------------------------

  function Replace(s: string, from: char, to: char): (r: string)
    ensures |r| == |s| && forall i :: 0 <= i < |s| ==> r[i] == if s[i] == from then to else s[i]
  {
    if s == "" then "" else [if s[0] == from then to else s[0]] + Replace(s[1..], from, to)
  }

  function DropAllPads(s: string): string { DropPads(s, |s|) }

  function ToBase64Url(b: seq<byte>): string {
    DropAllPads(Replace(Replace(Btoa(b), '+', '-'), '/', '_'))
  }

  function Pads(n: nat): string { "==="[(n + 3) % 4..] }

  function FromBase64Url(s: string): Option<seq<byte>> {
    Atob(Replace(Replace(s, '-', '+'), '_', '/') + Pads(|s|))
  }

  // ---- Decoding inverts encoding -------------------------------------------------------------

  /** One digit more than bytes for every group of three, complete or not. */
  lemma {:induction false} NeverOneOver(b: seq<byte>)
    ensures |Digits(b)| % 4 != 1
    decreases |b|
  {
    hide First, Second, Third, Fourth;
    if |b| >= 3 { NeverOneOver(b[3..]); }
  }

  lemma {:induction false} DigitCount(b: seq<byte>)
    ensures |Digits(b)| == |b| + (|b| + 2) / 3
    decreases |b|
  {
    hide First, Second, Third, Fourth;
    if |b| >= 3 { DigitCount(b[3..]); }
  }

  lemma {:induction false} BytesOfDigits(b: seq<byte>)
    ensures Bytes(Digits(b)) == b
    decreases |b|
  {
    hide First, Second, Third, Fourth, Top, Middle, Bottom;
    if |b| == 1 {
      GroupInverts(b[0], 0, 0);
    } else if |b| == 2 {
      GroupInverts(b[0], b[1], 0);
    } else if |b| >= 3 {
      GroupInverts(b[0], b[1], b[2]);
      BytesOfDigits(b[3..]);
      assert b == [b[0], b[1], b[2]] + b[3..];
      assert Digits(b)[4..] == Digits(b[3..]);
    }
  }

  lemma {:induction false} ValuesOfChars(d: seq<digit>)
    ensures Values(Chars(d)) == Some(d)
    decreases |d|
  {
    if d != [] {
      ValuesOfChars(d[1..]);
      CharFacts(d[0]);
      hide StdChar, StdValue;
      assert Chars(d)[1..] == Chars(d[1..]) && Chars(d)[0] == StdChar(d[0]);
      assert d == [d[0]] + d[1..];
    }
  }

  lemma CharFacts(d: digit)
    ensures StdChar(d) != '=' && StdChar(d) != '-' && StdChar(d) != '_' && !IsAsciiSpace(StdChar(d))
    ensures StdValue(StdChar(d)) == Some(d)
  {
  }

  lemma {:induction false} DropPadsOnly(s: string, pads: string, most: nat)
    requires |pads| <= most && (forall i :: 0 <= i < |pads| ==> pads[i] == '=')
    requires s == "" || s[|s| - 1] != '='
    ensures DropPads(s + pads, most) == s
    decreases |pads|
  {
    if pads == "" {
      assert s + pads == s;
    } else {
      assert (s + pads)[..|s + pads| - 1] == s + pads[..|pads| - 1];
      DropPadsOnly(s, pads[..|pads| - 1], most - 1);
    }
  }

  lemma {:induction false} NoSpacesToDrop(s: string)
    requires forall i :: 0 <= i < |s| ==> !IsAsciiSpace(s[i])
    ensures DropSpaces(s) == s
    decreases |s|
  {
    if s != "" { NoSpacesToDrop(s[1..]); }
  }

  function UrlChar(d: digit): char { if d == 62 then '-' else if d == 63 then '_' else StdChar(d) }

  lemma UrlFacts(d: digit)
    ensures UrlChar(d) == (if StdChar(d) == '+' then '-' else if StdChar(d) == '/' then '_' else StdChar(d))
    ensures StdChar(d) == (if UrlChar(d) == '-' then '+' else if UrlChar(d) == '_' then '/' else UrlChar(d))
    ensures UrlAlphabet(UrlChar(d)) && UrlChar(d) != '=' && UrlChar(d) != '.'
  {
  }

  /** The text of the encoding: the digits' characters with `-` for `+` and `_` for `/`, and no padding. */
  lemma EncodedText(b: seq<byte>)
    ensures var s := ToBase64Url(b);
            var d := Digits(b);
            && |s| == |d| && (forall i :: 0 <= i < |s| ==> s[i] == UrlChar(d[i]))
            && (forall i :: 0 <= i < |s| ==> UrlAlphabet(s[i]) && s[i] != '.')
  {
    hide Digits, StdChar, UrlChar, UrlAlphabet, Chars, Replace, DropPads;
    var d := Digits(b);
    var std := Btoa(b);
    var pads := std[|d|..];
    var url := Replace(Replace(std, '+', '-'), '/', '_');
    forall i | 0 <= i < |d| ensures url[i] == UrlChar(d[i]) && url[i] != '=' && UrlAlphabet(url[i]) && url[i] != '.' {
      UrlFacts(d[i]);
      assert std[i] == StdChar(d[i]);
    }
    assert url == url[..|d|] + pads;
    DropPadsOnly(url[..|d|], pads, |url|);
  }

  /** Turning the url alphabet back gives the standard characters of the digits. */
  lemma StandardAgain(b: seq<byte>)
    ensures Replace(Replace(ToBase64Url(b), '-', '+'), '_', '/') == Chars(Digits(b))
    ensures forall i :: 0 <= i < |Digits(b)| ==> Chars(Digits(b))[i] != '=' && !IsAsciiSpace(Chars(Digits(b))[i])
  {
    EncodedText(b);
    hide Digits, StdChar, UrlChar, UrlAlphabet, Chars, Replace, ToBase64Url, IsAsciiSpace;
    var s, d := ToBase64Url(b), Digits(b);
    var std := Replace(Replace(s, '-', '+'), '_', '/');
    forall i | 0 <= i < |d| ensures std[i] == Chars(d)[i] && std[i] != '=' && !IsAsciiSpace(std[i]) {
      UrlFacts(d[i]);
      CharFacts(d[i]);
    }
  }

  /** `pads` completes `n` characters to a multiple of four. */
  predicate PadsFit(n: nat, pads: string) {
    |pads| <= 2 && (n + |pads|) % 4 == 0 && forall i :: 0 <= i < |pads| ==> pads[i] == '='
  }

  lemma PadCount(q: nat, r: nat)
    requires r < 4
    ensures (4 * q + r + 3) % 4 == if r == 0 then 3 else r - 1
    ensures (4 * q + r + (if r == 0 then 0 else 4 - r)) % 4 == 0
  {
    if r == 0 {
      assert 4 * q + r + 3 == 4 * q + 3;
    } else {
      assert 4 * q + r + 3 == 4 * (q + 1) + (r - 1);
    }
  }

  lemma PadsByRemainder(n: nat, q: nat, r: nat)
    requires n == 4 * q + r && r < 4
    ensures Pads(n) == if r == 0 then "" else if r == 1 then "===" else if r == 2 then "==" else "="
  {
    PadCount(q, r);
    assert n + 3 == 4 * q + r + 3;
    var k := (n + 3) % 4;
    assert k == if r == 0 then 3 else r - 1;
    assert "==="[0..] == "===" && "==="[1..] == "==" && "==="[2..] == "=" && "==="[3..] == "";
  }

  /** The padding the source slices off "===" fits every length but one. */
  lemma PaddingFits(n: nat)
    ensures n % 4 != 1 ==> PadsFit(n, Pads(n))
  {
    var q, r := n / 4, n % 4;
    PadsByRemainder(n, q, r);
    PadCount(q, r);
    hide Pads;
    if r != 1 {
      assert n + |Pads(n)| == 4 * q + r + (if r == 0 then 0 else 4 - r);
    }
  }

  /** `atob`, step by step, on a text of the right length. */
  lemma AtobSteps(t: string, u: string, d: seq<digit>)
    requires DropSpaces(t) == t && |t| % 4 == 0 && DropPads(t, 2) == u && |u| % 4 != 1 && Values(u) == Some(d)
    ensures Atob(t) == Some(Bytes(d))
  {
    hide DropSpaces, DropPads, Values, Bytes;
  }

  lemma NotOneOver(n: nat, pads: string)
    requires PadsFit(n, pads)
    ensures n % 4 != 1
  {
  }

  lemma PaddedText(s: string, pads: string)
    requires forall i :: 0 <= i < |s| ==> s[i] != '=' && !IsAsciiSpace(s[i])
    requires PadsFit(|s|, pads)
    ensures DropSpaces(s + pads) == s + pads && DropPads(s + pads, 2) == s
    ensures |s + pads| % 4 == 0 && |s| % 4 != 1
  {
    NotOneOver(|s|, pads);
    NoSpacesToDrop(s + pads);
    DropPadsOnly(s, pads, 2);
    hide DropSpaces, DropPads, IsAsciiSpace;
  }

  /** `atob` of characters and the padding that fits them. */
  lemma AtobOfPadded(d: seq<digit>, pads: string)
    requires forall i :: 0 <= i < |d| ==> Chars(d)[i] != '=' && !IsAsciiSpace(Chars(d)[i])
    requires PadsFit(|d|, pads)
    ensures Atob(Chars(d) + pads) == Some(Bytes(d))
  {
    PaddedText(Chars(d), pads);
    ValuesOfChars(d);
    AtobSteps(Chars(d) + pads, Chars(d), d);
    hide *;
  }

  /** For every byte sequence, decoding what was encoded gives it back. */
  lemma RoundTrip(b: seq<byte>)
    ensures FromBase64Url(ToBase64Url(b)) == Some(b)
  {
    EncodedText(b);
    NeverOneOver(b);
    StandardAgain(b);
    BytesOfDigits(b);
    hide Digits, Bytes, Chars, Replace, ToBase64Url, Atob, IsAsciiSpace, UrlAlphabet, UrlChar, Pads, PadsFit;
    PaddingFits(|Digits(b)|);
    AtobOfPadded(Digits(b), Pads(|Digits(b)|));
  }

  /** No two byte sequences share an encoding, and its length is that of the digits. */
  lemma EncodingIsInjective(a: seq<byte>, b: seq<byte>)
    ensures ToBase64Url(a) == ToBase64Url(b) <==> a == b
    ensures |ToBase64Url(a)| == |a| + (|a| + 2) / 3
  {
    RoundTrip(a);
    RoundTrip(b);
    EncodedText(a);
    DigitCount(a);
  }

  // ---- Tokens --------------------------------------------------------------------------------

  datatype Json =
    | Str(s: string) | Num(n: real) | Bool(b: bool) | Null
    | Arr(items: seq<Json>) | Obj(fields: map<string, Json>)

  /** What the platform provides. */
  datatype Platform = Platform(
    mac: (string, string) -> seq<byte>, stringify: Json -> string, parse: string -> Option<Json>,
    utf8: string -> seq<byte>, fromUtf8: seq<byte> -> string)

  /** The first part of a token: the payload's JSON text, in UTF-8, encoded. */
  function Encoded(p: Platform, payload: Json): string { ToBase64Url(p.utf8(p.stringify(payload))) }

  /** What JSON and UTF-8 make of a payload they wrote. */
  function ReadBack(p: Platform, payload: Json): Option<Json> {
    p.parse(p.fromUtf8(p.utf8(p.stringify(payload))))
  }

  /** This payload is written as some text that reads back as itself, and its MAC is not empty. */
  predicate ReadsBack(p: Platform, payload: Json, secret: string) {
    && p.utf8(p.stringify(payload)) != [] && p.mac(secret, Encoded(p, payload)) != []
    && ReadBack(p, payload) == Some(payload)
  }

  function Sign(p: Platform, payload: Json, secret: string): string {
    var text := Encoded(p, payload);
    text + "." + ToBase64Url(p.mac(secret, text))
  }

  function VerifySigned(p: Platform, token: string, secret: string): Option<Json> {
    var dot := IndexOf(token, '.');
    if token == "" || secret == "" || dot <= 0 || dot == |token| - 1 then None
    else
      var text := token[..dot];
      if FromBase64Url(token[dot + 1..]) != Some(p.mac(secret, text)) then None
      else
        var raw := FromBase64Url(text);
        var payload := if raw.Some? then p.parse(p.fromUtf8(raw.value)) else None;
        if payload.Some? && (payload.value.Obj? || payload.value.Arr?) then payload else None
  }

  function Field(payload: Json, key: string): Option<Json> {
    if payload.Obj? && key in payload.fields then Some(payload.fields[key]) else None
  }

  predicate Expired(payload: Json, now: int) {
    var exp := Field(payload, "exp");
    exp.Some? && exp.value.Num? && exp.value.n != 0.0 && now as real > exp.value.n
  }

  predicate IsText(field: Option<Json>) { field.Some? && field.value.Str? }
  predicate IsNonEmptyText(field: Option<Json>) { IsText(field) && field.value.s != "" }
  predicate IsHostKind(payload: Json) { Field(payload, "kind") == Some(Str("host")) }

  predicate PeerShaped(payload: Json) {
    !IsHostKind(payload) && IsText(Field(payload, "sid")) && IsText(Field(payload, "ses"))
  }

  predicate HostShaped(payload: Json) {
    IsHostKind(payload) && IsNonEmptyText(Field(payload, "did")) && IsNonEmptyText(Field(payload, "host"))
  }

  function VerifyPeerToken(p: Platform, token: string, secret: string, now: int): Option<Json> {
    var payload := VerifySigned(p, token, secret);
    if payload.Some? && PeerShaped(payload.value) && !Expired(payload.value, now) then payload else None
  }

  function VerifyHostDeviceToken(p: Platform, token: string, secret: string, now: int): Option<Json> {
    var payload := VerifySigned(p, token, secret);
    if payload.Some? && HostShaped(payload.value) && !Expired(payload.value, now) then payload else None
  }

  /** The first dot of a signed token is the one that was put there. */
  lemma DotSplits(a: seq<byte>, b: seq<byte>)
    requires b != []
    ensures var token := ToBase64Url(a) + "." + ToBase64Url(b);
            var dot := IndexOf(token, '.');
            && dot == |ToBase64Url(a)| && dot != |token| - 1
            && token[..dot] == ToBase64Url(a) && token[dot + 1..] == ToBase64Url(b)
  {
    EncodedText(a);
    EncodedText(b);
    DigitCount(b);
    var token := ToBase64Url(a) + "." + ToBase64Url(b);
    var dot := IndexOf(token, '.');
    assert token[|ToBase64Url(a)|] == '.';
    forall i | 0 <= i < |ToBase64Url(a)| ensures token[i] != '.' { assert token[i] == ToBase64Url(a)[i]; }
  }

  /**
   Verifying what was signed, on any platform: an object that the signer's secret signed is what
   verification returns if and only if the secret is not empty and the platform reads this object
   back. Nothing is asked of other payloads, and JSON text need not hold every number there is.
   */
  lemma VerifiesWhatWasSigned(p: Platform, payload: Json, secret: string)
    requires payload.Obj?
    ensures VerifySigned(p, Sign(p, payload, secret), secret) == Some(payload)
            <==> secret != "" && ReadsBack(p, payload, secret)
  {
    var raw := p.utf8(p.stringify(payload));
    var text := ToBase64Url(raw);
    EncodedText(raw);
    DigitCount(raw);
    RoundTrip(raw);
    RoundTrip(p.mac(secret, text));
    if raw != [] && p.mac(secret, text) != [] {
      DotSplits(raw, p.mac(secret, text));
    } else {
      UnsignableIsRefused(raw, p.mac(secret, text));
    }
  }

  /** Without a text or without a MAC the dot stands at one end of the token. */
  lemma UnsignableIsRefused(raw: seq<byte>, mac: seq<byte>)
    requires raw == [] || mac == []
    ensures var token := ToBase64Url(raw) + "." + ToBase64Url(mac);
            IndexOf(token, '.') == 0 || IndexOf(token, '.') == |token| - 1
  {
    EncodedText(raw);
    DigitCount(raw);
    DigitCount(mac);
    var token := ToBase64Url(raw) + "." + ToBase64Url(mac);
    assert token[|ToBase64Url(raw)|] == '.';
    forall i | 0 <= i < |ToBase64Url(raw)| ensures token[i] != '.' { assert token[i] == ToBase64Url(raw)[i]; }
  }

  /** What the round trip asks of a platform can be had for every payload and secret. */
  lemma EveryPayloadCanReadBack(payload: Json, secret: string)
    ensures exists p: Platform :: ReadsBack(p, payload, secret)
  {
    var one: byte := 1;
    var p := Platform((_, _) => [one], _ => "{}", _ => Some(payload), _ => [one], _ => "{}");
    assert ReadsBack(p, payload, secret);
  }

  /** The payload has this field, and it is a text. */
  ghost predicate HasText(payload: Json, key: string)
    requires payload.Obj?
  {
    key in payload.fields && payload.fields[key].Str?
  }

  /** A payload of the host kind says so in so many words. */
  ghost predicate SaysHost(payload: Json)
    requires payload.Obj?
  {
    HasText(payload, "kind") && payload.fields["kind"].s == "host"
  }

  ghost predicate FitsPeer(payload: Json)
    requires payload.Obj?
  {
    !SaysHost(payload) && HasText(payload, "sid") && HasText(payload, "ses")
  }

  ghost predicate FitsHost(payload: Json)
    requires payload.Obj?
  {
    && SaysHost(payload) && HasText(payload, "did") && payload.fields["did"].s != ""
    && HasText(payload, "host") && payload.fields["host"].s != ""
  }

  /** No expiry, one that is no number or zero, or one that is not past. */
  ghost predicate InTime(payload: Json, now: int)
    requires payload.Obj?
  {
    "exp" in payload.fields && payload.fields["exp"].Num? ==>
      payload.fields["exp"].n == 0.0 || now as real <= payload.fields["exp"].n
  }

  /**
   A signed payload comes back from a verifier exactly when its fields are those of that verifier, it
   is in time and is read back; and a payload that is read back is otherwise refused.
   */
  lemma PeerTokenRoundTrip(p: Platform, payload: Json, secret: string, now: int)
    requires payload.Obj?
    ensures VerifyPeerToken(p, Sign(p, payload, secret), secret, now) == Some(payload)
            <==> secret != "" && ReadsBack(p, payload, secret) && FitsPeer(payload) && InTime(payload, now)
    ensures VerifyHostDeviceToken(p, Sign(p, payload, secret), secret, now) == Some(payload)
            <==> secret != "" && ReadsBack(p, payload, secret) && FitsHost(payload) && InTime(payload, now)
    ensures ReadsBack(p, payload, secret) ==>
              && VerifyPeerToken(p, Sign(p, payload, secret), secret, now).Some? ==
                 (secret != "" && FitsPeer(payload) && InTime(payload, now))
              && VerifyHostDeviceToken(p, Sign(p, payload, secret), secret, now).Some? ==
                 (secret != "" && FitsHost(payload) && InTime(payload, now))
  {
    assert PeerShaped(payload) <==> FitsPeer(payload);
    assert HostShaped(payload) <==> FitsHost(payload);
    assert Expired(payload, now) <==> !InTime(payload, now);
    hide Sign, ReadsBack, PeerShaped, HostShaped, Expired, FitsPeer, FitsHost, InTime;
    VerifiesWhatWasSigned(p, payload, secret);
  }

  /** A corollary of the two shapes: whatever the token, secret and times, it is never of both kinds. */
  lemma NeverBothKinds(p: Platform, token: string, secret: string, now: int, now': int)
    ensures !(VerifyPeerToken(p, token, secret, now).Some? && VerifyHostDeviceToken(p, token, secret, now').Some?)
  {
  }

  /** What an accepted token is: two parts around its first dot, the second decoding to the MAC of the first. */
  lemma AcceptedOnlyWithItsMac(p: Platform, token: string, secret: string)
    requires VerifySigned(p, token, secret).Some?
    ensures exists text: string, sig: string ::
              && text != "" && sig != "" && secret != "" && token == text + "." + sig
              && '.' !in text && FromBase64Url(sig) == Some(p.mac(secret, text))
  {
    hide FromBase64Url, UrlAlphabet;
    var dot := IndexOf(token, '.');
    var text, sig := token[..dot], token[dot + 1..];
    assert token == text + "." + sig;
    assert '.' !in text && FromBase64Url(sig) == Some(p.mac(secret, text));
  }

  // ---- The loops -----------------------------------------------------------------------------

  /** Bitwise `^` and `|`, from the lowest bit up. */
  function Xor(a: nat, b: nat): nat {
    if a == 0 && b == 0 then 0 else (if a % 2 == b % 2 then 0 else 1) + 2 * Xor(a / 2, b / 2)
  }

  function Or(a: nat, b: nat): nat {
    if a == 0 && b == 0 then 0 else (if a % 2 == 0 && b % 2 == 0 then 0 else 1) + 2 * Or(a / 2, b / 2)
  }

  lemma {:induction false} XorIsZero(a: nat, b: nat)
    ensures Xor(a, b) == 0 <==> a == b
  {
    if a != 0 || b != 0 { XorIsZero(a / 2, b / 2); }
  }

  lemma {:induction false} OrIsZero(a: nat, b: nat)
    ensures Or(a, b) == 0 <==> a == 0 && b == 0
  {
    if a != 0 || b != 0 { OrIsZero(a / 2, b / 2); }
  }

  /** The comparison reads every byte whatever it finds, and says exactly whether all are equal. */
  method TimingSafeEqualBytes(a: seq<byte>, b: seq<byte>) returns (same: bool)
    ensures same <==> a == b
  {
    if |a| != |b| { return false; }
    var diff := 0;
    var i := 0;
    while i < |a|
      invariant 0 <= i <= |a| && diff >= 0
      invariant diff == 0 <==> forall k :: 0 <= k < i ==> a[k] == b[k]
    {
      XorIsZero(a[i], b[i]);
      OrIsZero(diff, Xor(a[i], b[i]));
      diff := Or(diff, Xor(a[i], b[i]));
      i := i + 1;
    }
    return diff == 0;
  }

  /** The scan for the dot, as `indexOf` does it, and the verification around it. */
  method VerifySignedToken(p: Platform, token: string, secret: string) returns (payload: Option<Json>)
    ensures payload == VerifySigned(p, token, secret)
  {
    hide FromBase64Url;
    if token == "" || secret == "" { return None; }
    var dot := IndexOf(token, '.');
    if dot <= 0 || dot == |token| - 1 { return None; }
    var text := token[..dot];
    var provided := FromBase64Url(token[dot + 1..]);
    if provided.None? { return None; }
    var same := TimingSafeEqualBytes(provided.value, p.mac(secret, text));
    if !same { return None; }
    var raw := FromBase64Url(text);
    if raw.None? { return None; }
    payload := p.parse(p.fromUtf8(raw.value));
    if payload.Some? && !payload.value.Obj? && !payload.value.Arr? { return None; }
  }
}

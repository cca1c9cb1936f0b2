/** Decimal text of integers, as `str` and `int` give and take it. */
module Decimal {
  import opened Common

  function Digit(d: nat): char
    requires d < 10
  {
    ('0' as int + d) as char
  }

  function RenderNat(n: nat): string {
    if n < 10 then [Digit(n)] else RenderNat(n / 10) + [Digit(n % 10)]
  }

  function Render(n: int): string {
    if n < 0 then "-" + RenderNat(-n) else RenderNat(n)
  }

  predicate IsDigit(c: char) {
    '0' <= c <= '9'
  }

  function ParseNat(s: string): Option<nat> {
    if s == "" || !IsDigit(s[|s| - 1]) then None
    else
      var d := s[|s| - 1] as int - '0' as int;
      if |s| == 1 then Some(d)
      else match ParseNat(s[..|s| - 1])
        case None => None
        case Some(n) => Some(10 * n + d)
  }

  // An optional sign and at least one digit.
  function Parse(s: string): Option<int> {
    if s != "" && (s[0] == '-' || s[0] == '+') then
      match ParseNat(s[1..])
      case None => None
      case Some(n) => var i: int := n; Some(if s[0] == '-' then -i else i)
    else
      match ParseNat(s)
      case None => None
      case Some(n) => Some(n)
  }

  lemma {:induction false} ParseRenderNat(n: nat)
    ensures ParseNat(RenderNat(n)) == Some(n)
    ensures forall c :: c in RenderNat(n) ==> IsDigit(c)
    ensures RenderNat(n) != ""
  {
    if n >= 10 {
      ParseRenderNat(n / 10);
      assert RenderNat(n)[..|RenderNat(n)| - 1] == RenderNat(n / 10);
    }
  }

  /** Printing then parsing an integer gives it back, and the text holds only digits and a leading sign. */
  lemma ParseRender(n: int)
    ensures Parse(Render(n)) == Some(n)
    ensures forall c :: c in Render(n) ==> IsDigit(c) || c == '-'
  {
    if n < 0 {
      ParseRenderNat(-n);
      assert Render(n)[1..] == RenderNat(-n);
    } else {
      ParseRenderNat(n);
      assert RenderNat(n)[0] in RenderNat(n);
    }
  }
}

/**
 The signed OAuth state: minted with an expiry, carried by the browser, verified on return.

 Base64url with UTF-8 and the keyed digest are parameters; the digest is a text without '|'.
 */
module OAuthState {
  import opened Common
  import Decimal

  datatype Settings = Settings(
    ttl: int,
    encode: string -> string,
    decode: string -> Option<string>,
    sign: string -> string)

  ghost predicate Sound(st: Settings) {
    && (forall s: string :: st.decode(st.encode(s)) == Some(s))
    && (forall p: string :: '|' !in st.sign(p))
  }

  datatype Error = BadUserId | Malformed | SignatureMismatch | Expired

  function JoinBar(parts: seq<string>): string
    requires parts != []
  {
    if |parts| == 1 then parts[0] else parts[0] + "|" + JoinBar(parts[1..])
  }

  // str.split("|")
  function SplitBar(s: string): (parts: seq<string>)
    ensures parts != []
  {
    if s == "" then [""]
    else
      var rest := SplitBar(s[1..]);
      if s[0] == '|' then [""] + rest else [[s[0]] + rest[0]] + rest[1..]
  }

  function Payload(user: string, expiry: string, nonce: string): string {
    user + "|" + expiry + "|" + nonce
  }

  function MakeState(st: Settings, user: string, mintedAt: real, nonce: string): Result<string, Error> {
    if '|' in user then Err(BadUserId)
    else
      var payload := Payload(user, Decimal.Render(Truncate(mintedAt) + st.ttl), nonce);
      Ok(st.encode(payload + "|" + st.sign(payload)))
  }

  function VerifyState(st: Settings, state: string, now: real): Result<string, Error> {
    match st.decode(state)
    case None => Err(Malformed)
    case Some(decoded) =>
      var parts := SplitBar(decoded);
      if |parts| != 4 then Err(Malformed)
      else if parts[3] != st.sign(Payload(parts[0], parts[1], parts[2])) then Err(SignatureMismatch)
      else match Decimal.Parse(parts[1])
        case None => Err(Malformed)
        case Some(expiry) => if now > expiry as real then Err(Expired) else Ok(parts[0])
  }

  ghost predicate BarFree(s: string) {
    '|' !in s
  }

  lemma {:induction false} SplitPrefix(a: string, b: string)
    requires BarFree(a)
    ensures SplitBar(a + "|" + b) == [a] + SplitBar(b)
    ensures SplitBar(a) == [a]
  {
    if a == "" {
      assert (a + "|" + b)[1..] == b;
    } else {
      SplitPrefix(a[1..], b);
      assert (a + "|" + b)[1..] == a[1..] + "|" + b;
      assert a == [a[0]] + a[1..];
    }
  }

  /** Splitting undoes joining fields that hold no bar. */
  lemma {:induction false} SplitJoin(parts: seq<string>)
    requires parts != [] && forall i :: 0 <= i < |parts| ==> BarFree(parts[i])
    ensures SplitBar(JoinBar(parts)) == parts
    decreases |parts|
  {
    if |parts| == 1 {
      SplitPrefix(parts[0], "");
    } else {
      SplitJoin(parts[1..]);
      SplitPrefix(parts[0], JoinBar(parts[1..]));
    }
  }

  /** Splitting yields bar-free fields that join back to the text. */
  lemma {:induction false} JoinSplit(s: string)
    ensures JoinBar(SplitBar(s)) == s
    ensures forall i :: 0 <= i < |SplitBar(s)| ==> BarFree(SplitBar(s)[i])
  {
    if s != "" {
      JoinSplit(s[1..]);
      var rest := SplitBar(s[1..]);
      if s[0] == '|' {
        assert ([""] + rest)[1..] == rest;
      } else {
        var parts := [[s[0]] + rest[0]] + rest[1..];
        assert |parts| > 1 ==> parts[1..] == rest[1..];
      }
    }
  }

  lemma JoinFour(a: string, b: string, c: string, d: string)
    ensures JoinBar([a, b, c, d]) == Payload(a, b, c) + "|" + d
  {
    assert [a, b, c, d][1..] == [b, c, d] && [b, c, d][1..] == [c, d] && [c, d][1..] == [d];
    assert JoinBar([d]) == d && JoinBar([c, d]) == c + "|" + d;
    assert JoinBar([b, c, d]) == b + "|" + JoinBar([c, d]);
    assert JoinBar([a, b, c, d]) == a + "|" + JoinBar([b, c, d]);
  }

  /** The signed payload determines its three fields. */
  lemma PayloadDeterminesFields(u: string, e: string, n: string, u': string, e': string, n': string)
    requires BarFree(u) && BarFree(e) && BarFree(n) && BarFree(u') && BarFree(e') && BarFree(n')
    requires Payload(u, e, n) == Payload(u', e', n')
    ensures u == u' && e == e' && n == n'
  {
    JoinFour(u, e, n, "");
    JoinFour(u', e', n', "");
    SplitJoin([u, e, n, ""]);
    SplitJoin([u', e', n', ""]);
    assert [u, e, n, ""] == [u', e', n', ""];
  }

  lemma RenderIsBarFree(n: int)
    ensures BarFree(Decimal.Render(n))
  {
    Decimal.ParseRender(n);
  }

  /** Round trip: a minted state verifies to its own user exactly while the clock is at most floor(mint time) + ttl. */
  lemma MintedStateVerifies(st: Settings, user: string, mintedAt: real, nonce: string, now: real)
    requires Sound(st) && BarFree(nonce)
    ensures MakeState(st, user, mintedAt, nonce).Ok? <==> BarFree(user)
    ensures BarFree(user) ==>
              VerifyState(st, MakeState(st, user, mintedAt, nonce).value, now)
              == if now <= (Truncate(mintedAt) + st.ttl) as real then Ok(user) else Err(Expired)
  {
    if BarFree(user) {
      var expiry := Decimal.Render(Truncate(mintedAt) + st.ttl);
      var payload := Payload(user, expiry, nonce);
      RenderIsBarFree(Truncate(mintedAt) + st.ttl);
      Decimal.ParseRender(Truncate(mintedAt) + st.ttl);
      JoinFour(user, expiry, nonce, st.sign(payload));
      SplitJoin([user, expiry, nonce, st.sign(payload)]);
    }
  }

  // The text is the signed payload of these bar-free fields.
  ghost predicate Carries(st: Settings, decoded: string, user: string, expiry: string, nonce: string) {
    && BarFree(user) && BarFree(expiry) && BarFree(nonce)
    && decoded == Payload(user, expiry, nonce) + "|" + st.sign(Payload(user, expiry, nonce))
  }

  /** A text verifies to a user if and only if it decodes to that user, an expiry not yet passed and a nonce, followed by the signature of the three. */
  lemma VerifiesIff(st: Settings, state: string, now: real, user: string)
    requires Sound(st)
    ensures VerifyState(st, state, now) == Ok(user) <==>
            st.decode(state).Some? && exists expiry, nonce ::
              Carries(st, st.decode(state).value, user, expiry, nonce) && Decimal.Parse(expiry).Some? && now <= Decimal.Parse(expiry).value as real
  {
    if st.decode(state).Some? {
      var decoded := st.decode(state).value;
      var parts := SplitBar(decoded);
      if VerifyState(st, state, now) == Ok(user) {
        JoinSplit(decoded);
        JoinFour(parts[0], parts[1], parts[2], parts[3]);
        assert parts == [parts[0], parts[1], parts[2], parts[3]];
        assert Carries(st, decoded, user, parts[1], parts[2]);
      }
      forall expiry, nonce | Carries(st, decoded, user, expiry, nonce) ensures parts == [user, expiry, nonce, st.sign(Payload(user, expiry, nonce))] {
        JoinFour(user, expiry, nonce, st.sign(Payload(user, expiry, nonce)));
        SplitJoin([user, expiry, nonce, st.sign(Payload(user, expiry, nonce))]);
      }
    }
  }

  /**
   Which check speaks: of a text with four fields the signature is compared first, whatever the
   expiry says, so a forged text is told nothing else; only then is the expiry read.
   */
  lemma SignatureComesFirst(st: Settings, state: string, now: real, user: string, expiry: string, nonce: string, digest: string)
    requires BarFree(user) && BarFree(expiry) && BarFree(nonce) && BarFree(digest)
    requires st.decode(state) == Some(Payload(user, expiry, nonce) + "|" + digest)
    ensures
      var verdict := VerifyState(st, state, now);
      if digest != st.sign(Payload(user, expiry, nonce)) then verdict == Err(SignatureMismatch)
      else if Decimal.Parse(expiry).None? then verdict == Err(Malformed)
      else verdict == if Decimal.Parse(expiry).value as real < now then Err(Expired) else Ok(user)
  {
    JoinFour(user, expiry, nonce, digest);
    SplitJoin([user, expiry, nonce, digest]);
  }

  // One state the broker has minted.
  datatype Minting = Minting(user: string, at: real, nonce: string)

  function MintedPayload(st: Settings, m: Minting): string {
    Payload(m.user, Decimal.Render(Truncate(m.at) + st.ttl), m.nonce)
  }

  /**
   No forgery, no extension: if the signature a text carries is that of minted payloads only, and
   the text verifies, it does so for the user of some minting, and not after that minting's own
   expiry.  The comparison of signatures is what carries this over to the fields of the text.
   */
  lemma VerifiedMeansMinted(st: Settings, minted: set<Minting>, state: string, now: real)
    requires forall m :: m in minted ==> BarFree(m.user) && BarFree(m.nonce)
    requires VerifyState(st, state, now).Ok?
    requires forall p: string :: st.sign(p) == SplitBar(st.decode(state).value)[3] ==> exists m :: m in minted && MintedPayload(st, m) == p
    ensures exists m :: m in minted && m.user == VerifyState(st, state, now).value && now <= (Truncate(m.at) + st.ttl) as real
  {
    var decoded := st.decode(state).value;
    var parts := SplitBar(decoded);
    JoinSplit(decoded);
    var payload := Payload(parts[0], parts[1], parts[2]);
    assert st.sign(payload) == parts[3];
    var m :| m in minted && MintedPayload(st, m) == payload;
    var expiry := Truncate(m.at) + st.ttl;
    RenderIsBarFree(expiry);
    Decimal.ParseRender(expiry);
    PayloadDeterminesFields(m.user, Decimal.Render(expiry), m.nonce, parts[0], parts[1], parts[2]);
  }
}

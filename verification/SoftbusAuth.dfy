/**
 * The PSK authentication exchange (src/proto/softbus_auth.c, src/proto/softbus_crypto.c). HMAC and HKDF are
 * unknown functions; messages are records, since their JSON text is handled by a library.
 */
module SoftbusAuth {
  import opened Bytes

  const NONCE_LEN: nat := 16
  const SIG_LEN: nat := 32
  const RETRIES: nat := 3
  const VERSION: int := 1

  /** `hkdf` takes secret, salt and one of the two info strings, and may fail. */
  datatype Crypto = Crypto(hmac: (seq<byte>, seq<byte>) -> seq<byte>,
                           hkdf: (seq<byte>, seq<byte>, bool) -> Option<seq<byte>>)

  ghost predicate CryptoOk(k: Crypto) {
    forall key, text :: |k.hmac(key, text)| == SIG_LEN
  }

  // ---------------------------------------------------------------- hex

  function HexDigit(n: nat): byte
    requires n < 16
  {
    if n < 10 then 48 + n else 87 + n
  }

  function DigitOf(c: byte): Option<nat> {
    if 48 <= c <= 57 then Some(c - 48)
    else if 97 <= c <= 102 then Some(c - 87)
    else if 65 <= c <= 70 then Some(c - 55)
    else None
  }

  function ToHex(s: seq<byte>): seq<byte> {
    if s == [] then [] else [HexDigit(s[0] / 16), HexDigit(s[0] % 16)] + ToHex(s[1..])
  }

  /** Fails on odd length, on a foreign character and beyond `cap` bytes. */
  function FromHex(h: seq<byte>, cap: nat): Option<seq<byte>> {
    if h == [] then Some([])
    else if |h| == 1 || cap == 0 then None
    else
      var rest := FromHex(h[2..], cap - 1);
      if DigitOf(h[0]).None? || DigitOf(h[1]).None? || rest.None? then None
      else Some([DigitOf(h[0]).value * 16 + DigitOf(h[1]).value] + rest.value)
  }

  lemma {:induction false} HexRoundTrip(s: seq<byte>, cap: nat)
    ensures FromHex(ToHex(s), cap) == if |s| <= cap then Some(s) else None
    decreases |s|
  {
    if s != [] {
      var h := ToHex(s);
      assert h[2..] == ToHex(s[1..]);
      if cap > 0 {
        HexRoundTrip(s[1..], cap - 1);
        assert s == [s[0]] + s[1..];
      }
    }
  }

  lemma {:induction false} FromHexSize(h: seq<byte>, cap: nat)
    ensures FromHex(h, cap).Some? ==> |FromHex(h, cap).value| <= cap && 2 * |FromHex(h, cap).value| == |h|
    decreases |h|
  {
    if |h| > 1 && cap > 0 {
      FromHexSize(h[2..], cap - 1);
    }
  }

  // ---------------------------------------------------------------- keys

  /** `strcmp` greater than zero. */
  predicate StrGreater(a: seq<byte>, b: seq<byte>) {
    if a == [] then false
    else if b == [] then true
    else if a[0] != b[0] then a[0] > b[0]
    else StrGreater(a[1..], b[1..])
  }

  function Salt(a: seq<byte>, b: seq<byte>): seq<byte> {
    if StrGreater(a, b) then b + a else a + b
  }

  lemma {:induction false} StrTotal(a: seq<byte>, b: seq<byte>)
    ensures a == b || (StrGreater(a, b) <==> !StrGreater(b, a))
    ensures a == b ==> !StrGreater(a, b)
  {
    if a != [] && b != [] && a[0] == b[0] {
      StrTotal(a[1..], b[1..]);
      assert a == [a[0]] + a[1..] && b == [b[0]] + b[1..];
    }
  }

  /** Both ends compute the same salt. */
  lemma {:induction false} SaltSymmetric(a: seq<byte>, b: seq<byte>)
    ensures Salt(a, b) == Salt(b, a)
  {
    StrTotal(a, b);
  }

  datatype Keys = Keys(control: seq<byte>, data: seq<byte>)

  function Derive(k: Crypto, psk: seq<byte>, local: seq<byte>, peer: seq<byte>): Option<Keys> {
    var c := k.hkdf(psk, Salt(local, peer), true);
    var d := k.hkdf(psk, Salt(local, peer), false);
    if c.None? || d.None? then None else Some(Keys(c.value, d.value))
  }

  /** What a signature signs. */
  function Signed(nonceA: seq<byte>, nonceP: seq<byte>, idA: seq<byte>, idP: seq<byte>): seq<byte> {
    nonceA + nonceP + idA + idP
  }

  // ---------------------------------------------------------------- state

  datatype State = Idle | Negotiation | DeviceId | DeviceAuth | DeviceInfo | Done | Failed

  /** The value a message carries for a state. */
  function Code(s: State): int {
    match s
    case Idle => 0
    case Negotiation => 1
    case DeviceId => 2
    case DeviceAuth => 3
    case DeviceInfo => 4
    case Done => 5
    case Failed => 6
  }

  datatype Msg = Msg(state: int, authId: u64, version: Option<int>, deviceId: Option<seq<byte>>,
                     nonce: Option<seq<byte>>, sig: Option<seq<byte>>)

  /** `psk` and `local` may be missing. */
  datatype Auth = Auth(psk: Option<seq<byte>>, local: Option<seq<byte>>, nonce: seq<byte>, state: State, active: bool,
                       awaiting: bool, authId: u64, retries: nat, entered: nat, peer: Option<seq<byte>>,
                       keys: Option<Keys>)

  function NewAuth(psk: Option<seq<byte>>, local: Option<seq<byte>>, nonce: seq<byte>, authId: u64): Auth {
    Auth(psk, local, nonce, Idle, false, false, authId, 0, 0, None, None)
  }

  datatype Verdict = Noop | Send | Complete | Refused
  datatype Outcome = Outcome(auth: Auth, verdict: Verdict, out: Option<Msg>)

  function Fail(a: Auth): Outcome {
    Outcome(a.(state := Failed, awaiting := false), Refused, None)
  }

  function Enter(a: Auth, s: State, now: nat): Auth {
    a.(state := s, awaiting := true, retries := 0, entered := now)
  }

  function Bare(a: Auth, s: State): Msg {
    Msg(Code(s), a.authId, None, None, None, None)
  }

  function Begin(a: Auth, now: nat): Outcome {
    if a.state != Idle then Outcome(a, Noop, None)
    else
      var b := Enter(a.(active := true), Negotiation, now);
      Outcome(b, Send, Some(Bare(b, Negotiation).(version := Some(VERSION))))
  }

  /** The randomness, clock and leftover buffer bytes one call sees. */
  datatype Env = Env(now: nat, nonce: seq<byte>, residue: seq<byte>)

  predicate EnvOk(env: Env) {
    |env.nonce| == NONCE_LEN && |env.residue| == SIG_LEN
  }

  function WithKeys(k: Crypto, a: Auth): Auth
    requires a.psk.Some? && a.local.Some? && a.peer.Some?
  {
    var keys := Derive(k, a.psk.value, a.local.value, a.peer.value);
    if keys.Some? then a.(keys := keys) else a
  }

  /** Passive side, negotiation. */
  function OnNegotiation(a: Auth, m: Msg, env: Env): Outcome {
    if a.active || m.state != Code(Negotiation) then Fail(a)
    else if m.version.Some? && m.version.value != VERSION then Fail(a)
    else
      var b := Enter(a, DeviceId, env.now);
      Outcome(b, Send, Some(Bare(b, DeviceId).(deviceId := a.local)))
  }

  /** Active side, the peer's device id. */
  function OnDeviceId(a: Auth, m: Msg, env: Env): Outcome {
    if !a.active || m.state != Code(DeviceId) || m.deviceId.None? then Fail(a)
    else
      var b := Enter(a.(peer := m.deviceId), DeviceAuth, env.now);
      Outcome(b, Send, Some(Bare(b, DeviceAuth).(nonce := Some(ToHex(a.nonce)), deviceId := a.local)))
  }

  function PeerFrom(a: Auth, m: Msg): Option<seq<byte>> {
    if m.deviceId.Some? then m.deviceId else a.peer
  }

  /** Passive side, the request: sign both nonces and both ids. */
  function OnRequest(k: Crypto, a: Auth, m: Msg, env: Env): Outcome {
    if a.active || m.state != Code(DeviceAuth) || a.local.None? || m.nonce.None? then Fail(a)
    else
      var nonceA := FromHex(m.nonce.value, NONCE_LEN);
      if nonceA.None? || |nonceA.value| != NONCE_LEN then Fail(a)
      else
        var p := a.(peer := PeerFrom(a, m));
        if p.peer.None? || a.psk.None? then Fail(p)
        else
          var sig := k.hmac(a.psk.value, Signed(nonceA.value, env.nonce, p.peer.value, a.local.value));
          var b := Enter(WithKeys(k, p), DeviceInfo, env.now);
          Outcome(b, Send, Some(Bare(b, DeviceAuth).(nonce := Some(ToHex(env.nonce)), sig := Some(ToHex(sig)))))
  }

  /** The 32 bytes compared: a shorter signature leaves the end of the buffer as it was. */
  function Compared(sig: seq<byte>, residue: seq<byte>): seq<byte>
    requires |sig| <= SIG_LEN == |residue|
  {
    sig + residue[|sig|..]
  }

  /** `sig`, completed by the end of the buffer, is the digest `h`. */
  predicate Vouches(sig: seq<byte>, residue: seq<byte>, h: seq<byte>) {
    sig <= h && |sig| <= |residue| && residue[|sig|..] == h[|sig|..]
  }

  /** The comparison asks for the sent bytes and for what the buffer held behind them. */
  lemma ComparedIff(sig: seq<byte>, residue: seq<byte>, h: seq<byte>)
    requires |sig| <= SIG_LEN == |residue|
    ensures Compared(sig, residue) == h <==> |h| == SIG_LEN && Vouches(sig, residue, h)
    ensures |sig| == SIG_LEN ==> (Vouches(sig, residue, h) && |h| == SIG_LEN <==> sig == h)
  {
    var c := Compared(sig, residue);
    assert c[..|sig|] == sig && c[|sig|..] == residue[|sig|..];
    if |h| >= |sig| {
      assert h == h[..|sig|] + h[|sig|..];
    }
  }

  /** Active side, the response: the signature must match. */
  function OnResponse(k: Crypto, a: Auth, m: Msg, env: Env): Outcome
    requires EnvOk(env)
  {
    if !a.active || m.state != Code(DeviceAuth) || a.local.None? || a.peer.None? || m.nonce.None?
       || m.sig.None? then Fail(a)
    else
      var nonceP := FromHex(m.nonce.value, NONCE_LEN);
      var sig := FromHex(m.sig.value, SIG_LEN);
      FromHexSize(m.sig.value, SIG_LEN);
      if nonceP.None? || |nonceP.value| != NONCE_LEN || sig.None? || a.psk.None? then Fail(a)
      else if Compared(sig.value, env.residue)
              != k.hmac(a.psk.value, Signed(a.nonce, nonceP.value, a.local.value, a.peer.value)) then Fail(a)
      else
        var b := WithKeys(k, a);
        if b.keys.None? then Fail(b)
        else Outcome(b.(awaiting := false, state := Done), Complete, Some(Bare(b, DeviceInfo)))
  }

  /** Passive side, the peer's device information. */
  function OnDeviceInfo(a: Auth, m: Msg, env: Env): Outcome {
    if a.active || m.state != Code(DeviceInfo) || a.keys.None? then Fail(a)
    else Outcome(Enter(a, Done, env.now).(awaiting := false), Complete, None)
  }

  /** One message; None is text that is not a JSON object. */
  function Feed(k: Crypto, a: Auth, input: Option<Msg>, env: Env): Outcome
    requires EnvOk(env)
  {
    if (a.active && a.state == Idle) || a.state == Done || a.state == Failed || input.None? then Outcome(a, Noop, None)
    else
      var m := input.value;
      var first := !a.active && a.state == Idle;
      if !first && m.authId != a.authId then Fail(a)
      else
        var b := if first then a.(authId := m.authId) else a;
        match b.state
        case Idle => OnNegotiation(b, m, env)
        case Negotiation => OnDeviceId(b, m, env)
        case DeviceId => OnRequest(k, b, m, env)
        case DeviceAuth => OnResponse(k, b, m, env)
        case DeviceInfo => OnDeviceInfo(b, m, env)
        case _ => Outcome(b, Noop, None)
  }

  datatype Retry = Retry(auth: Auth, granted: bool)

  const TIMEOUT: nat := 30000

  function RetryDue(a: Auth, now: nat): Retry {
    if a.state == Failed || a.state == Done || !a.awaiting || now < a.entered + TIMEOUT then Retry(a, false)
    else if a.retries >= RETRIES then Retry(Fail(a).auth, false)
    else Retry(a.(retries := a.retries + 1, entered := now), true)
  }

  // ---------------------------------------------------------------- every run

  datatype Event = Start(now: nat) | Message(input: Option<Msg>, env: Env) | Poll(now: nat)

  /** The exchange with its history: retries granted, and the response an active side accepted. */
  datatype Session = Session(auth: Auth, granted: nat, accepted: Option<Msg>, residue: seq<byte>)

  function Step(k: Crypto, s: Session, ev: Event): Session
    requires ev.Message? ==> EnvOk(ev.env)
  {
    match ev
    case Start(now) => s.(auth := Begin(s.auth, now).auth)
    case Message(input, env) =>
      var o := Feed(k, s.auth, input, env);
      if o.verdict == Complete && s.auth.active then s.(auth := o.auth, accepted := input, residue := env.residue)
      else s.(auth := o.auth)
    case Poll(now) =>
      var r := RetryDue(s.auth, now);
      s.(auth := r.auth, granted := s.granted + if r.granted then 1 else 0)
  }

  /** How many states that wait for an answer have been entered. */
  function Waits(a: Auth): nat {
    match a.state
    case Idle => 0
    case Negotiation => 1
    case DeviceId => 1
    case _ => 2
  }

  /** What a response has to sign for the active side `a`. */
  ghost function Digest(k: Crypto, a: Auth, nonceP: seq<byte>): seq<byte>
    requires a.psk.Some? && a.local.Some? && a.peer.Some?
  {
    k.hmac(a.psk.value, Signed(a.nonce, nonceP, a.local.value, a.peer.value))
  }

  /**
   * The keys are derived, and the response the active side accepted carried the full digest when it had 32
   * bytes, and otherwise a beginning of it that the bytes left in the buffer happened to complete.
   */
  ghost predicate Proven(k: Crypto, s: Session) {
    var a := s.auth;
    && s.accepted.Some? && s.accepted.value.nonce.Some? && s.accepted.value.sig.Some?
    && a.psk.Some? && a.local.Some? && a.peer.Some? && |s.residue| == SIG_LEN
    && var nonceP := FromHex(s.accepted.value.nonce.value, NONCE_LEN);
       var sig := FromHex(s.accepted.value.sig.value, SIG_LEN);
       && nonceP.Some? && |nonceP.value| == NONCE_LEN && sig.Some? && |sig.value| <= SIG_LEN
       && Vouches(sig.value, s.residue, Digest(k, a, nonceP.value))
       && (|sig.value| == SIG_LEN ==> sig.value == Digest(k, a, nonceP.value))
       && a.keys == Derive(k, a.psk.value, a.local.value, a.peer.value)
  }

  ghost predicate Sound(k: Crypto, s: Session) {
    var a := s.auth;
    && a.retries <= RETRIES
    && (a.state == Idle ==> !a.active && !a.awaiting && s.granted == 0 && a.retries == 0 && a.keys.None?)
    && (a.state in {Negotiation, DeviceAuth} ==> a.active) && (a.state in {DeviceId, DeviceInfo} ==> !a.active)
    && (a.state !in {Idle, Done, Failed} ==> s.granted <= a.retries + RETRIES * (Waits(a) - 1))
    && s.granted <= 2 * RETRIES
    && (a.active && a.state != Done ==> a.keys.None?)
    && (a.active && a.state == Done ==> a.keys.Some? && Proven(k, s))
    && (a.state == Done ==> a.keys.Some?)
  }

  ghost predicate Forward(s: Session, t: Session) {
    && (Code(s.auth.state) <= Code(t.auth.state))
    && (s.auth.state in {Done, Failed} ==> t.auth == s.auth && t.granted == s.granted)
  }

  lemma FeedForward(k: Crypto, s: Session, ev: Event)
    requires ev.Message? && EnvOk(ev.env)
    ensures Forward(s, Step(k, s, ev))
  {
    hide FromHex, Derive, Signed, Compared, Vouches;
  }

  /** Every message but the response to an active side that waits for it. */
  lemma OtherKeeps(k: Crypto, s: Session, ev: Event)
    requires Sound(k, s) && ev.Message? && EnvOk(ev.env) && s.auth.state != DeviceAuth
    ensures Sound(k, Step(k, s, ev))
  {
    hide FromHex, ToHex, Derive, Signed, Compared, Vouches, Proven;
    if s.auth.state == Done {
      SameSession(k, s, ev);
    }
  }

  lemma SameSession(k: Crypto, s: Session, ev: Event)
    requires ev.Message? && EnvOk(ev.env) && s.auth.state == Done
    ensures Step(k, s, ev) == s
  {
  }

  lemma ResponseKeeps(k: Crypto, s: Session, ev: Event)
    requires Sound(k, s) && ev.Message? && EnvOk(ev.env) && s.auth.state == DeviceAuth
    ensures Sound(k, Step(k, s, ev))
  {
    hide FromHex, ToHex, Derive, Signed, Compared, Vouches;
    var a := s.auth;
    if ev.input.Some? && ev.input.value.sig.Some? && ev.input.value.nonce.Some? {
      var sig := FromHex(ev.input.value.sig.value, SIG_LEN);
      var nonceP := FromHex(ev.input.value.nonce.value, NONCE_LEN);
      FromHexSize(ev.input.value.sig.value, SIG_LEN);
      if sig.Some? && nonceP.Some? && a.psk.Some? && a.local.Some? && a.peer.Some? {
        ComparedIff(sig.value, ev.env.residue, Digest(k, a, nonceP.value));
      }
    }
  }

  lemma FeedKeeps(k: Crypto, s: Session, ev: Event)
    requires Sound(k, s) && ev.Message? && EnvOk(ev.env)
    ensures Sound(k, Step(k, s, ev))
  {
    hide Sound, Step;
    if s.auth.state == DeviceAuth {
      ResponseKeeps(k, s, ev);
    } else {
      OtherKeeps(k, s, ev);
    }
  }

  lemma {:induction false} StepKeeps(k: Crypto, s: Session, ev: Event)
    requires Sound(k, s) && (ev.Message? ==> EnvOk(ev.env))
    ensures Sound(k, Step(k, s, ev)) && Forward(s, Step(k, s, ev))
  {
    hide FromHex, Derive, Signed;
    if ev.Message? {
      FeedKeeps(k, s, ev);
      FeedForward(k, s, ev);
    }
  }

  ghost predicate EventsOk(events: seq<Event>) {
    forall i | 0 <= i < |events| :: events[i].Message? ==> EnvOk(events[i].env)
  }

  function Run(k: Crypto, s: Session, events: seq<Event>): Session
    requires EventsOk(events)
    decreases |events|
  {
    if events == [] then s else Run(k, Step(k, s, events[0]), events[1..])
  }

  lemma {:induction false} RunKeeps(k: Crypto, s: Session, events: seq<Event>)
    requires Sound(k, s) && EventsOk(events)
    ensures Sound(k, Run(k, s, events)) && Forward(s, Run(k, s, events))
    decreases |events|
  {
    hide Sound, Step;
    if events != [] {
      StepKeeps(k, s, events[0]);
      RunKeeps(k, Step(k, s, events[0]), events[1..]);
    }
  }

  /**
   * Over every sequence of messages, polls and starts: at most six retries are granted, an active side has
   * keys exactly when it is DONE and then accepted a matching signature, and from any point on states only
   * advance while DONE and FAILED absorb.
   */
  lemma {:induction false} EveryRun(k: Crypto, psk: Option<seq<byte>>, local: Option<seq<byte>>, nonce: seq<byte>,
                                    authId: u64, first: seq<Event>, second: seq<Event>)
    requires EventsOk(first) && EventsOk(second)
    ensures var s := Run(k, Session(NewAuth(psk, local, nonce, authId), 0, None, []), first);
            && s.granted <= 6
            && (s.auth.active ==> (s.auth.keys.Some? <==> s.auth.state == Done))
            && (s.auth.active && s.auth.keys.Some? ==> Proven(k, s))
            && Forward(s, Run(k, s, second))
  {
    hide Run, Proven, Derive, FromHex;
    var start := Session(NewAuth(psk, local, nonce, authId), 0, None, []);
    RunKeeps(k, start, first);
    RunKeeps(k, Run(k, start, first), second);
  }

  // ---------------------------------------------------------------- short signatures

  /** A response that is well formed but for its signature, to an active side that waits for it. */
  ghost predicate Answerable(a: Auth, m: Msg) {
    && a.state == DeviceAuth && a.active && a.keys.None? && m.authId == a.authId && m.state == Code(DeviceAuth)
    && a.psk.Some? && a.local.Some? && a.peer.Some? && m.nonce.Some? && m.sig.Some?
    && FromHex(m.nonce.value, NONCE_LEN).Some? && |FromHex(m.nonce.value, NONCE_LEN).value| == NONCE_LEN
    && FromHex(m.sig.value, SIG_LEN).Some?
  }

  /**
   * The length of the decoded signature is not looked at: one of 32 bytes is accepted if and only if it is the
   * digest, a shorter one if and only if it begins the digest and the old buffer supplies the missing bytes.
   */
  lemma {:induction false} AcceptsIff(k: Crypto, a: Auth, m: Msg, env: Env)
    requires CryptoOk(k) && EnvOk(env) && Answerable(a, m)
    ensures var h := Digest(k, a, FromHex(m.nonce.value, NONCE_LEN).value);
            var sig := FromHex(m.sig.value, SIG_LEN).value;
            var done := Feed(k, a, Some(m), env).auth.state == Done;
            && |sig| <= SIG_LEN
            && (|sig| == SIG_LEN ==>
                  (done <==> sig == h && Derive(k, a.psk.value, a.local.value, a.peer.value).Some?))
            && (|sig| < SIG_LEN ==>
                  (done <==> Vouches(sig, env.residue, h)
                             && Derive(k, a.psk.value, a.local.value, a.peer.value).Some?))
            && (done <==> Feed(k, a, Some(m), env).auth.keys.Some?)
  {
    hide FromHex, Derive, Signed, Compared, Vouches;
    FromHexSize(m.sig.value, SIG_LEN);
    ComparedIff(FromHex(m.sig.value, SIG_LEN).value, env.residue,
                Digest(k, a, FromHex(m.nonce.value, NONCE_LEN).value));
  }

  /** The peer names itself, then answers with a nonce and no signature at all. */
  function Unsigned(peer: seq<byte>, nonceP: seq<byte>, authId: u64, residue: seq<byte>): seq<Event> {
    var env := Env(0, nonceP, residue);
    [Start(0), Message(Some(Msg(Code(DeviceId), authId, None, Some(peer), None, None)), env),
     Message(Some(Msg(Code(DeviceAuth), authId, None, None, Some(ToHex(nonceP)), Some([]))), env)]
  }

  /** A run in which an empty signature is accepted: it is if and only if the old buffer is the digest. */
  lemma {:induction false} EmptySignature(k: Crypto, psk: seq<byte>, local: seq<byte>, peer: seq<byte>,
                                          nonce: seq<byte>, nonceP: seq<byte>, authId: u64, residue: seq<byte>)
    requires CryptoOk(k) && |nonceP| == NONCE_LEN && |residue| == SIG_LEN
    ensures EventsOk(Unsigned(peer, nonceP, authId, residue))
    ensures var start := Session(NewAuth(Some(psk), Some(local), nonce, authId), 0, None, []);
            var a := Run(k, start, Unsigned(peer, nonceP, authId, residue)).auth;
            a.state == Done && a.keys.Some? <==>
              residue == k.hmac(psk, Signed(nonce, nonceP, local, peer)) && Derive(k, psk, local, peer).Some?
  {
    hide FromHex, ToHex, Derive, Signed, Compared, Vouches, Run;
    var start := Session(NewAuth(Some(psk), Some(local), nonce, authId), 0, None, []);
    var es := Unsigned(peer, nonceP, authId, residue);
    var s1 := Step(k, start, es[0]);
    var s2 := Step(k, s1, es[1]);
    RunThree(k, start, es);
    HexRoundTrip(nonceP, NONCE_LEN);
    NoHex();
    AcceptsIff(k, s2.auth, es[2].input.value, es[2].env);
    VouchesNothing(residue, Digest(k, s2.auth, nonceP));
  }

  lemma NoHex()
    ensures FromHex([], SIG_LEN) == Some([])
  {
  }

  lemma VouchesNothing(residue: seq<byte>, h: seq<byte>)
    ensures Vouches([], residue, h) <==> residue == h
  {
    assert residue[0..] == residue && h[0..] == h;
  }

  lemma RunThree(k: Crypto, s: Session, es: seq<Event>)
    requires |es| == 3 && EventsOk(es)
    ensures Run(k, s, es) == Step(k, Step(k, Step(k, s, es[0]), es[1]), es[2])
  {
    hide Step;
    var s1 := Step(k, s, es[0]);
    var s2 := Step(k, s1, es[1]);
    assert Run(k, s, es) == Run(k, s1, es[1..]);
    assert es[1..][0] == es[1] && es[1..][1..] == es[2..];
    assert Run(k, s1, es[1..]) == Run(k, s2, es[2..]);
    assert es[2..][0] == es[2] && es[2..][1..] == [];
    assert Run(k, s2, es[2..]) == Run(k, Step(k, s2, es[2]), []);
  }

  /** The state a message names is counted from 1: none carries 0, as the file comment has it. */
  lemma MessageStates(k: Crypto, a: Auth, now: nat, input: Option<Msg>, env: Env)
    requires EnvOk(env)
    ensures Begin(a, now).out.Some? ==> Begin(a, now).out.value.state == 1
    ensures Feed(k, a, input, env).out.Some? ==> 2 <= Feed(k, a, input, env).out.value.state <= 4
  {
    hide FromHex, ToHex, Derive, Signed, Compared;
  }

  // ---------------------------------------------------------------- the honest exchange

  /**
   * An active and a passive side that receive each other's messages: both end DONE exactly when their
   * secrets give the same signature and keys can be derived; with one secret the keys are equal, for every
   * order of the ids.
   */
  lemma {:induction false} HonestExchange(k: Crypto, pskA: seq<byte>, pskP: seq<byte>, idA: seq<byte>, idP: seq<byte>,
                                          nonceA: seq<byte>, nonceP: seq<byte>, authA: u64, authP: u64,
                                          residue: seq<byte>)
    returns (a: Auth, p: Auth)
    requires CryptoOk(k) && |nonceA| == NONCE_LEN && |nonceP| == NONCE_LEN && |residue| == SIG_LEN
    ensures var signed := Signed(nonceA, nonceP, idA, idP);
            a.state == Done <==> k.hmac(pskA, signed) == k.hmac(pskP, signed) && Derive(k, pskA, idA, idP).Some?
    ensures a.state == Done ==> (p.state == Done <==> Derive(k, pskP, idP, idA).Some?)
    ensures a.state == Done && p.state == Done && pskA == pskP ==> a.keys.Some? && a.keys == p.keys
    ensures pskA == pskP && Derive(k, pskA, idA, idP).Some? ==> a.state == Done && p.state == Done
  {
    hide FromHex, ToHex, Salt, Signed;
    var env := Env(0, nonceP, residue);
    SaltSymmetric(idA, idP);
    HexRoundTrip(nonceA, NONCE_LEN);
    HexRoundTrip(nonceP, NONCE_LEN);
    var sigP := k.hmac(pskP, Signed(nonceA, nonceP, idA, idP));
    HexRoundTrip(sigP, SIG_LEN);
    assert Compared(sigP, residue) == sigP;
    a := NewAuth(Some(pskA), Some(idA), nonceA, authA);
    p := NewAuth(Some(pskP), Some(idP), nonceP, authP);
    var m0 := Begin(a, 0);
    var m1 := Feed(k, p, m0.out, env);
    var m2 := Feed(k, m0.auth, m1.out, env);
    var m3 := Feed(k, m1.auth, m2.out, env);
    assert m3.out == Some(Msg(3, authA, None, None, Some(ToHex(nonceP)), Some(ToHex(sigP))));
    var m4 := Feed(k, m2.auth, m3.out, env);
    var m5 := Feed(k, m3.auth, m4.out, env);
    a := m4.auth;
    p := m5.auth;
  }

  // ---------------------------------------------------------------- the object

  /** `SoftbusAuth`: the fields its three entry points update, tied to the functions above. */
  class Authenticator {
    const k: Crypto
    const psk: Option<seq<byte>>
    const local: Option<seq<byte>>
    const nonce: seq<byte>
    var state: State
    var active: bool
    var awaiting: bool
    var authId: u64
    var retries: nat
    var entered: nat
    var peer: Option<seq<byte>>
    var keys: Option<Keys>

    ghost function View(): Auth
      reads this
    {
      Auth(psk, local, nonce, state, active, awaiting, authId, retries, entered, peer, keys)
    }

    constructor (k: Crypto, psk: Option<seq<byte>>, local: Option<seq<byte>>, nonce: seq<byte>, authId: u64)
      ensures this.k == k && View() == NewAuth(psk, local, nonce, authId)
    {
      this.k, this.psk, this.local, this.nonce, this.authId := k, psk, local, nonce, authId;
      state, active, awaiting, retries, entered, peer, keys := Idle, false, false, 0, 0, None, None;
    }

    method EnterState(s: State, now: nat)
      modifies `state, `retries, `entered
      ensures View() == old(View()).(state := s, retries := 0, entered := now)
    {
      state, retries, entered := s, 0, now;
    }

    method FailNow()
      modifies `state, `awaiting
      ensures View() == Fail(old(View())).auth
    {
      state, awaiting := Failed, false;
    }

    method BeginActive(now: nat) returns (verdict: Verdict, out: Option<Msg>)
      modifies this
      ensures Outcome(View(), verdict, out) == Begin(old(View()), now)
    {
      if state != Idle {
        return Noop, None;
      }
      active, awaiting := true, true;
      EnterState(Negotiation, now);
      return Send, Some(Msg(Code(Negotiation), authId, Some(VERSION), None, None, None));
    }

    method DeriveKeys()
      requires psk.Some? && local.Some? && peer.Some?
      modifies `keys
      ensures View() == WithKeys(k, old(View()))
    {
      var derived := Derive(k, psk.value, local.value, peer.value);
      if derived.Some? {
        keys := derived;
      }
    }

    method FeedMessage(input: Option<Msg>, env: Env) returns (verdict: Verdict, out: Option<Msg>)
      requires EnvOk(env)
      modifies this
      ensures Outcome(View(), verdict, out) == Feed(k, old(View()), input, env)
    {
      hide FromHex, ToHex, Derive, Signed;
      verdict, out := Noop, None;
      if (active && state == Idle) || state == Done || state == Failed || input.None? {
        return;
      }
      var m := input.value;
      if !active && state == Idle {
        authId := m.authId;
      } else if m.authId != authId {
        FailNow();
        verdict := Refused;
        return;
      }
      if state == Idle {
        verdict, out := TakeNegotiation(m, env);
      } else if state == Negotiation {
        verdict, out := TakeDeviceId(m, env);
      } else if state == DeviceId {
        verdict, out := TakeRequest(m, env);
      } else if state == DeviceAuth {
        verdict, out := TakeResponse(m, env);
      } else {
        verdict, out := TakeDeviceInfo(m, env);
      }
    }

    method TakeNegotiation(m: Msg, env: Env) returns (verdict: Verdict, out: Option<Msg>)
      modifies this
      ensures Outcome(View(), verdict, out) == OnNegotiation(old(View()), m, env)
    {
      verdict, out := Refused, None;
      if active || m.state != Code(Negotiation) || (m.version.Some? && m.version.value != VERSION) {
        FailNow();
        return;
      }
      awaiting := true;
      EnterState(DeviceId, env.now);
      return Send, Some(Msg(Code(DeviceId), authId, None, local, None, None));
    }

    method TakeDeviceId(m: Msg, env: Env) returns (verdict: Verdict, out: Option<Msg>)
      modifies this
      ensures Outcome(View(), verdict, out) == OnDeviceId(old(View()), m, env)
    {
      verdict, out := Refused, None;
      if !active || m.state != Code(DeviceId) || m.deviceId.None? {
        FailNow();
        return;
      }
      peer, awaiting := m.deviceId, true;
      EnterState(DeviceAuth, env.now);
      return Send, Some(Msg(Code(DeviceAuth), authId, None, local, Some(ToHex(nonce)), None));
    }

    method TakeRequest(m: Msg, env: Env) returns (verdict: Verdict, out: Option<Msg>)
      modifies this
      ensures Outcome(View(), verdict, out) == OnRequest(k, old(View()), m, env)
    {
      hide FromHex, ToHex, Derive, Signed;
      verdict, out := Refused, None;
      if active || m.state != Code(DeviceAuth) || local.None? || m.nonce.None? {
        FailNow();
        return;
      }
      var nonceA := FromHex(m.nonce.value, NONCE_LEN);
      if nonceA.None? || |nonceA.value| != NONCE_LEN {
        FailNow();
        return;
      }
      if m.deviceId.Some? {
        peer := m.deviceId;
      }
      if peer.None? || psk.None? {
        FailNow();
        return;
      }
      var sig := k.hmac(psk.value, Signed(nonceA.value, env.nonce, peer.value, local.value));
      DeriveKeys();
      awaiting := true;
      EnterState(DeviceInfo, env.now);
      return Send, Some(Msg(Code(DeviceAuth), authId, None, None, Some(ToHex(env.nonce)), Some(ToHex(sig))));
    }

    method TakeResponse(m: Msg, env: Env) returns (verdict: Verdict, out: Option<Msg>)
      requires EnvOk(env)
      modifies this
      ensures Outcome(View(), verdict, out) == OnResponse(k, old(View()), m, env)
    {
      hide FromHex, ToHex, Derive, Signed;
      verdict, out := Refused, None;
      if !active || m.state != Code(DeviceAuth) || local.None? || peer.None? || m.nonce.None? || m.sig.None? {
        FailNow();
        return;
      }
      var nonceP := FromHex(m.nonce.value, NONCE_LEN);
      var sig := FromHex(m.sig.value, SIG_LEN);
      FromHexSize(m.sig.value, SIG_LEN);
      if nonceP.None? || |nonceP.value| != NONCE_LEN || sig.None? || psk.None? {
        FailNow();
        return;
      }
      var expected := k.hmac(psk.value, Signed(nonce, nonceP.value, local.value, peer.value));
      if Compared(sig.value, env.residue) != expected {
        FailNow();
        return;
      }
      DeriveKeys();
      if keys.None? {
        FailNow();
        return;
      }
      awaiting, state := false, Done;
      return Complete, Some(Msg(Code(DeviceInfo), authId, None, None, None, None));
    }

    method TakeDeviceInfo(m: Msg, env: Env) returns (verdict: Verdict, out: Option<Msg>)
      modifies this
      ensures Outcome(View(), verdict, out) == OnDeviceInfo(old(View()), m, env)
    {
      verdict, out := Refused, None;
      if active || m.state != Code(DeviceInfo) || keys.None? {
        FailNow();
        return;
      }
      awaiting := false;
      EnterState(Done, env.now);
      return Complete, None;
    }

    method PollRetry(now: nat) returns (granted: bool)
      modifies this
      ensures Retry(View(), granted) == RetryDue(old(View()), now)
    {
      granted := false;
      if state == Failed || state == Done || !awaiting || now < entered || now - entered < TIMEOUT {
        return;
      }
      if retries >= RETRIES {
        FailNow();
        return;
      }
      retries, entered, granted := retries + 1, now, true;
    }
  }
}

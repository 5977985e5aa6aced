/**
 * Which conversations an authenticating side accepts: over every sequence of messages from anybody, each role
 * ends DONE exactly when the first messages it hears are the right ones in the right order.
 */
module SoftbusRuns {
  import opened Bytes
  import opened SoftbusAuth

  datatype Input = Input(msg: Msg, env: Env)

  ghost predicate InputsOk(ins: seq<Input>) {
    forall i | 0 <= i < |ins| :: EnvOk(ins[i].env)
  }

  /** The side after a list of messages. */
  function Hears(k: Crypto, a: Auth, ins: seq<Input>): Auth
    requires InputsOk(ins)
    decreases |ins|
  {
    if ins == [] then a else Hears(k, Feed(k, a, Some(ins[0].msg), ins[0].env).auth, ins[1..])
  }

  /** Hex of exactly 16 bytes. */
  function Nonce(h: Option<seq<byte>>): Option<seq<byte>> {
    if h.None? then None
    else
      var n := FromHex(h.value, 16);
      if n.Some? && |n.value| == 16 then n else None
  }

  lemma {:induction false} OverStays(k: Crypto, a: Auth, ins: seq<Input>)
    requires InputsOk(ins) && a.state in {Done, Failed}
    ensures Hears(k, a, ins) == a
    decreases |ins|
  {
    if ins != [] {
      OverStays(k, a, ins[1..]);
    }
  }

  // ---------------------------------------------------------------- the passive side

  predicate Negotiates(m: Msg) {
    m.state == 1 && (m.version.Some? ==> m.version.value == 1)
  }

  /** A request that can be signed: the same exchange, a nonce, the peer's id, and a secret and an id of our own. */
  predicate Requests(a: Auth, m: Msg, authId: u64) {
    m.authId == authId && m.state == 3 && Nonce(m.nonce).Some? && m.deviceId.Some? && a.psk.Some? && a.local.Some?
  }

  predicate Informs(m: Msg, authId: u64) {
    m.authId == authId && m.state == 4
  }

  /** The answer that proves the passive side's secret. */
  function Proof(k: Crypto, a: Auth, m: Msg, authId: u64, env: Env): Msg
    requires Requests(a, m, authId)
  {
    var text := Nonce(m.nonce).value + env.nonce + m.deviceId.value + a.local.value;
    Msg(3, authId, None, None, Some(ToHex(env.nonce)), Some(ToHex(k.hmac(a.psk.value, text))))
  }

  lemma FirstHeard(k: Crypto, a: Auth, i: Input)
    requires EnvOk(i.env) && a.state == Idle && !a.active
    ensures var o := Feed(k, a, Some(i.msg), i.env); var m := i.msg;
            && (Negotiates(m) ==>
                  && o.auth == a.(authId := m.authId, state := DeviceId, awaiting := true, retries := 0,
                                  entered := i.env.now)
                  && o.verdict == Send && o.out == Some(Msg(2, m.authId, None, a.local, None, None)))
            && (!Negotiates(m) ==> o.auth.state == Failed && o.verdict == Refused && o.out.None?)
  {
  }

  lemma RequestHeard(k: Crypto, a: Auth, i: Input)
    requires EnvOk(i.env) && a.state == DeviceId && !a.active && a.peer.None? && a.keys.None?
    ensures var o := Feed(k, a, Some(i.msg), i.env); var m := i.msg;
            && (Requests(a, m, a.authId) ==>
                  && o.auth == a.(peer := m.deviceId, keys := Derive(k, a.psk.value, a.local.value, m.deviceId.value),
                                  state := DeviceInfo, awaiting := true, retries := 0, entered := i.env.now)
                  && o.verdict == Send && o.out == Some(Proof(k, a, m, a.authId, i.env)))
            && (!Requests(a, m, a.authId) ==> o.auth.state == Failed && o.verdict == Refused && o.out.None?)
  {
    hide FromHex, ToHex, Derive;
  }

  lemma InfoHeard(k: Crypto, a: Auth, i: Input)
    requires EnvOk(i.env) && a.state == DeviceInfo && !a.active
    ensures var o := Feed(k, a, Some(i.msg), i.env);
            && (Informs(i.msg, a.authId) && a.keys.Some? ==>
                  o.auth.state == Done && o.auth.keys == a.keys && o.verdict == Complete && o.out.None?)
            && (!(Informs(i.msg, a.authId) && a.keys.Some?) ==>
                  o.auth.state == Failed && o.verdict == Refused && o.out.None?)
  {
  }

  /** The three messages a passive side completes on. */
  predicate Accepted(k: Crypto, a: Auth, ins: seq<Input>) {
    && |ins| >= 3 && Negotiates(ins[0].msg)
    && Requests(a, ins[1].msg, ins[0].msg.authId) && Informs(ins[2].msg, ins[0].msg.authId)
    && Derive(k, a.psk.value, a.local.value, ins[1].msg.deviceId.value).Some?
  }

  lemma Unroll(k: Crypto, a: Auth, ins: seq<Input>)
    requires InputsOk(ins) && ins != []
    ensures InputsOk(ins[1..]) && Hears(k, a, ins) == Hears(k, Feed(k, a, Some(ins[0].msg), ins[0].env).auth, ins[1..])
  {
  }

  /**
   * Whatever is sent to a side that has not started: it ends DONE if and only if the first message negotiates,
   * the second is a request of the same exchange it can sign, the third gives the device information, and keys
   * can be derived; the keys are those of the id in the request. It has refused if and only if one of the three
   * came wrong.
   */
  lemma {:induction false} PassiveDoneIff(k: Crypto, psk: Option<seq<byte>>, local: Option<seq<byte>>, nonce: seq<byte>,
                                          authId: u64, ins: seq<Input>)
    requires InputsOk(ins)
    ensures var a := NewAuth(psk, local, nonce, authId); var b := Hears(k, a, ins);
            && (b.state == Done <==> Accepted(k, a, ins))
            && (b.state == Done ==>
                  b.keys == Derive(k, psk.value, local.value, ins[1].msg.deviceId.value) && b.keys.Some?)
            && (b.state == Failed <==>
                  || (|ins| >= 1 && !Negotiates(ins[0].msg))
                  || (|ins| >= 2 && !Requests(a, ins[1].msg, ins[0].msg.authId))
                  || (|ins| >= 3 && !Accepted(k, a, ins)))
  {
    hide Feed, Derive, Nonce, Hears, Requests;
    var a := NewAuth(psk, local, nonce, authId);
    Nothing(k, a);
    if ins != [] {
      Unroll(k, a, ins);
      FirstHeard(k, a, ins[0]);
      var a1 := Feed(k, a, Some(ins[0].msg), ins[0].env).auth;
      var rest := ins[1..];
      if a1.state == Failed {
        OverStays(k, a1, rest);
      } else if rest == [] {
        Nothing(k, a1);
      } else {
        SecondHeard(k, a, a1, ins);
      }
    }
  }

  lemma Nothing(k: Crypto, a: Auth)
    ensures InputsOk([]) && Hears(k, a, []) == a
  {
  }

  lemma SameRequest(a: Auth, b: Auth, m: Msg, authId: u64)
    requires a.psk == b.psk && a.local == b.local
    ensures Requests(a, m, authId) <==> Requests(b, m, authId)
  {
  }

  lemma SecondHeard(k: Crypto, a: Auth, a1: Auth, ins: seq<Input>)
    requires InputsOk(ins) && |ins| >= 2 && a.peer.None? && a.keys.None? && !a.active
    requires a1 == a.(authId := ins[0].msg.authId, state := DeviceId, awaiting := true, retries := 0,
                      entered := ins[0].env.now)
    ensures InputsOk(ins[1..])
    ensures var b := Hears(k, a1, ins[1..]); var asked := Requests(a, ins[1].msg, ins[0].msg.authId);
            var keys := if asked then Derive(k, a.psk.value, a.local.value, ins[1].msg.deviceId.value) else None;
            var fine := |ins| >= 3 && asked && Informs(ins[2].msg, ins[0].msg.authId) && keys.Some?;
            && (b.state == Done <==> fine) && (fine ==> b.keys == keys)
            && (b.state == Failed <==> !asked || (|ins| >= 3 && !fine))
  {
    hide Feed, Derive, Nonce, Hears, Requests;
    var rest := ins[1..];
    Unroll(k, a1, rest);
    RequestHeard(k, a1, rest[0]);
    SameRequest(a, a1, ins[1].msg, ins[0].msg.authId);
    var a2 := Feed(k, a1, Some(rest[0].msg), rest[0].env).auth;
    if a2.state == Failed {
      OverStays(k, a2, rest[1..]);
    } else if rest[1..] == [] {
      Nothing(k, a2);
    } else {
      Unroll(k, a2, rest[1..]);
      assert rest[1..][0] == ins[2];
      InfoHeard(k, a2, ins[2]);
      OverStays(k, Feed(k, a2, Some(ins[2].msg), ins[2].env).auth, rest[1..][1..]);
    }
  }

  // ---------------------------------------------------------------- the active side

  predicate NamesItself(m: Msg, authId: u64) {
    m.authId == authId && m.state == 2 && m.deviceId.Some?
  }

  /** A response whose signature, with what the buffer held behind it, is the digest of the exchange. */
  ghost predicate Proves(k: Crypto, a: Auth, peer: seq<byte>, i: Input) {
    var m := i.msg;
    && m.authId == a.authId && m.state == 3 && a.psk.Some? && a.local.Some?
    && Nonce(m.nonce).Some? && m.sig.Some? && FromHex(m.sig.value, 32).Some?
    && Vouches(FromHex(m.sig.value, 32).value, i.env.residue,
               k.hmac(a.psk.value, a.nonce + Nonce(m.nonce).value + a.local.value + peer))
  }

  lemma IdHeard(k: Crypto, a: Auth, i: Input)
    requires EnvOk(i.env) && a.state == Negotiation && a.active
    ensures var o := Feed(k, a, Some(i.msg), i.env); var m := i.msg;
            && (NamesItself(m, a.authId) ==>
                  && o.auth == a.(peer := m.deviceId, state := DeviceAuth, awaiting := true, retries := 0,
                                  entered := i.env.now)
                  && o.verdict == Send && o.out == Some(Msg(3, a.authId, None, a.local, Some(ToHex(a.nonce)), None)))
            && (!NamesItself(m, a.authId) ==> o.auth.state == Failed && o.verdict == Refused && o.out.None?)
  {
    hide ToHex;
  }

  lemma ResponseHeard(k: Crypto, a: Auth, i: Input)
    requires CryptoOk(k) && EnvOk(i.env) && a.state == DeviceAuth && a.active && a.peer.Some? && a.keys.None?
    ensures var o := Feed(k, a, Some(i.msg), i.env);
            var fine := Proves(k, a, a.peer.value, i) && Derive(k, a.psk.value, a.local.value, a.peer.value).Some?;
            && (fine ==>
                  && o.auth == a.(state := Done, awaiting := false,
                                  keys := Derive(k, a.psk.value, a.local.value, a.peer.value))
                  && o.verdict == Complete && o.out == Some(Msg(4, a.authId, None, None, None, None)))
            && (!fine ==> o.auth.state == Failed && o.verdict == Refused && o.out.None?)
  {
    hide FromHex, Derive, Compared, Vouches;
    var m := i.msg;
    if m.sig.Some? && FromHex(m.sig.value, SIG_LEN).Some? && Nonce(m.nonce).Some? && a.psk.Some? && a.local.Some? {
      FromHexSize(m.sig.value, SIG_LEN);
      var nonceP := Nonce(m.nonce).value;
      ComparedIff(FromHex(m.sig.value, SIG_LEN).value, i.env.residue,
                  k.hmac(a.psk.value, Signed(a.nonce, nonceP, a.local.value, a.peer.value)));
    }
  }

  /**
   * Whatever is sent to a side that has started: it ends DONE if and only if the peer first names itself and then
   * proves its secret, and keys can be derived; the keys are those of the id that was named.
   */
  lemma {:induction false} ActiveDoneIff(k: Crypto, psk: Option<seq<byte>>, local: Option<seq<byte>>, nonce: seq<byte>,
                                         authId: u64, now: nat, ins: seq<Input>)
    requires CryptoOk(k) && InputsOk(ins)
    ensures var a := Begin(NewAuth(psk, local, nonce, authId), now).auth; var b := Hears(k, a, ins);
            var fine := |ins| >= 2 && NamesItself(ins[0].msg, authId)
                        && Proves(k, a, ins[0].msg.deviceId.value, ins[1])
                        && Derive(k, psk.value, local.value, ins[0].msg.deviceId.value).Some?;
            && (b.state == Done <==> fine)
            && (fine ==> b.keys == Derive(k, psk.value, local.value, ins[0].msg.deviceId.value))
            && (b.state == Failed <==> (|ins| >= 1 && !NamesItself(ins[0].msg, authId)) || (|ins| >= 2 && !fine))
  {
    hide Feed, Derive, Nonce, Hears, Proves;
    var a := Begin(NewAuth(psk, local, nonce, authId), now).auth;
    Nothing(k, a);
    if ins != [] {
      Unroll(k, a, ins);
      IdHeard(k, a, ins[0]);
      var a1 := Feed(k, a, Some(ins[0].msg), ins[0].env).auth;
      var rest := ins[1..];
      if a1.state == Failed {
        OverStays(k, a1, rest);
      } else if rest == [] {
        Nothing(k, a1);
      } else {
        Unroll(k, a1, rest);
        ResponseHeard(k, a1, rest[0]);
        SameProof(k, a, a1, ins[0].msg.deviceId.value, rest[0]);
        ProofNeeds(k, a1, a1.peer.value, rest[0]);
        OverStays(k, Feed(k, a1, Some(rest[0].msg), rest[0].env).auth, rest[1..]);
      }
    }
  }

  lemma SameProof(k: Crypto, a: Auth, b: Auth, peer: seq<byte>, i: Input)
    requires a.psk == b.psk && a.local == b.local && a.nonce == b.nonce && a.authId == b.authId
    ensures Proves(k, a, peer, i) <==> Proves(k, b, peer, i)
  {
    hide Vouches, FromHex;
  }

  lemma ProofNeeds(k: Crypto, a: Auth, peer: seq<byte>, i: Input)
    ensures Proves(k, a, peer, i) ==> a.psk.Some? && a.local.Some?
  {
    hide Vouches, FromHex;
  }

  // ---------------------------------------------------------------- what changes nothing

  /** Text that is no message is answered by nothing and changes nothing, and neither does anything once it is over. */
  lemma {:induction false} NotHeard(k: Crypto, a: Auth, input: Option<Msg>, env: Env)
    requires EnvOk(env)
    ensures input.None? || a.state in {Done, Failed} || (a.active && a.state == Idle) ==>
              Feed(k, a, input, env) == Outcome(a, Noop, None)
  {
  }

  // ---------------------------------------------------------------- a peer that stays silent

  /** Polls from `entered` on, each at least 30 seconds after the one before. */
  predicate Apart(entered: nat, polls: seq<nat>)
    decreases |polls|
  {
    polls == [] || (polls[0] >= entered + 30000 && Apart(polls[0], polls[1..]))
  }

  function Polled(a: Auth, polls: seq<nat>): (Auth, seq<bool>)
    decreases |polls|
  {
    if polls == [] then (a, [])
    else
      var r := RetryDue(a, polls[0]);
      var rest := Polled(r.auth, polls[1..]);
      (rest.0, [r.granted] + rest.1)
  }

  /** A poll that comes too early grants nothing and changes nothing. */
  lemma TooEarly(a: Auth, now: nat)
    requires now < a.entered + 30000
    ensures RetryDue(a, now) == Retry(a, false)
  {
  }

  /**
   * A side that waits and hears nothing: polled 30 seconds apart it is granted what is left of three retries, and
   * the next poll fails it; from then on nothing is granted.
   */
  lemma {:induction false} SilentPeer(a: Auth, polls: seq<nat>)
    requires a.awaiting && a.state !in {Done, Failed} && a.retries <= 3 && Apart(a.entered, polls)
    ensures var r := Polled(a, polls); var left := 3 - a.retries;
            && |r.1| == |polls| && (forall i | 0 <= i < |polls| :: r.1[i] <==> i < left)
            && (|polls| <= left ==> r.0 == a.(retries := a.retries + |polls|, entered := r.0.entered))
            && (|polls| > left ==> r.0.state == Failed && !r.0.awaiting && r.0.keys == a.keys)
    decreases |polls|
  {
    if polls != [] {
      var r := RetryDue(a, polls[0]);
      if a.retries < 3 {
        SilentPeer(r.auth, polls[1..]);
      } else {
        FailedPolls(r.auth, polls[1..]);
      }
    }
  }

  lemma {:induction false} FailedPolls(a: Auth, polls: seq<nat>)
    requires a.state == Failed
    ensures Polled(a, polls).0 == a && |Polled(a, polls).1| == |polls|
    ensures forall i | 0 <= i < |polls| :: !Polled(a, polls).1[i]
    decreases |polls|
  {
    if polls != [] {
      FailedPolls(a, polls[1..]);
    }
  }
}

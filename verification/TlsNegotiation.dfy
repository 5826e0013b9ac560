/** What a server chooses from an offer: always the first that both can do, and nothing only if there is nothing. */
module TlsNegotiation {
  import opened Wrappers
  import opened TlsMessages
  import opened TlsServer

  // ----- Cipher suites and protocols -----

  /** A suite can be used if it is that of the pre-shared key or, without a key, if the server supports it. */
  predicate SuiteFits(psk: Option<Psk>, supported: seq<nat>, suite: nat) {
    if psk.Some? then suite == psk.value.suite else suite in supported
  }

  lemma {:induction false} SuiteIsFirst(psk: Option<Psk>, offered: seq<nat>, supported: seq<nat>, i: nat)
    requires i < |offered|
    ensures NegotiateSuite(psk, offered, supported).None? ==> !SuiteFits(psk, supported, offered[i])
    ensures SuiteFits(psk, supported, offered[i]) && (forall j :: 0 <= j < i ==> !SuiteFits(psk, supported, offered[j]))
            ==> NegotiateSuite(psk, offered, supported) == Some(offered[i])
  {
    if i > 0 {
      assert forall j :: 0 <= j < i - 1 ==> offered[1..][j] == offered[j + 1];
      SuiteIsFirst(psk, offered[1..], supported, i - 1);
    }
  }

  /** A protocol can be used if the server supports it and, with a pre-shared key, if it is that of the key. */
  predicate ProtoFits(psk: Option<Psk>, supported: seq<string>, proto: string) {
    (psk.Some? ==> proto == psk.value.proto) && proto in supported
  }

  lemma {:induction false} ProtoIsFirst(psk: Option<Psk>, offered: seq<string>, supported: seq<string>,
                                        all: seq<string>, i: nat)
    requires i < |offered| && ProtoFits(psk, supported, offered[i])
    requires forall j :: 0 <= j < i ==> !ProtoFits(psk, supported, offered[j])
    ensures NegotiateProto(psk, offered, supported, all) == Some(offered[i])
  {
    if i > 0 {
      assert forall j :: 0 <= j < i - 1 ==> offered[1..][j] == offered[j + 1];
      ProtoIsFirst(psk, offered[1..], supported, all, i - 1);
    }
  }

  /** Without one the server goes on without a protocol, unless protocols were offered for a resumption. */
  lemma {:induction false} NoProtoIsFound(psk: Option<Psk>, offered: seq<string>, supported: seq<string>,
                                          all: seq<string>)
    requires forall j :: 0 <= j < |offered| ==> !ProtoFits(psk, supported, offered[j])
    ensures NegotiateProto(psk, offered, supported, all)
            == if psk.Some? && psk.value.isResumption && all != [] then None else Some("")
  {
    if offered != [] {
      NoProtoIsFound(psk, offered[1..], supported, all);
    }
  }

  // ----- Key exchange -----

  /** The server supports the group of a share, and the exchange with its own key succeeds. */
  predicate ShareFits(c: Crypto, s: KeyShare, groups: seq<nat>, priv: Bytes) {
    s.group in groups && c.public(s.group, priv).Some? && c.agree(s.group, s.public, priv).Some?
  }

  lemma {:induction false} DhIsFirst(c: Crypto, shares: seq<KeyShare>, groups: seq<nat>, priv: nat -> Bytes, from: nat,
                                     i: nat)
    requires from <= i < |shares|
    ensures NegotiateDh(c, shares, groups, priv, from).None? ==> !ShareFits(c, shares[i], groups, priv(i))
    ensures ShareFits(c, shares[i], groups, priv(i))
            && (forall j: nat :: from <= j < i ==> !ShareFits(c, shares[j], groups, priv(j))) ==>
              var s := shares[i];
              NegotiateDh(c, shares, groups, priv, from)
              == Some((KeyShare(s.group, c.public(s.group, priv(i)).value), c.agree(s.group, s.public, priv(i)).value))
    decreases |shares| - from
  {
    if from < i {
      DhIsFirst(c, shares, groups, priv, from + 1, i);
    }
  }

  /** A pre-shared key is used if some offered mode allows it, and Diffie-Hellman whenever nothing forbids it. */
  lemma ModesAreKept(canDoDh: bool, canDoPsk: bool, modes: seq<PskMode>)
    ensures var (usingDh, usingPsk) := NegotiatePskMode(canDoDh, canDoPsk, modes);
            && (usingPsk <==> canDoPsk && exists m :: m in modes && (m.PskOnly? || canDoDh))
            && (usingDh ==> canDoDh)
            && (usingPsk && usingDh ==> PskWithDh in modes)
            && (usingPsk && !usingDh ==> PskOnly in modes)
            && (!usingPsk ==> usingDh == canDoDh)
            && (canDoDh && PskWithDh in modes ==> usingDh)
  {
    if modes != [] {
      assert modes[0] in modes;
      assert modes[0].PskOnly? || modes[0].PskWithDh?;
    }
  }

  // ----- Certificates -----

  predicate CertFits(c: Crypto, cert: Cert, name: Option<string>, schemes: seq<nat>) {
    Carries(cert, name) && exists s :: s in schemes && c.usable(s, cert.key)
  }

  lemma {:induction false} SchemeIsFirst(c: Crypto, schemes: seq<nat>, key: Bytes)
    ensures match FirstUsable(c, schemes, key)
            case None => forall s :: s in schemes ==> !c.usable(s, key)
            case Some(s) =>
              exists i :: 0 <= i < |schemes| && schemes[i] == s && c.usable(s, key)
                          && forall j :: 0 <= j < i ==> !c.usable(schemes[j], key)
  {
    if schemes != [] {
      SchemeIsFirst(c, schemes[1..], key);
      if FirstUsable(c, schemes, key).Some? {
        var s := FirstUsable(c, schemes, key).value;
        if c.usable(schemes[0], key) {
          assert schemes[0] == s;
        } else {
          var i :| 0 <= i < |schemes[1..]| && schemes[1..][i] == s && c.usable(s, key)
                   && forall j :: 0 <= j < i ==> !c.usable(schemes[1..][j], key);
          assert forall j :: 1 <= j <= i ==> schemes[j] == schemes[1..][j - 1];
          assert schemes[i + 1] == s;
        }
      }
    }
  }

  lemma {:induction false} CertificateIsFirst(c: Crypto, name: Option<string>, schemes: seq<nat>, certs: seq<Cert>)
    ensures SelectCertificate(c, name, schemes, certs).None? <==>
            forall i :: 0 <= i < |certs| ==> !CertFits(c, certs[i], name, schemes)
    ensures forall i :: && 0 <= i < |certs| && CertFits(c, certs[i], name, schemes)
                        && (forall j :: 0 <= j < i ==> !CertFits(c, certs[j], name, schemes)) ==>
              && SelectCertificate(c, name, schemes, certs).Some?
              && SelectCertificate(c, name, schemes, certs).value.0 == certs[i]
              && FirstUsable(c, schemes, certs[i].key) == Some(SelectCertificate(c, name, schemes, certs).value.1)
  {
    if certs != [] {
      CertificateIsFirst(c, name, schemes, certs[1..]);
      SchemeIsFirst(c, schemes, certs[0].key);
      SelectsFirst(c, name, schemes, certs);
      assert forall j :: 0 <= j < |certs| - 1 ==> certs[1..][j] == certs[j + 1];
      if !CertFits(c, certs[0], name, schemes) {
        forall i | && 0 <= i < |certs| && CertFits(c, certs[i], name, schemes)
                   && (forall j :: 0 <= j < i ==> !CertFits(c, certs[j], name, schemes))
          ensures && SelectCertificate(c, name, schemes, certs).Some?
                  && SelectCertificate(c, name, schemes, certs).value.0 == certs[i]
                  && FirstUsable(c, schemes, certs[i].key) == Some(SelectCertificate(c, name, schemes, certs).value.1)
        {
          assert certs[1..][i - 1] == certs[i];
          assert forall j :: 0 <= j < i - 1 ==> !CertFits(c, certs[1..][j], name, schemes);
        }
      }
    }
  }

  /** One certificate at a time. */
  lemma SelectsFirst(c: Crypto, name: Option<string>, schemes: seq<nat>, certs: seq<Cert>)
    requires certs != []
    ensures var s := FirstUsable(c, schemes, certs[0].key);
            SelectCertificate(c, name, schemes, certs)
            == if Carries(certs[0], name) && s.Some? then Some((certs[0], s.value))
               else SelectCertificate(c, name, schemes, certs[1..])
  {
    if name.Some? {
      var rest := WithName(certs[1..], name.value);
      if Carries(certs[0], name) {
        assert WithName(certs, name.value) == [certs[0]] + rest;
        assert WithName(certs, name.value)[1..] == rest;
      } else {
        assert WithName(certs, name.value) == [] + rest == rest;
      }
    }
  }
}

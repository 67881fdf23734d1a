/**
 * When the host certificate is renewed. Times are whole nanoseconds since 1970, certificate times whole seconds.
 * The half of the validity is exact, and validities are at most the 292 years a duration can hold.
 */
module HostCerts {
  import opened Prelude

  type Time = int
  type Key = string

  const SECOND := 1_000_000_000
  const DAY := 24 * 3600 * SECOND
  const INFINITY := 0xFFFF_FFFF_FFFF_FFFF

  datatype Cert = Cert(key: Key, ca: Key, principals: seq<string>, validAfter: nat, validBefore: nat)

  /** A certificate that ends, with times and a validity that fit Go's types. */
  predicate Ordinary(c: Cert) {
    && c.validAfter <= c.validBefore < 0x7FFF_FFFF_FFFF_FFFF
    && (c.validBefore - c.validAfter) * SECOND < 0x7FFF_FFFF_FFFF_FFFF
  }

  function Start(c: Cert): Time { c.validAfter * SECOND }
  function End(c: Cert): Time { c.validBefore * SECOND }

  /** Renewed at half the validity. */
  function Deadline(c: Cert): Time { End(c) - (End(c) - Start(c)) / 2 }

  predicate ForTarget(c: Cert, target: string) { target == "" || c.principals == [target] }

  predicate IsValid(c: Cert, target: string, now: Time) {
    && ForTarget(c, target)
    && Start(c) <= now
    && (c.validBefore == INFINITY || now < Deadline(c))
  }

  /** `pub` is the host key, None while there is none. Some means that this key needs a certificate. */
  function NeedsRenewal(pub: Option<Key>, cert: Option<Cert>, target: string, ca: Key, now: Time): Option<Key> {
    if pub.None? then None
    else if cert.None? || !IsValid(cert.value, target, now) then pub
    else if cert.value.key != pub.value || cert.value.ca != ca then pub
    else None
  }

  /** `ca` is None when the cached key does not parse. */
  function NextRenewal(cert: Option<Cert>, target: string, ca: Option<Key>, now: Time): Time {
    if cert.None? then now
    else if ca.None? || !IsValid(cert.value, target, now) || cert.value.ca != ca.value then now
    else if cert.value.validBefore == INFINITY then now + DAY
    else if Deadline(cert.value) < now then now
    else Deadline(cert.value)
  }

  /** Everything about the certificate but its time is in order. */
  predicate Fits(c: Cert, pub: Key, target: string, ca: Key) { c.key == pub && c.ca == ca && ForTarget(c, target) }

  lemma DeadlineInside(c: Cert)
    requires Ordinary(c)
    ensures Start(c) <= Deadline(c) <= End(c)
    ensures c.validAfter < c.validBefore ==> Start(c) < Deadline(c) < End(c)
    ensures Deadline(c) - Start(c) == End(c) - Deadline(c)
  {
    var d := c.validBefore - c.validAfter;
    assert End(c) - Start(c) == d * SECOND;
    assert d * SECOND == 2 * (d * 500_000_000);
  }

  /**
   * With a host key, a new certificate is needed exactly if there is none, or it is of another CA, for another key or
   * not for the target alone, if it is not valid yet, or if at least half of its validity is over, which for one that
   * never ends is never.
   */
  lemma NeedsRenewalExactly(pub: Option<Key>, cert: Option<Cert>, target: string, ca: Key, now: Time)
    requires cert.Some? && cert.value.validBefore != 0xFFFF_FFFF_FFFF_FFFF ==> Ordinary(cert.value)
    ensures NeedsRenewal(pub, cert, target, ca, now) ==
            if pub.Some? && (cert.None? || Unfit(cert.value, pub.value, target, ca, now)) then pub else None
  {
    if cert.Some? && cert.value.validBefore != 0xFFFF_FFFF_FFFF_FFFF { DeadlineInside(cert.value); }
  }

  predicate Unfit(c: Cert, pub: Key, target: string, ca: Key, now: Time) {
    || c.ca != ca || c.key != pub || (target != "" && c.principals != [target])
    || now < c.validAfter * 1_000_000_000
    || (c.validBefore != 0xFFFF_FFFF_FFFF_FFFF &&
        now - c.validAfter * 1_000_000_000 >= c.validBefore * 1_000_000_000 - now)
  }

  /** A certificate that fits needs renewal exactly outside the first half of its validity. */
  lemma NeedsRenewalWindow(c: Cert, pub: Key, target: string, ca: Key, now: Time)
    requires Ordinary(c) && Fits(c, pub, target, ca)
    ensures NeedsRenewal(Some(pub), Some(c), target, ca, now).Some? <==> now < Start(c) || Deadline(c) <= now
  {
  }

  /** `t` tells exactly when the certificate needs renewal, as seen from `now`. */
  ghost predicate Tells(c: Cert, pub: Key, target: string, ca: Key, now: Time, t: Time) {
    && now <= t
    && forall u :: now <= u ==> (NeedsRenewal(Some(pub), Some(c), target, ca, u).Some? <==> t <= u)
  }

  /**
   * For a certificate that fits and ends, NextRenewal tells exactly when it needs renewal, now or at a deadline
   * inside its validity, unless the certificate is not valid yet.
   */
  lemma NextRenewalTells(c: Cert, pub: Key, target: string, ca: Key, now: Time)
    requires Ordinary(c) && c.validAfter < c.validBefore && Fits(c, pub, target, ca)
    ensures Tells(c, pub, target, ca, now, NextRenewal(Some(c), target, Some(ca), now)) <==> Start(c) <= now
    ensures NextRenewal(Some(c), target, Some(ca), now) > now ==>
              Start(c) < NextRenewal(Some(c), target, Some(ca), now) < End(c)
  {
    DeadlineInside(c);
    if now < Start(c) {
      assert NeedsRenewal(Some(pub), Some(c), target, ca, Start(c)).None?;
    }
  }

  /** NextRenewal does not look at the host key: it waits for the deadline of a certificate of another key too. */
  lemma WaitsOnForeignKey(c: Cert, pub: Key, target: string, ca: Key, now: Time)
    requires Ordinary(c) && c.ca == ca && ForTarget(c, target) && Start(c) <= now < Deadline(c)
    ensures NextRenewal(Some(c), target, Some(ca), now) == Deadline(c) > now
    ensures NeedsRenewal(Some(pub), Some(c), target, ca, now).Some? <==> c.key != pub
  {
  }

  /** It happens: with a certificate of the previous host key, renewal is due now and planned for much later. */
  lemma ForeignKeyWaits()
    ensures var c := Cert("previous", "ca", ["host"], 0, 86400);
            && NeedsRenewal(Some("current"), Some(c), "host", "ca", SECOND) == Some("current")
            && NextRenewal(Some(c), "host", Some("ca"), SECOND) == 43200 * SECOND
  {
    var c := Cert("previous", "ca", ["host"], 0, 86400);
    assert Deadline(c) == 43200 * SECOND;
    WaitsOnForeignKey(c, "current", "host", "ca", SECOND);
  }

  const MIN_DELAY := 30 * SECOND

  /** The delay of the watcher after a pass without error, at the time `now`. */
  function Delay(next: Time, now: Time): Time { if next - now > MIN_DELAY then next - now else MIN_DELAY }

  /**
   * The watcher looks again at the deadline, or half a minute from now if that is later, so no renewal is overdue by
   * more. For a certificate that never ends it looks again a day after it read the clock. `read` is when NextRenewal
   * looked at the clock, `now` when the delay is computed.
   */
  lemma WatcherIsOnTime(c: Cert, pub: Key, target: string, ca: Key, read: Time, now: Time)
    requires Ordinary(c) || c.validBefore == 0xFFFF_FFFF_FFFF_FFFF
    requires Fits(c, pub, target, ca) && Start(c) <= read <= now
    ensures var check := now + Delay(NextRenewal(Some(c), target, Some(ca), read), now);
            var soon := now + 30_000_000_000;
            var due := if c.validBefore == 0xFFFF_FFFF_FFFF_FFFF then read + 86_400_000_000_000 else Deadline(c);
            && check == (if due > soon then due else soon)
            && forall u :: now <= u < check - 30_000_000_000 ==> NeedsRenewal(Some(pub), Some(c), target, ca, u).None?
  {
    if Ordinary(c) { DeadlineInside(c); }
  }

  /** What the signing service and the certificate file do. */
  datatype Signed = SignFailed | NotACert | SignedCert(cert: Cert)

  class Store {
    var cert: Option<Cert>

    /**
     * RenewHostCerts with the parsed CA, None when it does not parse. A certificate is written exactly when one
     * was needed and a certificate of the trusted CA came back, and then it is that one.
     */
    method RenewHostCerts(target: string, caKey: string, ca: Option<Key>, pub: Option<Key>, now: Time, answer: Signed,
                          writes: bool)
      returns (renewed: bool, ok: bool)
      modifies this
      ensures renewed <==>
              caKey != "" && ca.Some? && NeedsRenewal(pub, old(cert), target, ca.value, now).Some?
              && answer.SignedCert? && answer.cert.ca == ca.value && writes
      ensures cert == if renewed then Some(answer.cert) else old(cert)
      ensures ok <==> renewed || caKey == "" || (ca.Some? && NeedsRenewal(pub, old(cert), target, ca.value, now).None?)
      ensures renewed ==> cert.value.ca == ca.value
    {
      if caKey == "" { return false, true; }
      if ca.None? { return false, false; }
      var need := NeedsRenewal(pub, cert, target, ca.value, now);
      if need.None? { return false, true; }
      if answer.SignFailed? || answer.NotACert? { return false, false; }
      if answer.cert.ca != ca.value || !writes { return false, false; }
      cert := Some(answer.cert);
      return true, true;
    }
  }
}

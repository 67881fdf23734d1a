/**
 * Who may log in: the cached principals per account, the trusted CAs, and the test a certificate has to pass.
 * Keys are compared in wire form. Parsing a key is a parameter, the checks of x/crypto are one too.
 */
module Access {
  import opened Prelude

  type User = string
  type Principal = string
  type Wire = string
  type Time = int
  type Principals = map<User, seq<Principal>>

  /** ssh.ParseAuthorizedKey followed by Marshal. */
  type Parser = string -> Option<Wire>

  // The cache.

  predicate Letter(c: char) { 'a' <= c <= 'z' || 'A' <= c <= 'Z' }

  /** At most 32 bytes, a letter or underscore, then letters, digits, dots, underscores, dashes, then maybe a dollar. */
  predicate ValidUser(u: User) {
    && 0 < |u| <= 32
    && (Letter(u[0]) || u[0] == '_')
    && forall i :: 1 <= i < |u| ==>
         Letter(u[i]) || Digit(u[i]) || u[i] in "._-" || (u[i] == '$' && i == |u| - 1)
  }

  /** A letter or underscore, then letters, digits, dots, underscores and dashes. */
  predicate PosixName(n: string) {
    && n != "" && ('A' <= n[0] <= 'Z' || 'a' <= n[0] <= 'z' || n[0] == '_')
    && forall i :: 1 <= i < |n| ==>
         'A' <= n[i] <= 'Z' || 'a' <= n[i] <= 'z' || '0' <= n[i] <= '9' || n[i] == '.' || n[i] == '_' || n[i] == '-'
  }

  /** The names the source's regular expression matches: such a name, or one with a dollar sign after it. */
  lemma ValidUserIsPosix(u: User)
    ensures ValidUser(u) <==>
            |u| <= 32 && (PosixName(u) || (|u| > 1 && u[|u| - 1] == '$' && PosixName(u[..|u| - 1])))
  {
    assert "._-"[0] == '.' && "._-"[1] == '_' && "._-"[2] == '-';
    if |u| > 1 {
      var n := u[..|u| - 1];
      assert forall i :: 0 <= i < |n| ==> n[i] == u[i];
      assert ValidUser(u) && u[|u| - 1] == '$' ==> PosixName(n);
      assert ValidUser(u) && u[|u| - 1] != '$' ==> PosixName(u);
    }
  }

  function ValidPrincipals(m: Principals): Principals { map u | u in m && ValidUser(u) :: m[u] }

  function Listed(m: Principals, u: User): seq<Principal> { if u in m then m[u] else [] }

  /** One account's entry in a sync answer. */
  datatype Grant = Grant(user: User, principals: seq<Principal>)

  /** A later entry for the same account replaces an earlier one. */
  function GrantMap(grants: seq<Grant>): Principals {
    if grants == [] then map[] else
      var g := grants[|grants| - 1];
      GrantMap(grants[..|grants| - 1])[g.user := g.principals]
  }

  /** The entry that counts for an account. */
  predicate LastEntry(grants: seq<Grant>, i: int, u: User) {
    && 0 <= i < |grants| && grants[i].user == u
    && forall j :: i < j < |grants| ==> grants[j].user != u
  }

  /** The map holds exactly the accounts the answer names, each with the principals of its last entry. */
  lemma {:induction false} GrantIsLast(grants: seq<Grant>, u: User)
    ensures u in GrantMap(grants) <==> exists i :: LastEntry(grants, i, u)
    ensures forall i :: LastEntry(grants, i, u) ==> u in GrantMap(grants) && GrantMap(grants)[u] == grants[i].principals
    decreases |grants|
  {
    if grants != [] {
      var n := |grants| - 1;
      var init := grants[..n];
      GrantIsLast(init, u);
      if grants[n].user == u {
        assert LastEntry(grants, n, u);
      } else {
        assert forall i :: LastEntry(grants, i, u) <==> LastEntry(init, i, u);
      }
    }
  }

  /**
   * What a login finds listed after a sync: a principal counts for an account exactly if the account has a valid
   * name and the last entry for it in the answer names the principal.
   */
  lemma SyncedPrincipals(grants: seq<Grant>, u: User, p: Principal)
    ensures p in Listed(ValidPrincipals(GrantMap(grants)), u) <==>
            ValidUser(u) && exists i :: LastEntry(grants, i, u) && p in grants[i].principals
  {
    GrantIsLast(grants, u);
  }

  datatype RetiredKey = RetiredKey(key: string, until: Time)

  /** What the backend decides about the daemon, of no concern here. */
  type Config = string

  class Cache {
    var principals: Principals
    var config: Config
    var ca: string
    var retiredCAs: seq<RetiredKey>
    var version: int

    /** Everything is swapped at once. Only accounts with a valid name are taken over. */
    method Replace(next: Principals, newConfig: Config, newCA: string, retired: seq<RetiredKey>, newVersion: int)
      modifies this
      ensures principals == ValidPrincipals(next)
      ensures config == newConfig && ca == newCA && retiredCAs == retired && version == newVersion
    {
      var valid: Principals := map[];
      var todo := next.Keys;
      while todo != {}
        invariant todo <= next.Keys
        invariant valid == map u | u in next && u !in todo && ValidUser(u) :: next[u]
        decreases |todo|
      {
        var u :| u in todo;
        todo := todo - {u};
        if ValidUser(u) { valid := valid[u := next[u]]; }
      }
      principals, config, ca, retiredCAs, version := valid, newConfig, newCA, retired, newVersion;
    }

    method CertPrincipals(u: User) returns (ps: seq<Principal>)
      ensures ps == Listed(principals, u)
    {
      ps := if u in principals then principals[u] else [];
    }
  }

  /** The loop of syncDaemon that turns the answer into a map. */
  method BuildPrincipals(grants: seq<Grant>) returns (m: Principals)
    ensures m == GrantMap(grants)
  {
    m := map[];
    for i := 0 to |grants|
      invariant m == GrantMap(grants[..i])
    {
      assert grants[..i + 1][..i] == grants[..i];
      m := m[grants[i].user := grants[i].principals];
    }
    assert grants[..|grants|] == grants;
  }

  // The trusted CAs.

  datatype Trust = Trust(active: set<Wire>, retired: map<Wire, Time>)

  function RetiredMap(parse: Parser, keys: seq<RetiredKey>): map<Wire, Time> {
    if keys == [] then map[] else
      var init, k := keys[..|keys| - 1], keys[|keys| - 1];
      var wire := parse(k.key);
      if wire.None? then RetiredMap(parse, init) else RetiredMap(parse, init)[wire.value := k.until]
  }

  predicate Readable(parse: Parser, active: string) { active == "" || parse(active).Some? }

  /** SetTrust: an empty key trusts no CA, an unreadable one leaves the trust as it was. */
  function NextTrust(parse: Parser, t: Trust, active: string, keys: seq<RetiredKey>): Trust {
    if !Readable(parse, active) then t
    else Trust(if active == "" then {} else {parse(active).value}, RetiredMap(parse, keys))
  }

  predicate Trusted(t: Trust, ca: Wire, now: Time) { ca in t.active || (ca in t.retired && now < t.retired[ca]) }

  /** The entry that counts for a retired CA. */
  predicate LastKey(parse: Parser, keys: seq<RetiredKey>, i: int, ca: Wire) {
    && 0 <= i < |keys| && parse(keys[i].key) == Some(ca)
    && forall j :: i < j < |keys| ==> parse(keys[j].key) != Some(ca)
  }

  /** A retired CA is one the answer named, with the deadline of its last readable entry. */
  lemma {:induction false} RetiredIsNamed(parse: Parser, keys: seq<RetiredKey>, ca: Wire)
    ensures ca in RetiredMap(parse, keys) <==> exists i :: LastKey(parse, keys, i, ca)
    ensures forall i :: LastKey(parse, keys, i, ca) ==>
              ca in RetiredMap(parse, keys) && RetiredMap(parse, keys)[ca] == keys[i].until
    decreases |keys|
  {
    if keys != [] {
      var n := |keys| - 1;
      var init := keys[..n];
      RetiredIsNamed(parse, init, ca);
      if parse(keys[n].key) == Some(ca) {
        assert LastKey(parse, keys, n, ca);
      } else {
        assert forall i :: LastKey(parse, keys, i, ca) <==> LastKey(parse, init, i, ca);
      }
    }
  }

  /**
   * Which CAs are trusted after a sync, on its answer: the active key, and a retired key before the deadline of its
   * last entry. A garbled active key changes nothing.
   */
  ghost predicate Vouches(parse: Parser, t: Trust, active: string, keys: seq<RetiredKey>, ca: Wire, now: Time) {
    if active != "" && parse(active).None? then ca in t.active || (ca in t.retired && now < t.retired[ca])
    else (active != "" && parse(active) == Some(ca)) || exists i :: LastKey(parse, keys, i, ca) && now < keys[i].until
  }

  lemma TrustedAfterSync(parse: Parser, t: Trust, active: string, keys: seq<RetiredKey>, ca: Wire, now: Time)
    ensures Trusted(NextTrust(parse, t, active, keys), ca, now) <==> Vouches(parse, t, active, keys, ca, now)
  {
    RetiredIsNamed(parse, keys, ca);
  }

  // The test of a certificate.

  /** `sound` stands for CheckCert: critical options, validity and signature, for the matched principal. */
  datatype Cert = Cert(isCert: bool, isUser: bool, ca: Wire, principals: seq<Principal>, sound: Principal -> bool)

  /** The first allowed principal that the certificate carries, empty when there is none. */
  function FirstMatch(allowed: seq<Principal>, carried: seq<Principal>): Principal {
    if allowed == [] then "" else if allowed[0] in carried then allowed[0] else FirstMatch(allowed[1..], carried)
  }

  /** The first of the allowed principals that the certificate carries is the one at `i`. */
  predicate IsFirst(allowed: seq<Principal>, carried: seq<Principal>, i: int) {
    0 <= i < |allowed| && allowed[i] in carried && forall j :: 0 <= j < i ==> allowed[j] !in carried
  }

  /** The match is the first allowed principal that the certificate carries, and empty if there is none. */
  lemma {:induction false} FirstMatchIsFirst(allowed: seq<Principal>, carried: seq<Principal>)
    ensures forall i :: IsFirst(allowed, carried, i) ==> FirstMatch(allowed, carried) == allowed[i]
    ensures (forall i :: !IsFirst(allowed, carried, i)) ==> FirstMatch(allowed, carried) == ""
    decreases |allowed|
  {
    if allowed != [] {
      var rest := allowed[1..];
      FirstMatchIsFirst(rest, carried);
      assert forall i :: 0 <= i < |rest| ==> allowed[i + 1] == rest[i];
      if allowed[0] in carried {
        assert IsFirst(allowed, carried, 0);
      } else {
        forall i | IsFirst(rest, carried, i) ensures IsFirst(allowed, carried, i + 1) {
          assert forall j :: 0 <= j < i + 1 ==> j == 0 || allowed[j] == rest[j - 1];
        }
        forall i | IsFirst(allowed, carried, i) ensures IsFirst(rest, carried, i - 1) {
          assert forall j :: 0 <= j < i - 1 ==> rest[j] == allowed[j + 1];
        }
      }
    }
  }

  /** When a login is let in, and as which principal. */
  predicate Admitted(t: Trust, now: Time, allowed: seq<Principal>, cert: Cert) {
    var m := FirstMatch(allowed, cert.principals);
    cert.isCert && cert.isUser && Trusted(t, cert.ca, now) && m != "" && cert.sound(m)
  }

  class Server {
    var trustedCAs: set<Wire>
    var retiredCAs: map<Wire, Time>

    ghost function View(): Trust
      reads this
    {
      Trust(trustedCAs, retiredCAs)
    }

    method SetTrust(parse: Parser, active: string, keys: seq<RetiredKey>)
      modifies this
      ensures View() == NextTrust(parse, old(View()), active, keys)
    {
      var trusted: set<Wire> := {};
      if active != "" {
        var pub := parse(active);
        if pub.None? { return; }
        trusted := {pub.value};
      }
      var retired: map<Wire, Time> := map[];
      for i := 0 to |keys|
        invariant retired == RetiredMap(parse, keys[..i])
      {
        assert keys[..i + 1][..i] == keys[..i];
        var pub := parse(keys[i].key);
        if pub.None? { continue; }
        retired := retired[pub.value := keys[i].until];
      }
      assert keys[..|keys|] == keys;
      trustedCAs, retiredCAs := trusted, retired;
    }

    method TrustedCAWire(ca: Wire, now: Time) returns (ok: bool)
      ensures ok == Trusted(View(), ca, now)
      ensures ca in trustedCAs ==> ok
      ensures ca !in trustedCAs ==> (ok <==> ca in retiredCAs && now < retiredCAs[ca])
    {
      if ca in trustedCAs { return true; }
      ok := ca in retiredCAs && now < retiredCAs[ca];
    }

    /**
     * publicKeyCallback, with the principals synced for the account. A user certificate of a CA that is active, or
     * retired and before its deadline, is let in as the first allowed principal it carries, if it is sound for that.
     * An empty principal lets nobody in.
     */
    method PublicKeyCallback(cert: Cert, allowed: seq<Principal>, now: Time) returns (matched: Option<Principal>)
      ensures matched.Some? <==> Admitted(View(), now, allowed, cert)
      ensures matched.Some? <==>
              && cert.isCert && cert.isUser
              && (cert.ca in trustedCAs || (cert.ca in retiredCAs && now < retiredCAs[cert.ca]))
              && exists i :: IsFirst(allowed, cert.principals, i) && allowed[i] != "" && cert.sound(allowed[i])
      ensures matched.Some? ==> exists i :: IsFirst(allowed, cert.principals, i) && matched.value == allowed[i]
    {
      FirstMatchIsFirst(allowed, cert.principals);
      if !cert.isCert || !cert.isUser { return None; }
      var trusted := TrustedCAWire(cert.ca, now);
      if !trusted || |allowed| == 0 { return None; }
      var m := "";
      for i := 0 to |allowed|
        invariant m == ""
        invariant FirstMatch(allowed, cert.principals) == FirstMatch(allowed[i..], cert.principals)
      {
        assert allowed[i..][1..] == allowed[i + 1..];
        if allowed[i] in cert.principals {
          m := allowed[i];
          break;
        }
      }
      if m == "" || !cert.sound(m) { return None; }
      matched := Some(m);
    }
  }
}

/** The requests on a session channel: what starts a command, what may come before it, and the client's environment. */
module Session {
  import opened Prelude

  const MAX_CLIENT_ENV := 64

  // The environment, a list of KEY=VALUE entries.

  predicate Sets(entry: string, key: string) { key + "=" <= entry }

  /** The value of the first entry for `key`. */
  function EnvValue(env: seq<string>, key: string): Option<string> {
    if env == [] then None
    else if Sets(env[0], key) then Some(env[0][|key| + 1..])
    else EnvValue(env[1..], key)
  }

  /** Replaces the first entry for `key`, or appends one. */
  function WithEnv(env: seq<string>, key: string, value: string): seq<string> {
    if env == [] then [key + "=" + value]
    else if Sets(env[0], key) then [key + "=" + value] + env[1..]
    else [env[0]] + WithEnv(env[1..], key, value)
  }

  lemma {:induction false} WithEnvAt(env: seq<string>, key: string, value: string, i: nat)
    requires i < |env|
    ensures env[..i] + WithEnv(env[i..], key, value) ==
            if Sets(env[i], key) then env[i := key + "=" + value]
            else env[..i + 1] + WithEnv(env[i + 1..], key, value)
  {
    var rest := env[i..];
    assert rest[0] == env[i] && rest[1..] == env[i + 1..];
    if Sets(env[i], key) {
      assert env[i := key + "=" + value] == env[..i] + ([key + "=" + value] + env[i + 1..]);
    } else {
      assert env[..i + 1] == env[..i] + [env[i]];
      Assoc(env[..i], [env[i]], WithEnv(env[i + 1..], key, value));
    }
  }

  method SetEnv(env: seq<string>, key: string, value: string) returns (env': seq<string>)
    ensures env' == WithEnv(env, key, value)
  {
    var kv := key + "=" + value;
    var i := 0;
    Empty(WithEnv(env, key, value));
    assert env[..0] == [] && env[0..] == env;
    while i < |env|
      invariant 0 <= i <= |env|
      invariant WithEnv(env, key, value) == env[..i] + WithEnv(env[i..], key, value)
    {
      WithEnvAt(env, key, value, i);
      if Sets(env[i], key) { return env[i := kv]; }
      i := i + 1;
    }
    assert env[..i] == env && env[i..] == [];
    env' := env + [kv];
  }

  method GetEnv(env: seq<string>, key: string) returns (value: Option<string>)
    ensures value == EnvValue(env, key)
  {
    for i := 0 to |env|
      invariant EnvValue(env, key) == EnvValue(env[i..], key)
    {
      assert env[i..][0] == env[i] && env[i..][1..] == env[i + 1..];
      if Sets(env[i], key) { return Some(env[i][|key| + 1..]); }
    }
    assert env[|env|..] == [];
    value := None;
  }

  lemma {:induction false} GetAfterSet(env: seq<string>, key: string, value: string)
    ensures EnvValue(WithEnv(env, key, value), key) == Some(value)
    decreases |env|
  {
    var kv := key + "=" + value;
    assert kv[|key| + 1..] == value && Sets(kv, key);
    if env != [] && !Sets(env[0], key) {
      GetAfterSet(env[1..], key, value);
      assert ([env[0]] + WithEnv(env[1..], key, value))[1..] == WithEnv(env[1..], key, value);
    }
  }

  /** Neither key, taken with its equals sign, begins the other. */
  predicate Apart(key: string, other: string) { !(key + "=" <= other + "=") && !(other + "=" <= key + "=") }

  lemma ApartEntries(entry: string, key: string, other: string)
    requires Apart(key, other) && Sets(entry, key)
    ensures !Sets(entry, other)
  {
    if Sets(entry, other) {
      PrefixesCompare(key + "=", other + "=", entry);
      assert false;
    }
  }

  lemma {:induction false} OtherAfterSet(env: seq<string>, key: string, value: string, other: string)
    requires Apart(key, other)
    ensures EnvValue(WithEnv(env, key, value), other) == EnvValue(env, other)
    decreases |env|
  {
    var kv := key + "=" + value;
    assert Sets(kv, key);
    ApartEntries(kv, key, other);
    if env == [] {
      assert [kv][1..] == [];
    } else if Sets(env[0], key) {
      ApartEntries(env[0], key, other);
      assert ([kv] + env[1..])[1..] == env[1..];
    } else {
      OtherAfterSet(env[1..], key, value, other);
      assert ([env[0]] + WithEnv(env[1..], key, value))[1..] == WithEnv(env[1..], key, value);
    }
  }

  /** Setting one variable leaves another alone, in every environment, exactly when the two names are apart. */
  lemma SetKeepsOther(key: string, other: string)
    ensures Apart(key, other) <==>
            forall env, value :: EnvValue(WithEnv(env, key, value), other) == EnvValue(env, other)
  {
    if Apart(key, other) {
      forall env, value ensures EnvValue(WithEnv(env, key, value), other) == EnvValue(env, other) {
        OtherAfterSet(env, key, value, other);
      }
    } else {
      var env: seq<string> := [];
      var value := if other + "=" <= key + "=" then "" else (other + "=")[|key| + 1..];
      var kv := key + "=" + value;
      assert WithEnv(env, key, value) == [kv];
      if other + "=" <= key + "=" {
        assert kv == key + "=";
      } else {
        assert kv == other + "=" by {
          assert (other + "=")[..|key| + 1] == key + "=";
          assert other + "=" == (other + "=")[..|key| + 1] + (other + "=")[|key| + 1..];
        }
      }
      assert Sets([kv][0], other);
      assert EnvValue([kv], other).Some? && EnvValue(env, other).None?;
    }
  }

  // What a client may set.

  predicate AllowedEnv(name: string) {
    name in {"TERM", "LANG", "TZ", "TERM_PROGRAM", "COLORTERM", "NOKKU_SESSION_ID"} || "LC_" <= name
  }

  /** An entry that steers nothing but language and terminal, or labels the recording of a web session. */
  predicate HarmlessEntry(entry: string, web: bool) {
    || Sets(entry, "TERM") || Sets(entry, "LANG") || Sets(entry, "TZ") || Sets(entry, "TERM_PROGRAM")
    || Sets(entry, "COLORTERM") || "LC_" <= entry || (web && Sets(entry, "NOKKU_SESSION_ID"))
  }

  // The requests.

  /** What the certificate and the key id grant. An empty `force` means no force-command. */
  datatype Cert = Cert(force: string, web: bool, pty: bool, agent: bool)

  datatype Sess = Sess(env: seq<string>, rawCmd: string, handled: bool, pty: bool, agent: bool)

  function NewSession(): Sess { Sess([], "", false, false, false) }

  /** A payload is None when it does not parse. `opens` and `listens` say whether the system call worked. */
  datatype Request =
    | Shell
    | Exec(command: Option<string>)
    | Subsystem(name: Option<string>)
    | Env(entry: Option<(string, string)>)
    | PtyReq(term: Option<string>, opens: bool)
    | AgentReq(allowed: bool, listens: bool)
    | WindowChange
    | Signal(known: bool)
    | Unknown

  datatype Start = Nothing | Command(cmd: string) | Sftp

  datatype Outcome = Outcome(next: Sess, reply: bool, start: Start)

  function Refused(s: Sess): Outcome { Outcome(s, false, Nothing) }

  function Started(c: Cert, s: Sess, cmd: string): Outcome {
    var raw := if c.force != "" then c.force else cmd;
    Outcome(s.(rawCmd := raw, handled := true), true, Command(raw))
  }

  predicate MayPty(c: Cert, s: Sess, term: Option<string>, opens: bool) {
    !s.handled && !s.pty && c.pty && term.Some? && opens
  }

  predicate MaySetEnv(c: Cert, s: Sess, entry: Option<(string, string)>) {
    && !s.handled && |s.env| < MAX_CLIENT_ENV && c.force == "" && entry.Some?
    && (entry.value.0 == "NOKKU_SESSION_ID" ==> c.web)
    && AllowedEnv(entry.value.0)
  }

  function Handle(c: Cert, s: Sess, r: Request): Outcome {
    match r
    case Shell => if s.handled then Refused(s) else Started(c, s, s.rawCmd)
    case Exec(cmd) =>
      if s.handled || (c.force == "" && cmd.None?) then Refused(s)
      else Started(c, s, if cmd.Some? then cmd.value else "")
    case Subsystem(name) =>
      if s.handled || c.force != "" || name != Some("sftp") then Refused(s)
      else Outcome(s.(handled := true), true, Sftp)
    case Env(entry) =>
      if MaySetEnv(c, s, entry)
      then Outcome(s.(env := WithEnv(s.env, entry.value.0, entry.value.1)), true, Nothing)
      else Refused(s)
    case PtyReq(term, opens) =>
      if !MayPty(c, s, term, opens) then Refused(s)
      else Outcome(s.(pty := true, env := if term.value == "" then s.env else WithEnv(s.env, "TERM", term.value)),
                   true, Nothing)
    case AgentReq(allowed, listens) =>
      if s.handled || !allowed || !c.agent || !(s.agent || listens) then Refused(s)
      else Outcome(s.(agent := true), true, Nothing)
    case WindowChange => Outcome(s, true, Nothing)
    case Signal(known) => Outcome(s, known, Nothing)
    case Unknown => Refused(s)
  }

  /** It happens: a client sets a variable with an equals sign in its name, and another variable has a value. */
  lemma NameWithEqualsSign(c: Cert)
    requires c.force == ""
    ensures var o := Handle(c, NewSession(), Env(Some(("LC_A=B", "v"))));
            o.reply && EnvValue(NewSession().env, "LC_A") == None && EnvValue(o.next.env, "LC_A") == Some("B=v")
  {
    assert "LC_" <= "LC_A=B";
    var entry := "LC_A=B" + "=" + "v";
    assert entry == "LC_A=B=v" && "LC_A" + "=" == "LC_A=" && "LC_A=" <= entry && entry[5..] == "B=v";
  }

  /** What became of each request of a sequence. */
  function Outcomes(c: Cert, s: Sess, rs: seq<Request>): (os: seq<Outcome>)
    ensures |os| == |rs|
    decreases |rs|
  {
    if rs == [] then [] else
      var o := Handle(c, s, rs[0]);
      [o] + Outcomes(c, o.next, rs[1..])
  }

  /** What holds between requests. */
  ghost predicate SessOk(c: Cert, s: Sess) {
    && |s.env| <= MAX_CLIENT_ENV + (if s.pty then 1 else 0)
    && (forall i :: 0 <= i < |s.env| ==> HarmlessEntry(s.env[i], c.web))
    && (c.force != "" ==> |s.env| <= 1 && forall i :: 0 <= i < |s.env| ==> Sets(s.env[i], "TERM"))
    && (!s.handled ==> s.rawCmd == "")
  }

  lemma {:induction false} WithEnvEntries(env: seq<string>, key: string, value: string)
    ensures var env' := WithEnv(env, key, value);
            && (|env'| == |env| || |env'| == |env| + 1)
            && (forall e :: e in env' ==> e in env || e == key + "=" + value)
    decreases |env|
  {
    if env != [] { WithEnvEntries(env[1..], key, value); }
  }

  lemma HarmlessName(name: string, value: string, web: bool)
    requires AllowedEnv(name) && (name == "NOKKU_SESSION_ID" ==> web)
    ensures HarmlessEntry(name + "=" + value, web)
  {
    var e := name + "=" + value;
    assert Sets(e, name);
    if "LC_" <= name { assert "LC_" <= e; }
  }

  lemma EnvKeepsSess(c: Cert, s: Sess, name: string, value: string)
    requires SessOk(c, s) && |s.env| < MAX_CLIENT_ENV && c.force == "" && AllowedEnv(name)
    requires name == "NOKKU_SESSION_ID" ==> c.web
    ensures SessOk(c, s.(env := WithEnv(s.env, name, value)))
  {
    WithEnvEntries(s.env, name, value);
    HarmlessName(name, value, c.web);
    var env := WithEnv(s.env, name, value);
    forall i | 0 <= i < |env| ensures HarmlessEntry(env[i], c.web) {
      assert env[i] in env;
    }
  }

  lemma TermKeepsSess(c: Cert, s: Sess, value: string)
    requires SessOk(c, s) && !s.pty
    requires c.force != "" ==> s.env == [] || Sets(s.env[0], "TERM")
    ensures SessOk(c, s.(pty := true, env := WithEnv(s.env, "TERM", value)))
  {
    WithEnvEntries(s.env, "TERM", value);
    var kv := "TERM" + "=" + value;
    assert Sets(kv, "TERM");
    var env := WithEnv(s.env, "TERM", value);
    forall i | 0 <= i < |env| ensures HarmlessEntry(env[i], c.web) && (c.force != "" ==> Sets(env[i], "TERM")) {
      assert env[i] in env;
    }
    if c.force != "" && s.env != [] { assert env == [kv] + s.env[1..]; }
  }

  lemma HandleKeepsSess(c: Cert, s: Sess, r: Request)
    requires SessOk(c, s)
    ensures SessOk(c, Handle(c, s, r).next)
  {
    if r.Env? && MaySetEnv(c, s, r.entry) {
      EnvKeepsSess(c, s, r.entry.value.0, r.entry.value.1);
    } else if r.PtyReq? && MayPty(c, s, r.term, r.opens) {
      TermKeepsSess(c, s, r.term.value);
    }
  }

  lemma {:induction false} OutcomesOk(c: Cert, s: Sess, rs: seq<Request>, i: nat)
    requires SessOk(c, s) && i < |rs|
    ensures SessOk(c, Outcomes(c, s, rs)[i].next)
    ensures c.force != "" ==> Outcomes(c, s, rs)[i].start in {Nothing, Command(c.force)}
    decreases |rs|
  {
    HandleKeepsSess(c, s, rs[0]);
    if i > 0 { OutcomesOk(c, Handle(c, s, rs[0]).next, rs[1..], i - 1); }
  }

  /** Once a session has its command, no request starts another or gets a variable, a terminal or an agent. */
  lemma {:induction false} NothingAfterCommand(c: Cert, s: Sess, rs: seq<Request>, i: nat)
    requires s.handled && i < |rs|
    ensures var o := Outcomes(c, s, rs)[i];
            o.next == s && o.start == Nothing && (o.reply ==> rs[i].WindowChange? || rs[i].Signal?)
    decreases |rs|
  {
    if i > 0 { NothingAfterCommand(c, s, rs[1..], i - 1); }
  }

  /**
   * For every sequence of requests: a request that starts something is the only one that does, and everything
   * granted to the session otherwise was granted before it.
   */
  lemma {:induction false} AtMostOneCommand(c: Cert, s: Sess, rs: seq<Request>, i: nat, j: nat)
    requires i < j < |rs| && Outcomes(c, s, rs)[i].start != Nothing
    ensures var o := Outcomes(c, s, rs)[j];
            && o.start == Nothing && o.next == Outcomes(c, s, rs)[i].next
            && (o.reply ==> rs[j].WindowChange? || rs[j].Signal?)
    decreases |rs|
  {
    var next := Handle(c, s, rs[0]).next;
    if i == 0 {
      NothingAfterCommand(c, next, rs[1..], j - 1);
    } else {
      AtMostOneCommand(c, next, rs[1..], i - 1, j - 1);
    }
  }

  /**
   * Under a force-command nothing but that command runs and the environment holds at most a TERM. Without one the
   * command is the client's own, and every variable it could set is harmless.
   */
  lemma ForceCommandHolds(c: Cert, rs: seq<Request>, i: nat)
    requires i < |rs|
    ensures var o := Outcomes(c, NewSession(), rs)[i];
            && (c.force != "" ==> o.start in {Nothing, Command(c.force)} && |o.next.env| <= 1
                                  && forall e :: e in o.next.env ==> Sets(e, "TERM"))
            && |o.next.env| <= MAX_CLIENT_ENV + 1
            && (forall e :: e in o.next.env ==> HarmlessEntry(e, c.web))
            && (c.force == "" && o.start.Command? ==>
                  o.start.cmd == if rs[i].Exec? && rs[i].command.Some? then rs[i].command.value else "")
  {
    OutcomesOk(c, NewSession(), rs, i);
    StartedCommand(c, NewSession(), rs, i);
  }

  lemma {:induction false} StartedCommand(c: Cert, s: Sess, rs: seq<Request>, i: nat)
    requires SessOk(c, s) && i < |rs|
    ensures var o := Outcomes(c, s, rs)[i];
            c.force == "" && o.start.Command? ==>
              o.start.cmd == if rs[i].Exec? && rs[i].command.Some? then rs[i].command.value else ""
  {
    if i > 0 { OutcomesOk(c, s, rs, i - 1); }
    OutcomeAt(c, s, rs, i);
    HandleStarts(c, if i == 0 then s else Outcomes(c, s, rs)[i - 1].next, rs[i]);
  }

  lemma {:induction false} HandleStarts(c: Cert, s: Sess, r: Request)
    requires !s.handled ==> s.rawCmd == ""
    ensures var o := Handle(c, s, r);
            c.force == "" && o.start.Command? ==>
              o.start.cmd == if r.Exec? && r.command.Some? then r.command.value else ""
  {
  }

  // What every request is answered, from the requests before it alone.

  /** The session when the request at `i` comes. */
  function SessAt(c: Cert, rs: seq<Request>, i: nat): Sess
    requires i <= |rs|
  {
    if i == 0 then NewSession() else Outcomes(c, NewSession(), rs)[i - 1].next
  }

  lemma {:induction false} OutcomeAt(c: Cert, s: Sess, rs: seq<Request>, i: nat)
    requires i < |rs|
    ensures Outcomes(c, s, rs)[i] == Handle(c, if i == 0 then s else Outcomes(c, s, rs)[i - 1].next, rs[i])
    decreases |rs|
  {
    if i > 0 {
      var o := Handle(c, s, rs[0]);
      OutcomeAt(c, o.next, rs[1..], i - 1);
      assert Outcomes(c, s, rs) == [o] + Outcomes(c, o.next, rs[1..]);
    }
  }

  /** One of these requests started something. */
  ghost predicate StartedBefore(os: seq<Outcome>, i: nat)
    requires i <= |os|
  {
    exists j :: 0 <= j < i && os[j].start != Nothing
  }

  ghost predicate GotPty(rs: seq<Request>, os: seq<Outcome>, i: nat)
    requires i <= |os| == |rs|
  {
    exists j :: 0 <= j < i && rs[j].PtyReq? && os[j].reply
  }

  ghost predicate GotAgent(rs: seq<Request>, os: seq<Outcome>, i: nat)
    requires i <= |os| == |rs|
  {
    exists j :: 0 <= j < i && rs[j].AgentReq? && os[j].reply
  }

  /** What the fields of a session say about the requests so far. */
  ghost predicate TellsHistory(c: Cert, rs: seq<Request>, i: nat)
    requires i <= |rs|
  {
    var s, os := SessAt(c, rs, i), Outcomes(c, NewSession(), rs);
    && (s.handled <==> StartedBefore(os, i))
    && (s.pty <==> GotPty(rs, os, i))
    && (s.agent <==> GotAgent(rs, os, i))
  }

  lemma HandleFlags(c: Cert, s: Sess, r: Request)
    ensures var o := Handle(c, s, r);
            && (o.next.handled <==> s.handled || o.start != Nothing)
            && (o.next.pty <==> s.pty || (r.PtyReq? && o.reply))
            && (o.next.agent <==> s.agent || (r.AgentReq? && o.reply))
  {
  }

  lemma {:induction false} History(c: Cert, rs: seq<Request>, i: nat)
    requires i <= |rs|
    ensures TellsHistory(c, rs, i)
    decreases i
  {
    if i > 0 {
      History(c, rs, i - 1);
      OutcomeAt(c, NewSession(), rs, i - 1);
      HandleFlags(c, SessAt(c, rs, i - 1), rs[i - 1]);
      HistoryStep(c, rs, Outcomes(c, NewSession(), rs), i);
    }
  }

  lemma HistoryStep(c: Cert, rs: seq<Request>, os: seq<Outcome>, i: nat)
    requires 0 < i <= |rs| == |os|
    ensures StartedBefore(os, i) <==> StartedBefore(os, i - 1) || os[i - 1].start != Nothing
    ensures GotPty(rs, os, i) <==> GotPty(rs, os, i - 1) || (rs[i - 1].PtyReq? && os[i - 1].reply)
    ensures GotAgent(rs, os, i) <==> GotAgent(rs, os, i - 1) || (rs[i - 1].AgentReq? && os[i - 1].reply)
  {
  }

  /** The variables a client may set. */
  predicate ClientMaySet(name: string, web: bool) {
    || name == "TERM" || name == "LANG" || name == "TZ" || name == "TERM_PROGRAM" || name == "COLORTERM"
    || (name == "NOKKU_SESSION_ID" && web) || (|name| >= 3 && name[..3] == "LC_")
  }

  /** The answer to a request, given what happened before it: whether yes, and what it starts. */
  ghost predicate RightAnswer(c: Cert, r: Request, o: Outcome, started: bool, pty: bool, agent: bool, vars: nat) {
    match r
    case Shell =>
      && (o.reply <==> !started)
      && o.start == (if started then Nothing else Command(c.force))
    case Exec(cmd) =>
      && (o.reply <==> !started && (c.force != "" || cmd.Some?))
      && o.start == (if !o.reply then Nothing else Command(if c.force != "" then c.force else cmd.value))
    case Subsystem(name) =>
      && (o.reply <==> !started && c.force == "" && name == Some("sftp"))
      && o.start == (if o.reply then Sftp else Nothing)
    case Env(entry) =>
      && (o.reply <==> !started && vars < 64 && c.force == "" && entry.Some? && ClientMaySet(entry.value.0, c.web))
      && (o.reply ==> EnvValue(o.next.env, entry.value.0) == Some(entry.value.1))
      && o.start == Nothing
    case PtyReq(term, opens) =>
      && (o.reply <==> !started && !pty && c.pty && term.Some? && opens)
      && (o.reply && term.value != "" ==> EnvValue(o.next.env, "TERM") == term)
      && o.start == Nothing
    case AgentReq(allowed, listens) =>
      (o.reply <==> !started && allowed && c.agent && (agent || listens)) && o.start == Nothing
    case WindowChange => o.reply && o.start == Nothing
    case Signal(known) => o.reply == known && o.start == Nothing
    case Unknown => !o.reply && o.start == Nothing
  }

  /**
   * Every request of every sequence is answered by what came before it: whether something was started, and a
   * terminal or an agent granted. The environment changes only by a granted variable or terminal.
   */
  lemma RequestsAnswered(c: Cert, rs: seq<Request>, i: nat)
    requires i < |rs|
    ensures var os := Outcomes(c, NewSession(), rs);
            var env := if i == 0 then [] else os[i - 1].next.env;
            && RightAnswer(c, rs[i], os[i], StartedBefore(os, i), GotPty(rs, os, i), GotAgent(rs, os, i), |env|)
            && (os[i].next.env != env ==> os[i].reply && (rs[i].Env? || rs[i].PtyReq?))
  {
    History(c, rs, i);
    OutcomeAt(c, NewSession(), rs, i);
    if i > 0 { OutcomesOk(c, NewSession(), rs, i - 1); }
    HandleAnswers(c, SessAt(c, rs, i), rs[i]);
  }

  lemma HandleAnswers(c: Cert, s: Sess, r: Request)
    requires !s.handled ==> s.rawCmd == ""
    ensures RightAnswer(c, r, Handle(c, s, r), s.handled, s.pty, s.agent, |s.env|)
    ensures Handle(c, s, r).next.env != s.env ==> Handle(c, s, r).reply && (r.Env? || r.PtyReq?)
  {
    if r.Env? && r.entry.Some? {
      var name := r.entry.value.0;
      GetAfterSet(s.env, name, r.entry.value.1);
      assert "LC_" <= name <==> |name| >= 3 && name[..3] == "LC_";
      assert name == "NOKKU_SESSION_ID" ==> name[..3][0] == 'N' && "LC_"[0] == 'L';
    } else if r.PtyReq? && r.term.Some? {
      GetAfterSet(s.env, "TERM", r.term.value);
    }
  }

  /** The session object. Requests are handled by one loop, one at a time. */
  class SessionChannel {
    const cert: Cert
    var env: seq<string>
    var rawCmd: string
    var handled: bool
    var hasPty: bool
    var hasAgent: bool

    ghost function View(): Sess
      reads this
    {
      Sess(env, rawCmd, handled, hasPty, hasAgent)
    }

    constructor (c: Cert)
      ensures View() == NewSession() && cert == c
    {
      cert := c;
      env, rawCmd, handled, hasPty, hasAgent := [], "", false, false, false;
    }

    method HandleCommand(r: Request) returns (ok: bool)
      requires r.Shell? || r.Exec?
      modifies this
      ensures var o := Handle(cert, old(View()), r); View() == o.next && ok == o.reply
    {
      if handled { return false; }
      if cert.force != "" {
        rawCmd := cert.force;
      } else if r.Exec? {
        if r.command.None? { return false; }
        rawCmd := r.command.value;
      }
      handled := true;
      return true;
    }

    method AcceptSubsystem(name: Option<string>) returns (ok: bool)
      modifies this
      ensures var o := Handle(cert, old(View()), Subsystem(name)); View() == o.next && ok == o.reply
    {
      ok := !handled && cert.force == "" && name == Some("sftp");
      handled := handled || ok;
    }

    method SetClientEnv(entry: Option<(string, string)>) returns (ok: bool)
      modifies this
      ensures var o := Handle(cert, old(View()), Env(entry)); View() == o.next && ok == o.reply
    {
      if handled || |env| >= MAX_CLIENT_ENV || cert.force != "" || entry.None? { return false; }
      var (name, value) := entry.value;
      if name == "NOKKU_SESSION_ID" && !cert.web { return false; }
      if !AllowedEnv(name) { return false; }
      env := SetEnv(env, name, value);
      return true;
    }

    method HandlePty(term: Option<string>, opens: bool) returns (ok: bool)
      modifies this
      ensures var o := Handle(cert, old(View()), PtyReq(term, opens)); View() == o.next && ok == o.reply
    {
      if handled || hasPty || !cert.pty || term.None? { return false; }
      if !opens { return false; }
      hasPty := true;
      if term.value != "" { env := SetEnv(env, "TERM", term.value); }
      return true;
    }

    /** The agent socket is opened once, a second request is told yes. */
    method AgentRequest(allowed: bool, listens: bool) returns (ok: bool)
      modifies this
      ensures var o := Handle(cert, old(View()), AgentReq(allowed, listens)); View() == o.next && ok == o.reply
    {
      if handled { return false; }
      if !allowed || !cert.agent { return false; }
      if hasAgent { return true; }
      if !listens { return false; }
      hasAgent := true;
      return true;
    }
  }
}

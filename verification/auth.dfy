/** The `auth` command (cmd/auth.go): request a device code, show it to the
    user, then poll for a token until one is granted, and write the
    credentials once. The poll responses the server gives over time are a
    sequence of transport outcomes; running out of them means the program is
    still polling. Everything the command does is recorded as a trace of
    actions. */
module Auth {
  import opened Wrappers
  import opened Api

  datatype Action =
    | SendDeviceCode(request: Request)
    | ShowCode(verificationUrl: string, userCode: string)
    | SendPoll(request: Request)
    | Sleep(seconds: int)
    | Print(message: string)
    | WriteCredentials(path: string, data: Option<Credentials>)  // None: the YAML encoder failed and nothing was encoded

  datatype Status =
    | Fatal(message: string)
    | Authorized(credentials: Credentials)
    | Polling

  datatype Run = Run(trace: seq<Action>, status: Status)

  /** What the operating system answers while the credentials are saved. */
  datatype SaveEnv = SaveEnv(marshalOk: bool, homeDir: Option<string>, writeOk: bool)

  const DeviceCodeFailed := "Failed to get device code1"
  const PollFailed := "Failed to get device code"
  const HomeDirFailed := "Failed to find home directory"
  const MarshalFailed := "Error while Marshaling."
  const WriteFailed := "Error while writing to file."
  const Authenticated := "Successfully authenticated, creds written to ~/.trakt.yaml"
  const CredentialsFile := "/.trakt.yaml"

  /** A poll that leaves the loop waiting: no error and an empty token. */
  predicate Pending(o: Outcome<DeviceToken>) {
    var r := DeviceTokenResult(o);
    r.Ok? && r.value.accessToken == ""
  }

  /** The non-empty-token branch: encode, find the home directory, write, report. */
  function Persist(clientId: string, clientSecret: string, token: string, env: SaveEnv): (r: Run)
    ensures r.status.Authorized? <==> env.homeDir.Some?
    ensures r.status.Authorized? ==> r.status.credentials == Credentials(clientId, clientSecret, token)
    ensures !r.status.Authorized? ==> r.status == Fatal(HomeDirFailed)
  {
    var creds := Credentials(clientId, clientSecret, token);
    var marshalReport := if env.marshalOk then [] else [Print(MarshalFailed)];
    match env.homeDir
    case None => Run(marshalReport, Fatal(HomeDirFailed))
    case Some(home) =>
      var data := if env.marshalOk then Some(creds) else None;
      var writeReport := if env.writeOk then [] else [Print(WriteFailed)];
      Run(marshalReport + [WriteCredentials(home + CredentialsFile, data)] + writeReport + [Print(Authenticated)],
          Authorized(creds))
  }

  /** The `for` loop: one poll per outcome, sleeping `interval` seconds after
      each pending one. Every iteration builds the same token request `req`. */
  function PollLoop(req: Request, interval: int, clientId: string, clientSecret: string,
                    polls: seq<Outcome<DeviceToken>>, env: SaveEnv): (r: Run)
    ensures polls != [] ==> |r.trace| >= 1 && r.trace[0] == SendPoll(req)
    ensures r.status == Polling <==> LeadingPending(polls) == |polls|
    decreases |polls|
  {
    if polls == [] then Run([], Polling)
    else
      match DeviceTokenResult(polls[0])
      case Err(_) => Run([SendPoll(req)], Fatal(PollFailed))
      case Ok(tok) =>
        if |tok.accessToken| == 0 then
          var rest := PollLoop(req, interval, clientId, clientSecret, polls[1..], env);
          Run([SendPoll(req), Sleep(interval)] + rest.trace, rest.status)
        else
          var saved := Persist(clientId, clientSecret, tok.accessToken, env);
          Run([SendPoll(req)] + saved.trace, saved.status)
  }

  /** `authCmd.Run`: `loaded` is what reading the configuration file gave,
      `codeOutcome` the answer to the device-code request. */
  function AuthCommand(loaded: Option<Credentials>, clientId: string, clientSecret: string,
                       codeOutcome: Outcome<DeviceCode>, polls: seq<Outcome<DeviceToken>>, env: SaveEnv): (r: Run)
    ensures loaded.None? <==> r.trace == []
    ensures r.status.Authorized? ==> loaded.Some? && DeviceCodeResult(codeOutcome).Ok?
  {
    match NewClient(loaded)
    case None => Run([], Fatal(ConfigMissing))
    case Some(c) =>
      var req := DeviceCodeRequest(c, clientId);
      match DeviceCodeResult(codeOutcome)
      case Err(_) => Run([SendDeviceCode(req)], Fatal(DeviceCodeFailed))
      case Ok(grant) =>
        var pollReq := DeviceTokenRequest(c, grant.deviceCode, clientId, clientSecret);
        var loop := PollLoop(pollReq, grant.interval, clientId, clientSecret, polls, env);
        Run([SendDeviceCode(req), ShowCode(grant.verificationUrl, grant.userCode)] + loop.trace, loop.status)
  }

  // ---------------------------------------------------------------------------
  // A closed-form description of the loop
  // ---------------------------------------------------------------------------

  /** How many polls at the front of `polls` are pending. */
  function LeadingPending(polls: seq<Outcome<DeviceToken>>): (n: nat)
    ensures n <= |polls|
    ensures forall j :: 0 <= j < n ==> Pending(polls[j])
    ensures n < |polls| ==> !Pending(polls[n])
    decreases |polls|
  {
    if polls == [] || !Pending(polls[0]) then 0 else 1 + LeadingPending(polls[1..])
  }

  /** `n` rounds of polling and sleeping. */
  function Rounds(req: Request, interval: int, n: nat): seq<Action> {
    if n == 0 then [] else [SendPoll(req), Sleep(interval)] + Rounds(req, interval, n - 1)
  }

  /** The loop stated without recursion: pending rounds, then the one poll
      that decided, then whatever that decision led to. */
  function LoopReference(req: Request, interval: int, clientId: string, clientSecret: string,
                         polls: seq<Outcome<DeviceToken>>, env: SaveEnv): Run {
    var n := LeadingPending(polls);
    var pending := Rounds(req, interval, n);
    if n == |polls| then Run(pending, Polling)
    else
      match DeviceTokenResult(polls[n])
      case Err(_) => Run(pending + [SendPoll(req)], Fatal(PollFailed))
      case Ok(tok) =>
        var saved := Persist(clientId, clientSecret, tok.accessToken, env);
        Run(pending + [SendPoll(req)] + saved.trace, saved.status)
  }

  lemma {:induction false} PollLoopIsReference(req: Request, interval: int, clientId: string, clientSecret: string,
                                               polls: seq<Outcome<DeviceToken>>, env: SaveEnv)
    ensures PollLoop(req, interval, clientId, clientSecret, polls, env) == LoopReference(req, interval, clientId, clientSecret, polls, env)
    decreases |polls|
  {
    if polls == [] {
    } else if Pending(polls[0]) {
      PollLoopIsReference(req, interval, clientId, clientSecret, polls[1..], env);
      ReferenceStep(req, interval, clientId, clientSecret, polls, env);
    } else {
      assert LeadingPending(polls) == 0 && Rounds(req, interval, 0) == [];
    }
  }

  /** A pending first poll adds one round in front of the reference run of the rest. */
  lemma ReferenceStep(req: Request, interval: int, clientId: string, clientSecret: string,
                      polls: seq<Outcome<DeviceToken>>, env: SaveEnv)
    requires polls != [] && Pending(polls[0])
    ensures var r := LoopReference(req, interval, clientId, clientSecret, polls[1..], env);
      LoopReference(req, interval, clientId, clientSecret, polls, env) == Run([SendPoll(req), Sleep(interval)] + r.trace, r.status)
  {
    var round := [SendPoll(req), Sleep(interval)];
    var n := LeadingPending(polls[1..]);
    var pending := Rounds(req, interval, n);
    assert LeadingPending(polls) == n + 1;
    assert Rounds(req, interval, n + 1) == round + pending;
    if n < |polls[1..]| {
      assert polls[1..][n] == polls[n + 1];
      match DeviceTokenResult(polls[n + 1]) {
        case Err(_) =>
          assert round + pending + [SendPoll(req)] == round + (pending + [SendPoll(req)]);
        case Ok(tok) =>
          var saved := Persist(clientId, clientSecret, tok.accessToken, env);
          assert round + pending + [SendPoll(req)] + saved.trace == round + (pending + [SendPoll(req)] + saved.trace);
      }
    }
  }

  // ---------------------------------------------------------------------------
  // Properties of the whole command
  // ---------------------------------------------------------------------------

  function Writes(trace: seq<Action>): nat {
    if trace == [] then 0
    else (if trace[0].WriteCredentials? then 1 else 0) + Writes(trace[1..])
  }

  lemma {:induction false} WritesAppend(a: seq<Action>, b: seq<Action>)
    ensures Writes(a + b) == Writes(a) + Writes(b)
    decreases |a|
  {
    if a != [] {
      WritesAppend(a[1..], b);
      assert (a + b)[1..] == a[1..] + b;
    } else {
      assert a + b == b;
    }
  }

  lemma {:induction false} RoundsWriteNothing(req: Request, interval: int, n: nat)
    ensures Writes(Rounds(req, interval, n)) == 0
    ensures forall i :: 0 <= i < |Rounds(req, interval, n)| ==>
              Rounds(req, interval, n)[i] == SendPoll(req) || Rounds(req, interval, n)[i] == Sleep(interval)
  {
    if n > 0 {
      RoundsWriteNothing(req, interval, n - 1);
      WritesAppend([SendPoll(req), Sleep(interval)], Rounds(req, interval, n - 1));
    }
  }

  /** The write the save step performs once the home directory is known:
      the file under it, holding the flags and the token, or nothing when the
      encoder failed. */
  function SavedWrite(clientId: string, clientSecret: string, token: string, env: SaveEnv): Action
    requires env.homeDir.Some?
  {
    WriteCredentials(env.homeDir.value + CredentialsFile,
                     if env.marshalOk then Some(Credentials(clientId, clientSecret, token)) else None)
  }

  /** Every write of the credentials in `trace` is `w`. */
  predicate EveryWrite(trace: seq<Action>, w: Action) {
    forall i :: 0 <= i < |trace| && trace[i].WriteCredentials? ==> trace[i] == w
  }

  /** Saving writes at most once, only when the home directory is known, with
      exactly the flags and the granted token, and nothing but messages
      follows the write. */
  lemma PersistWritesOnce(clientId: string, clientSecret: string, token: string, env: SaveEnv)
    ensures var p := Persist(clientId, clientSecret, token, env);
      && Writes(p.trace) == (if env.homeDir.Some? then 1 else 0)
      && (p.status.Authorized? <==> env.homeDir.Some?)
      && (p.status.Authorized? ==> p.status.credentials == Credentials(clientId, clientSecret, token))
      && (forall i :: 0 <= i < |p.trace| && p.trace[i].WriteCredentials? ==>
            p.trace[i].data == (if env.marshalOk then Some(Credentials(clientId, clientSecret, token)) else None))
      && (forall i, j :: 0 <= i < j < |p.trace| && p.trace[i].WriteCredentials? ==> p.trace[j].Print?)
      && (forall i :: 0 <= i < |p.trace| ==> p.trace[i].Print? || p.trace[i].WriteCredentials?)
      && (env.homeDir.Some? ==> EveryWrite(p.trace, SavedWrite(clientId, clientSecret, token, env)))
      && (Print(MarshalFailed) in p.trace <==> !env.marshalOk)
      && (Print(WriteFailed) in p.trace <==> env.homeDir.Some? && !env.writeOk)
      && (Print(Authenticated) in p.trace <==> env.homeDir.Some?)
      && (env.homeDir.Some? ==> p.trace[|p.trace| - 1] == Print(Authenticated))
  {
    var p := Persist(clientId, clientSecret, token, env);
    var mr := if env.marshalOk then [] else [Print(MarshalFailed)];
    if env.homeDir.Some? {
      var wr := if env.writeOk then [] else [Print(WriteFailed)];
      var w := WriteCredentials(env.homeDir.value + CredentialsFile, if env.marshalOk then Some(Credentials(clientId, clientSecret, token)) else None);
      assert p.trace == mr + [w] + wr + [Print(Authenticated)];
      WritesAppend(mr + [w] + wr, [Print(Authenticated)]);
      WritesAppend(mr + [w], wr);
      WritesAppend(mr, [w]);
      assert Writes(wr) == 0 && Writes(mr) == 0;
      assert MarshalFailed != WriteFailed && |MarshalFailed| != |Authenticated| && |WriteFailed| != |Authenticated|;
    } else {
      assert Writes(mr) == 0;
      assert MarshalFailed != WriteFailed && |MarshalFailed| != |Authenticated|;
    }
  }

  /** With no readable configuration file the command stops before sending anything. */
  lemma AuthNeedsConfig(clientId: string, clientSecret: string, codeOutcome: Outcome<DeviceCode>,
                        polls: seq<Outcome<DeviceToken>>, env: SaveEnv)
    ensures AuthCommand(None, clientId, clientSecret, codeOutcome, polls, env) == Run([], Fatal(ConfigMissing))
  {
  }

  /** A failed device-code request aborts the flow before any poll. */
  lemma DeviceCodeFailureAborts(creds: Credentials, clientId: string, clientSecret: string,
                                codeOutcome: Outcome<DeviceCode>, polls: seq<Outcome<DeviceToken>>, env: SaveEnv)
    requires DeviceCodeResult(codeOutcome).Err?
    ensures AuthCommand(Some(creds), clientId, clientSecret, codeOutcome, polls, env)
            == Run([SendDeviceCode(DeviceCodeRequest(Client(Endpoint, creds), clientId))], Fatal(DeviceCodeFailed))
  {
  }

  /** Once the configuration is read and the device code granted, the command
      is the two opening actions followed by the loop. */
  lemma AuthCommandUnfold(creds: Credentials, clientId: string, clientSecret: string,
                          codeOutcome: Outcome<DeviceCode>, polls: seq<Outcome<DeviceToken>>, env: SaveEnv)
    requires DeviceCodeResult(codeOutcome).Ok?
    ensures var c := Client(Endpoint, creds);
            var grant := DeviceCodeResult(codeOutcome).value;
            var loop := PollLoop(DeviceTokenRequest(c, grant.deviceCode, clientId, clientSecret), grant.interval, clientId, clientSecret, polls, env);
      AuthCommand(Some(creds), clientId, clientSecret, codeOutcome, polls, env)
      == Run([SendDeviceCode(DeviceCodeRequest(c, clientId)), ShowCode(grant.verificationUrl, grant.userCode)] + loop.trace, loop.status)
  {
  }

  /** Every poll in `trace` sends `req`. */
  predicate PollsSend(trace: seq<Action>, req: Request) {
    forall i :: 0 <= i < |trace| && trace[i].SendPoll? ==> trace[i].request == req
  }

  /** Nothing but messages follows a write of the credentials. */
  predicate WriteIsLast(trace: seq<Action>) {
    forall i, j :: 0 <= i < j < |trace| && trace[i].WriteCredentials? ==> trace[j].Print?
  }

  lemma {:induction false} NoWritesNoWriteAction(a: seq<Action>)
    requires Writes(a) == 0
    ensures forall i :: 0 <= i < |a| ==> !a[i].WriteCredentials?
    decreases |a|
  {
    if a != [] {
      NoWritesNoWriteAction(a[1..]);
      forall i | 1 <= i < |a| ensures !a[i].WriteCredentials? {
        assert a[i] == a[1..][i - 1];
      }
    }
  }

  lemma {:induction false} NoWriteActionNoWrites(a: seq<Action>)
    requires forall i :: 0 <= i < |a| ==> !a[i].WriteCredentials?
    ensures Writes(a) == 0
    decreases |a|
  {
    if a != [] {
      assert !a[0].WriteCredentials?;
      forall i | 0 <= i < |a[1..]| ensures !a[1..][i].WriteCredentials? {
        assert a[1..][i] == a[i + 1];
      }
      NoWriteActionNoWrites(a[1..]);
    }
  }

  lemma TraceAppend(a: seq<Action>, b: seq<Action>, req: Request)
    ensures PollsSend(a, req) && PollsSend(b, req) ==> PollsSend(a + b, req)
    ensures Writes(a) == 0 && WriteIsLast(b) ==> WriteIsLast(a + b)
    ensures Writes(a + b) == Writes(a) + Writes(b)
    ensures forall w :: EveryWrite(a, w) && EveryWrite(b, w) ==> EveryWrite(a + b, w)
  {
    WritesAppend(a, b);
    forall w | EveryWrite(a, w) && EveryWrite(b, w) ensures EveryWrite(a + b, w) {
      forall i | 0 <= i < |a + b| && (a + b)[i].WriteCredentials? ensures (a + b)[i] == w {
        if i >= |a| {
          assert (a + b)[i] == b[i - |a|];
        }
      }
    }
    if PollsSend(a, req) && PollsSend(b, req) {
      forall i | 0 <= i < |a + b| && (a + b)[i].SendPoll? ensures (a + b)[i].request == req {
        if i >= |a| {
          assert (a + b)[i] == b[i - |a|];
        }
      }
    }
    if Writes(a) == 0 && WriteIsLast(b) {
      NoWritesNoWriteAction(a);
      forall i, j | 0 <= i < j < |a + b| && (a + b)[i].WriteCredentials? ensures (a + b)[j].Print? {
        assert i >= |a|;
        assert (a + b)[i] == b[i - |a|] && (a + b)[j] == b[j - |a|];
      }
    }
  }

  /** The loop's own guarantees, for whatever request it repeats: every poll
      sends that request, at most one write happens, only after a non-empty
      token, with the flags and that token, and only messages follow it. */
  lemma {:induction false} LoopOutcome(req: Request, interval: int, clientId: string, clientSecret: string,
                    polls: seq<Outcome<DeviceToken>>, env: SaveEnv)
    ensures var r := PollLoop(req, interval, clientId, clientSecret, polls, env);
            var n := LeadingPending(polls);
      && PollsSend(r.trace, req)
      && WriteIsLast(r.trace)
      && Writes(r.trace) <= 1
      && (r.status == Polling <==> n == |polls|)
      && (n < |polls| && DeviceTokenResult(polls[n]).Err? ==> r.status == Fatal(PollFailed) && Writes(r.trace) == 0)
      && (r.status.Authorized? <==> n < |polls| && DeviceTokenResult(polls[n]).Ok? && env.homeDir.Some?)
      && (Writes(r.trace) == 1 <==> r.status.Authorized?)
      && (r.status.Authorized? ==>
            && DeviceTokenResult(polls[n]).value.accessToken != ""
            && r.status.credentials == Credentials(clientId, clientSecret, DeviceTokenResult(polls[n]).value.accessToken)
            && EveryWrite(r.trace, SavedWrite(clientId, clientSecret, r.status.credentials.accessToken, env)))
  {
    PollLoopIsReference(req, interval, clientId, clientSecret, polls, env);
    var n := LeadingPending(polls);
    var pending := Rounds(req, interval, n);
    RoundsWriteNothing(req, interval, n);
    assert PollsSend(pending, req);
    assert PollsSend([SendPoll(req)], req);
    var r := PollLoop(req, interval, clientId, clientSecret, polls, env);
    if n == |polls| {
      assert r.trace == pending;
      NoWritesNoWriteAction(pending);
    } else if DeviceTokenResult(polls[n]).Err? {
      assert r.trace == pending + [SendPoll(req)];
      TraceAppend(pending, [SendPoll(req)], req);
      NoWritesNoWriteAction(r.trace);
    } else {
      var tok := DeviceTokenResult(polls[n]).value;
      assert !Pending(polls[n]);
      var saved := Persist(clientId, clientSecret, tok.accessToken, env);
      assert r.trace == pending + [SendPoll(req)] + saved.trace;
      DecidedByToken(req, interval, n, clientId, clientSecret, tok.accessToken, env);
    }
  }

  /** The run that ends in the save step: `n` rounds, the deciding poll, then
      saving the granted token. */
  lemma DecidedByToken(req: Request, interval: int, n: nat, clientId: string, clientSecret: string,
                       token: string, env: SaveEnv)
    ensures var t := Rounds(req, interval, n) + [SendPoll(req)] + Persist(clientId, clientSecret, token, env).trace;
      && PollsSend(t, req)
      && WriteIsLast(t)
      && Writes(t) == (if env.homeDir.Some? then 1 else 0)
      && (env.homeDir.Some? ==> EveryWrite(t, SavedWrite(clientId, clientSecret, token, env)))
  {
    var pending := Rounds(req, interval, n);
    RoundsWriteNothing(req, interval, n);
    assert PollsSend(pending, req);
    assert PollsSend([SendPoll(req)], req);
    var saved := Persist(clientId, clientSecret, token, env);
    PersistWritesOnce(clientId, clientSecret, token, env);
    assert PollsSend(saved.trace, req);
    assert WriteIsLast(saved.trace);
    var front := pending + [SendPoll(req)];
    TraceAppend(pending, [SendPoll(req)], req);
    TraceAppend(front, saved.trace, req);
    if env.homeDir.Some? {
      var w := SavedWrite(clientId, clientSecret, token, env);
      NoWritesNoWriteAction(pending);
      assert EveryWrite(pending, w) && EveryWrite([SendPoll(req)], w);
      assert EveryWrite(front, w);
    }
  }

  /** Every poll of the command sends the device code of the initial response
      together with the two flags. */
  lemma {:induction false} PollsSendDeviceCode(creds: Credentials, clientId: string, clientSecret: string,
                            codeOutcome: Outcome<DeviceCode>, polls: seq<Outcome<DeviceToken>>, env: SaveEnv)
    requires DeviceCodeResult(codeOutcome).Ok?
    ensures var r := AuthCommand(Some(creds), clientId, clientSecret, codeOutcome, polls, env);
      forall i :: 0 <= i < |r.trace| && r.trace[i].SendPoll? ==>
        r.trace[i].request == DeviceTokenRequest(Client(Endpoint, creds), DeviceCodeResult(codeOutcome).value.deviceCode, clientId, clientSecret)
  {
    var c := Client(Endpoint, creds);
    var grant := DeviceCodeResult(codeOutcome).value;
    var req := DeviceTokenRequest(c, grant.deviceCode, clientId, clientSecret);
    var loop := PollLoop(req, grant.interval, clientId, clientSecret, polls, env);
    var head := [SendDeviceCode(DeviceCodeRequest(c, clientId)), ShowCode(grant.verificationUrl, grant.userCode)];
    AuthCommandUnfold(creds, clientId, clientSecret, codeOutcome, polls, env);
    LoopOutcome(req, grant.interval, clientId, clientSecret, polls, env);
    var r := AuthCommand(Some(creds), clientId, clientSecret, codeOutcome, polls, env);
    assert r.trace == head + loop.trace;
    assert PollsSend(head, req);
    TraceAppend(head, loop.trace, req);
  }

  /** The whole outcome of the command once the device code is known: the
      status is decided by the first poll that is not pending; credentials are
      written at most once, only after a poll granted a non-empty token, hold
      the two flags and that token, and only messages follow the write. */
  lemma {:induction false} AuthOutcome(creds: Credentials, clientId: string, clientSecret: string,
                    codeOutcome: Outcome<DeviceCode>, polls: seq<Outcome<DeviceToken>>, env: SaveEnv)
    requires DeviceCodeResult(codeOutcome).Ok?
    ensures var r := AuthCommand(Some(creds), clientId, clientSecret, codeOutcome, polls, env);
            var n := LeadingPending(polls);
      && Writes(r.trace) <= 1
      && (r.status == Polling <==> n == |polls|)
      && (n < |polls| && DeviceTokenResult(polls[n]).Err? ==> r.status == Fatal(PollFailed) && Writes(r.trace) == 0)
      && (r.status.Authorized? <==> n < |polls| && DeviceTokenResult(polls[n]).Ok? && env.homeDir.Some?)
      && (Writes(r.trace) == 1 <==> r.status.Authorized?)
      && (r.status.Authorized? ==>
            && DeviceTokenResult(polls[n]).value.accessToken != ""
            && r.status.credentials == Credentials(clientId, clientSecret, DeviceTokenResult(polls[n]).value.accessToken)
            && EveryWrite(r.trace, SavedWrite(clientId, clientSecret, r.status.credentials.accessToken, env)))
      && WriteIsLast(r.trace)
  {
    var c := Client(Endpoint, creds);
    var grant := DeviceCodeResult(codeOutcome).value;
    var req := DeviceTokenRequest(c, grant.deviceCode, clientId, clientSecret);
    var loop := PollLoop(req, grant.interval, clientId, clientSecret, polls, env);
    var head := [SendDeviceCode(DeviceCodeRequest(c, clientId)), ShowCode(grant.verificationUrl, grant.userCode)];
    AuthCommandUnfold(creds, clientId, clientSecret, codeOutcome, polls, env);
    LoopOutcome(req, grant.interval, clientId, clientSecret, polls, env);
    var r := AuthCommand(Some(creds), clientId, clientSecret, codeOutcome, polls, env);
    assert r.trace == head + loop.trace && r.status == loop.status;
    NoWriteActionNoWrites(head);
    TraceAppend(head, loop.trace, req);
    if r.status.Authorized? {
      assert EveryWrite(head, SavedWrite(clientId, clientSecret, r.status.credentials.accessToken, env));
    }
    assert Writes(r.trace) == Writes(loop.trace);
  }
}

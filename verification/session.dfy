/** The session lifecycle: what a session does to its SSH client, to the
    password prompt and to the owning core, recorded as a trace of events.
    The base session and the SSH session share one class; `kind` says which. */
module Sessions {

  /** The exact failure message of the core's key lookup that triggers the password fallback. */
  const InvalidPrivateKey: string := "Core: Invalid Private Key"
  const PasswordPrompt: string := "Password: "

  /** `SshSession` owns an SSH client; the base session has none. */
  datatype Kind = BaseSession | SshSession

  /** The parts of the core a session reads when it is created. */
  datatype Core = Core(userName: string, srcPort: int)

  /** Result of the core user's `get_priv_key()`: the key, or the failure's message. */
  datatype KeyResult = Key(secret: string) | Fail(msg: string)

  /** `NotImplemented`: the base `start_session`; `NoClient`: a client call on
      a session without a client; `Raised(msg)`: a key-lookup failure passed on unchanged. */
  datatype Error = NotImplemented | NoClient | Raised(msg: string)

  datatype Outcome = Done | Failed(error: Error)

  /** Terminal geometry handed to the client untouched. */
  datatype TermSize = TermSize(cols: int, rows: int)

  /** What a session does to its collaborators. */
  datatype Event =
    | KeyRequested
    | PasswordPrompted(prompt: string)
    | ClientStartSession(user: string, secret: string)
    | ClientConnect(host: string, port: int, size: TermSize)
    | ClientAttachSniffer(sniffer: object)
    | ClientStopSniffer
    | SessionEndCallback(session: object)

  /** The outcome of a call and the events it emitted, in order. */
  datatype Steps = Steps(outcome: Outcome, events: seq<Event>)

  /** The client is started exactly once, and only with `user` and `secret`. */
  ghost predicate StartsClientOnceWith(events: seq<Event>, user: string, secret: string)
  {
    multiset(events)[ClientStartSession(user, secret)] == 1 &&
    forall e :: e in events && e.ClientStartSession? ==> e == ClientStartSession(user, secret)
  }

  ghost predicate NoClientStart(events: seq<Event>)
  {
    forall e :: e in events ==> !e.ClientStartSession?
  }

  /** What `start_session` does, for a session of kind `kind` acting as `user`,
      when the key lookup yields `key` and the operator would type `password`. */
  function StartSteps(kind: Kind, user: string, key: KeyResult, password: string): (r: Steps)
    // the base session only fails, and does nothing else
    ensures kind == BaseSession ==> r == Steps(Failed(NotImplemented), [])
    // an SSH session asks the core for the key exactly once, before anything else
    ensures kind == SshSession ==>
              |r.events| > 0 && r.events[0] == KeyRequested && multiset(r.events)[KeyRequested] == 1
    // the password is prompted exactly once on the invalid-key failure, and never otherwise
    ensures multiset(r.events)[PasswordPrompted(PasswordPrompt)] ==
              if kind == SshSession && key == Fail(InvalidPrivateKey) then 1 else 0
    ensures forall e :: e in r.events && e.PasswordPrompted? ==>
              e.prompt == PasswordPrompt && kind == SshSession && key == Fail(InvalidPrivateKey)
    // the key, or else the typed password, goes to the client exactly once
    ensures kind == SshSession && key.Key? ==>
              r.outcome == Done && StartsClientOnceWith(r.events, user, key.secret)
    ensures kind == SshSession && key == Fail(InvalidPrivateKey) ==>
              r.outcome == Done && StartsClientOnceWith(r.events, user, password)
    // any other failure is passed on unchanged and the client is not started
    ensures kind == SshSession && key.Fail? && key.msg != InvalidPrivateKey ==>
              r.outcome == Failed(Raised(key.msg)) && NoClientStart(r.events)
    // no client start ever follows a failure
    ensures r.outcome.Failed? ==> NoClientStart(r.events)
    // on the fallback path the prompt comes right after the key lookup
    ensures kind == SshSession && key == Fail(InvalidPrivateKey) ==>
              |r.events| > 1 && r.events[1] == PasswordPrompted(PasswordPrompt)
    // a successful start ends with the client start: nothing happens after it
    ensures r.outcome == Done ==>
              |r.events| > 0 && r.events[|r.events| - 1].ClientStartSession?
    // starting touches only the key lookup, the prompt and the client start
    ensures forall e :: e in r.events ==>
              e.KeyRequested? || e.PasswordPrompted? || e.ClientStartSession?
  {
    match kind
    case BaseSession => Steps(Failed(NotImplemented), [])
    case SshSession =>
      match key
      case Key(k) => Steps(Done, [KeyRequested, ClientStartSession(user, k)])
      case Fail(msg) =>
        if msg == InvalidPrivateKey then
          Steps(Done, [KeyRequested, PasswordPrompted(PasswordPrompt), ClientStartSession(user, password)])
        else
          Steps(Failed(Raised(msg)), [KeyRequested])
  }

  class Session {
    const kind: Kind
    const host: string
    const hostUser: string
    const hostPort: int
    const srcPort: int
    const uuid: string
    ghost var trace: seq<Event>

    /** Creating a session: the acting user and the source port come from the
        core, the host and the session id are kept as given. */
    constructor (kind: Kind, core: Core, host: string, port: int, uuid: string)
      ensures this.kind == kind && this.host == host && this.uuid == uuid
      ensures hostUser == core.userName && hostPort == port && srcPort == core.srcPort
      ensures trace == []
    {
      this.kind := kind;
      this.host := host;
      hostUser := core.userName;
      hostPort := port;
      srcPort := core.srcPort;
      this.uuid := uuid;
      trace := [];
    }

    /** Hands the sniffer to the client unchanged. */
    method AttachSniffer(sniffer: object) returns (outcome: Outcome)
      modifies this`trace
      ensures kind == SshSession ==> outcome == Done && trace == old(trace) + [ClientAttachSniffer(sniffer)]
      ensures kind == BaseSession ==> outcome == Failed(NoClient) && trace == old(trace)
    {
      if kind == SshSession {
        trace := trace + [ClientAttachSniffer(sniffer)];
        outcome := Done;
      } else {
        outcome := Failed(NoClient);
      }
    }

    /** Tells the client to stop sniffing. */
    method StopSniffer() returns (outcome: Outcome)
      modifies this`trace
      ensures kind == SshSession ==> outcome == Done && trace == old(trace) + [ClientStopSniffer]
      ensures kind == BaseSession ==> outcome == Failed(NoClient) && trace == old(trace)
    {
      if kind == SshSession {
        trace := trace + [ClientStopSniffer];
        outcome := Done;
      } else {
        outcome := Failed(NoClient);
      }
    }

    /** Connects the client to exactly this session's host and port with the given size. */
    method Connect(size: TermSize) returns (outcome: Outcome)
      modifies this`trace
      ensures kind == SshSession ==> outcome == Done && trace == old(trace) + [ClientConnect(host, hostPort, size)]
      ensures kind == BaseSession ==> outcome == Failed(NoClient) && trace == old(trace)
    {
      if kind == SshSession {
        trace := trace + [ClientConnect(host, hostPort, size)];
        outcome := Done;
      } else {
        outcome := Failed(NoClient);
      }
    }

    /** Authentication: the private key if the core has one, the typed password
        if the lookup failed with exactly the invalid-key message, and the
        lookup's failure passed on otherwise; the secret then starts the client. */
    method StartSession(key: KeyResult, password: string) returns (outcome: Outcome)
      modifies this`trace
      ensures outcome == StartSteps(kind, hostUser, key, password).outcome
      ensures trace == old(trace) + StartSteps(kind, hostUser, key, password).events
    {
      if kind == BaseSession {
        return Failed(NotImplemented);
      }
      var authSecret: string;
      trace := trace + [KeyRequested];
      match key {
        case Key(k) =>
          authSecret := k;
        case Fail(msg) =>
          if msg == InvalidPrivateKey {
            trace := trace + [PasswordPrompted(PasswordPrompt)];
            authSecret := password;
          } else {
            return Failed(Raised(msg));
          }
      }
      trace := trace + [ClientStartSession(hostUser, authSecret)];
      outcome := Done;
    }

    /** Notifies the core that this session ended, once per call. */
    method CloseSession()
      modifies this`trace
      ensures trace == old(trace) + [SessionEndCallback(this)]
    {
      trace := trace + [SessionEndCallback(this)];
    }

    /** The signal handler: whatever the signal and frame, it closes the session. */
    method KillSession<F>(signum: int, stack: F)
      modifies this`trace
      ensures trace == old(trace) + [SessionEndCallback(this)]
    {
      CloseSession();
    }

    /** Closing twice notifies the core twice: there is no guard. */
    method CloseTwice()
      modifies this`trace
      ensures trace == old(trace) + [SessionEndCallback(this), SessionEndCallback(this)]
    {
      CloseSession();
      CloseSession();
    }
  }
}

/** The mailbox, Gmail and the calls between them, as the forwarder sees them.

    One message is followed by its INBOX UID.  `marks` are the three keywords the
    tool writes (their spelling and letter case are the subject of module Imap);
    `places` are the folders the tool put a copy into; `gmail` is the log of
    inserts Gmail accepted. */
module Mail {

  type Uid = nat

  datatype Option<+T> = None | Some(value: T)

  datatype Mark = Inserted | Failed | Unverified

  datatype Dest = Trash | FailedFolder | UnverifiedFolder

  datatype Msg = Msg(inInbox: bool, marks: set<Mark>, userDeleted: bool, toolDeleted: bool, places: set<Dest>)

  datatype Mailbox = Mailbox(msgs: map<Uid, Msg>, gmail: seq<Uid>)

  datatype Capability = MoveCommand | UidPlus | Neither

  /** One IMAP, Gmail or clock call of a run. */
  datatype Call =
    | Connect
    | EnsureLabel
    | List
    | ReadClock
    | Fetch(uid: Uid)
    | Insert(uid: Uid)
    | Store(uid: Uid, mark: Mark)
    | Refetch(uid: Uid, mark: Mark)
    | Locate(uid: Uid, dest: Dest)
    | Move(uid: Uid, dest: Dest)
    | Copy(uid: Uid, dest: Dest)
    | StoreDeleted(uid: Uid, dest: Dest)
    | Expunge(uid: Uid, dest: Dest)
  {
    predicate AboutMessage() {
      !(Connect? || EnsureLabel? || List? || ReadClock?)
    }
  }

  /** The text of an exception as the clients build it: they put words of their own before
      those of the library, so that it is never empty. */
  type Words = t: string | t != "" witness "?"

  const REFUSAL: Words := "no"

  /** What the process sees of a call.  `Fail` is any exception of the library;
      `Flags` says whether the returned flag list shows the keyword asked about. */
  datatype Reply =
    | Ok
    | Fail(text: Words)
    | Connected(keywords: bool)
    | Listed(uids: seq<Uid>)
    | Clock(over: bool)
    | Gone
    | Fetched(marks: set<Mark>)
    | Accepted
    | HttpError(status: int, text: Words)
    | RefreshError(text: Words)
    | TransportError
    | Flags(confirmed: bool)
    | Found(how: Capability)
  {
    /** The text of the exception that the client makes of this reply. */
    function Text(): Words {
      if HttpError? || RefreshError? || Fail? then text else REFUSAL
    }
  }

  // ---- What each command does to the message it names ----------------------
  // UID commands on a UID that is not in INBOX are silent no-ops (section 6.4.8
  // of RFC 3501).

  function Marked(m: Msg, k: Mark): Msg {
    if m.inInbox then m.(marks := m.marks + {k}) else m
  }

  function Moved(m: Msg, d: Dest): Msg {
    if m.inInbox then m.(inInbox := false, places := m.places + {d}) else m
  }

  function Copied(m: Msg, d: Dest): Msg {
    if m.inInbox then m.(places := m.places + {d}) else m
  }

  function FlaggedDeleted(m: Msg): Msg {
    if m.inInbox then m.(toolDeleted := true) else m
  }

  function Expunged(m: Msg): Msg {
    if m.inInbox && (m.toolDeleted || m.userDeleted) then m.(inInbox := false) else m
  }

  /** A call other than STORE that returned normally took effect; one that failed may have. */
  ghost predicate Effect(m: Msg, after: Msg, r: Reply, m': Msg) {
    (m' == m || m' == after) && (r.Ok? ==> m' == after)
  }

  ghost predicate LawfulMsg(m: Msg, c: Call, r: Reply, m': Msg)
    requires c.AboutMessage()
  {
    match c
    case Fetch(_) => m' == m && (r.Fetched? ==> m.inInbox && r.marks == m.marks)
    case Insert(_) => m' == m
    // The server may silently ignore a STORE, but what it reports of a keyword is true.
    case Store(_, k) => (m' == m || m' == Marked(m, k)) && (r == Flags(true) ==> m'.inInbox && k in m'.marks)
    case Refetch(_, k) => m' == m && (r == Flags(true) ==> m.inInbox && k in m.marks)
    case Locate(_, _) => m' == m
    case Move(_, d) => Effect(m, Moved(m, d), r, m')
    case Copy(_, d) => Effect(m, Copied(m, d), r, m')
    case StoreDeleted(_, _) => m' == m || m' == FlaggedDeleted(m)
    case Expunge(_, _) => Effect(m, Expunged(m), r, m')
  }

  function Repeat(u: Uid, n: nat): (r: seq<Uid>)
    ensures |r| == n && forall i :: 0 <= i < n ==> r[i] == u
    ensures multiset(r) == multiset{}[u := n]
  {
    if n == 0 then [] else [u] + Repeat(u, n - 1)
  }

  /** One call served by a truthful server: which replies and effects are possible.
      A Gmail insert may be accepted any number of times (a reply can be lost and
      the library retries), at least once when it is reported accepted. */
  ghost predicate Lawful(b: Mailbox, c: Call, r: Reply, b': Mailbox) {
    if !c.AboutMessage() then
      b' == b && (r.Listed? ==> forall u :: u in r.uids ==> u in b.msgs)
    else if c.Insert? then
      && b'.msgs == b.msgs
      && |b.gmail| <= |b'.gmail|
      && b'.gmail == b.gmail + Repeat(c.uid, |b'.gmail| - |b.gmail|)
      && (r.Accepted? ==> |b.gmail| < |b'.gmail|)
    else if c.uid in b.msgs then
      && b'.gmail == b.gmail
      && c.uid in b'.msgs
      && b'.msgs == b.msgs[c.uid := b'.msgs[c.uid]]
      && LawfulMsg(b.msgs[c.uid], c, r, b'.msgs[c.uid])
    else
      b' == b && !r.Fetched? && r != Flags(true)
  }
}

/** INBOX and the folders as the IMAP server keeps them, what each command does to them,
    and why module Mail may follow one message through its marks and places only. */
module Imap {
  import opened Mail
  import opened Flags

  /** A message in a folder other than INBOX; `source` is its UID in INBOX. */
  datatype Filed = Filed(source: Uid, flags: set<string>)

  datatype Account = Account(inbox: map<Uid, set<string>>, folders: map<string, seq<Filed>>)

  function Flagged(s: Account, u: Uid, flag: string): Account {
    if u in s.inbox then s.(inbox := s.inbox[u := With(s.inbox[u], flag)]) else s
  }

  function Unflagged(s: Account, u: Uid, flag: string): Account {
    if u in s.inbox then s.(inbox := s.inbox[u := Without(s.inbox[u], flag)]) else s
  }

  function WithFolder(s: Account, f: string): Account {
    if f in s.folders then s else s.(folders := s.folders[f := []])
  }

  function CopyTo(s: Account, u: Uid, f: string): Account {
    if u in s.inbox && f in s.folders then
      s.(folders := s.folders[f := s.folders[f] + [Filed(u, s.inbox[u])]])
    else s
  }

  /** Section 3.3 of RFC 6851. */
  function MoveTo(s: Account, u: Uid, f: string): Account {
    if u in s.inbox && f in s.folders then CopyTo(s, u, f).(inbox := s.inbox - {u}) else s
  }

  /** UID EXPUNGE (section 2.1 of RFC 4315). */
  function ExpungeOne(s: Account, u: Uid): Account {
    if u in s.inbox && Carries(s.inbox[u], DELETED) then s.(inbox := s.inbox - {u}) else s
  }

  /** Plain EXPUNGE, which the client refuses to use. */
  function ExpungeAll(s: Account): Account {
    s.(inbox := map u | u in s.inbox && !Carries(s.inbox[u], DELETED) :: s.inbox[u])
  }

  predicate In(s: Account, f: string, u: Uid) {
    f in s.folders && exists i :: 0 <= i < |s.folders[f]| && s.folders[f][i].source == u
  }

  /** The work list: neither \Deleted nor carrying any of the keywords. */
  function Queue(s: Account, keywords: seq<string>): set<Uid> {
    set u | u in s.inbox && !Carries(s.inbox[u], DELETED) && !Matches(s.inbox[u], keywords)
  }

  function Carriers(s: Account, keyword: string): set<Uid> {
    set u | u in s.inbox && !Carries(s.inbox[u], DELETED) && Carries(s.inbox[u], keyword)
  }

  // ---- Moving without MOVE ---------------------------------------------------------

  function CopiedAndFlagged(s: Account, u: Uid, f: string): Account {
    Flagged(CopyTo(s, u, f), u, DELETED)
  }

  /** The fallback ends where MOVE ends. */
  lemma FallbackIsMove(s: Account, u: Uid, f: string)
    requires f in s.folders
    ensures ExpungeOne(CopiedAndFlagged(s, u, f), u) == MoveTo(s, u, f)
  {
  }

  /** A plain EXPUNGE would end there exactly when the user marked nothing else \Deleted. */
  lemma PlainExpungeIsMove(s: Account, u: Uid, f: string)
    requires u in s.inbox && f in s.folders
    ensures ExpungeAll(CopiedAndFlagged(s, u, f)) == MoveTo(s, u, f)
        <==> forall v :: v in s.inbox && v != u ==> !Carries(s.inbox[v], DELETED)
  {
    WithCarries(s.inbox[u], DELETED, DELETED);
    var s' := CopiedAndFlagged(s, u, f);
    forall v ensures v in ExpungeAll(s').inbox <==> v in s.inbox && v != u && !Carries(s.inbox[v], DELETED) {
      if v in s.inbox && v != u { assert s'.inbox[v] == s.inbox[v]; }
    }
    var m := MoveTo(s, u, f);
    if forall v :: v in s.inbox && v != u ==> !Carries(s.inbox[v], DELETED) {
      assert ExpungeAll(s').inbox == m.inbox;
    } else {
      var v :| v in s.inbox && v != u && Carries(s.inbox[v], DELETED);
      assert v in m.inbox && v !in ExpungeAll(s').inbox;
    }
  }

  /** Where a move that was cut short may have stopped. */
  predicate Underway(s: Account, u: Uid, f: string, s': Account) {
    s' == s || s' == CopyTo(s, u, f) || s' == CopiedAndFlagged(s, u, f) || s' == MoveTo(s, u, f)
  }

  /** Nothing but message `u` and folder `f` is touched, and `f` only gains copies of it. */
  ghost predicate OnlyMoves(s: Account, u: Uid, f: string, s': Account) {
    && (forall v :: v != u ==> (v in s'.inbox <==> v in s.inbox) && (v in s.inbox ==> s'.inbox[v] == s.inbox[v]))
    && (forall g :: g in s.folders ==>
      g in s'.folders && s.folders[g] <= s'.folders[g] && (g != f ==> s'.folders[g] == s.folders[g]))
    && (f in s.folders ==> forall i :: |s.folders[f]| <= i < |s'.folders[f]| ==> s'.folders[f][i].source == u)
  }

  /** Wherever a move stops, the message is in INBOX or in the target; a \Deleted it did
      not carry before implies a copy in the target; and every other message, also one
      the user marked \Deleted, is as it was. */
  lemma CutShort(s: Account, u: Uid, f: string, s': Account)
    requires Underway(s, u, f, s')
    ensures u in s.inbox ==> u in s'.inbox || In(s', f, u)
    ensures
      u in s.inbox && u in s'.inbox && Carries(s'.inbox[u], DELETED) && !Carries(s.inbox[u], DELETED) && f in s.folders
      ==> In(s', f, u)
    ensures OnlyMoves(s, u, f, s')
  {
    if u in s.inbox && f in s.folders {
      var filed := s.folders[f] + [Filed(u, s.inbox[u])];
      assert filed[|s.folders[f]|].source == u;
      if s' != s { assert s'.folders[f] == filed; assert In(s', f, u); }
    }
  }

  // ---- One message of the account ------------------------------------------------------

  datatype Names = Names(trash: string, failed: string, unverified: string) {
    function Of(d: Dest): string {
      match d
      case Trash => trash
      case FailedFolder => failed
      case UnverifiedFolder => unverified
    }

    predicate Distinct() {
      trash != failed && trash != unverified && failed != unverified
    }
  }

  /** `m` says of message `u` what the server holds. */
  ghost predicate Represents(kw: Keywords, names: Names, s: Account, u: Uid, m: Msg) {
    && (m.inInbox <==> u in s.inbox)
    && (u in s.inbox ==>
          m.marks == MarksOf(kw, s.inbox[u]) && (m.toolDeleted || m.userDeleted <==> Carries(s.inbox[u], DELETED)))
    && forall d :: d in m.places <==> In(s, names.Of(d), u)
  }

  /** What a command that succeeds does to the account, and to the message it names. */
  function Obeyed(kw: Keywords, names: Names, s: Account, c: Call): Account
    requires c.AboutMessage()
  {
    match c
    case Store(u, k) => Flagged(s, u, kw.Of(k))
    case Locate(_, d) => WithFolder(s, names.Of(d))
    case Move(u, d) => MoveTo(s, u, names.Of(d))
    case Copy(u, d) => CopyTo(s, u, names.Of(d))
    case StoreDeleted(u, _) => Flagged(s, u, DELETED)
    case Expunge(u, _) => ExpungeOne(s, u)
    case _ => s
  }

  function ObeyedBy(m: Msg, c: Call): Msg
    requires c.AboutMessage()
  {
    match c
    case Store(_, k) => Marked(m, k)
    case Move(_, d) => Moved(m, d)
    case Copy(_, d) => Copied(m, d)
    case StoreDeleted(_, _) => FlaggedDeleted(m)
    case Expunge(_, _) => Expunged(m)
    case _ => m
  }

  /** The command files the message, and there is no such folder to file it in. */
  predicate NoFolder(names: Names, s: Account, c: Call) {
    (c.Move? || c.Copy?) && names.Of(c.dest) !in s.folders
  }

  lemma NamesApart(names: Names, d: Dest, e: Dest)
    requires names.Distinct()
    ensures names.Of(d) == names.Of(e) <==> d == e
  {
  }

  lemma CopyShows(s: Account, u: Uid, f: string, g: string, v: Uid)
    requires f in s.folders && u in s.inbox
    ensures In(CopyTo(s, u, f), g, v) <==> In(s, g, v) || (g == f && v == u)
  {
    if g == f {
      var were, filed := s.folders[f], s.folders[f] + [Filed(u, s.inbox[u])];
      assert CopyTo(s, u, f).folders[f] == filed && filed[|were|].source == u;
      if i :| 0 <= i < |were| && were[i].source == v { assert filed[i].source == v; }
      if i :| 0 <= i < |filed| && filed[i].source == v && v != u { assert were[i].source == v; }
    }
  }

  lemma FilingRefines(kw: Keywords, names: Names, s: Account, u: Uid, d: Dest, v: Uid, m: Msg)
    requires names.Distinct() && names.Of(d) in s.folders && Represents(kw, names, s, v, m)
    ensures Represents(kw, names, CopyTo(s, u, names.Of(d)), v, if v == u then Copied(m, d) else m)
    ensures Represents(kw, names, MoveTo(s, u, names.Of(d)), v, if v == u then Moved(m, d) else m)
  {
    if u in s.inbox {
      forall e ensures In(CopyTo(s, u, names.Of(d)), names.Of(e), v) <==> In(s, names.Of(e), v) || (e == d && v == u)
      ensures In(MoveTo(s, u, names.Of(d)), names.Of(e), v) <==> In(CopyTo(s, u, names.Of(d)), names.Of(e), v)
      {
        CopyShows(s, u, names.Of(d), names.Of(e), v);
        NamesApart(names, d, e);
      }
    }
  }

  /** What is done to INBOX alone does not show in the folders. */
  lemma FoldersStay(names: Names, s: Account, s': Account, v: Uid)
    requires s'.folders == s.folders
    ensures forall e :: In(s', names.Of(e), v) <==> In(s, names.Of(e), v)
  {
  }

  lemma MarkingRefines(kw: Keywords, names: Names, s: Account, u: Uid, k: Mark, v: Uid, m: Msg)
    requires kw.Valid() && Represents(kw, names, s, v, m)
    ensures Represents(kw, names, Flagged(s, u, kw.Of(k)), v, if v == u then Marked(m, k) else m)
  {
    FoldersStay(names, s, Flagged(s, u, kw.Of(k)), v);
    if u in s.inbox {
      MarksWith(kw, s.inbox[u], k);
      DeletedApart(kw, s.inbox[u], k);
    }
  }

  lemma DeletingRefines(kw: Keywords, names: Names, s: Account, u: Uid, v: Uid, m: Msg)
    requires kw.Valid() && Represents(kw, names, s, v, m)
    ensures Represents(kw, names, Flagged(s, u, DELETED), v, if v == u then FlaggedDeleted(m) else m)
  {
    FoldersStay(names, s, Flagged(s, u, DELETED), v);
    if u in s.inbox { DeletedApart(kw, s.inbox[u], Failed); }
  }

  lemma ExpungingRefines(kw: Keywords, names: Names, s: Account, u: Uid, v: Uid, m: Msg)
    requires Represents(kw, names, s, v, m)
    ensures Represents(kw, names, ExpungeOne(s, u), v, if v == u then Expunged(m) else m)
  {
    FoldersStay(names, s, ExpungeOne(s, u), v);
  }

  /** A folder that is made where it is missing is empty. */
  lemma MakingRefines(kw: Keywords, names: Names, s: Account, f: string, v: Uid, m: Msg)
    requires Represents(kw, names, s, v, m)
    ensures Represents(kw, names, WithFolder(s, f), v, m)
  {
    forall e ensures In(WithFolder(s, f), names.Of(e), v) <==> In(s, names.Of(e), v) { }
  }

  /** Every command does to the account what module Mail says it does to the message it
      names, and nothing to any other message. */
  lemma CommandsRefine(kw: Keywords, names: Names, s: Account, c: Call, v: Uid, m: Msg)
    requires kw.Valid() && names.Distinct() && !NoFolder(names, s, c) && Represents(kw, names, s, v, m)
    requires c.AboutMessage()
    ensures Represents(kw, names, Obeyed(kw, names, s, c), v, if v == c.uid then ObeyedBy(m, c) else m)
  {
    if c.Move? || c.Copy? {
      FilingRefines(kw, names, s, c.uid, c.dest, v, m);
    } else if c.Store? {
      MarkingRefines(kw, names, s, c.uid, c.mark, v, m);
    } else if c.Locate? {
      MakingRefines(kw, names, s, names.Of(c.dest), v, m);
    } else if c.StoreDeleted? {
      DeletingRefines(kw, names, s, c.uid, v, m);
    } else {
      ExpungingRefines(kw, names, s, c.uid, v, m);
    }
  }

  /** Clearing a keyword, which only the operator does, takes that mark off that message. */
  lemma ClearingRefines(kw: Keywords, names: Names, s: Account, u: Uid, k: Mark, v: Uid, m: Msg)
    requires kw.Valid() && Represents(kw, names, s, v, m)
    ensures Represents(kw, names, Unflagged(s, u, kw.Of(k)), v, if v == u then m.(marks := m.marks - {k}) else m)
  {
  }

  /** The reply of the server tells the truth about the mailbox it leaves. */
  ghost predicate TrueReply(kw: Keywords, names: Names, s: Account, c: Call, r: Reply, s': Account)
    requires c.AboutMessage()
  {
    && (r == Flags(true) && (c.Store? || c.Refetch?) ==> c.uid in s'.inbox && Carries(s'.inbox[c.uid], kw.Of(c.mark)))
    && (r.Fetched? && c.Fetch? ==> c.uid in s.inbox && r.marks == MarksOf(kw, s.inbox[c.uid]))
    && (r.Found? && c.Locate? ==> names.Of(c.dest) in s'.folders)
  }

  /** The command took effect, as it must if it returned normally and is no STORE, or it
      did not; where the folder is missing it did not, and said so. */
  ghost predicate Carried(kw: Keywords, names: Names, s: Account, c: Call, r: Reply, s': Account)
    requires c.AboutMessage()
  {
    && (s' == s || s' == Obeyed(kw, names, s, c))
    && (r.Ok? && !c.StoreDeleted? ==> s' == Obeyed(kw, names, s, c))
    && (NoFolder(names, s, c) ==> s' == s && !r.Ok?)
  }

  /** A server that answers truthfully is the server the protocol is proved against. */
  lemma StoreIsLawful(kw: Keywords, names: Names, s: Account, c: Call, r: Reply, s': Account, m: Msg) returns (m': Msg)
    requires kw.Valid() && names.Distinct() && c.AboutMessage()
    requires Represents(kw, names, s, c.uid, m)
    requires Carried(kw, names, s, c, r, s') && TrueReply(kw, names, s, c, r, s')
    ensures Represents(kw, names, s', c.uid, m') && LawfulMsg(m, c, r, m')
  {
    m' := m;
    if !NoFolder(names, s, c) {
      CommandsRefine(kw, names, s, c, c.uid, m);
      if s' == Obeyed(kw, names, s, c) { m' := ObeyedBy(m, c); }
    }
  }

  /** The mailbox is the view of the whole account. */
  ghost predicate Shows(kw: Keywords, names: Names, s: Account, b: Mailbox) {
    && (forall u :: u in s.inbox ==> u in b.msgs)
    && forall u :: u in b.msgs ==> Represents(kw, names, s, u, b.msgs[u])
  }

  /** The kinds of reply that a call can get. */
  predicate Fits(c: Call, r: Reply) {
    && (r.Fetched? ==> c.Fetch?) && (r == Flags(true) ==> c.Store? || c.Refetch?)
    && (r.Listed? ==> c.List?) && (r.Accepted? ==> c.Insert?)
  }

  /** One call served over the account, with a true reply. */
  ghost predicate Served(kw: Keywords, names: Names, s: Account, c: Call, r: Reply, s': Account) {
    if c.AboutMessage() then
      Carried(kw, names, s, c, r, s') && TrueReply(kw, names, s, c, r, s')
    else
      s' == s && (r.Listed? ==> forall u :: u in r.uids ==> u in s.inbox)
  }

  /** The view of every other message stays. */
  lemma OtherShown(kw: Keywords, names: Names, s: Account, c: Call, r: Reply, s': Account, v: Uid, m: Msg)
    requires kw.Valid() && names.Distinct() && c.AboutMessage() && v != c.uid
    requires Represents(kw, names, s, v, m) && Carried(kw, names, s, c, r, s')
    ensures Represents(kw, names, s', v, m)
  {
    if !NoFolder(names, s, c) { CommandsRefine(kw, names, s, c, v, m); }
  }

  lemma OthersShown(kw: Keywords, names: Names, s: Account, b: Mailbox, c: Call, r: Reply, s': Account)
    requires kw.Valid() && names.Distinct() && Shows(kw, names, s, b) && c.AboutMessage()
    requires Carried(kw, names, s, c, r, s')
    ensures forall v :: v in b.msgs && v != c.uid ==> Represents(kw, names, s', v, b.msgs[v])
    ensures forall v :: v in s'.inbox ==> v in s.inbox
  {
    forall v | v in b.msgs && v != c.uid ensures Represents(kw, names, s', v, b.msgs[v]) {
      OtherShown(kw, names, s, c, r, s', v, b.msgs[v]);
    }
  }

  lemma FoldersKept(kw: Keywords, names: Names, s: Account, c: Call, r: Reply, s': Account)
    requires Served(kw, names, s, c, r, s')
    ensures s.folders.Keys <= s'.folders.Keys && (c.Locate? && r.Found? ==> names.Of(c.dest) in s'.folders)
  {
  }

  /** The message that is named: it goes on as module Mail allows. */
  lemma NamedIsLawful(kw: Keywords, names: Names, s: Account, b: Mailbox, c: Call, r: Reply, s': Account)
    returns (b': Mailbox)
    requires kw.Valid() && names.Distinct() && Shows(kw, names, s, b) && c.AboutMessage() && !c.Insert?
    requires c.uid in b.msgs && Carried(kw, names, s, c, r, s') && TrueReply(kw, names, s, c, r, s')
    ensures Shows(kw, names, s', b') && Lawful(b, c, r, b') && b'.gmail == b.gmail
  {
    var m := StoreIsLawful(kw, names, s, c, r, s', b.msgs[c.uid]);
    b' := b.(msgs := b.msgs[c.uid := m]);
    OthersShown(kw, names, s, b, c, r, s');
  }

  /** ... and a message that is not there stays away. */
  lemma AbsentIsLawful(kw: Keywords, names: Names, s: Account, b: Mailbox, c: Call, r: Reply, s': Account)
    requires kw.Valid() && names.Distinct() && Shows(kw, names, s, b) && c.AboutMessage() && !c.Insert?
    requires c.uid !in b.msgs && Fits(c, r) && Carried(kw, names, s, c, r, s') && TrueReply(kw, names, s, c, r, s')
    ensures Shows(kw, names, s', b) && Lawful(b, c, r, b)
  {
    OthersShown(kw, names, s, b, c, r, s');
  }

  /** A truthful server over flags and folders, with a Gmail that accepted the message
      `accepted` times, is lawful for the whole mailbox: the view goes from one state to the
      next as module Mail allows, and stays the view.  A folder that is missing is made
      before a message is filed in it. */
  lemma AccountIsLawful(
    kw: Keywords, names: Names, s: Account, b: Mailbox, c: Call, r: Reply, s': Account, accepted: nat)
    returns (b': Mailbox)
    requires kw.Valid() && names.Distinct() && Shows(kw, names, s, b)
    requires Fits(c, r) && Served(kw, names, s, c, r, s') && (r.Accepted? ==> accepted > 0)
    ensures Shows(kw, names, s', b') && Lawful(b, c, r, b')
    ensures b'.gmail == if c.Insert? then b.gmail + Repeat(c.uid, accepted) else b.gmail
    ensures s.folders.Keys <= s'.folders.Keys && (c.Locate? && r.Found? ==> names.Of(c.dest) in s'.folders)
  {
    FoldersKept(kw, names, s, c, r, s');
    if !c.AboutMessage() {
      b' := b;
    } else if c.Insert? {
      b' := b.(gmail := b.gmail + Repeat(c.uid, accepted));
    } else if c.uid in b.msgs {
      b' := NamedIsLawful(kw, names, s, b, c, r, s');
    } else {
      AbsentIsLawful(kw, names, s, b, c, r, s');
      b' := b;
    }
  }
}

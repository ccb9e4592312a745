/** The mailbox client (imap_client.py) over an IMAP server that may fail at any command,
    before or after the command took effect, may ignore a STORE, and may leave the reply
    to a STORE out. */
module ImapClient {
  import opened Mail
  import opened Flags
  import opened Imap
  import opened Sorting
  import Run

  /** `Error` is any exception of the library, which the client raises as MailboxError. */
  datatype Result<+T> = Success(value: T) | Error

  datatype Trouble = Fine | Before | Afterwards

  datatype Entry = Entry(uid: Uid, flags: set<string>)

  datatype FetchResult = Message(flags: set<string>) | Vanished | Unreadable

  function Shown(reply: Option<set<string>>): set<string> {
    if reply.Some? then reply.value else {}
  }

  /** The IMAP library and the server behind it.  The n-th command meets `trouble(n)`;
      `obeys(n)` says whether a STORE is applied, `shows(n, flags)` which flags the reply
      to it reports for a message that now carries `flags`. */
  class Server {
    const trouble: nat -> Trouble
    const obeys: nat -> bool
    const shows: (nat, set<string>) -> Option<set<string>>
    const searchesKeywords: bool
    const hasMove: bool
    const hasUidPlus: bool
    var account: Account
    var calls: nat

    constructor (account: Account, trouble: nat -> Trouble, obeys: nat -> bool,
        shows: (nat, set<string>) -> Option<set<string>>, searchesKeywords: bool, hasMove: bool, hasUidPlus: bool)
      ensures this.account == account && calls == 0
      ensures this.trouble == trouble && this.obeys == obeys && this.shows == shows
      ensures this.searchesKeywords == searchesKeywords && this.hasMove == hasMove && this.hasUidPlus == hasUidPlus
    {
      this.account, this.trouble, this.obeys, this.shows := account, trouble, obeys, shows;
      this.searchesKeywords, this.hasMove, this.hasUidPlus, calls := searchesKeywords, hasMove, hasUidPlus, 0;
    }

    predicate Smooth(n: nat) {
      trouble(n) == Fine
    }

    /** A move that starts with command `n` goes through: one command with MOVE, three with
        UIDPLUS; with neither it is refused. */
    predicate MovesAt(n: nat) {
      if hasMove then Smooth(n) else hasUidPlus && Smooth(n) && Smooth(n + 1) && Smooth(n + 2)
    }

    /** From command `n` on, nothing fails and every STORE is applied. */
    ghost predicate WorksFrom(n: nat) {
      forall k :: k >= n ==> Smooth(k) && obeys(k)
    }

    /** What the server reports is so; it need not report all. */
    ghost predicate Truthful() {
      forall n, flags :: Shown(shows(n, flags)) <= flags
    }

    /** STORE replies report all flags, or nothing (section 7.4.2 of RFC 3501). */
    ghost predicate Complete() {
      forall n, flags :: shows(n, flags).Some? ==> shows(n, flags).value == flags
    }

    method Search(keywords: seq<string>) returns (r: Result<seq<Uid>>)
      modifies this`calls
      ensures calls == old(calls) + 1
      ensures r.Success? <==> Smooth(old(calls)) && (keywords == [] || searchesKeywords)
      ensures r.Success? ==> multiset(r.value) == multiset(Queue(account, keywords))
    {
      r := if Smooth(calls) && (keywords == [] || searchesKeywords) then Success(Ascending(Queue(account, keywords)))
           else Error;
      AscendingOnce(Queue(account, keywords));
      calls := calls + 1;
    }

    method FetchFlags(uids: seq<Uid>) returns (r: Result<map<Uid, set<string>>>)
      modifies this`calls
      ensures calls == old(calls) + 1
      ensures r.Success? <==> Smooth(old(calls))
      ensures r.Success? ==> r.value == map u | u in uids && u in account.inbox :: account.inbox[u]
    {
      r := if Smooth(calls) then Success(map u | u in uids && u in account.inbox :: account.inbox[u]) else Error;
      calls := calls + 1;
    }

    method FolderExists(folder: string) returns (r: Result<bool>)
      modifies this`calls
      ensures calls == old(calls) + 1
      ensures r == if Smooth(old(calls)) then Success(folder in account.folders) else Error
    {
      r := if Smooth(calls) then Success(folder in account.folders) else Error;
      calls := calls + 1;
    }

    /** A STORE of one flag, on or off. */
    method StoreFlag(u: Uid, flag: string, on: bool) returns (r: Result<Option<set<string>>>)
      modifies this
      ensures calls == old(calls) + 1
      ensures account == (if Takes(old(calls)) then Stored(old(account), u, flag, on) else old(account))
      ensures r.Success? <==> Smooth(old(calls))
      ensures r.Success? ==> r.value == if u in account.inbox then shows(old(calls), account.inbox[u]) else None
    {
      if Takes(calls) { account := Stored(account, u, flag, on); }
      r := if !Smooth(calls) then Error
           else if u in account.inbox then Success(shows(calls, account.inbox[u]))
           else Success(None);
      calls := calls + 1;
    }

    /** Whether the STORE that is the n-th command changes anything. */
    predicate Takes(n: nat) {
      trouble(n) != Before && obeys(n)
    }

    /** A command that moves or files something: it fails, before or after, or it is done. */
    method Execute(goal: Account) returns (ok: bool)
      modifies this
      ensures calls == old(calls) + 1
      ensures ok <==> Smooth(old(calls))
      ensures account == if trouble(old(calls)) == Before then old(account) else goal
    {
      ok := Smooth(calls);
      if trouble(calls) != Before { account := goal; }
      calls := calls + 1;
    }
  }

  function Stored(a: Account, u: Uid, flag: string, on: bool): Account {
    if on then Flagged(a, u, flag) else Unflagged(a, u, flag)
  }

  lemma {:induction false} AscendingOnce(s: set<Uid>)
    ensures multiset(Ascending(s)) == multiset(s)
  {
    if s != {} {
      var m := Least(s);
      AscendingOnce(s - {m});
      assert Ascending(s) == [m] + Ascending(s - {m});
      assert s == (s - {m}) + {m};
      assert multiset(s) == multiset(s - {m}) + multiset{m};
    }
  }

  /** `sorted(...)` of a list without repetitions. */
  function Sorted(q: seq<Uid>): seq<Uid> {
    Ascending(Members(q))
  }

  function Members(q: seq<Uid>): set<Uid> {
    set u | u in q
  }

  lemma SortedIs(q: seq<Uid>, s: set<Uid>)
    requires multiset(q) == multiset(s)
    ensures Sorted(q) == Ascending(s)
  {
    forall u ensures u in q <==> u in s {
      assert u in q <==> u in multiset(q);
      assert u in s <==> u in multiset(s);
    }
    assert Members(q) == s;
  }

  /** The dictionary built from a listing and the flags fetched for it. */
  function Entries(uids: seq<Uid>, fetched: map<Uid, set<string>>): (e: seq<Entry>)
    ensures |e| == |uids|
  {
    seq(|uids|, i requires 0 <= i < |uids| => Entry(uids[i], if uids[i] in fetched then fetched[uids[i]] else {}))
  }

  function Uids(entries: seq<Entry>, keep: set<string> -> bool): seq<Uid> {
    if entries == [] then []
    else (if keep(entries[0].flags) then [entries[0].uid] else []) + Uids(entries[1..], keep)
  }

  function Inbox(a: Account): seq<Entry> {
    Entries(Ascending(Queue(a, [])), a.inbox)
  }

  lemma {:induction false} UidsHave(entries: seq<Entry>, keep: set<string> -> bool, u: Uid)
    ensures u in Uids(entries, keep) <==> exists e :: e in entries && e.uid == u && keep(e.flags)
  {
    if entries != [] {
      UidsHave(entries[1..], keep, u);
      assert entries[0] in entries && forall e :: e in entries <==> e == entries[0] || e in entries[1..];
    }
  }

  predicate InOrder(entries: seq<Entry>) {
    forall i, j :: 0 <= i < j < |entries| ==> entries[i].uid < entries[j].uid
  }

  lemma {:induction false} UidsAscend(entries: seq<Entry>, keep: set<string> -> bool)
    requires InOrder(entries)
    ensures Ascends(Uids(entries, keep))
  {
    if entries != [] {
      var rest := Uids(entries[1..], keep);
      UidsAscend(entries[1..], keep);
      forall i | 0 <= i < |rest| ensures entries[0].uid < rest[i] {
        UidsHave(entries[1..], keep, rest[i]);
        var e :| e in entries[1..] && e.uid == rest[i];
        var k :| 0 <= k < |entries[1..]| && entries[1..][k] == e;
        assert entries[k + 1] == e;
      }
    }
  }

  /** Filtering the listing on the client side is searching for what passes the filter. */
  lemma UidsAre(a: Account, keep: set<string> -> bool, s: set<Uid>)
    requires forall u :: u in s <==> u in Queue(a, []) && keep(a.inbox[u])
    ensures Uids(Inbox(a), keep) == Ascending(s)
  {
    AscendingAscends(Queue(a, []));
    AscendingMembers(Queue(a, []));
    UidsAscend(Inbox(a), keep);
    forall u ensures u in Uids(Inbox(a), keep) <==> u in s {
      UidsHave(Inbox(a), keep, u);
      InboxHas(a, u);
    }
    AscendingIs(s, Uids(Inbox(a), keep));
  }

  lemma InboxHas(a: Account, u: Uid)
    ensures u in Queue(a, []) ==> Entry(u, a.inbox[u]) in Inbox(a)
    ensures forall e :: e in Inbox(a) && e.uid == u ==> u in Queue(a, []) && e.flags == a.inbox[u]
  {
    var uids := Ascending(Queue(a, []));
    AscendingMembers(Queue(a, []));
    if u in Queue(a, []) {
      var i :| 0 <= i < |uids| && uids[i] == u;
      assert Inbox(a)[i] == Entry(u, a.inbox[u]);
    }
    forall e | e in Inbox(a) && e.uid == u ensures u in Queue(a, []) && e.flags == a.inbox[u] {
      var i :| 0 <= i < |uids| && Inbox(a)[i] == e;
      assert uids[i] in uids;
    }
  }

  lemma InboxIs(a: Account, keywords: seq<string>)
    ensures Uids(Inbox(a), flags => !Matches(flags, keywords)) == Ascending(Queue(a, keywords))
  {
    UidsAre(a, flags => !Matches(flags, keywords), Queue(a, keywords));
  }

  lemma CarriersAre(a: Account, keyword: string)
    ensures Uids(Inbox(a), flags => Matches(flags, [keyword])) == Ascending(Carriers(a, keyword))
  {
    forall flags ensures Matches(flags, [keyword]) <==> Carries(flags, keyword) { assert keyword in [keyword]; }
    UidsAre(a, flags => Matches(flags, [keyword]), Carriers(a, keyword));
  }

  /** The quarantined mail and the work list are the two halves of the INBOX that is not
      marked \Deleted. */
  lemma QueuePartition(a: Account, failed: string, unverified: string)
    ensures Queue(a, [failed, unverified]) !! (Carriers(a, failed) + Carriers(a, unverified))
    ensures Queue(a, [failed, unverified]) + Carriers(a, failed) + Carriers(a, unverified) == Queue(a, [])
  {
  }

  /** The message is in INBOX, not \Deleted, and carries none of the keywords. */
  predicate IsWork(a: Account, keywords: seq<string>, u: Uid) {
    u in a.inbox && !Carries(a.inbox[u], "\\Deleted") && forall k :: k in keywords ==> !Carries(a.inbox[u], k)
  }

  /** What a reply to STORE -FLAGS, or the flags fetched after it, prove to be cleared. */
  predicate LooksCleared(reply: Option<set<string>>, keyword: string) {
    reply.Some? && !Carries(reply.value, keyword)
  }

  // ---- What the machine of module Run is told -----------------------------------------

  /** A command that was done, or failed. */
  function Done(ok: bool): Reply {
    if ok then Ok else Fail(REFUSAL)
  }

  /** The replies take the machine from the STORE to a confirmed keyword, or a refused one. */
  predicate StorePlays(opts: Run.Options, uid: Uid, k: Mark, replies: seq<Reply>, ok: bool) {
    Run.Plays(opts, uid, Run.AtStore(k), replies, if ok then Run.Confirmed(k) else Run.Refused(opts, k))
  }

  /** Where a move ends: landed, or broken off by the last reply. */
  function MoveEnd(uid: Uid, d: Dest, replies: seq<Reply>, ok: bool): Run.Advance
    requires replies != []
  {
    if ok then Run.Landed(d) else Run.Broken(uid, d, replies[|replies| - 1])
  }

  predicate MovePlays(opts: Run.Options, uid: Uid, pc: Run.Pc, d: Dest, replies: seq<Reply>, ok: bool) {
    replies != [] && Run.Plays(opts, uid, pc, replies, MoveEnd(uid, d, replies, ok))
  }

  lemma StoreReplies(uid: Uid, replies: seq<Reply>, ok: bool)
    requires 1 <= |replies| <= 2 && (|replies| == 1 <==> replies[0] != Flags(false))
    requires ok <==> replies[|replies| - 1] == Flags(true)
    ensures forall opts, k :: StorePlays(opts, uid, k, replies, ok)
  {
    forall opts, k ensures StorePlays(opts, uid, k, replies, ok) {
      if |replies| == 2 {
        var next := if ok then Run.Confirmed(k) else Run.Refused(opts, k);
        Run.PlaysMore(opts, uid, Run.AtStore(k), replies[0], [replies[1]], next);
        assert replies == [replies[0]] + [replies[1]];
      }
    }
  }

  lemma LocateReplies(uid: Uid)
    ensures forall opts, d :: MovePlays(opts, uid, Run.AtLocate(d), d, [Done(false)], false)
    ensures forall opts, d :: MovePlays(opts, uid, Run.AtLocate(d), d, [Found(Neither)], false)
    ensures forall opts, d, ok :: MovePlays(opts, uid, Run.AtLocate(d), d, [Found(MoveCommand), Done(ok)], ok)
  {
    forall opts, d, ok ensures MovePlays(opts, uid, Run.AtLocate(d), d, [Found(MoveCommand), Done(ok)], ok) {
      Run.PlaysMore(opts, uid, Run.AtLocate(d), Found(MoveCommand), [Done(ok)], MoveEnd(uid, d, [Done(ok)], ok));
      assert [Found(MoveCommand)] + [Done(ok)] == [Found(MoveCommand), Done(ok)];
    }
  }

  lemma CopyReplies(uid: Uid)
    ensures forall opts, d :: MovePlays(opts, uid, Run.AtCopy(d), d, [Done(false)], false)
    ensures forall opts, d :: MovePlays(opts, uid, Run.AtCopy(d), d, [Ok, Done(false)], false)
    ensures forall opts, d, ok :: MovePlays(opts, uid, Run.AtCopy(d), d, [Ok, Ok, Done(ok)], ok)
  {
    forall opts, d ensures MovePlays(opts, uid, Run.AtCopy(d), d, [Ok, Done(false)], false) {
      Run.PlaysMore(opts, uid, Run.AtCopy(d), Ok, [Done(false)], MoveEnd(uid, d, [Done(false)], false));
      assert [Ok] + [Done(false)] == [Ok, Done(false)];
    }
    forall opts, d, ok ensures MovePlays(opts, uid, Run.AtCopy(d), d, [Ok, Ok, Done(ok)], ok) {
      var end := MoveEnd(uid, d, [Done(ok)], ok);
      Run.PlaysMore(opts, uid, Run.AtStoreDeleted(d), Ok, [Done(ok)], end);
      Run.PlaysMore(opts, uid, Run.AtCopy(d), Ok, [Ok] + [Done(ok)], end);
      assert [Ok] + ([Ok] + [Done(ok)]) == [Ok, Ok, Done(ok)];
    }
  }

  lemma FallbackReplies(uid: Uid, replies: seq<Reply>, ok: bool)
    requires forall opts, d :: MovePlays(opts, uid, Run.AtCopy(d), d, replies, ok)
    ensures forall opts, d :: MovePlays(opts, uid, Run.AtLocate(d), d, [Found(UidPlus)] + replies, ok)
  {
    forall opts, d ensures MovePlays(opts, uid, Run.AtLocate(d), d, [Found(UidPlus)] + replies, ok) {
      assert MovePlays(opts, uid, Run.AtCopy(d), d, replies, ok);
      Run.PlaysMore(opts, uid, Run.AtLocate(d), Found(UidPlus), replies, MoveEnd(uid, d, replies, ok));
    }
  }

  /** Without a new \Deleted, an EXPUNGE would leave the message where it is. */
  predicate Stays(a: Account, uid: Uid) {
    uid in a.inbox && !Carries(a.inbox[uid], DELETED)
  }

  lemma UnflaggedExpunge(a: Account, uid: Uid, folder: string)
    requires folder in a.folders
    ensures ExpungeOne(CopyTo(a, uid, folder), uid) ==
      if Stays(a, uid) then CopyTo(a, uid, folder) else MoveTo(a, uid, folder)
  {
  }

  class ICloudMailbox {
    const server: Server

    constructor (server: Server)
      ensures this.server == server
    {
      this.server := server;
    }

    /** FLAGS of every message of INBOX that is not \Deleted, by ascending UID. */
    method InboxFlags() returns (r: Result<seq<Entry>>)
      modifies server`calls
      ensures server.calls >= old(server.calls)
      ensures r.Success? <==> ListsAt(old(server.calls))
      ensures r.Success? ==> r.value == Inbox(server.account)
    {
      var found := server.Search([]);
      if found.Error? { return Error; }
      var uids := Sorted(found.value);
      SortedIs(found.value, Queue(server.account, []));
      AscendingMembers(Queue(server.account, []));
      var fetched := Success(map[]);
      if uids != [] {
        fetched := server.FetchFlags(uids);
        if fetched.Error? { return Error; }
      }
      assert Entries(uids, fetched.value) == Inbox(server.account);
      r := Success(Entries(uids, fetched.value));
    }

    /** SEARCH and FETCH both work from command `n` on. */
    predicate ListsAt(n: nat)
      reads server
    {
      server.Smooth(n) && (Queue(server.account, []) == {} || server.Smooth(n + 1))
    }

    /** The work list.  A server that refuses to search on keywords gets a plain search
        and a filter on this side, with the same result. */
    method ListInboxUids(keywords: seq<string>) returns (r: Result<seq<Uid>>)
      modifies server`calls
      ensures var n := old(server.calls);
        r.Success? <==>
          if keywords == [] || (server.Smooth(n) && server.searchesKeywords) then server.Smooth(n) else ListsAt(n + 1)
      ensures r.Success? ==> r.value == Ascending(Queue(server.account, keywords)) && Ascends(r.value)
      ensures r.Success? ==> forall u :: u in r.value <==> IsWork(server.account, keywords, u)
    {
      var found := server.Search(keywords);
      AscendingMembers(Queue(server.account, keywords));
      AscendingAscends(Queue(server.account, keywords));
      if found.Success? {
        SortedIs(found.value, Queue(server.account, keywords));
        return Success(Sorted(found.value));
      }
      if keywords == [] { return Error; }
      var entries := InboxFlags();
      if entries.Error? { return Error; }
      InboxIs(server.account, keywords);
      r := Success(Uids(entries.value, flags => !Matches(flags, keywords)));
    }

    /** The messages that carry a keyword, whatever the server makes of a KEYWORD search. */
    method SearchKeyword(keyword: string) returns (r: Result<seq<Uid>>)
      modifies server`calls
      ensures server.calls >= old(server.calls)
      ensures r.Success? <==> ListsAt(old(server.calls))
      ensures r.Success? ==> r.value == Ascending(Carriers(server.account, keyword))
    {
      var entries := InboxFlags();
      if entries.Error? { return Error; }
      CarriersAre(server.account, keyword);
      r := Success(Uids(entries.value, flags => Matches(flags, [keyword])));
    }

    method FetchMessage(uid: Uid) returns (r: FetchResult)
      modifies server`calls
      ensures r == if !server.Smooth(old(server.calls)) then Unreadable
                   else if uid in server.account.inbox then Message(server.account.inbox[uid]) else Vanished
    {
      var data := server.FetchFlags([uid]);
      if data.Error? { return Unreadable; }
      r := if uid in data.value then Message(data.value[uid]) else Vanished;
    }

    /** The flags of one message as a FETCH reports them; none if it is gone. */
    method FlagsNow(uid: Uid) returns (r: Result<set<string>>)
      modifies server`calls
      ensures server.calls == old(server.calls) + 1
      ensures r.Success? <==> server.Smooth(old(server.calls))
      ensures r.Success? ==> r.value == if uid in server.account.inbox then server.account.inbox[uid] else {}
    {
      var data := server.FetchFlags([uid]);
      if data.Error? { return Error; }
      r := Success(if uid in data.value then data.value[uid] else {});
    }

    /** Set a keyword.  `ok` is false where the client raises MailboxError.  It returns
        normally exactly where the STORE does, the message is then in INBOX and carries the
        keyword, and the reply to the STORE shows that or the flags can be fetched; so that no
        later listing shows the message as work.  `replies` are what the machine of module Run
        is told meanwhile. */
    method AddKeyword(uid: Uid, keyword: string) returns (ok: bool, ghost replies: seq<Reply>)
      requires server.Truthful()
      modifies server
      ensures server.calls >= old(server.calls)
      ensures server.account ==
        if server.Takes(old(server.calls)) then Flagged(old(server.account), uid, keyword) else old(server.account)
      ensures ok ==> uid in server.account.inbox && Carries(server.account.inbox[uid], keyword)
      ensures ok ==> forall keywords :: keyword in keywords ==> uid !in Queue(server.account, keywords)
      ensures var n, inbox := old(server.calls), server.account.inbox;
        ok <==>
          && server.Smooth(n) && uid in inbox && Carries(inbox[uid], keyword)
          && (Carries(Shown(server.shows(n, inbox[uid])), keyword) || server.Smooth(n + 1))
      ensures var n := old(server.calls);
        server.Smooth(n) && server.Smooth(n + 1) && server.obeys(n) && uid in server.account.inbox ==> ok
      ensures forall opts, k :: StorePlays(opts, uid, k, replies, ok)
      ensures Flags(true) in replies ==> uid in server.account.inbox && Carries(server.account.inbox[uid], keyword)
    {
      var response := server.StoreFlag(uid, keyword, true);
      if response.Error? {
        StoreReplies(uid, [Done(false)], false);
        return false, [Done(false)];
      }
      var flags := Shown(response.value);
      if uid in server.account.inbox {
        FewerCarry(flags, server.account.inbox[uid], keyword);
        WithCarries(old(server.account.inbox[uid]), keyword, keyword);
      }
      if Carries(flags, keyword) {
        StoreReplies(uid, [Flags(true)], true);
        return true, [Flags(true)];
      }
      var fetched := FlagsNow(uid);
      ok := fetched.Success? && Carries(fetched.value, keyword);
      replies := [Flags(false), if fetched.Error? then Done(false) else Flags(ok)];
      StoreReplies(uid, replies, ok);
    }

    /** Clear a keyword.  A normal return means that the message lacks the keyword or is
        gone, except exactly where the message carried the keyword, the server did not apply
        the STORE, and its reply shows flags without that one.  A server whose replies to
        STORE are complete, or missing, never gets there. */
    method RemoveKeyword(uid: Uid, keyword: string) returns (ok: bool)
      modifies server
      ensures server.calls >= old(server.calls)
      ensures server.account ==
        if server.Takes(old(server.calls)) then Unflagged(old(server.account), uid, keyword) else old(server.account)
      ensures var n, was := old(server.calls), old(server.account.inbox);
        ok && uid in server.account.inbox && Carries(server.account.inbox[uid], keyword) <==>
          && uid in was && Carries(was[uid], keyword)
          && server.Smooth(n) && !server.obeys(n) && LooksCleared(server.shows(n, was[uid]), keyword)
      ensures ok && server.Complete() ==> uid in server.account.inbox ==> !Carries(server.account.inbox[uid], keyword)
      ensures var n, inbox := old(server.calls), server.account.inbox;
        ok <==>
          && server.Smooth(n)
          && (|| (uid in inbox && LooksCleared(server.shows(n, inbox[uid]), keyword))
              || (server.Smooth(n + 1) && (uid !in inbox || !Carries(inbox[uid], keyword))))
    {
      var response := server.StoreFlag(uid, keyword, false);
      if response.Error? { return false; }
      if uid in old(server.account.inbox) { WithoutCarries(old(server.account.inbox[uid]), keyword, keyword); }
      if LooksCleared(response.value, keyword) { return true; }
      var fetched := FlagsNow(uid);
      ok := fetched.Success? && !Carries(fetched.value, keyword);
    }

    /** Move a message out of INBOX into a folder, which is created when it is missing.  A
        normal return means that the message has been moved, except exactly where the server
        has no MOVE, did not apply the STORE of \Deleted, and the message had no \Deleted
        before: then it is filed in the folder and still in INBOX.  `ok` is false where the
        client raises MailboxError; `replies` are what the machine of module Run is told. */
    method MoveToFolder(uid: Uid, folder: string) returns (ok: bool, ghost replies: seq<Reply>)
      modifies server
      ensures ok ==> server.calls >= old(server.calls) + 2
      ensures ok ==>
        var was := WithFolder(old(server.account), folder);
        server.account ==
          if server.hasMove || !Stays(was, uid) || server.obeys(server.calls - 2) then MoveTo(was, uid, folder)
          else CopyTo(was, uid, folder)
      ensures server.account == old(server.account)
           || Underway(WithFolder(old(server.account), folder), uid, folder, server.account)
      ensures !server.hasMove && !server.hasUidPlus ==> !ok && server.account.inbox == old(server.account.inbox)
      ensures var n, known := old(server.calls), folder in old(server.account).folders;
        ok <==> server.Smooth(n) && (known || server.Smooth(n + 1)) && server.MovesAt(if known then n + 1 else n + 2)
      ensures forall opts, d :: MovePlays(opts, uid, Run.AtLocate(d), d, replies, ok)
    {
      var known := server.FolderExists(folder);
      LocateReplies(uid);
      if known.Error? { return false, [Done(false)]; }
      if !known.value {
        ok := server.Execute(WithFolder(server.account, folder));
        if !ok { return false, [Done(false)]; }
      }
      if server.hasMove {
        ok := server.Execute(MoveTo(server.account, uid, folder));
        replies := [Found(MoveCommand), Done(ok)];
      } else if server.hasUidPlus {
        ok, replies := CopyAndExpunge(uid, folder);
        FallbackReplies(uid, replies, ok);
        replies := [Found(UidPlus)] + replies;
      } else {
        ok, replies := false, [Found(Neither)];
      }
    }

    /** The fallback for a server without MOVE. */
    method CopyAndExpunge(uid: Uid, folder: string) returns (ok: bool, ghost replies: seq<Reply>)
      requires folder in server.account.folders
      modifies server
      ensures ok ==> server.calls >= old(server.calls) + 2
      ensures ok ==>
        server.account ==
          if !Stays(old(server.account), uid) || server.obeys(server.calls - 2) then
            MoveTo(old(server.account), uid, folder)
          else CopyTo(old(server.account), uid, folder)
      ensures Underway(old(server.account), uid, folder, server.account)
      ensures var n := old(server.calls); ok <==> server.Smooth(n) && server.Smooth(n + 1) && server.Smooth(n + 2)
      ensures forall opts, d :: MovePlays(opts, uid, Run.AtCopy(d), d, replies, ok)
    {
      FallbackIsMove(server.account, uid, folder);
      UnflaggedExpunge(server.account, uid, folder);
      CopyReplies(uid);
      ok := server.Execute(CopyTo(server.account, uid, folder));
      if !ok { return false, [Done(false)]; }
      var response := server.StoreFlag(uid, DELETED, true);
      if response.Error? { return false, [Ok, Done(false)]; }
      ok := server.Execute(ExpungeOne(server.account, uid));
      replies := [Ok, Ok, Done(ok)];
    }
  }

  /** The exception is real: a server that ignores the STORE and whose reply to it shows no
      flags at all has the client report a keyword as cleared that is still there. */
  method HiddenKeyword(keyword: string) returns (mailbox: ICloudMailbox, ok: bool)
    ensures fresh(mailbox) && fresh(mailbox.server) && mailbox.server.Truthful()
    ensures ok && mailbox.server.account.inbox == map[1 := {keyword}] && Carries({keyword}, keyword)
  {
    var server := new Server(Account(map[1 := {keyword}], map[]), n => Fine, n => false, (n, flags) => Some({}), true,
      true, true);
    mailbox := new ICloudMailbox(server);
    CarriesOne({}, keyword);
    CarriesOne({keyword}, keyword);
    ok := mailbox.RemoveKeyword(1, keyword);
  }

  /** So is that of a move: the message is reported as moved and still in INBOX. */
  method UnmovedMessage(folder: string) returns (mailbox: ICloudMailbox, ok: bool)
    ensures fresh(mailbox) && fresh(mailbox.server) && mailbox.server.Truthful()
    ensures ok && mailbox.server.account == Account(map[1 := {}], map[folder := [Filed(1, {})]])
  {
    var account := Account(map[1 := {}], map[]);
    var server := new Server(account, n => Fine, n => false, (n, flags) => None, true, false, true);
    mailbox := new ICloudMailbox(server);
    ghost var replies;
    ok, replies := mailbox.MoveToFolder(1, folder);
    assert !Carries({}, DELETED) && Stays(WithFolder(account, folder), 1);
    assert WithFolder(account, folder).folders[folder] + [Filed(1, {})] == [Filed(1, {})];
  }
}

/** The operator's commands on quarantined mail (cli.py). */
module Cli {
  import opened Mail
  import opened Flags
  import opened Imap
  import opened Sorting
  import opened ImapClient

  /** One line of the listing. */
  datatype Line = Line(uid: Uid, keyword: Mark, inGmail: bool)

  /** The first quarantine keyword the flags carry decides the line. */
  function LineFor(kw: Keywords, e: Entry): Option<Line> {
    if Carries(e.flags, kw.failed) then Some(Line(e.uid, Failed, Carries(e.flags, kw.inserted)))
    else if Carries(e.flags, kw.unverified) then Some(Line(e.uid, Unverified, true))
    else None
  }

  function LineUids(lines: seq<Line>): (us: seq<Uid>)
    ensures |us| == |lines| && forall i :: 0 <= i < |us| ==> us[i] == lines[i].uid
  {
    seq(|lines|, i requires 0 <= i < |lines| => lines[i].uid)
  }

  function Quarantined(kw: Keywords, a: Account): set<Uid> {
    Carriers(a, kw.failed) + Carriers(a, kw.unverified)
  }

  /** What may be said of one quarantined message. */
  predicate Describes(kw: Keywords, flags: set<string>, line: Line) {
    && (line.keyword == Failed <==> Carries(flags, kw.failed))
    && line.keyword != Inserted
    && (line.inGmail <==> Carries(flags, kw.inserted) || !Carries(flags, kw.failed))
  }

  predicate Keeps(kw: Keywords, flags: set<string>) {
    Matches(flags, [kw.failed, kw.unverified])
  }

  lemma KeepsEither(kw: Keywords, flags: set<string>)
    ensures Keeps(kw, flags) <==> Carries(flags, kw.failed) || Carries(flags, kw.unverified)
  {
  }

  lemma LineDescribes(kw: Keywords, e: Entry)
    ensures LineFor(kw, e).Some? <==> Keeps(kw, e.flags)
    ensures LineFor(kw, e).Some? ==> LineFor(kw, e).value.uid == e.uid && Describes(kw, e.flags, LineFor(kw, e).value)
  {
  }

  lemma {:induction false} UidsOneMore(entries: seq<Entry>, keep: set<string> -> bool, i: nat)
    requires i < |entries|
    ensures Uids(entries[..i + 1], keep)
         == Uids(entries[..i], keep) + (if keep(entries[i].flags) then [entries[i].uid] else [])
  {
    if i > 0 {
      UidsOneMore(entries[1..], keep, i - 1);
      assert entries[..i + 1][1..] == entries[1..][..i] && entries[..i][1..] == entries[1..][..i - 1];
    } else {
      assert entries[..1] == [entries[0]] && entries[..0] == [];
    }
  }

  /** The quarantined mail: exactly the messages the work list leaves out, by UID. */
  method Collect(mailbox: ICloudMailbox, kw: Keywords) returns (r: Result<seq<Line>>)
    modifies mailbox.server`calls
    ensures r.Success? <==> mailbox.ListsAt(old(mailbox.server.calls))
    ensures r.Success? ==> LineUids(r.value) == Ascending(Quarantined(kw, mailbox.server.account))
    ensures r.Success? ==> forall line :: line in r.value ==>
      line.uid in mailbox.server.account.inbox && Describes(kw, mailbox.server.account.inbox[line.uid], line)
  {
    var entries := mailbox.InboxFlags();
    if entries.Error? { return Error; }
    var a := mailbox.server.account;
    var lines: seq<Line> := [];
    for i := 0 to |entries.value|
      invariant LineUids(lines) == Uids(entries.value[..i], flags => Keeps(kw, flags))
      invariant forall line :: line in lines ==> line.uid in a.inbox && Describes(kw, a.inbox[line.uid], line)
    {
      var e := entries.value[i];
      InboxHas(a, e.uid);
      LineDescribes(kw, e);
      UidsOneMore(entries.value, flags => Keeps(kw, flags), i);
      var line := LineFor(kw, e);
      if line.Some? { lines := lines + [line.value]; }
    }
    assert entries.value[..|entries.value|] == entries.value;
    QuarantinedAre(kw, a);
    r := Success(lines);
  }

  lemma QuarantinedAre(kw: Keywords, a: Account)
    ensures Uids(Inbox(a), flags => Keeps(kw, flags)) == Ascending(Quarantined(kw, a))
  {
    forall u ensures u in Quarantined(kw, a) <==> u in Queue(a, []) && Keeps(kw, a.inbox[u]) {
      if u in a.inbox { KeepsEither(kw, a.inbox[u]); }
    }
    UidsAre(a, flags => Keeps(kw, flags), Quarantined(kw, a));
  }

  /** The marks say that Gmail has the message. */
  predicate SaysInGmail(kw: Keywords, flags: set<string>) {
    Carries(flags, kw.inserted) || Carries(flags, kw.unverified)
  }

  /** The listing is right about Gmail, except exactly for a message that carries both
      quarantine keywords and not the one for inserted mail: it shows as rejected. */
  lemma ListingAboutGmail(kw: Keywords, flags: set<string>, line: Line)
    requires Describes(kw, flags, line) && Keeps(kw, flags)
    ensures (line.inGmail <==> SaysInGmail(kw, flags))
       <==> !(Carries(flags, kw.failed) && Carries(flags, kw.unverified) && !Carries(flags, kw.inserted))
  {
  }

  // ---- retry ---------------------------------------------------------------------------

  /** The account with a keyword cleared from some messages. */
  function ClearedFrom(a: Account, us: set<Uid>, keyword: string): Account {
    a.(inbox := map u | u in a.inbox :: if u in us then Without(a.inbox[u], keyword) else a.inbox[u])
  }

  function Targets(a: Account, keyword: string, all: bool, requested: seq<Uid>): set<Uid> {
    if all then Carriers(a, keyword) else set u | u in requested && u in Carriers(a, keyword)
  }

  lemma ClearOne(a: Account, us: set<Uid>, u: Uid, keyword: string)
    ensures Unflagged(ClearedFrom(a, us, keyword), u, keyword) == ClearedFrom(a, us + {u}, keyword)
  {
    if u in a.inbox && u in us {
      assert Without(Without(a.inbox[u], keyword), keyword) == Without(a.inbox[u], keyword);
    }
    assert Unflagged(ClearedFrom(a, us, keyword), u, keyword).inbox == ClearedFrom(a, us + {u}, keyword).inbox;
  }

  lemma ClearNone(a: Account, keyword: string)
    ensures ClearedFrom(a, {}, keyword) == a
  {
  }

  /** After a confirmed removal the keyword is off. */
  lemma ClearConfirmed(a: Account, us: set<Uid>, u: Uid, keyword: string, a': Account)
    requires u in Carriers(a, keyword)
    requires a' == ClearedFrom(a, us, keyword) || a' == ClearedFrom(a, us + {u}, keyword)
    requires !Carries(a'.inbox[u], keyword)
    ensures a' == ClearedFrom(a, us + {u}, keyword)
  {
  }

  /** Clear the keyword from one message: it is cleared, or it is not, and nothing else. */
  method ClearKeyword(mailbox: ICloudMailbox, uid: Uid, keyword: string, ghost a: Account, ghost cleared: set<Uid>)
    returns (ok: bool, ghost cleared': set<Uid>)
    requires mailbox.server.account == ClearedFrom(a, cleared, keyword) && uid in Carriers(a, keyword)
    modifies mailbox.server
    ensures mailbox.server.account == ClearedFrom(a, cleared', keyword)
    ensures cleared' == cleared || cleared' == cleared + {uid}
    ensures mailbox.server.calls >= old(mailbox.server.calls)
    ensures mailbox.server.WorksFrom(old(mailbox.server.calls)) ==> ok && uid in cleared'
    ensures ok && mailbox.server.Complete() ==> uid in cleared'
  {
    ClearOne(a, cleared, uid, keyword);
    ok := mailbox.RemoveKeyword(uid, keyword);
    if ok && mailbox.server.Complete() {
      ClearConfirmed(a, cleared, uid, keyword, mailbox.server.account);
    }
    cleared' := if mailbox.server.account == ClearedFrom(a, cleared + {uid}, keyword) then cleared + {uid} else cleared;
  }

  /** The loop over the messages asked for; those that do not carry the keyword are skipped. */
  method ClearEach(mailbox: ICloudMailbox, uids: seq<Uid>, carrying: set<Uid>, keyword: string)
    returns (ok: bool, ghost cleared: set<Uid>)
    requires carrying == Carriers(mailbox.server.account, keyword)
    modifies mailbox.server
    ensures mailbox.server.calls >= old(mailbox.server.calls)
    ensures mailbox.server.account == ClearedFrom(old(mailbox.server.account), cleared, keyword)
    ensures forall u :: u in cleared ==> u in uids && u in carrying
    ensures mailbox.server.WorksFrom(old(mailbox.server.calls)) ==>
      ok && forall u :: u in uids && u in carrying ==> u in cleared
    ensures ok && mailbox.server.Complete() ==> forall u :: u in uids && u in carrying ==> u in cleared
  {
    cleared := {};
    ghost var a := mailbox.server.account;
    ClearNone(a, keyword);
    for i := 0 to |uids|
      invariant mailbox.server.account == ClearedFrom(a, cleared, keyword)
      invariant forall u :: u in cleared ==> u in uids && u in carrying
      invariant mailbox.server.calls >= old(mailbox.server.calls)
      invariant mailbox.server.Complete() || mailbox.server.WorksFrom(old(mailbox.server.calls)) ==>
        forall j :: 0 <= j < i && uids[j] in carrying ==> uids[j] in cleared
    {
      if uids[i] in carrying {
        ok, cleared := ClearKeyword(mailbox, uids[i], keyword, a, cleared);
        if !ok { return; }
      }
    }
    ok := true;
  }

  lemma TargetsAre(carrying: set<Uid>, all: bool, requested: seq<Uid>, uids: seq<Uid>)
    requires uids == if all then Ascending(carrying) else requested
    ensures all ==> forall u :: u in carrying <==> u in uids && u in carrying
    ensures !all ==> uids == requested
  {
    AscendingMembers(carrying);
  }

  /** The set of the messages that carry a keyword. */
  method Carrying(mailbox: ICloudMailbox, keyword: string) returns (r: ImapClient.Result<set<Uid>>)
    modifies mailbox.server`calls
    ensures mailbox.server.calls >= old(mailbox.server.calls)
    ensures r.Success? <==> mailbox.ListsAt(old(mailbox.server.calls))
    ensures r.Success? ==> r.value == Carriers(mailbox.server.account, keyword)
  {
    var found := mailbox.SearchKeyword(keyword);
    if found.Error? { return Error; }
    AscendingMembers(Carriers(mailbox.server.account, keyword));
    r := Success(Members(found.value));
    assert r.value == Carriers(mailbox.server.account, keyword);
  }

  /** Search for the carriers of a keyword and clear it from those asked for. */
  method Requeue(mailbox: ICloudMailbox, keyword: string, all: bool, requested: seq<Uid>)
    returns (ok: bool, ghost cleared: set<Uid>)
    modifies mailbox.server
    ensures mailbox.server.calls >= old(mailbox.server.calls)
    ensures mailbox.server.account == ClearedFrom(old(mailbox.server.account), cleared, keyword)
    ensures cleared <= Targets(old(mailbox.server.account), keyword, all, requested)
    ensures ok && mailbox.server.Complete() ==> cleared == Targets(old(mailbox.server.account), keyword, all, requested)
    ensures mailbox.server.WorksFrom(old(mailbox.server.calls)) ==>
      ok && cleared == Targets(old(mailbox.server.account), keyword, all, requested)
  {
    cleared := {};
    ClearNone(mailbox.server.account, keyword);
    var found := Carrying(mailbox, keyword);
    if found.Error? { return false, cleared; }
    var carrying := found.value;
    var uids := if all then Ascending(carrying) else requested;
    TargetsAre(carrying, all, requested, uids);
    ok, cleared := ClearEach(mailbox, uids, carrying, keyword);
  }

  /** Put quarantined mail back into the queue.  Exit code 2: not without `yes`; 1: the
      server failed.  Only the keyword asked for is cleared, only from messages that
      carry it and are not \Deleted; and exit code 0 means that it is off all of them,
      on a server whose replies to STORE are complete. */
  method Retry(mailbox: ICloudMailbox, kw: Keywords, unverified: bool, yes: bool, all: bool, requested: seq<Uid>)
    returns (code: int, ghost cleared: set<Uid>)
    modifies mailbox.server
    ensures code in {0, 1, 2}
    ensures unverified && !yes <==> code == 2
    ensures mailbox.server.calls >= old(mailbox.server.calls)
    ensures var keyword := if unverified then kw.unverified else kw.failed;
      var targets := Targets(old(mailbox.server.account), keyword, all, requested);
      && mailbox.server.account == ClearedFrom(old(mailbox.server.account), cleared, keyword)
      && cleared <= targets
      && (code == 2 ==> cleared == {})
      && (code == 0 && mailbox.server.Complete() ==> cleared == targets)
      && (code != 2 && mailbox.server.WorksFrom(old(mailbox.server.calls)) ==> code == 0 && cleared == targets)
  {
    var keyword := if unverified then kw.unverified else kw.failed;
    if unverified && !yes {
      ClearNone(mailbox.server.account, keyword);
      return 2, {};
    }
    var ok;
    ok, cleared := Requeue(mailbox, keyword, all, requested);
    code := if ok then 0 else 1;
  }

  /** `retry --all` leaves no carrier that is not \Deleted, and no other flag of any message
      is touched. */
  lemma AllCleared(a: Account, keyword: string, other: string)
    ensures var a' := ClearedFrom(a, Carriers(a, keyword), keyword);
      && Carriers(a', keyword) == {} && a'.folders == a.folders && a'.inbox.Keys == a.inbox.Keys
      && forall u :: u in a.inbox && Lower(other) != Lower(keyword) ==>
           (Carries(a'.inbox[u], other) <==> Carries(a.inbox[u], other))
  {
  }

  // ---- mark-failed -----------------------------------------------------------------------

  function MarkedOn(a: Account, us: set<Uid>, keyword: string): Account {
    a.(inbox := map u | u in a.inbox :: if u in us then With(a.inbox[u], keyword) else a.inbox[u])
  }

  /** The message is listed with the keyword for inserted mail. */
  predicate ShowsInserted(kw: Keywords, a: Account, u: Uid) {
    u in a.inbox && !Carries(a.inbox[u], "\\Deleted") && Carries(a.inbox[u], kw.inserted)
  }

  /** Messages the command refuses: Gmail has them. */
  function Refused(kw: Keywords, a: Account): set<Uid> {
    Carriers(a, kw.inserted)
  }

  lemma MarkOne(a: Account, us: set<Uid>, u: Uid, keyword: string)
    ensures Flagged(MarkedOn(a, us, keyword), u, keyword) == MarkedOn(a, us + {u}, keyword)
  {
  }

  /** Where the keyword is on already, marking changes nothing. */
  lemma MarkConfirmed(a: Account, us: set<Uid>, u: Uid, keyword: string, a': Account)
    requires a' == MarkedOn(a, us, keyword) || a' == MarkedOn(a, us + {u}, keyword)
    requires u in a'.inbox && Carries(a'.inbox[u], keyword)
    ensures a' == MarkedOn(a, us + {u}, keyword)
  {
  }

  lemma MarkNone(a: Account, keyword: string)
    ensures MarkedOn(a, {}, keyword) == a
  {
  }

  /** The flags of one message in the snapshot. */
  function FlagsIn(entries: seq<Entry>, u: Uid): set<string> {
    if entries == [] then {} else if entries[0].uid == u then entries[0].flags else FlagsIn(entries[1..], u)
  }

  lemma {:induction false} FlagsInIs(entries: seq<Entry>, u: Uid, flags: set<string>)
    requires forall e :: e in entries && e.uid == u ==> e.flags == flags
    ensures FlagsIn(entries, u) == if exists e :: e in entries && e.uid == u then flags else {}
  {
    if entries != [] {
      assert entries[0] in entries && forall e :: e in entries <==> e == entries[0] || e in entries[1..];
      FlagsInIs(entries[1..], u, flags);
    }
  }

  lemma SnapshotRefuses(kw: Keywords, a: Account, u: Uid)
    ensures Carries(FlagsIn(Inbox(a), u), kw.inserted) <==> u in Refused(kw, a)
  {
    InboxHas(a, u);
    FlagsInIs(Inbox(a), u, if u in a.inbox then a.inbox[u] else {});
  }

  /** Mark one message: it is marked, or it is not, and nothing else. */
  method MarkKeyword(mailbox: ICloudMailbox, uid: Uid, keyword: string, ghost a: Account, ghost marked: set<Uid>)
    returns (ok: bool, ghost marked': set<Uid>)
    requires mailbox.server.Truthful() && mailbox.server.account == MarkedOn(a, marked, keyword)
    modifies mailbox.server
    ensures mailbox.server.account == MarkedOn(a, marked', keyword)
    ensures marked' == marked || marked' == marked + {uid}
    ensures mailbox.server.calls >= old(mailbox.server.calls)
    ensures ok ==> uid in marked' && uid in a.inbox
    ensures mailbox.server.WorksFrom(old(mailbox.server.calls)) && uid in a.inbox ==> ok
  {
    MarkOne(a, marked, uid, keyword);
    ghost var replies;
    ok, replies := mailbox.AddKeyword(uid, keyword);
    if ok { MarkConfirmed(a, marked, uid, keyword, mailbox.server.account); }
    marked' := if mailbox.server.account == MarkedOn(a, marked + {uid}, keyword) then marked + {uid} else marked;
  }

  /** The loop over the messages asked for; those that Gmail has are refused. */
  method MarkEach(mailbox: ICloudMailbox, kw: Keywords, entries: seq<Entry>, requested: seq<Uid>)
    returns (code: int, ghost marked: set<Uid>)
    requires mailbox.server.Truthful() && entries == Inbox(mailbox.server.account)
    modifies mailbox.server
    ensures code in {0, 1}
    ensures mailbox.server.calls >= old(mailbox.server.calls)
    ensures mailbox.server.account == MarkedOn(old(mailbox.server.account), marked, kw.failed)
    ensures forall u :: u in marked ==> u in requested && u !in Refused(kw, old(mailbox.server.account))
    ensures mailbox.server.WorksFrom(old(mailbox.server.calls)) ==>
      (code == 0 <==> forall u :: u in requested ==>
         u in old(mailbox.server.account.inbox) && u !in Refused(kw, old(mailbox.server.account)))
    ensures code == 0 ==> forall u :: u in requested ==> u in marked && u in old(mailbox.server.account.inbox)
  {
    marked := {};
    ghost var a := mailbox.server.account;
    MarkNone(a, kw.failed);
    var refused := false;
    for i := 0 to |requested|
      invariant mailbox.server.account == MarkedOn(a, marked, kw.failed)
      invariant forall u :: u in marked ==> u in requested && u !in Refused(kw, a)
      invariant mailbox.server.calls >= old(mailbox.server.calls)
      invariant refused <==> exists j :: 0 <= j < i && requested[j] in Refused(kw, a)
      invariant !refused ==> forall u :: u in requested[..i] ==> u in marked && u in a.inbox
    {
      var uid := requested[i];
      SnapshotRefuses(kw, a, uid);
      OneMoreOf(requested, i);
      if Carries(FlagsIn(entries, uid), kw.inserted) {
        refused := true;
      } else {
        var ok;
        ok, marked := MarkKeyword(mailbox, uid, kw.failed, a, marked);
        if !ok { return 1, marked; }
      }
    }
    code := if refused then 1 else 0;
    assert requested[..|requested|] == requested;
  }

  /** Set mail aside by hand.  Exit code 0: every message asked for is in INBOX and carries
      the keyword, and none of them was refused; the command never touches another
      message, another flag, or a message it refuses. */
  method MarkFailed(mailbox: ICloudMailbox, kw: Keywords, supported: bool, requested: seq<Uid>)
    returns (code: int, ghost marked: set<Uid>)
    requires mailbox.server.Truthful()
    modifies mailbox.server
    ensures code in {0, 1}
    ensures mailbox.server.calls >= old(mailbox.server.calls)
    ensures mailbox.server.account == MarkedOn(old(mailbox.server.account), marked, kw.failed)
    ensures !supported ==> code == 1 && marked == {}
    ensures forall u :: u in marked ==> u in requested && !ShowsInserted(kw, old(mailbox.server.account), u)
    ensures supported && mailbox.server.WorksFrom(old(mailbox.server.calls)) ==>
      (code == 0 <==> forall u :: u in requested ==>
         u in old(mailbox.server.account.inbox) && !ShowsInserted(kw, old(mailbox.server.account), u))
    ensures code == 0 ==> forall u :: u in requested ==>
      && u in mailbox.server.account.inbox && Carries(mailbox.server.account.inbox[u], kw.failed)
      && u in marked
  {
    marked := {};
    ghost var a := mailbox.server.account;
    MarkNone(a, kw.failed);
    RefusedShow(kw, a);
    if !supported { return 1, marked; }
    var snapshot := mailbox.InboxFlags();
    if snapshot.Error? { return 1, marked; }
    code, marked := MarkEach(mailbox, kw, snapshot.value, requested);
    MarksCarry(a, marked, kw.failed);
  }

  lemma RefusedShow(kw: Keywords, a: Account)
    ensures forall u :: u in Refused(kw, a) <==> ShowsInserted(kw, a, u)
  {
  }

  lemma OneMoreOf(us: seq<Uid>, i: nat)
    requires i < |us|
    ensures forall u :: u in us[..i + 1] <==> u in us[..i] || u == us[i]
  {
  }

  lemma MarksCarry(a: Account, us: set<Uid>, keyword: string)
    ensures forall u :: u in us && u in a.inbox ==> Carries(MarkedOn(a, us, keyword).inbox[u], keyword)
  {
  }

  // ---- mark-failed, then retry ----------------------------------------------------------------

  lemma WithThenWithout(flags: set<string>, keyword: string)
    ensures Without(With(flags, keyword), keyword) == flags <==> !Carries(flags, keyword)
  {
  }

  /** What the two commands leave of the flags of one message. */
  function MarkedThenRetried(kw: Keywords, a: Account, u: Uid): set<string>
    requires u in a.inbox
  {
    var flags := if u in Refused(kw, a) then a.inbox[u] else With(a.inbox[u], kw.failed);
    if Carries(flags, kw.failed) && !Carries(flags, DELETED) then Without(flags, kw.failed) else flags
  }

  lemma BothRestore(kw: Keywords, a: Account, u: Uid)
    requires kw.Valid() && u in a.inbox
    ensures MarkedThenRetried(kw, a, u) == a.inbox[u] <==>
      (Carries(a.inbox[u], kw.failed) <==> Carries(a.inbox[u], DELETED))
  {
    WithThenWithout(a.inbox[u], kw.failed);
    WithCarries(a.inbox[u], kw.failed, kw.failed);
    DeletedApart(kw, a.inbox[u], Failed);
    WithoutCarries(a.inbox[u], kw.failed, kw.failed);
  }

  /** On a working server, marking a message by hand and retrying it restores the account
      exactly where the message carried the keyword before if and only if it was \Deleted,
      or is not there at all. */
  method MarkThenRetry(mailbox: ICloudMailbox, kw: Keywords, u: Uid)
    requires kw.Valid() && mailbox.server.Truthful() && mailbox.server.WorksFrom(mailbox.server.calls)
    modifies mailbox.server
    ensures var was := old(mailbox.server.account);
      mailbox.server.account == was <==>
        (u in was.inbox ==> (Carries(was.inbox[u], kw.failed) <==> Carries(was.inbox[u], DELETED)))
  {
    ghost var a := mailbox.server.account;
    var code, marked := MarkFailed(mailbox, kw, true, [u]);
    ghost var a1 := mailbox.server.account;
    var again, cleared := Retry(mailbox, kw, false, false, false, [u]);
    assert u in [u] && forall v :: v in [u] ==> v == u;
    RefusedShow(kw, a);
    MarkedExactly(kw, a, marked, u, a1);
    ClearedExactly(kw, a1, cleared, u, mailbox.server.account);
    RestoredExactly(kw, a, u, mailbox.server.account);
  }

  lemma MarkedExactly(kw: Keywords, a: Account, marked: set<Uid>, u: Uid, a1: Account)
    requires a1 == MarkedOn(a, marked, kw.failed) && marked <= {u}
    requires u in a.inbox && u !in Refused(kw, a) ==> u in marked
    requires u in marked ==> u !in Refused(kw, a)
    ensures a1.folders == a.folders && a1.inbox.Keys == a.inbox.Keys
    ensures forall v :: v in a.inbox && v != u ==> a1.inbox[v] == a.inbox[v]
    ensures u in a.inbox ==> a1.inbox[u] == if u in Refused(kw, a) then a.inbox[u] else With(a.inbox[u], kw.failed)
  {
  }

  lemma ClearedExactly(kw: Keywords, a1: Account, cleared: set<Uid>, u: Uid, a2: Account)
    requires a2 == ClearedFrom(a1, cleared, kw.failed) && cleared == Targets(a1, kw.failed, false, [u])
    ensures a2.folders == a1.folders && a2.inbox.Keys == a1.inbox.Keys
    ensures forall v :: v in a1.inbox && v != u ==> a2.inbox[v] == a1.inbox[v]
    ensures u in a1.inbox ==>
      a2.inbox[u] ==
        if Carries(a1.inbox[u], kw.failed) && !Carries(a1.inbox[u], DELETED) then Without(a1.inbox[u], kw.failed)
        else a1.inbox[u]
  {
    assert [u][0] == u;
  }

  lemma RestoredExactly(kw: Keywords, a: Account, u: Uid, a2: Account)
    requires kw.Valid() && a2.folders == a.folders && a2.inbox.Keys == a.inbox.Keys
    requires forall v :: v in a.inbox && v != u ==> a2.inbox[v] == a.inbox[v]
    requires u in a.inbox ==> a2.inbox[u] == MarkedThenRetried(kw, a, u)
    ensures a2 == a <==> (u in a.inbox ==> (Carries(a.inbox[u], kw.failed) <==> Carries(a.inbox[u], DELETED)))
  {
    if u in a.inbox { BothRestore(kw, a, u); }
    if u in a.inbox ==> a2.inbox[u] == a.inbox[u] { assert a2.inbox == a.inbox; }
  }
}

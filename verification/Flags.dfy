/** IMAP flags as the client reads them: atoms compared without regard to letter case
    (section 2.3.2 of RFC 3501). */
module Flags {
  import opened Mail

  function LowerChar(c: char): char {
    if 'A' <= c <= 'Z' then ((c as int) + 32) as char else c
  }

  function Lower(s: string): (l: string)
    ensures |l| == |s|
  {
    seq(|s|, i requires 0 <= i < |s| => LowerChar(s[i]))
  }

  function LowerAll(flags: set<string>): set<string> {
    set f | f in flags :: Lower(f)
  }

  /** The same character, or the same letter in the other case. */
  predicate SameLetter(a: char, b: char) {
    || a == b
    || ('A' <= a <= 'Z' && b as int == a as int + 32) || ('A' <= b <= 'Z' && a as int == b as int + 32)
  }

  /** The same atom, whatever the case of its letters. */
  predicate SameAtom(s: string, t: string) {
    |s| == |t| && forall i :: 0 <= i < |s| ==> SameLetter(s[i], t[i])
  }

  lemma LowerIsSame(s: string, t: string)
    ensures Lower(s) == Lower(t) <==> SameAtom(s, t)
  {
    if Lower(s) == Lower(t) {
      forall i | 0 <= i < |s| ensures SameLetter(s[i], t[i]) { assert Lower(s)[i] == Lower(t)[i]; }
    }
  }

  /** The one test behind every keyword decision. */
  predicate Carries(flags: set<string>, keyword: string) {
    Lower(keyword) in LowerAll(flags)
  }

  predicate Matches(flags: set<string>, keywords: seq<string>) {
    exists k :: k in keywords && Carries(flags, k)
  }

  const DELETED := "\\Deleted"

  /** What STORE +FLAGS and STORE -FLAGS leave (section 6.4.6 of RFC 3501). */
  function With(flags: set<string>, keyword: string): set<string> {
    if Carries(flags, keyword) then flags else flags + {keyword}
  }

  function Without(flags: set<string>, keyword: string): set<string> {
    set f | f in flags && Lower(f) != Lower(keyword)
  }

  lemma CarriesOne(flags: set<string>, keyword: string)
    ensures Carries(flags, keyword) <==> exists f :: f in flags && Lower(f) == Lower(keyword)
  {
  }

  /** Flags carry a keyword exactly if one of them is that atom in some spelling. */
  lemma CarriesAtom(flags: set<string>, keyword: string)
    ensures Carries(flags, keyword) <==> exists f :: f in flags && SameAtom(f, keyword)
  {
    CarriesOne(flags, keyword);
    forall f ensures Lower(f) == Lower(keyword) <==> SameAtom(f, keyword) { LowerIsSame(f, keyword); }
  }

  /** Storing a flag adds that flag and touches no other, however either is spelled. */
  lemma WithCarries(flags: set<string>, keyword: string, other: string)
    ensures Carries(With(flags, keyword), other) <==> Carries(flags, other) || Lower(other) == Lower(keyword)
  {
  }

  lemma WithoutCarries(flags: set<string>, keyword: string, other: string)
    ensures Carries(Without(flags, keyword), other) <==> Carries(flags, other) && Lower(other) != Lower(keyword)
  {
  }

  /** A shorter list of flags carries no more. */
  lemma FewerCarry(some: set<string>, all: set<string>, keyword: string)
    requires some <= all
    ensures Carries(some, keyword) ==> Carries(all, keyword)
  {
  }

  // ---- The three keywords --------------------------------------------------------

  datatype Keywords = Keywords(inserted: string, failed: string, unverified: string) {
    function Of(k: Mark): string {
      match k
      case Inserted => inserted
      case Failed => failed
      case Unverified => unverified
    }

    predicate Distinct() {
      && Lower(inserted) != Lower(failed) && Lower(inserted) != Lower(unverified)
      && Lower(failed) != Lower(unverified)
    }

    /** What the configuration enforces: three different atoms, none a system flag. */
    predicate Valid() {
      && Distinct()
      && Lower(inserted) != Lower(DELETED) && Lower(failed) != Lower(DELETED) && Lower(unverified) != Lower(DELETED)
    }
  }

  const MARKS := {Inserted, Failed, Unverified}

  /** What the flags of a message say to the tool. */
  function MarksOf(kw: Keywords, flags: set<string>): (m: set<Mark>)
    ensures forall k :: k in m <==> Carries(flags, kw.Of(k))
  {
    set k | k in MARKS && Carries(flags, kw.Of(k))
  }

  lemma MarksWith(kw: Keywords, flags: set<string>, k: Mark)
    requires kw.Distinct()
    ensures MarksOf(kw, With(flags, kw.Of(k))) == MarksOf(kw, flags) + {k}
    ensures MarksOf(kw, Without(flags, kw.Of(k))) == MarksOf(kw, flags) - {k}
  {
  }

  /** Marking a message leaves its other marks alone, whatever flags it carries, exactly
      when the keywords differ by more than letter case. */
  lemma DistinctKeywords(kw: Keywords)
    ensures (forall flags: set<string>, k: Mark :: MarksOf(kw, With(flags, kw.Of(k))) == MarksOf(kw, flags) + {k})
        <==> kw.Distinct()
  {
    if kw.Distinct() {
      forall flags: set<string>, k: Mark ensures MarksOf(kw, With(flags, kw.Of(k))) == MarksOf(kw, flags) + {k} {
        MarksWith(kw, flags, k);
      }
    } else {
      var k, other :| k != other && Lower(kw.Of(k)) == Lower(kw.Of(other)) by { NotDistinct(kw); }
      WithCarries({}, kw.Of(k), kw.Of(other));
      assert other in MarksOf(kw, With({}, kw.Of(k))) && other !in MarksOf(kw, {}) + {k};
    }
  }

  lemma NotDistinct(kw: Keywords)
    requires !kw.Distinct()
    ensures exists k, other :: k != other && Lower(kw.Of(k)) == Lower(kw.Of(other))
  {
    if Lower(kw.inserted) == Lower(kw.failed) {
      assert Lower(kw.Of(Inserted)) == Lower(kw.Of(Failed));
    } else if Lower(kw.inserted) == Lower(kw.unverified) {
      assert Lower(kw.Of(Inserted)) == Lower(kw.Of(Unverified));
    } else {
      assert Lower(kw.Of(Failed)) == Lower(kw.Of(Unverified));
    }
  }

  /** The keywords and \Deleted do not disturb each other. */
  lemma DeletedApart(kw: Keywords, flags: set<string>, k: Mark)
    requires kw.Valid()
    ensures Carries(With(flags, kw.Of(k)), DELETED) <==> Carries(flags, DELETED)
    ensures Carries(Without(flags, kw.Of(k)), DELETED) <==> Carries(flags, DELETED)
    ensures MarksOf(kw, With(flags, DELETED)) == MarksOf(kw, flags) && Carries(With(flags, DELETED), DELETED)
  {
  }
}

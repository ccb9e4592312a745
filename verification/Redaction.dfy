/** Masking of registered secrets in text that leaves the process (secrets.py). */
module Redaction {
  import opened Mail

  const MASK := "***"
  const SHORTEST := 6

  predicate MaskAt(x: string, i: nat) {
    i + 3 <= |x| && x[i] == '*' && x[i + 1] == '*' && x[i + 2] == '*'
  }

  /** No end of a mask is its end, and no mask is in it. */
  predicate Solid(x: string) {
    (x == "" || x[|x| - 1] != '*') && forall i :: 0 <= i < |x| ==> !MaskAt(x, i)
  }

  /** A secret that no mask can be part of: it neither begins nor ends with the mask
      character, and has no three of them in a row. */
  predicate Clean(v: string) {
    v != "" && v[0] != '*' && Solid(v)
  }

  lemma SolidTail(x: string, k: nat)
    requires Solid(x) && k <= |x|
    ensures Solid(x[k..])
  {
    forall i | 0 <= i < |x[k..]| ensures !MaskAt(x[k..], i) { assert !MaskAt(x, k + i); }
  }

  /** Nothing solid shows at a mask. */
  lemma NotAtMask(x: string, rest: string)
    requires x != "" && Solid(x)
    ensures !StartsWith(MASK + rest, x)
  {
    if StartsWith(MASK + rest, x) {
      assert forall i :: 0 <= i < |x| && i < 3 ==> x[i] == (MASK + rest)[..|x|][i] == '*';
      if |x| >= 3 { assert MaskAt(x, 0); }
    }
  }

  predicate OccursAt(t: string, v: string, i: nat) {
    i + |v| <= |t| && t[i..i + |v|] == v
  }

  ghost predicate Occurs(t: string, v: string) {
    exists i: nat :: OccursAt(t, v, i)
  }

  predicate StartsWith(t: string, v: string) {
    |v| <= |t| && t[..|v|] == v
  }

  /** `t.replace(v, MASK)`: from the left, occurrences that do not overlap.  (No registered
      secret is empty; an empty one would be ignored here.) */
  function Replace(t: string, v: string): string {
    if v == "" || |t| < |v| then t
    else if StartsWith(t, v) then MASK + Replace(t[|v|..], v)
    else [t[0]] + Replace(t[1..], v)
  }

  function RedactAll(t: string, order: seq<string>): string
    decreases |order|
  {
    if order == [] then t else RedactAll(Replace(t, order[0]), order[1..])
  }

  // ---- Complete ---------------------------------------------------------------------------

  /** What shows solid at the start of the result was at the start of the text. */
  lemma {:induction false} PrefixWasThere(t: string, w: string, x: string)
    requires Solid(x) && StartsWith(Replace(t, w), x)
    ensures StartsWith(t, x)
    decreases |t|
  {
    if x != "" && w != "" && |t| >= |w| {
      var r := Replace(t, w);
      if StartsWith(t, w) { NotAtMask(x, Replace(t[|w|..], w)); }
      SolidTail(x, 1);
      var rest := Replace(t[1..], w);
      assert r[1..] == rest;
      assert StartsWith(rest, x[1..]) by { assert r[..|x|][1..] == rest[..|x| - 1]; }
      PrefixWasThere(t[1..], w, x[1..]);
      assert t[..|x|] == [t[0]] + t[1..][..|x| - 1];
    }
  }

  lemma ShiftOccurrence(t: string, v: string, k: nat, i: nat)
    requires k <= |t|
    ensures OccursAt(t[k..], v, i) <==> OccursAt(t, v, k + i)
  {
  }

  lemma NotInMask(rest: string, v: string, i: nat)
    requires Clean(v) && OccursAt(MASK + rest, v, i)
    ensures i >= 3
  {
    assert (MASK + rest)[i..i + |v|][0] == v[0] == (MASK + rest)[i];
  }

  /** The result of a replacement is what its first step emits, and the rest. */
  lemma FirstStep(t: string, w: string, v: string, i: nat) returns (shown: nat, taken: nat)
    requires w != "" && |w| <= |t| && Clean(v) && OccursAt(Replace(t, w), v, i) && (i > 0 || StartsWith(t, w))
    ensures 0 < taken <= |t| && shown <= i && shown <= |Replace(t, w)|
    ensures Replace(t, w)[shown..] == Replace(t[taken..], w)
  {
    if StartsWith(t, w) {
      NotInMask(Replace(t[|w|..], w), v, i);
      shown, taken := 3, |w|;
    } else {
      shown, taken := 1, 1;
    }
  }

  /** Masking any secret makes no clean one appear, and leaves none of its own. */
  lemma {:induction false} ReplaceAddsNone(t: string, w: string, v: string, i: nat)
    requires Clean(v) && OccursAt(Replace(t, w), v, i)
    ensures Occurs(t, v) && v != w
    decreases |t|
  {
    if w == "" || |t| < |w| {
      assert OccursAt(t, v, i);
    } else if i == 0 && !StartsWith(t, w) {
      PrefixWasThere(t, w, v);
      assert OccursAt(t, v, 0);
    } else {
      var shown, taken := FirstStep(t, w, v, i);
      ShiftOccurrence(Replace(t, w), v, shown, i - shown);
      ReplaceAddsNone(t[taken..], w, v, i - shown);
      var j: nat :| OccursAt(t[taken..], v, j);
      ShiftOccurrence(t, v, taken, j);
    }
  }

  lemma {:induction false} StaysAway(t: string, order: seq<string>, v: string)
    requires Clean(v) && !Occurs(t, v)
    ensures !Occurs(RedactAll(t, order), v)
    decreases |order|
  {
    if order != [] {
      if i: nat :| OccursAt(Replace(t, order[0]), v, i) { ReplaceAddsNone(t, order[0], v, i); }
      StaysAway(Replace(t, order[0]), order[1..], v);
    }
  }

  lemma {:induction false} AllRemoved(t: string, order: seq<string>, v: string)
    requires Clean(v) && v in order
    ensures !Occurs(RedactAll(t, order), v)
    decreases |order|
  {
    if order[0] == v {
      if i: nat :| OccursAt(Replace(t, v), v, i) { ReplaceAddsNone(t, v, v, i); }
      StaysAway(Replace(t, v), order[1..], v);
    } else {
      AllRemoved(Replace(t, order[0]), order[1..], v);
    }
  }

  /** Complete: a clean secret is left neither in the result nor in any prefix of it,
      whatever the other secrets are. */
  lemma Complete(t: string, order: seq<string>, v: string, n: nat)
    requires Clean(v) && v in order && n <= |RedactAll(t, order)|
    ensures !Occurs(RedactAll(t, order)[..n], v)
  {
    AllRemoved(t, order, v);
    var r := RedactAll(t, order);
    if i: nat :| OccursAt(r[..n], v, i) {
      assert r[..n][i..i + |v|] == r[i..i + |v|];
      assert OccursAt(r, v, i);
    }
  }

  // ---- Which secrets stay away ----------------------------------------------------------------

  /** Whatever the text and the other secrets, this one does not show in the result. */
  ghost predicate StaysMasked(v: string) {
    forall t, order :: v in order ==> !Occurs(RedactAll(t, order), v)
  }

  lemma Shorter(t: string, v: string)
    requires v == "" || |t| < |v|
    ensures Replace(t, v) == t
  {
  }

  /** If `v` does not occur before, the one that is put there is what is masked. */
  lemma {:induction false} MasksAt(x: string, v: string, rest: string)
    requires v != "" && forall j :: 0 <= j < |x| ==> !OccursAt(x + v + rest, v, j)
    ensures Replace(x + v + rest, v) == x + (MASK + Replace(rest, v))
    decreases |x|
  {
    var t := x + v + rest;
    if x == "" {
      assert t[..|v|] == v && t[|v|..] == rest;
    } else {
      assert !OccursAt(t, v, 0);
      assert t[1..] == x[1..] + v + rest;
      forall j | 0 <= j < |x[1..]| ensures !OccursAt(t[1..], v, j) {
        ShiftOccurrence(t, v, 1, j);
        assert !OccursAt(t, v, j + 1);
      }
      MasksAt(x[1..], v, rest);
      Emits(t, v);
    }
  }

  lemma InOccurrence(t: string, v: string, j: nat, k: nat)
    requires k < |v|
    ensures OccursAt(t, v, j) ==> t[j + k] == v[k]
  {
    if OccursAt(t, v, j) { assert t[j..j + |v|][k] == v[k]; }
  }

  /** A text in which masking `v` leaves `v`: for a secret that begins with a star, ... */
  lemma LeadingStar(v: string) returns (t: string)
    requires v != "" && v[0] == '*'
    ensures Occurs(Replace(t, v), v)
  {
    t := v + v[1..];
    Shorter(v[1..], v);
    assert t[..|v|] == v && t[|v|..] == v[1..];
    assert Replace(t, v) == MASK + v[1..];
    assert OccursAt(MASK + v[1..], v, 2);
  }

  /** ... that ends with one, ... */
  lemma TrailingStar(v: string) returns (t: string)
    requires v != "" && v[0] != '*' && v[|v| - 1] == '*'
    ensures Occurs(Replace(t, v), v)
  {
    var u := v[..|v| - 1];
    t := u + v + "";
    forall j | 0 <= j < |u| ensures !OccursAt(t, v, j) {
      InOccurrence(t, v, j, 0);
      InOccurrence(t, v, j, |v| - 1);
    }
    MasksAt(u, v, "");
    Shorter("", v);
    assert OccursAt(Replace(t, v), v, 0);
  }

  lemma {:induction false} FirstMask(x: string, i: nat) returns (k: nat)
    requires MaskAt(x, i)
    ensures MaskAt(x, k) && forall j :: 0 <= j < k ==> !MaskAt(x, j)
    decreases i
  {
    k := i;
    if j :| 0 <= j < i && MaskAt(x, j) { k := FirstMask(x, j); }
  }

  lemma MaskShifts(a: string, v: string, b: string, j: nat)
    requires j + 3 <= |v|
    ensures MaskAt(a + v + b, |a| + j) <==> MaskAt(v, j)
  {
  }

  lemma AroundMask(v: string, k: nat)
    requires MaskAt(v, k)
    ensures v == v[..k] + (MASK + v[k + 3..])
  {
    assert v[k..k + 3] == MASK;
  }

  lemma NoMaskThere(t: string, v: string, j: nat, k: nat)
    requires MaskAt(v, k) && !MaskAt(t, j + k)
    ensures !OccursAt(t, v, j)
  {
    InOccurrence(t, v, j, k);
    InOccurrence(t, v, j, k + 1);
    InOccurrence(t, v, j, k + 2);
  }

  /** ... or that has a mask inside. */
  lemma InnerMask(v: string, i: nat) returns (t: string)
    requires v != "" && MaskAt(v, i)
    ensures Occurs(Replace(t, v), v)
  {
    var k := FirstMask(v, i);
    var a, b := v[..k], v[k + 3..];
    t := a + v + b;
    forall j | 0 <= j < |a| ensures !OccursAt(t, v, j) {
      assert !MaskAt(v, j);
      MaskShifts(a, v, b, j);
      NoMaskThere(t, v, j, k);
    }
    MasksAt(a, v, b);
    Shorter(b, v);
    AroundMask(v, k);
    assert OccursAt(a + (MASK + b), v, 0);
  }

  lemma UncleanStays(v: string) returns (t: string)
    requires !Clean(v)
    ensures Occurs(Replace(t, v), v)
  {
    if v == "" {
      t := "";
      assert OccursAt(t, v, 0);
    } else if v[0] == '*' {
      t := LeadingStar(v);
    } else if v[|v| - 1] == '*' {
      t := TrailingStar(v);
    } else {
      var i :| 0 <= i < |v| && MaskAt(v, i);
      t := InnerMask(v, i);
    }
  }

  /** A secret never shows in a masked text, whatever the text and whatever else is masked,
      exactly if it is clean; for one that is not, some text fails even with nothing else. */
  lemma CompleteIff(v: string)
    ensures StaysMasked(v) <==> Clean(v)
    ensures Clean(v) <==> forall t :: !Occurs(Replace(t, v), v)
  {
    if Clean(v) {
      forall t, order | v in order ensures !Occurs(RedactAll(t, order), v) { AllRemoved(t, order, v); }
      forall t ensures !Occurs(Replace(t, v), v) { OneMask(t, v); }
    } else {
      var t := UncleanStays(v);
      OneMask(t, v);
      assert v in [v];
    }
  }

  lemma OneMask(t: string, v: string)
    ensures RedactAll(t, [v]) == Replace(t, v)
    ensures Clean(v) ==> !Occurs(Replace(t, v), v)
  {
    assert RedactAll(t, [v]) == RedactAll(Replace(t, v), []);
    if Clean(v) { AllRemoved(t, [v], v); }
  }

  // ---- Which secrets can appear ---------------------------------------------------------------

  /** Masking `w` puts `v` where there was none. */
  ghost predicate Appears(t: string, w: string, v: string) {
    |w| >= 6 && w != v && !Occurs(t, v) && Occurs(Replace(t, w), v)
  }

  function Filler(c: char, n: nat): (w: string)
    ensures |w| == n && forall i :: 0 <= i < n ==> w[i] == c
  {
    seq(n, _ => c)
  }

  lemma LateOccurrence(v: string, a: string, w: string, b: string, j: nat)
    requires v != "" && |b| < |v| && |a| <= j && forall i :: 0 <= i < |w| ==> w[i] != v[0]
    ensures !OccursAt(a + w + b, v, j)
  {
    InOccurrence(a + w + b, v, j, 0);
    if j < |a| + |w| { assert (a + w + b)[j] == w[j - |a|]; }
  }

  lemma FillerFirst(a: string, c: char, n: nat, b: string, j: nat)
    requires j < |a| < j + n && a[|a| - 1] != c
    ensures !OccursAt(a + Filler(c, n) + b, Filler(c, n), j)
  {
    InOccurrence(a + Filler(c, n) + b, Filler(c, n), j, |a| - 1 - j);
  }

  /** A secret that shows around a mask shows where another one has been masked. */
  lemma AppearsAround(v: string, a: string, b: string, i: nat, c: char, w: string)
    requires v != "" && |a| < |v| && |b| < |v| && OccursAt(a + (MASK + b), v, i)
    requires c != v[0] && (a == "" || a[|a| - 1] != c) && w == Filler(c, |v| + 6)
    requires forall j :: 0 <= j < |a| ==> !OccursAt(a + w + b, v, j)
    ensures !Occurs(a + w + b, v) && Occurs(Replace(a + w + b, w), v)
  {
    forall j: nat ensures !OccursAt(a + w + b, v, j) {
      if j >= |a| { LateOccurrence(v, a, w, b, j); }
    }
    forall j | 0 <= j < |a| ensures !OccursAt(a + w + b, w, j) { FillerFirst(a, c, |v| + 6, b, j); }
    MasksAt(a, w, b);
    Shorter(b, w);
  }

  lemma StarAppears(v: string, c: char) returns (a: string, b: string)
    requires v != "" && (v[0] == '*' || v[|v| - 1] == '*') && c != '*' && c != v[0]
    requires |v| > 1 ==> c != v[|v| - 2]
    ensures var w := Filler(c, |v| + 6); !Occurs(a + w + b, v) && Occurs(Replace(a + w + b, w), v)
  {
    var w := Filler(c, |v| + 6);
    if v[0] == '*' {
      a, b := "", v[1..];
      assert OccursAt(a + (MASK + b), v, 2);
      AppearsAround(v, a, b, 2, c, w);
    } else {
      a, b := v[..|v| - 1], "";
      forall j | 0 <= j < |a| ensures !OccursAt(a + w + b, v, j) {
        InOccurrence(a + w + b, v, j, |v| - 1);
        assert (a + w + b)[j + |v| - 1] == w[j];
      }
      assert OccursAt(a + (MASK + b), v, 0);
      AppearsAround(v, a, b, 0, c, w);
    }
  }

  /** Before the end of the filler there is no mask. */
  lemma NoMaskBefore(a: string, w: string, b: string, i: nat)
    requires (forall j :: 0 <= j < |a| ==> !MaskAt(a, j)) && (forall j :: 0 <= j < |w| ==> w[j] != '*')
    requires i + 3 <= |a| + |w|
    ensures !MaskAt(a + w + b, i)
  {
    var t := a + w + b;
    if i + 3 <= |a| {
      assert t[i] == a[i] && t[i + 1] == a[i + 1] && t[i + 2] == a[i + 2] && !MaskAt(a, i);
    } else {
      assert t[i + 2] == w[i + 2 - |a|];
    }
  }

  lemma MaskAppears(v: string, k: nat, c: char) returns (a: string, b: string)
    requires MaskAt(v, k) && (forall j :: 0 <= j < k ==> !MaskAt(v, j)) && v[0] != '*'
    requires c != '*' && c != v[0] && c != v[k - 1]
    ensures var w := Filler(c, |v| + 6); !Occurs(a + w + b, v) && Occurs(Replace(a + w + b, w), v)
  {
    var w := Filler(c, |v| + 6);
    a, b := v[..k], v[k + 3..];
    forall j | 0 <= j < |a| ensures !MaskAt(a, j) { assert !MaskAt(v, j); }
    forall j | 0 <= j < |a| ensures !OccursAt(a + w + b, v, j) {
      NoMaskBefore(a, w, b, j + k);
      NoMaskThere(a + w + b, v, j, k);
    }
    AroundMask(v, k);
    assert OccursAt(a + (MASK + b), v, 0);
    AppearsAround(v, a, b, 0, c, w);
  }

  lemma OtherThan(x: char, y: char) returns (c: char)
    ensures c != '*' && c != x && c != y
  {
    c := if 'a' != x && 'a' != y then 'a' else if 'b' != x && 'b' != y then 'b' else 'c';
  }

  lemma UncleanAppears(v: string) returns (t: string, w: string)
    requires v != "" && !Clean(v)
    ensures Appears(t, w, v)
  {
    var c, a, b;
    if v[0] == '*' || v[|v| - 1] == '*' {
      c := OtherThan(v[0], if |v| > 1 then v[|v| - 2] else v[0]);
      a, b := StarAppears(v, c);
    } else {
      var i :| 0 <= i < |v| && MaskAt(v, i);
      var k := FirstMask(v, i);
      c := OtherThan(v[0], v[k - 1]);
      a, b := MaskAppears(v, k, c);
    }
    w := Filler(c, |v| + 6);
    t := a + w + b;
    assert |w| > |v|;
  }

  /** Masking one secret can make another appear that was not there exactly if that is not
      clean. */
  lemma AppearsIff(v: string)
    requires v != ""
    ensures (exists t, w :: Appears(t, w, v)) <==> !Clean(v)
  {
    if Clean(v) {
      forall t, w | Appears(t, w, v) ensures false {
        var i: nat :| OccursAt(Replace(t, w), v, i);
        ReplaceAddsNone(t, w, v, i);
      }
    } else {
      var t, w := UncleanAppears(v);
    }
  }

  // ---- Idempotent ----------------------------------------------------------------------------

  lemma {:induction false} NothingToReplace(t: string, v: string)
    requires v != "" && !Occurs(t, v)
    ensures Replace(t, v) == t
    decreases |t|
  {
    if |t| >= |v| {
      assert StartsWith(t, v) <==> OccursAt(t, v, 0);
      if i: nat :| OccursAt(t[1..], v, i) { ShiftOccurrence(t, v, 1, i); }
      NothingToReplace(t[1..], v);
      assert t == [t[0]] + t[1..];
    }
  }

  lemma {:induction false} NothingToRedact(t: string, order: seq<string>)
    requires forall v :: v in order ==> v != "" && !Occurs(t, v)
    ensures RedactAll(t, order) == t
    decreases |order|
  {
    if order != [] {
      assert order[0] in order && forall v :: v in order[1..] ==> v in order;
      NothingToReplace(t, order[0]);
      NothingToRedact(t, order[1..]);
    }
  }

  /** Idempotent, also if the secrets are taken in another order the second time. */
  lemma Idempotent(t: string, order: seq<string>, again: seq<string>)
    requires forall v :: v in again ==> Clean(v) && v in order
    ensures RedactAll(RedactAll(t, order), again) == RedactAll(t, order)
  {
    forall v | v in again ensures !Occurs(RedactAll(t, order), v) { AllRemoved(t, order, v); }
    NothingToRedact(RedactAll(t, order), again);
  }

  /** Masking something longer than a mask makes the text shorter. */
  lemma {:induction false} Shrinks(t: string, v: string)
    requires |v| > |MASK|
    ensures |Replace(t, v)| <= |t| && (Occurs(t, v) ==> |Replace(t, v)| < |t|)
    decreases |t|
  {
    if |t| >= |v| {
      if StartsWith(t, v) {
        Shrinks(t[|v|..], v);
      } else {
        Shrinks(t[1..], v);
        if i: nat :| OccursAt(t, v, i) {
          assert i > 0;
          ShiftOccurrence(t, v, 1, i - 1);
          assert Occurs(t[1..], v);
        }
      }
    }
  }

  /** ... and for no others: a second pass changes nothing, for all texts, exactly if the
      secret is clean. */
  lemma IdempotentIff(v: string)
    requires |v| >= 6
    ensures (forall t :: Replace(Replace(t, v), v) == Replace(t, v)) <==> Clean(v)
  {
    if Clean(v) {
      forall t ensures Replace(Replace(t, v), v) == Replace(t, v) {
        OneMask(t, v);
        NothingToReplace(Replace(t, v), v);
      }
    } else {
      var t := UncleanStays(v);
      Shrinks(Replace(t, v), v);
      assert Replace(Replace(t, v), v) != Replace(t, v);
    }
  }

  // ---- Minimal -------------------------------------------------------------------------------

  /** The result, by where its parts come from. */
  datatype Piece = Char(c: char) | Secret(value: string)

  function Source(p: Piece): string {
    if p.Char? then [p.c] else p.value
  }

  function Face(p: Piece): string {
    if p.Char? then [p.c] else MASK
  }

  function Original(ps: seq<Piece>): string {
    if ps == [] then "" else Source(ps[0]) + Original(ps[1..])
  }

  function Shown(ps: seq<Piece>): string {
    if ps == [] then "" else Face(ps[0]) + Shown(ps[1..])
  }

  function Chars(t: string): (ps: seq<Piece>)
    ensures |ps| == |t| && forall i :: 0 <= i < |t| ==> ps[i] == Char(t[i])
  {
    seq(|t|, i requires 0 <= i < |t| => Char(t[i]))
  }

  predicate Spells(ps: seq<Piece>, v: string) {
    |v| <= |ps| && forall i :: 0 <= i < |v| ==> ps[i] == Char(v[i])
  }

  lemma SpellsChars(ps: seq<Piece>, v: string)
    requires Spells(ps, v)
    ensures ps[..|v|] == Chars(v) && ps == Chars(v) + ps[|v|..]
  {
  }

  function ReplacePieces(ps: seq<Piece>, v: string): seq<Piece>
    decreases |ps|
  {
    if v == "" || ps == [] then ps
    else if Spells(ps, v) then [Secret(v)] + ReplacePieces(ps[|v|..], v)
    else [ps[0]] + ReplacePieces(ps[1..], v)
  }

  function RedactPieces(ps: seq<Piece>, order: seq<string>): seq<Piece>
    decreases |order|
  {
    if order == [] then ps else RedactPieces(ReplacePieces(ps, order[0]), order[1..])
  }

  lemma StartShifts(c: char, rest: string, v: string)
    requires v != ""
    ensures StartsWith([c] + rest, v) <==> v[0] == c && StartsWith(rest, v[1..])
  {
  }

  lemma SpellShifts(ps: seq<Piece>, v: string)
    requires ps != [] && v != ""
    ensures Spells(ps, v) <==> ps[0] == Char(v[0]) && Spells(ps[1..], v[1..])
  {
  }

  lemma {:induction false} PiecesSpell(ps: seq<Piece>, v: string)
    requires Solid(v)
    ensures Spells(ps, v) <==> StartsWith(Shown(ps), v)
    decreases |v|
  {
    if v != "" && ps != [] {
      SpellShifts(ps, v);
      if ps[0].Char? {
        SolidTail(v, 1);
        PiecesSpell(ps[1..], v[1..]);
        StartShifts(ps[0].c, Shown(ps[1..]), v);
      } else {
        NotAtMask(v, Shown(ps[1..]));
      }
    }
  }

  lemma {:induction false} OriginalSplit(ps: seq<Piece>, qs: seq<Piece>)
    ensures Original(ps + qs) == Original(ps) + Original(qs)
    decreases |ps|
  {
    if ps == [] {
      assert ps + qs == qs;
    } else {
      assert (ps + qs)[0] == ps[0] && (ps + qs)[1..] == ps[1..] + qs;
      OriginalSplit(ps[1..], qs);
      assert (Source(ps[0]) + Original(ps[1..])) + Original(qs) == Source(ps[0]) + (Original(ps[1..]) + Original(qs));
    }
  }

  lemma {:induction false} ShownSplit(ps: seq<Piece>, qs: seq<Piece>)
    ensures Shown(ps + qs) == Shown(ps) + Shown(qs)
    decreases |ps|
  {
    if ps == [] {
      assert ps + qs == qs;
    } else {
      assert (ps + qs)[0] == ps[0] && (ps + qs)[1..] == ps[1..] + qs;
      ShownSplit(ps[1..], qs);
      assert (Face(ps[0]) + Shown(ps[1..])) + Shown(qs) == Face(ps[0]) + (Shown(ps[1..]) + Shown(qs));
    }
  }

  lemma {:induction false} CharsAre(t: string)
    ensures Original(Chars(t)) == t && Shown(Chars(t)) == t
    decreases |t|
  {
    if t != "" {
      assert Chars(t)[1..] == Chars(t[1..]);
      CharsAre(t[1..]);
    }
  }

  /** Stars of a mask are never taken for a secret. */
  lemma MaskPasses(t: string, v: string)
    requires Clean(v)
    ensures Replace(MASK + t, v) == MASK + Replace(t, v)
  {
    var s0, s1, s2 := "***" + t, "**" + t, "*" + t;
    assert !StartsWith(s0, v) && !StartsWith(s1, v) && !StartsWith(s2, v) by {
      if |v| <= |s0| { assert s0[..|v|][0] == '*'; }
      if |v| <= |s1| { assert s1[..|v|][0] == '*'; }
      if |v| <= |s2| { assert s2[..|v|][0] == '*'; }
    }
    assert s0[1..] == s1 && s1[1..] == s2 && s2[1..] == t;
    Emits(s2, v);
    Emits(s1, v);
    Emits(s0, v);
  }

  lemma Emits(t: string, v: string)
    requires v != "" && t != "" && !StartsWith(t, v)
    ensures Replace(t, v) == [t[0]] + Replace(t[1..], v)
  {
  }

  /** Replacing in the pieces is replacing in what they show, and what they came from stays. */
  lemma {:induction false} PiecesFollow(ps: seq<Piece>, v: string)
    requires Clean(v)
    ensures Shown(ReplacePieces(ps, v)) == Replace(Shown(ps), v)
    ensures Original(ReplacePieces(ps, v)) == Original(ps)
    decreases |ps|
  {
    if ps != [] {
      PiecesSpell(ps, v);
      if Spells(ps, v) {
        var rest := ps[|v|..];
        SpellsChars(ps, v);
        OriginalSplit(Chars(v), rest);
        ShownSplit(Chars(v), rest);
        CharsAre(v);
        assert Shown(ps)[|v|..] == Shown(rest);
        PiecesFollow(rest, v);
      } else {
        PiecesFollow(ps[1..], v);
        if ps[0].Char? {
          Emits(Shown(ps), v);
          assert Shown(ps)[1..] == Shown(ps[1..]);
        } else {
          MaskPasses(Shown(ps[1..]), v);
        }
      }
    }
  }

  ghost predicate Secrets(ps: seq<Piece>, values: set<string>) {
    forall i :: 0 <= i < |ps| && ps[i].Secret? ==> ps[i].value in values
  }

  lemma {:induction false} SecretsOnly(ps: seq<Piece>, v: string, values: set<string>)
    requires v != "" && v in values && Secrets(ps, values)
    ensures Secrets(ReplacePieces(ps, v), values)
    decreases |ps|
  {
    if ps != [] { SecretsOnly(if Spells(ps, v) then ps[|v|..] else ps[1..], v, values); }
  }

  lemma {:induction false} RedactFollows(ps: seq<Piece>, order: seq<string>, values: set<string>)
    requires (forall v :: v in order ==> Clean(v) && v in values) && Secrets(ps, values)
    ensures var qs := RedactPieces(ps, order);
      Shown(qs) == RedactAll(Shown(ps), order) && Original(qs) == Original(ps) && Secrets(qs, values)
    decreases |order|
  {
    if order != [] {
      PiecesFollow(ps, order[0]);
      SecretsOnly(ps, order[0], values);
      RedactFollows(ReplacePieces(ps, order[0]), order[1..], values);
    }
  }

  /** Minimal: the result is the text with some occurrences of secrets, which do not
      overlap, masked one by one, and with every other character in its place. */
  lemma Minimal(t: string, order: seq<string>, values: set<string>) returns (ps: seq<Piece>)
    requires forall v :: v in order ==> Clean(v) && v in values
    ensures Original(ps) == t && Shown(ps) == RedactAll(t, order) && Secrets(ps, values)
  {
    ps := RedactPieces(Chars(t), order);
    CharsAre(t);
    RedactFollows(Chars(t), order, values);
  }

  // ---- Longest first --------------------------------------------------------------------------

  predicate LongestFirst(order: seq<string>) {
    forall i, j :: 0 <= i < j < |order| ==> |order[i]| >= |order[j]|
  }

  predicate Overlap(j: nat, m: nat, i: nat, n: nat) {
    j < i + n && i < j + m
  }

  /** No secret as long as `v`, nor `v` itself, occurs anywhere across this occurrence. */
  ghost predicate Isolated(t: string, order: seq<string>, v: string, i: nat) {
    && OccursAt(t, v, i)
    && forall w, j: nat :: w in order && |w| >= |v| && OccursAt(t, w, j) && Overlap(j, |w|, i, |v|) ==> w == v && j == i
  }

  predicate SpellsAt(ps: seq<Piece>, k: int, w: string) {
    0 <= k <= |ps| && Spells(ps[k..], w)
  }

  /** Where the pieces spell `w`, they do so before `lo`, from `hi` on, or, if `same`, at `lo`. */
  ghost predicate Avoids(ps: seq<Piece>, w: string, lo: int, hi: int, same: bool) {
    forall k :: SpellsAt(ps, k, w) ==> (same && k == lo) || k + |w| <= lo || k >= hi
  }

  lemma AvoidsTail(ps: seq<Piece>, w: string, lo: int, hi: int, same: bool, d: nat)
    requires Avoids(ps, w, lo, hi, same) && d <= |ps|
    ensures Avoids(ps[d..], w, lo - d, hi - d, same)
  {
    forall k | SpellsAt(ps[d..], k, w)
      ensures (same && k == lo - d) || k + |w| <= lo - d || k >= hi - d
    {
      assert ps[d..][k..] == ps[k + d..];
      assert SpellsAt(ps, k + d, w);
    }
  }

  /** A run of characters that no match touches passes unchanged. */
  lemma {:induction false} PassRun(v: string, c: seq<Piece>, w: string)
    requires w != "" && Avoids(Chars(v) + c, w, 0, |v|, false)
    ensures ReplacePieces(Chars(v) + c, w) == Chars(v) + ReplacePieces(c, w)
    decreases |v|
  {
    var ps := Chars(v) + c;
    if v == "" {
      assert ps == c;
      assert Chars(v) + ReplacePieces(c, w) == ReplacePieces(c, w);
    } else {
      assert ps[0..] == ps && !SpellsAt(ps, 0, w);
      assert ps[1..] == Chars(v[1..]) + c && ps[0] == Char(v[0]);
      AvoidsTail(ps, w, 0, |v|, false, 1);
      assert Avoids(ps[1..], w, 0, |v[1..]|, false);
      PassRun(v[1..], c, w);
      assert Chars(v) == [Char(v[0])] + Chars(v[1..]);
    }
  }

  lemma SplitLength(ps: seq<Piece>, n: nat)
    requires n <= |ps|
    ensures |Original(ps)| == |Original(ps[..n])| + |Original(ps[n..])|
  {
    assert ps == ps[..n] + ps[n..];
    OriginalSplit(ps[..n], ps[n..]);
  }

  lemma TakeMatch(a: seq<Piece>, rest: seq<Piece>, w: string)
    requires Spells(a + rest, w) && |w| <= |a|
    ensures |Original(a)| == |w| + |Original(a[|w|..])|
    ensures (a + rest)[|w|..] == a[|w|..] + rest
  {
    SpellsChars(a, w);
    CharsAre(w);
    SplitLength(a, |w|);
  }

  /** What replacing `w` makes of a run that spells `v` and that nothing else touches. */
  function Masked(v: string, w: string): seq<Piece> {
    if w == v then [Secret(v)] else Chars(v)
  }

  lemma RunAtHead(v: string, c: seq<Piece>, w: string)
    requires v != "" && w != "" && Avoids(Chars(v) + c, w, 0, |v|, w == v)
    ensures ReplacePieces(Chars(v) + c, w) == Masked(v, w) + ReplacePieces(c, w)
  {
    var ps := Chars(v) + c;
    if w == v {
      assert ps[..|v|] == Chars(v) && ps[|v|..] == c;
    } else {
      PassRun(v, c, w);
    }
  }

  /** One step of the replacement, before the run. */
  lemma StepToRun(
    a: seq<Piece>, run: seq<Piece>, w: string, lo: int, hi: int, same: bool)
    returns (done: seq<Piece>, rest: seq<Piece>)
    requires a != [] && w != "" && lo == |a| && hi > lo && Avoids(a + run, w, lo, hi, same)
    ensures |rest| < |a| && |Original(a)| == |Original(done)| + |Original(rest)|
    ensures ReplacePieces(a + run, w) == done + ReplacePieces(rest + run, w)
    ensures Avoids(rest + run, w, |rest|, hi - lo + |rest|, same)
  {
    var ps := a + run;
    assert ps[0..] == ps;
    if Spells(ps, w) {
      assert SpellsAt(ps, 0, w);
      TakeMatch(a, run, w);
      AvoidsTail(ps, w, lo, hi, same, |w|);
      done, rest := [Secret(w)], a[|w|..];
    } else {
      assert ps[1..] == a[1..] + run;
      AvoidsTail(ps, w, lo, hi, same, 1);
      done, rest := [a[0]], a[1..];
      assert a == done + rest;
      OriginalSplit(done, rest);
    }
  }

  lemma Regroup<T>(a: seq<T>, b: seq<T>, c: seq<T>)
    ensures a + (b + c) == (a + b) + c
  {
  }

  /** What comes before the run is replaced by itself. */
  lemma {:induction false} BeforeRun(
    a: seq<Piece>, run: seq<Piece>, w: string, lo: int, hi: int, same: bool)
    returns (a': seq<Piece>)
    requires w != "" && lo == |a| && hi > lo && Avoids(a + run, w, lo, hi, same)
    ensures ReplacePieces(a + run, w) == a' + ReplacePieces(run, w) && |Original(a')| == |Original(a)|
    decreases |a|
  {
    var tail := ReplacePieces(run, w);
    if a == [] {
      a' := [];
      assert a + run == run && a' + tail == tail;
    } else {
      var done, rest := StepToRun(a, run, w, lo, hi, same);
      var b := BeforeRun(rest, run, w, |rest|, hi - lo + |rest|, same);
      a' := done + b;
      OriginalSplit(done, b);
      Regroup(done, b, tail);
    }
  }

  /** Replacing `w` masks an untouched run that spells it, and leaves another as it is. */
  lemma KeepsRun(a: seq<Piece>, v: string, c: seq<Piece>, w: string) returns (a': seq<Piece>, c': seq<Piece>)
    requires v != "" && w != "" && Avoids(a + (Chars(v) + c), w, |a|, |a| + |v|, w == v)
    ensures ReplacePieces(a + (Chars(v) + c), w) == a' + (Masked(v, w) + c')
    ensures |Original(a')| == |Original(a)|
  {
    var run := Chars(v) + c;
    AvoidsTail(a + run, w, |a|, |a| + |v|, w == v, |a|);
    assert (a + run)[|a|..] == run;
    RunAtHead(v, c, w);
    a' := BeforeRun(a, run, w, |a|, |a| + |v|, w == v);
    c' := ReplacePieces(c, w);
  }

  /** A masked secret stays masked. */
  lemma {:induction false} KeepsMask(
    a: seq<Piece>, v: string, c: seq<Piece>, w: string)
    returns (a': seq<Piece>, c': seq<Piece>)
    ensures ReplacePieces(a + ([Secret(v)] + c), w) == a' + ([Secret(v)] + c')
    ensures |Original(a')| == |Original(a)|
    decreases |a|
  {
    var ps := a + ([Secret(v)] + c);
    assert ps[|a|] == Secret(v);
    if w == "" {
      a', c' := a, c;
    } else if a == [] {
      a', c' := [], ReplacePieces(c, w);
      assert ps == [Secret(v)] + c && ps[1..] == c;
    } else if Spells(ps, w) {
      TakeMatch(a, [Secret(v)] + c, w);
      a', c' := KeepsMask(a[|w|..], v, c, w);
      a' := [Secret(w)] + a';
    } else {
      assert ps[1..] == a[1..] + ([Secret(v)] + c);
      var b;
      b, c' := KeepsMask(a[1..], v, c, w);
      a' := [a[0]] + b;
      assert a'[1..] == b;
    }
  }

  lemma MatchOccurs(ps: seq<Piece>, k: nat, w: string)
    requires k <= |ps| && Spells(ps[k..], w)
    ensures OccursAt(Original(ps), w, |Original(ps[..k])|)
  {
    var rest := ps[k..];
    assert ps == ps[..k] + rest;
    SpellsChars(rest, w);
    OriginalSplit(ps[..k], rest);
    OriginalSplit(Chars(w), rest[|w|..]);
    CharsAre(w);
  }

  lemma CharsSlice(w: string, n: nat)
    requires n <= |w|
    ensures Chars(w)[..n] == Chars(w[..n]) && |Original(Chars(w)[..n])| == n
  {
    CharsAre(w[..n]);
  }

  /** A match that starts within the run starts as far into the occurrence. */
  lemma MatchWithin(a: seq<Piece>, v: string, c: seq<Piece>, k: nat)
    requires |a| <= k <= |a| + |v|
    ensures |Original((a + (Chars(v) + c))[..k])| == |Original(a)| + (k - |a|)
  {
    assert (a + (Chars(v) + c))[..k] == a + Chars(v)[..k - |a|];
    OriginalSplit(a, Chars(v)[..k - |a|]);
    CharsSlice(v, k - |a|);
  }

  /** A match that reaches into the run from before starts as far before the occurrence. */
  lemma MatchBefore(a: seq<Piece>, run: seq<Piece>, k: nat, w: string)
    requires k < |a| < k + |w| && k + |w| <= |a + run| && Spells((a + run)[k..], w)
    ensures |Original(a)| == |Original((a + run)[..k])| + (|a| - k)
  {
    assert (a + run)[..k] == a[..k];
    assert a[k..] == Chars(w)[..|a| - k] by {
      forall i | 0 <= i < |a| - k ensures a[k..][i] == Chars(w)[i] { assert (a + run)[k..][i] == a[k..][i]; }
    }
    CharsSlice(w, |a| - k);
    SplitLength(a, k);
  }

  /** Around an isolated occurrence nothing as long is replaced. */
  lemma IsolatedAvoids(t: string, order: seq<string>, v: string, i: nat, a: seq<Piece>, c: seq<Piece>, w: string)
    requires Isolated(t, order, v, i) && w in order && |w| >= |v| && w != ""
    requires Original(a + (Chars(v) + c)) == t && |Original(a)| == i
    ensures Avoids(a + (Chars(v) + c), w, |a|, |a| + |v|, w == v)
  {
    var ps := a + (Chars(v) + c);
    forall k | SpellsAt(ps, k, w)
      ensures (w == v && k == |a|) || k + |w| <= |a| || k >= |a| + |v|
    {
      MatchOccurs(ps, k, w);
      if k + |w| > |a| && k < |a| + |v| {
        if k >= |a| { MatchWithin(a, v, c, k); } else { MatchBefore(a, Chars(v) + c, k, w); }
        assert Overlap(|Original(ps[..k])|, |w|, i, |v|);
      }
    }
  }

  lemma {:induction false} MaskStays(
    a: seq<Piece>, v: string, c: seq<Piece>, order: seq<string>)
    returns (a': seq<Piece>, c': seq<Piece>)
    ensures RedactPieces(a + ([Secret(v)] + c), order) == a' + ([Secret(v)] + c')
    ensures |Original(a')| == |Original(a)|
    decreases |order|
  {
    a', c' := a, c;
    if order != [] {
      a', c' := KeepsMask(a, v, c, order[0]);
      a', c' := MaskStays(a', v, c', order[1..]);
    }
  }

  lemma {:induction false} RunMasked(
    t: string, all: seq<string>, order: seq<string>, v: string, i: nat, a: seq<Piece>, c: seq<Piece>)
    returns (a': seq<Piece>, c': seq<Piece>)
    requires Isolated(t, all, v, i) && LongestFirst(order) && v in order
    requires forall w :: w in order ==> w in all && Clean(w)
    requires Original(a + (Chars(v) + c)) == t && |Original(a)| == i
    ensures RedactPieces(a + (Chars(v) + c), order) == a' + ([Secret(v)] + c')
    ensures |Original(a')| == i
    decreases |order|
  {
    var w := order[0];
    assert w in order && |w| >= |v|;
    IsolatedAvoids(t, all, v, i, a, c, w);
    a', c' := KeepsRun(a, v, c, w);
    if w == v {
      a', c' := MaskStays(a', v, c', order[1..]);
    } else {
      PiecesFollow(a + (Chars(v) + c), w);
      assert forall x :: x in order[1..] ==> x in order;
      a', c' := RunMasked(t, all, order[1..], v, i, a', c');
    }
  }

  lemma ThreeParts(x: string, y: string, z: string)
    ensures (x + (y + z))[..|x|] == x && (x + (y + z))[|x| + |y|..] == z
  {
  }

  lemma AroundSecret(before: seq<Piece>, v: string, after: seq<Piece>)
    ensures Original(before + ([Secret(v)] + after)) == Original(before) + (v + Original(after))
    ensures Shown(before + ([Secret(v)] + after)) == Shown(before) + (MASK + Shown(after))
  {
    var tail := [Secret(v)] + after;
    assert tail[0] == Secret(v) && tail[1..] == after;
    OriginalSplit(before, tail);
    ShownSplit(before, tail);
  }

  lemma CutOut(t: string, v: string, i: nat)
    requires OccursAt(t, v, i)
    ensures Chars(t) == Chars(t[..i]) + (Chars(v) + Chars(t[i + |v|..]))
  {
  }

  /** Why the longest secrets go first: an occurrence that nothing as long overlaps is
      masked as a whole, so that no shorter secret inside it can leave its ends behind. */
  lemma WhollyMasked(t: string, order: seq<string>, v: string, i: nat) returns (before: seq<Piece>, after: seq<Piece>)
    requires LongestFirst(order) && (forall w :: w in order ==> Clean(w)) && v in order && Isolated(t, order, v, i)
    ensures Original(before) == t[..i] && Original(after) == t[i + |v|..]
    ensures RedactAll(t, order) == Shown(before) + (MASK + Shown(after))
  {
    CutOut(t, v, i);
    CharsAre(t);
    CharsAre(t[..i]);
    before, after := RunMasked(t, order, order, v, i, Chars(t[..i]), Chars(t[i + |v|..]));
    RedactFollows(Chars(t), order, set w | w in order);
    AroundSecret(before, v, after);
    ThreeParts(Original(before), v, Original(after));
  }

  // ---- The registry ------------------------------------------------------------------------------

  lemma {:induction false} LongestExists(values: set<string>)
    requires values != {}
    ensures exists v :: v in values && forall w :: w in values ==> |w| <= |v|
  {
    var v :| v in values;
    var rest := values - {v};
    if rest != {} {
      LongestExists(rest);
      var u :| u in rest && forall w :: w in rest ==> |w| <= |u|;
      assert values == rest + {v};
      if |u| < |v| {
        assert forall w :: w in values ==> |w| <= |v|;
      } else {
        assert u in values && forall w :: w in values ==> |w| <= |u|;
      }
    } else {
      assert values == {v};
    }
  }

  lemma {:induction false} RedactLast(t: string, order: seq<string>, v: string)
    ensures RedactAll(t, order + [v]) == Replace(RedactAll(t, order), v)
    decreases |order|
  {
    if order != [] {
      assert (order + [v])[1..] == order[1..] + [v];
      RedactLast(Replace(t, order[0]), order[1..], v);
    } else {
      assert order + [v] == [v];
      assert RedactAll(t, [v]) == RedactAll(Replace(t, v), []);
    }
  }

  /** `order` lists the registered values, longest first; values of one length may come in
      any order. */
  ghost predicate Lists(order: seq<string>, values: set<string>) {
    LongestFirst(order) && forall v :: v in order <==> v in values
  }

  class SecretRegistry {
    var values: set<string>

    constructor ()
      ensures Valid() && values == {}
    {
      values := {};
    }

    ghost predicate Valid()
      reads this
    {
      forall v :: v in values ==> |v| >= 6
    }

    /** Remember a value; short ones are ignored. */
    method RegisterSecret(value: Option<string>)
      requires Valid()
      modifies this
      ensures Valid()
      ensures values == old(values) + if value.Some? && |value.value| >= 6 then {value.value} else {}
    {
      if value.Some? && |value.value| >= SHORTEST {
        values := values + {value.value};
      }
    }

    method Sorted() returns (order: seq<string>)
      ensures Lists(order, values)
    {
      order := [];
      var rest := values;
      while rest != {}
        invariant rest <= values && LongestFirst(order)
        invariant forall v :: v in order <==> v in values && v !in rest
        invariant forall v, w :: v in order && w in rest ==> |v| >= |w|
      {
        LongestExists(rest);
        var v :| v in rest && forall w :: w in rest ==> |w| <= |v|;
        order, rest := order + [v], rest - {v};
      }
    }

    /** The text with every registered secret masked: no clean secret, whatever else is
        registered, shows in it or in any part of it that may be sent. */
    method Redact(text: string) returns (r: string, ghost order: seq<string>)
      requires Valid()
      ensures Lists(order, values) && r == RedactAll(text, order)
      ensures forall v, n: nat :: v in values && Clean(v) && n <= |r| ==> !Occurs(r[..n], v)
    {
      var sorted := Sorted();
      order := sorted;
      r := text;
      for i := 0 to |sorted|
        invariant r == RedactAll(text, sorted[..i])
      {
        RedactLast(text, sorted[..i], sorted[i]);
        assert sorted[..i + 1] == sorted[..i] + [sorted[i]];
        r := Replace(r, sorted[i]);
      }
      assert sorted[..|sorted|] == sorted;
      forall v, n: nat | v in values && Clean(v) && n <= |r| ensures !Occurs(r[..n], v) {
        Complete(text, order, v, n);
      }
    }
  }
}

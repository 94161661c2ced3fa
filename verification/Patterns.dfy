/** Searching a growing text for a fixed list of patterns: what `str.find`, the
    "longest held-back suffix" and the earliest match have in common.

    `Compatible(text, i, pat)` says that `pat` may still turn out to stand at `i` once
    more text arrives. Its failure is stable under extension, which is why a streaming
    filter may release everything before the first compatible position.  */
module Patterns {

  datatype Option<+T> = None | Some(value: T)

  function Max(a: nat, b: nat): nat { if a < b then b else a }

  predicate OccursAt(text: string, i: int, pat: string) {
    0 <= i && i + |pat| <= |text| && text[i..i + |pat|] == pat
  }

  predicate AnyAt(text: string, i: int, pats: seq<string>) {
    exists s | s in pats :: OccursAt(text, i, s)
  }

  predicate Contains(text: string, pats: seq<string>) {
    exists i | 0 <= i <= |text| :: AnyAt(text, i, pats)
  }

  /** `text[i..]` and `pat` agree as far as both go. */
  predicate Compatible(text: string, i: int, pat: string) {
    0 <= i <= |text| && (text[i..] <= pat || pat <= text[i..])
  }

  predicate AnyCompatible(text: string, i: int, pats: seq<string>) {
    exists s | s in pats :: Compatible(text, i, s)
  }

  /** Least position from `i` on at which some pattern stands. */
  function EarliestFrom(text: string, pats: seq<string>, i: nat): Option<nat>
    requires i <= |text|
    decreases |text| - i
  {
    if AnyAt(text, i, pats) then Some(i)
    else if i == |text| then None
    else EarliestFrom(text, pats, i + 1)
  }

  function Earliest(text: string, pats: seq<string>): Option<nat> {
    EarliestFrom(text, pats, 0)
  }

  /** Python's `text.find(pat, from)`. */
  function FindFrom(text: string, pat: string, from: nat): (r: Option<nat>)
    requires from <= |text|
    ensures r.Some? ==> from <= r.value && r.value + |pat| <= |text|
  {
    EarliestBounds(text, [pat], from);
    EarliestFrom(text, [pat], from)
  }

  function Find(text: string, pat: string): (r: Option<nat>)
    ensures r.Some? ==> r.value + |pat| <= |text|
  {
    FindFrom(text, pat, 0)
  }

  /** Least position from `i` on at which some pattern is still possible, else `|text|`. */
  function ScanFrom(text: string, pats: seq<string>, i: nat): (c: nat)
    requires i <= |text|
    ensures c <= |text|
    decreases |text| - i
  {
    if i == |text| || AnyCompatible(text, i, pats) then i else ScanFrom(text, pats, i + 1)
  }

  function Scan(text: string, pats: seq<string>): (c: nat)
    ensures c <= |text|
  {
    ScanFrom(text, pats, 0)
  }

  /** The first pattern of the list that stands at `i`. */
  function PickAt(text: string, i: int, pats: seq<string>): (s: string)
    requires AnyAt(text, i, pats)
    ensures s in pats && OccursAt(text, i, s)
  {
    if OccursAt(text, i, pats[0]) then pats[0]
    else
      assert AnyAt(text, i, pats[1..]) by {
        var s :| s in pats && OccursAt(text, i, s);
        assert s in pats[1..];
      }
      PickAt(text, i, pats[1..])
  }

  /** Where plain text ends: at the first position where a pattern is possible; with the
      pattern, if one stands there already. */
  function Locate(text: string, pats: seq<string>): (r: (nat, Option<string>))
    ensures r.0 <= |text|
    ensures r.1.Some? ==> r.1.value in pats && OccursAt(text, r.0, r.1.value)
  {
    var c := Scan(text, pats);
    (c, if AnyAt(text, c, pats) then Some(PickAt(text, c, pats)) else None)
  }

  // ---- what the searches mean ----

  lemma {:induction false} EarliestBounds(text: string, pats: seq<string>, i: nat)
    requires i <= |text|
    ensures EarliestFrom(text, pats, i).Some? ==>
              i <= EarliestFrom(text, pats, i).value <= |text| && AnyAt(text, EarliestFrom(text, pats, i).value, pats)
    decreases |text| - i
  {
    if !AnyAt(text, i, pats) && i < |text| { EarliestBounds(text, pats, i + 1); }
  }

  ghost predicate IsEarliest(text: string, pats: seq<string>, i: nat, r: Option<nat>) {
    match r
    case None => forall j | i <= j <= |text| :: !AnyAt(text, j, pats)
    case Some(e) => i <= e <= |text| && AnyAt(text, e, pats) && forall j | i <= j < e :: !AnyAt(text, j, pats)
  }

  lemma {:induction false} EarliestSpec(text: string, pats: seq<string>, i: nat, r: Option<nat>)
    requires i <= |text|
    ensures IsEarliest(text, pats, i, r) <==> r == EarliestFrom(text, pats, i)
    decreases |text| - i
  {
    if !AnyAt(text, i, pats) && i < |text| {
      EarliestSpec(text, pats, i + 1, r);
      assert IsEarliest(text, pats, i + 1, r) == IsEarliest(text, pats, i, r);
    }
  }

  ghost predicate IsScan(text: string, pats: seq<string>, i: nat, c: nat) {
    && i <= c <= |text|
    && (forall j | i <= j < c :: !AnyCompatible(text, j, pats))
    && (c < |text| ==> AnyCompatible(text, c, pats))
  }

  lemma {:induction false} ScanFromSpec(text: string, pats: seq<string>, i: nat, c: nat)
    requires i <= |text|
    ensures IsScan(text, pats, i, c) <==> c == ScanFrom(text, pats, i)
    decreases |text| - i
  {
    if !AnyCompatible(text, i, pats) && i < |text| {
      ScanFromSpec(text, pats, i + 1, c);
      assert IsScan(text, pats, i + 1, c) == IsScan(text, pats, i, c);
    }
  }

  lemma ScanSpec(text: string, pats: seq<string>)
    ensures IsScan(text, pats, 0, Scan(text, pats))
  {
    ScanFromSpec(text, pats, 0, Scan(text, pats));
  }

  lemma ScanIs(text: string, pats: seq<string>, c: nat)
    requires IsScan(text, pats, 0, c)
    ensures Scan(text, pats) == c
  {
    ScanFromSpec(text, pats, 0, c);
  }

  // ---- stability under extension and under dropping a prefix ----

  lemma CompatibleShrinks(text: string, more: string, i: nat, pat: string)
    requires i <= |text| && Compatible(text + more, i, pat)
    ensures Compatible(text, i, pat)
  {
    var whole := text + more;
    assert whole[i..] == text[i..] + more;
    if whole[i..] <= pat {
      assert text[i..] <= pat;
    } else if |pat| <= |text[i..]| {
      assert pat <= text[i..];
    } else {
      assert text[i..] <= pat;
    }
  }

  lemma OccursExtends(text: string, more: string, i: int, pat: string)
    requires 0 <= i && i + |pat| <= |text|
    ensures OccursAt(text + more, i, pat) == OccursAt(text, i, pat)
  {
    assert (text + more)[i..i + |pat|] == text[i..i + |pat|];
  }

  /** A slice of an occurrence is a slice of the text. */
  lemma SliceOfOccurrence(text: string, j: nat, part: string, i: nat, n: nat)
    requires OccursAt(text, j, part) && i + n <= |part|
    ensures text[j + i..j + i + n] == part[i..i + n]
  {
    var a, b := text[j + i..j + i + n], part[i..i + n];
    forall k | 0 <= k < |a|
      ensures a[k] == b[k]
    {
      assert part[i + k] == text[j..j + |part|][i + k];
    }
  }

  lemma OccursShifts(head: string, text: string, i: int, pat: string)
    requires 0 <= i
    ensures OccursAt(head + text, |head| + i, pat) == OccursAt(text, i, pat)
    ensures Compatible(head + text, |head| + i, pat) == Compatible(text, i, pat)
  {
    if i + |pat| <= |text| {
      assert (head + text)[|head| + i..|head| + i + |pat|] == text[i..i + |pat|];
    }
    if i <= |text| {
      assert (head + text)[|head| + i..] == text[i..];
    }
  }

  lemma AnyShifts(head: string, text: string, i: int, pats: seq<string>)
    requires 0 <= i
    ensures AnyAt(head + text, |head| + i, pats) == AnyAt(text, i, pats)
    ensures AnyCompatible(head + text, |head| + i, pats) == AnyCompatible(text, i, pats)
  {
    forall s | s in pats
      ensures OccursAt(head + text, |head| + i, s) == OccursAt(text, i, s)
      ensures Compatible(head + text, |head| + i, s) == Compatible(text, i, s)
    {
      OccursShifts(head, text, i, s);
    }
  }

  lemma AnyAtExtends(text: string, more: string, i: int, pats: seq<string>)
    requires AnyAt(text, i, pats)
    ensures AnyAt(text + more, i, pats)
  {
    var s :| s in pats && OccursAt(text, i, s);
    OccursExtends(text, more, i, s);
  }

  lemma AnyAtIsCompatible(text: string, i: int, pats: seq<string>)
    requires AnyAt(text, i, pats)
    ensures AnyCompatible(text, i, pats)
  {
    var s :| s in pats && OccursAt(text, i, s);
    assert Compatible(text, i, s);
  }

  /** What is released stays ruled out: no pattern can begin before the scan point of an
      earlier text, and the scan point never moves back. */
  lemma ScanGrows(text: string, more: string, pats: seq<string>)
    ensures Scan(text, pats) <= Scan(text + more, pats)
    ensures forall j | 0 <= j < Scan(text, pats) :: !AnyCompatible(text + more, j, pats)
  {
    ScanSpec(text, pats);
    ScanSpec(text + more, pats);
    forall j | 0 <= j <= |text|
      ensures AnyCompatible(text + more, j, pats) ==> AnyCompatible(text, j, pats)
    {
      if AnyCompatible(text + more, j, pats) {
        var s :| s in pats && Compatible(text + more, j, s);
        CompatibleShrinks(text, more, j, s);
      }
    }
  }

  lemma ScanDrops(head: string, text: string, pats: seq<string>)
    requires |head| <= Scan(head + text, pats)
    ensures Scan(head + text, pats) == |head| + Scan(text, pats)
  {
    ScanSpec(head + text, pats);
    var c := Scan(head + text, pats) - |head|;
    forall j | 0 <= j <= c
      ensures AnyCompatible(text, j, pats) == AnyCompatible(head + text, |head| + j, pats)
    {
      AnyShifts(head, text, j, pats);
    }
    ScanIs(text, pats, c);
  }

  lemma FindExtends(text: string, more: string, pat: string, from: nat)
    requires from <= |text| && FindFrom(text, pat, from).Some?
    ensures FindFrom(text + more, pat, from) == FindFrom(text, pat, from)
  {
    var r := FindFrom(text, pat, from);
    EarliestSpec(text, [pat], from, r);
    forall j | from <= j <= r.value
      ensures AnyAt(text + more, j, [pat]) == AnyAt(text, j, [pat])
    {
      OccursExtends(text, more, j, pat);
    }
    EarliestSpec(text + more, [pat], from, r);
  }

  // ---- the held-back suffix ----

  /** Some pattern has `text`'s last `k` characters as a proper prefix. */
  predicate HeldSuffix(text: string, pats: seq<string>, k: nat) {
    k <= |text| && exists s | s in pats :: k < |s| && text[|text| - k..] == s[..k]
  }

  /** `k` is the length of the longest suffix that is a nonempty proper prefix of a pattern. */
  ghost predicate IsHoldback(text: string, pats: seq<string>, k: nat) {
    && k <= |text|
    && (k > 0 ==> HeldSuffix(text, pats, k))
    && forall j | k < j <= |text| :: !HeldSuffix(text, pats, j)
  }

  lemma HeldIsCompatible(text: string, pats: seq<string>, k: nat)
    requires 0 < k <= |text|
    ensures HeldSuffix(text, pats, k) ==> AnyCompatible(text, |text| - k, pats)
    ensures AnyCompatible(text, |text| - k, pats) ==> AnyAt(text, |text| - k, pats) || HeldSuffix(text, pats, k)
  {
    var i := |text| - k;
    if HeldSuffix(text, pats, k) {
      var s :| s in pats && k < |s| && text[i..] == s[..k];
      assert Compatible(text, i, s);
    }
    if AnyCompatible(text, i, pats) {
      var s :| s in pats && Compatible(text, i, s);
      if s <= text[i..] {
        assert OccursAt(text, i, s);
      } else {
        assert text[i..] == s[..k];
      }
    }
  }

  /** Where nothing is found, what may be released is exactly what precedes the scan point. */
  lemma HoldbackIsScan(text: string, pats: seq<string>, k: nat)
    requires !Contains(text, pats) && IsHoldback(text, pats, k)
    ensures |text| - k == Scan(text, pats)
  {
    var c := |text| - k;
    if k > 0 { HeldIsCompatible(text, pats, k); }
    forall j | 0 <= j < c
      ensures !AnyCompatible(text, j, pats)
    {
      HeldIsCompatible(text, pats, |text| - j);
    }
    ScanIs(text, pats, c);
  }

  // ---- pattern lists in which at most one pattern can be under way at a time ----

  /** Neither string is a prefix of the other. */
  predicate Apart(s: string, t: string) {
    !(s <= t) && !(t <= s)
  }

  /** No pattern is empty or a prefix of another one, and none can begin inside another. */
  ghost predicate Separated(pats: seq<string>) {
    && "" !in pats
    && (forall s, t {:trigger Apart(s, t)} | s in pats && t in pats && s != t :: Apart(s, t))
    && (forall s, t, o: nat {:trigger Apart(s[o..], t)} | s in pats && t in pats && 0 < o < |s| :: Apart(s[o..], t))
  }

  lemma PrefixesCompare(s: string, t: string, w: string)
    requires s <= w && t <= w
    ensures !Apart(s, t)
  {
    assert if |s| <= |t| then w[..|t|][..|s|] == s else w[..|s|][..|t|] == t;
  }

  /** In a separated list two patterns never stand at the same place. */
  lemma SamePlace(text: string, i: int, pats: seq<string>, s: string, t: string)
    requires Separated(pats) && s in pats && t in pats
    requires OccursAt(text, i, s) && OccursAt(text, i, t)
    ensures s == t
  {
    assert s <= text[i..] && t <= text[i..];
    PrefixesCompare(s, t, text[i..]);
    assert s == t || Apart(s, t);
  }

  lemma InsideCompares(text: string, i: nat, j: nat, s: string, t: string)
    requires Compatible(text, i, s) && i < j < i + |s|
    ensures OccursAt(text, j, t) ==> !Apart(s[j - i..], t)
  {
    if OccursAt(text, j, t) {
      assert text[j..] == text[i..][j - i..];
      assert t <= text[j..];
      if s <= text[i..] {
        assert s[j - i..] <= text[j..];
        PrefixesCompare(s[j - i..], t, text[j..]);
      } else {
        assert text[j..] <= s[j - i..];
        assert t <= s[j - i..];
      }
    }
  }

  /** A pattern that may still complete at `i` leaves no room for another one inside it. */
  lemma NothingInside(text: string, i: nat, j: nat, pats: seq<string>, s: string, t: string)
    requires Separated(pats) && s in pats && t in pats
    requires Compatible(text, i, s) && i < j < i + |s|
    ensures !OccursAt(text, j, t)
  {
    InsideCompares(text, i, j, s, t);
    assert Apart(s[j - i..], t);
  }

  lemma NothingPossibleBefore(text: string, i: nat, c: nat, pats: seq<string>, t: string)
    requires Separated(pats) && t in pats && OccursAt(text, i, t)
    requires c < i && !AnyAt(text, c, pats)
    ensures !AnyCompatible(text, c, pats)
  {
    forall s | s in pats
      ensures !Compatible(text, c, s)
    {
      assert OccursAt(text, c, s) == (s <= text[c..]);
      if Compatible(text, c, s) && i < c + |s| {
        NothingInside(text, c, i, pats, s, t);
      }
    }
  }

  /** In a separated list, what is found first begins at the first position where anything
      is possible: searching for every pattern and taking the least position is `Locate`. */
  lemma FirstFoundIsLocate(text: string, pats: seq<string>, i: nat, t: string)
    requires Separated(pats) && t in pats && OccursAt(text, i, t)
    requires forall j | 0 <= j < i :: !AnyAt(text, j, pats)
    ensures Locate(text, pats) == (i, Some(t))
  {
    assert AnyAt(text, i, pats);
    AnyAtIsCompatible(text, i, pats);
    forall j | 0 <= j < i
      ensures !AnyCompatible(text, j, pats)
    {
      NothingPossibleBefore(text, i, j, pats, t);
    }
    LocateIs(text, pats, i, t);
  }

  /** A pattern at the scan point is the one located. */
  lemma LocateIs(text: string, pats: seq<string>, i: nat, t: string)
    requires Separated(pats) && t in pats && OccursAt(text, i, t)
    requires forall j | 0 <= j < i :: !AnyCompatible(text, j, pats)
    ensures Locate(text, pats) == (i, Some(t))
  {
    assert AnyAt(text, i, pats);
    AnyAtIsCompatible(text, i, pats);
    ScanIs(text, pats, i);
    SamePlace(text, i, pats, t, PickAt(text, i, pats));
  }

  /** And when nothing is found, it is the held-back suffix that limits the plain text. */
  lemma NoneFoundIsLocate(text: string, pats: seq<string>, k: nat)
    requires !Contains(text, pats) && IsHoldback(text, pats, k)
    ensures Locate(text, pats) == (|text| - k, None)
  {
    HoldbackIsScan(text, pats, k);
  }

  lemma LocateExtends(text: string, more: string, pats: seq<string>)
    requires Separated(pats)
    ensures Locate(text, pats).0 <= Locate(text + more, pats).0
    ensures Locate(text, pats).1.Some? ==> Locate(text + more, pats) == Locate(text, pats)
  {
    var (c, found) := Locate(text, pats);
    ScanGrows(text, more, pats);
    if found.Some? {
      OccursExtends(text, more, c, found.value);
      LocateIs(text + more, pats, c, found.value);
    }
  }

  lemma LocateDrops(head: string, text: string, pats: seq<string>)
    requires Separated(pats) && |head| <= Locate(head + text, pats).0
    ensures Locate(head + text, pats) == (|head| + Locate(text, pats).0, Locate(text, pats).1)
  {
    ScanDrops(head, text, pats);
    var c := Scan(text, pats);
    AnyShifts(head, text, c, pats);
    if AnyAt(text, c, pats) { PickShifts(head, text, c, pats); }
  }

  lemma PickShifts(head: string, text: string, c: nat, pats: seq<string>)
    requires Separated(pats) && AnyAt(text, c, pats) && AnyAt(head + text, |head| + c, pats)
    ensures PickAt(head + text, |head| + c, pats) == PickAt(text, c, pats)
  {
    var s, t := PickAt(text, c, pats), PickAt(head + text, |head| + c, pats);
    OccursShifts(head, text, c, s);
    SamePlace(head + text, |head| + c, pats, s, t);
  }

  /** Fewer patterns leave no less plain text. */
  lemma LocateFewer(text: string, few: seq<string>, many: seq<string>)
    requires Separated(many) && forall s | s in few :: s in many
    ensures Separated(few)
    ensures Locate(text, many).0 <= Locate(text, few).0
    ensures Locate(text, many).1.Some? && Locate(text, many).1.value in few ==> Locate(text, few) == Locate(text, many)
  {
    ScanSpec(text, few);
    ScanSpec(text, many);
    forall j
      ensures AnyCompatible(text, j, few) ==> AnyCompatible(text, j, many)
    {
    }
    var (c, found) := Locate(text, many);
    if found.Some? && found.value in few {
      LocateIs(text, few, c, found.value);
    }
  }

  /** Text after a located pattern is not needed to locate it. */
  lemma LocateShrinks(text: string, more: string, pats: seq<string>, at: nat, t: string)
    requires Separated(pats) && Locate(text + more, pats) == (at, Some(t)) && at + |t| <= |text|
    ensures Locate(text, pats) == (at, Some(t))
  {
    OccursExtends(text, more, at, t);
    ScanSpec(text + more, pats);
    forall j | 0 <= j < at
      ensures !AnyAt(text, j, pats)
    {
      if AnyAt(text, j, pats) {
        AnyAtExtends(text, more, j, pats);
        AnyAtIsCompatible(text + more, j, pats);
      }
    }
    FirstFoundIsLocate(text, pats, at, t);
  }

  lemma FindShrinks(text: string, more: string, pat: string, from: nat, e: nat)
    requires from <= |text| && FindFrom(text + more, pat, from) == Some(e) && e + |pat| <= |text|
    ensures FindFrom(text, pat, from) == Some(e)
  {
    EarliestSpec(text + more, [pat], from, Some(e));
    forall j | from <= j <= e
      ensures AnyAt(text + more, j, [pat]) == AnyAt(text, j, [pat])
    {
      OccursExtends(text, more, j, pat);
    }
    EarliestSpec(text, [pat], from, Some(e));
  }

  lemma ContainedIsLocated(text: string, pats: seq<string>)
    requires Separated(pats) && Contains(text, pats)
    ensures Locate(text, pats).1.Some?
  {
    var r := Earliest(text, pats);
    EarliestSpec(text, pats, 0, r);
    FirstFoundIsLocate(text, pats, r.value, PickAt(text, r.value, pats));
  }

  /** Cut after the first `n` characters of the pattern it is about to find, a search holds
      exactly those, if they cannot be mistaken for the inside of a pattern. */
  lemma LocateCutInside(text: string, pats: seq<string>, at: nat, open: string, n: nat)
    requires Separated(pats) && Locate(text, pats) == (at, Some(open)) && 0 < n < |open|
    requires forall s, o: nat {:trigger Apart(s[o..], open[..n])} | s in pats && 0 < o < |s| :: Apart(s[o..], open[..n])
    ensures Locate(text[..at + n], pats) == (at, None)
  {
    var lead, cut := open[..n], text[..at + n];
    assert cut[at..] == lead by { assert text[at..at + |open|] == open; }
    ScanSpec(text, pats);
    forall j, s | 0 <= j < at && s in pats
      ensures !Compatible(cut, j, s)
    {
      assert !AnyCompatible(text, j, pats);
      CompatibleEarlier(text, cut, j, at, s, lead);
      assert at - j < |s| ==> Apart(s[at - j..], lead);
    }
    assert Compatible(cut, at, open);
    ScanIs(cut, pats, at);
    forall s | s in pats
      ensures !OccursAt(cut, at, s)
    {
      assert s == open || Apart(s, open);
      assert OccursAt(cut, at, s) ==> s <= lead;
    }
  }

  lemma CompatibleEarlier(whole: string, text: string, j: nat, at: nat, s: string, lead: string)
    requires text <= whole && j < at <= |text| && text[at..] == lead && lead != ""
    ensures Compatible(text, j, s) ==> Compatible(whole, j, s) || (at - j < |s| && !Apart(s[at - j..], lead))
  {
    if s <= text[j..] {
      assert s <= whole[j..];
    } else if text[j..] <= s {
      assert s[at - j..][..|lead|] == text[j..][at - j..];
    }
  }

  /** Plain text in front of a pattern is exactly what precedes it: no pattern can straddle
      the boundary. */
  lemma LocateAfterPlain(body: string, marker: string, rest: string, pats: seq<string>)
    requires Separated(pats) && marker in pats && !Contains(body, pats)
    ensures Locate(body + marker + rest, pats) == (|body|, Some(marker))
  {
    var text := body + marker + rest;
    assert text[|body|..|body| + |marker|] == marker;
    forall j, s | 0 <= j < |body| && s in pats
      ensures !OccursAt(text, j, s)
    {
      if j + |s| <= |body| {
        assert text == body + (marker + rest);
        OccursExtends(body, marker + rest, j, s);
        assert !AnyAt(body, j, pats);
      } else {
        assert OccursAt(text, j, s) ==> Compatible(text, j, s);
        if Compatible(text, j, s) { NothingInside(text, j, |body|, pats, s, marker); }
      }
    }
    FirstFoundIsLocate(text, pats, |body|, marker);
  }

  /** `"".join(chunks)` */
  function Concat(chunks: seq<string>): string {
    if chunks == [] then "" else chunks[0] + Concat(chunks[1..])
  }

  lemma ConcatPair(a: string, b: string)
    ensures Concat([a, b]) == a + b
  {
    assert [a, b][1..] == [b] && [b][1..] == [];
    assert Concat([b]) == b + "";
  }
}

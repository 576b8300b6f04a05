/**
 * The engine's table of `MIDIHDR` long-message headers: 32 slots, each holding a header
 * pointer or NULL, searched by pointer identity. `UnprepareHeader` releases the first slot
 * holding a given header; `StopPlayback` runs a reclaim loop of 32 passes over the slot
 * at `midiHeadersCursor`, a cursor the loop never moves.
 */
module HeaderPool {
  import opened Devices

  /** The number of header slots. */
  const Slots := 32

  /** The first slot holding `p`, or `|s|` when no slot does. */
  function FirstIndex(s: seq<MidiHdr?>, p: MidiHdr?): (i: nat)
    ensures i <= |s| && (i < |s| ==> s[i] == p)
  {
    if s == [] then 0
    else if s[0] == p then 0
    else 1 + FirstIndex(s[1..], p)
  }

  /**
   * `FirstIndex` finds the first slot holding `p`: that slot holds `p`, no earlier slot does,
   * and the search runs off the end exactly when no slot holds `p`.
   */
  lemma {:induction false} FirstIndexFinds(s: seq<MidiHdr?>, p: MidiHdr?)
    ensures forall j :: 0 <= j < FirstIndex(s, p) ==> s[j] != p
    ensures FirstIndex(s, p) == |s| <==> p !in s
  {
    if s != [] && s[0] != p {
      FirstIndexFinds(s[1..], p);
      assert forall j :: 1 <= j < |s| ==> s[j] == s[1..][j - 1];
    }
  }

  /** A slot holding `p` with no earlier slot holding it is the one `FirstIndex` finds. */
  lemma FirstIndexAt(s: seq<MidiHdr?>, p: MidiHdr?, i: nat)
    requires i < |s| && s[i] == p && forall j :: 0 <= j < i ==> s[j] != p
    ensures FirstIndex(s, p) == i
  {
    FirstIndexFinds(s, p);
  }

  /**
   * The slots after `UnprepareHeader(p)`: the first slot holding `p` is emptied and the
   * others keep their headers; with no slot holding `p` nothing changes.
   */
  function Unprepared(s: seq<MidiHdr?>, p: MidiHdr?): (t: seq<MidiHdr?>)
    ensures |t| == |s|
  {
    var i := FirstIndex(s, p);
    if i < |s| then s[i := null] else s
  }

  /**
   * Unpreparing `p` empties the first slot holding it and keeps every other slot; with no
   * slot holding `p` nothing changes.
   */
  lemma UnpreparedSlots(s: seq<MidiHdr?>, p: MidiHdr?)
    ensures p !in s ==> Unprepared(s, p) == s
    ensures p in s ==> FirstIndex(s, p) < |s| && Unprepared(s, p)[FirstIndex(s, p)] == null
    ensures forall j :: 0 <= j < |s| && j != FirstIndex(s, p) ==> Unprepared(s, p)[j] == s[j]
  {
    FirstIndexFinds(s, p);
  }

  /** How many of the slots `s` hold `p`. */
  function Copies(s: seq<MidiHdr?>, p: MidiHdr?): (n: nat)
    ensures n <= |s|
  {
    if s == [] then 0
    else Copies(s[..|s| - 1], p) + (if s[|s| - 1] == p then 1 else 0)
  }

  /** A header has no copy in `s` exactly when `s` does not hold it. */
  lemma {:induction false} CopiesAbsent(s: seq<MidiHdr?>, p: MidiHdr?)
    ensures Copies(s, p) == 0 <==> p !in s
  {
    if s != [] {
      var init := s[..|s| - 1];
      CopiesAbsent(init, p);
      assert s == init + [s[|s| - 1]];
    }
  }

  /** `k` copies of the call `x`. */
  function Repeat(x: DeviceCall, k: nat): (r: seq<DeviceCall>)
    ensures |r| == k
  {
    if k == 0 then [] else [x] + Repeat(x, k - 1)
  }

  // ---------------------------------------------------------------- the reclaim loop

  /** One pass of the reclaim loop: a header at the cursor is unprepared, an empty cursor slot is skipped. */
  function ReclaimStep(s: seq<MidiHdr?>, c: nat): (t: seq<MidiHdr?>)
    requires c < |s|
    ensures |t| == |s|
  {
    if s[c] == null then s else Unprepared(s, s[c])
  }

  /** The slots after `n` passes of the reclaim loop over cursor `c`. */
  function ReclaimPasses(s: seq<MidiHdr?>, c: nat, n: nat): (t: seq<MidiHdr?>)
    requires c < |s|
    ensures |t| == |s|
    decreases n
  {
    if n == 0 then s else ReclaimPasses(ReclaimStep(s, c), c, n - 1)
  }

  /** The unprepare call on device handle `h` made by one pass of the reclaim loop, if any. */
  function StepCalls(s: seq<MidiHdr?>, c: nat, h: Handle): (cs: seq<DeviceCall>)
    requires c < |s|
  {
    if s[c] == null then [] else [OutUnprepareHeader(h, s[c])]
  }

  /** The unprepare calls on device handle `h` made by `n` passes of the reclaim loop over cursor `c`. */
  function PassCalls(s: seq<MidiHdr?>, c: nat, h: Handle, n: nat): (cs: seq<DeviceCall>)
    requires c < |s|
    decreases n
  {
    if n == 0 then [] else StepCalls(s, c, h) + PassCalls(ReclaimStep(s, c), c, h, n - 1)
  }

  /** `n` passes are one step followed by `n - 1` passes from the slots that step leaves. */
  lemma PassesUnfold(s: seq<MidiHdr?>, c: nat, h: Handle, n: nat)
    requires c < |s| && n >= 1
    ensures ReclaimPasses(s, c, n) == ReclaimPasses(ReclaimStep(s, c), c, n - 1)
    ensures PassCalls(s, c, h, n) == StepCalls(s, c, h) + PassCalls(ReclaimStep(s, c), c, h, n - 1)
  {
  }

  /** `n + 1` passes leave the slots as `n` passes followed by one more step. */
  lemma {:induction false} ReclaimAdvance(s: seq<MidiHdr?>, c: nat, n: nat)
    requires c < |s|
    ensures ReclaimPasses(s, c, n + 1) == ReclaimStep(ReclaimPasses(s, c, n), c)
    decreases n
  {
    if n > 0 {
      PassesUnfold(s, c, 0, n + 1);
      PassesUnfold(s, c, 0, n);
      ReclaimAdvance(ReclaimStep(s, c), c, n - 1);
    }
  }

  /** The calls of `n + 1` passes are those of `n` passes followed by those of one more step. */
  lemma {:induction false} PassCallsAdvance(s: seq<MidiHdr?>, c: nat, h: Handle, n: nat)
    requires c < |s|
    ensures PassCalls(s, c, h, n + 1) == PassCalls(s, c, h, n) + StepCalls(ReclaimPasses(s, c, n), c, h)
    decreases n
  {
    if n > 0 {
      var t := ReclaimStep(s, c);
      PassesUnfold(s, c, h, n + 1);
      PassCallsAdvance(t, c, h, n - 1);
      PassCallsShift(s, c, h, n);
    }
  }

  /** The calls of `n` passes and one more step, regrouped around the first step. */
  lemma PassCallsShift(s: seq<MidiHdr?>, c: nat, h: Handle, n: nat)
    requires c < |s| && n >= 1
    ensures var t := ReclaimStep(s, c);
            PassCalls(s, c, h, n) + StepCalls(ReclaimPasses(s, c, n), c, h)
            == StepCalls(s, c, h) + (PassCalls(t, c, h, n - 1) + StepCalls(ReclaimPasses(t, c, n - 1), c, h))
  {
    var t := ReclaimStep(s, c);
    PassesUnfold(s, c, h, n);
    CallsAssoc(StepCalls(s, c, h), PassCalls(t, c, h, n - 1), StepCalls(ReclaimPasses(t, c, n - 1), c, h));
  }

  lemma CallsAssoc(a: seq<DeviceCall>, b: seq<DeviceCall>, c: seq<DeviceCall>)
    ensures a + (b + c) == (a + b) + c
  {
  }

  /**
   * What the reclaim loop achieves: every slot up to and including the cursor that holds
   * the cursor's header is emptied; every other slot keeps its header.
   */
  function Reclaimed(s: seq<MidiHdr?>, c: nat): (t: seq<MidiHdr?>)
    requires c < |s|
    ensures |t| == |s| && t[c] == null
  {
    seq(|s|, j requires 0 <= j < |s| => if j <= c && s[j] == s[c] then null else s[j])
  }

  /**
   * The reclaim loop's result slot by slot: the cursor slot and every earlier slot holding
   * the cursor's header are empty; every later slot, and every slot holding another header,
   * is unchanged.
   */
  lemma ReclaimedSlots(s: seq<MidiHdr?>, c: nat)
    requires c < |s|
    ensures forall j :: 0 <= j <= c && s[j] == s[c] ==> Reclaimed(s, c)[j] == null
    ensures forall j :: 0 <= j < |s| && (j > c || s[j] != s[c]) ==> Reclaimed(s, c)[j] == s[j]
  {
  }

  /** A pass over an empty cursor slot changes nothing and calls nothing. */
  lemma {:induction false} ReclaimEmptyCursor(s: seq<MidiHdr?>, c: nat, h: Handle, n: nat)
    requires c < |s| && s[c] == null
    ensures ReclaimPasses(s, c, n) == s && PassCalls(s, c, h, n) == []
    decreases n
  {
    if n > 0 {
      ReclaimEmptyCursor(s, c, h, n - 1);
    }
  }

  /** Emptying one slot holding `p` removes one copy of `p`. */
  lemma {:induction false} CopiesClear(t: seq<MidiHdr?>, i: nat, p: MidiHdr)
    requires i < |t| && t[i] == p
    ensures Copies(t[i := null], p) == Copies(t, p) - 1
    decreases |t|
  {
    var u := t[i := null];
    var k := |t| - 1;
    if i < k {
      assert u[..k] == t[..k][i := null];
      CopiesClear(t[..k], i, p);
    } else {
      assert u[..k] == t[..k];
    }
  }

  /**
   * Once at least `c + 1 - FirstIndex` passes run over a cursor holding a header, every copy
   * of that header up to the cursor has been unprepared, one call each.
   */
  lemma ReclaimAll(s: seq<MidiHdr?>, c: nat, h: Handle, n: nat)
    requires c < |s| && s[c] != null && n + FirstIndex(s, s[c]) >= c + 1
    ensures ReclaimPasses(s, c, n) == Reclaimed(s, c)
    ensures PassCalls(s, c, h, n) == Repeat(OutUnprepareHeader(h, s[c]), Copies(s[..c + 1], s[c]))
  {
    ReclaimPassesAll(s, c, n);
    PassCallsAll(s, c, h, n);
  }

  lemma {:induction false} ReclaimPassesAll(s: seq<MidiHdr?>, c: nat, n: nat)
    requires c < |s| && s[c] != null && n + FirstIndex(s, s[c]) >= c + 1
    ensures ReclaimPasses(s, c, n) == Reclaimed(s, c)
    decreases n
  {
    var i := FirstIndex(s, s[c]);
    FirstIndexFinds(s, s[c]);
    ReclaimPassesUnfold(s, c, n);
    if i == c {
      ReclaimEmptyCursor(s[i := null], c, 0, n - 1);
      ReclaimFirst(s, c);
    } else {
      ReclaimLater(s, c, i);
      ReclaimPassesAll(s[i := null], c, n - 1);
      ReclaimedLater(s, c, i);
    }
  }

  /** A pass over a cursor holding a header empties the header's first slot. */
  lemma ReclaimPassesUnfold(s: seq<MidiHdr?>, c: nat, n: nat)
    requires c < |s| && s[c] != null && n >= 1 && FirstIndex(s, s[c]) < |s|
    ensures ReclaimPasses(s, c, n) == ReclaimPasses(s[FirstIndex(s, s[c]) := null], c, n - 1)
  {
    FirstIndexFinds(s, s[c]);
    assert ReclaimStep(s, c) == s[FirstIndex(s, s[c]) := null];
  }

  lemma {:induction false} PassCallsAll(s: seq<MidiHdr?>, c: nat, h: Handle, n: nat)
    requires c < |s| && s[c] != null && n + FirstIndex(s, s[c]) >= c + 1
    ensures PassCalls(s, c, h, n) == Repeat(OutUnprepareHeader(h, s[c]), Copies(s[..c + 1], s[c]))
    decreases n
  {
    var i := FirstIndex(s, s[c]);
    FirstIndexFinds(s, s[c]);
    if i == c {
      PassCallsFirst(s, c, h, n);
    } else {
      ReclaimLater(s, c, i);
      PassCallsAll(s[i := null], c, h, n - 1);
      PassCallsLater(s, c, h, n, i);
    }
  }

  /** The calls of `n` passes, from those of the `n - 1` passes after unpreparing an earlier copy. */
  lemma PassCallsLater(s: seq<MidiHdr?>, c: nat, h: Handle, n: nat, i: nat)
    requires c < |s| && s[c] != null && i == FirstIndex(s, s[c]) && i < c && n >= 1
    requires s[i := null][c] == s[c]
    requires PassCalls(s[i := null], c, h, n - 1)
          == Repeat(OutUnprepareHeader(h, s[c]), Copies(s[i := null][..c + 1], s[c]))
    ensures PassCalls(s, c, h, n) == Repeat(OutUnprepareHeader(h, s[c]), Copies(s[..c + 1], s[c]))
  {
    var x, t := OutUnprepareHeader(h, s[c]), s[i := null];
    var k := Copies(s[..c + 1], s[c]);
    var rest := PassCalls(t, c, h, n - 1);
    PassCallsUnfold(s, c, h, n);
    assert PassCalls(s, c, h, n) == [x] + rest;
    CopiesLater(s, c, i);
    assert rest == Repeat(x, k - 1);
    RepeatUnfold(x, k);
  }

  lemma RepeatUnfold(x: DeviceCall, k: nat)
    requires k >= 1
    ensures Repeat(x, k) == [x] + Repeat(x, k - 1)
  {
  }

  /** A pass over a cursor holding a header unprepares its first copy with one call. */
  lemma PassCallsUnfold(s: seq<MidiHdr?>, c: nat, h: Handle, n: nat)
    requires c < |s| && s[c] != null && n >= 1 && FirstIndex(s, s[c]) < |s|
    ensures PassCalls(s, c, h, n)
         == [OutUnprepareHeader(h, s[c])] + PassCalls(s[FirstIndex(s, s[c]) := null], c, h, n - 1)
  {
    FirstIndexFinds(s, s[c]);
    assert ReclaimStep(s, c) == s[FirstIndex(s, s[c]) := null];
  }

  /** A cursor header with no earlier copy is unprepared once. */
  lemma PassCallsFirst(s: seq<MidiHdr?>, c: nat, h: Handle, n: nat)
    requires c < |s| && s[c] != null && FirstIndex(s, s[c]) == c && n >= 1
    ensures PassCalls(s, c, h, n) == Repeat(OutUnprepareHeader(h, s[c]), Copies(s[..c + 1], s[c]))
  {
    var t := s[c := null];
    assert ReclaimStep(s, c) == t;
    ReclaimEmptyCursor(t, c, h, n - 1);
    FirstCopy(s, c);
  }

  /** Unpreparing an earlier copy of the cursor header leaves one copy fewer up to the cursor. */
  lemma CopiesLater(s: seq<MidiHdr?>, c: nat, i: nat)
    requires c < |s| && s[c] != null && i < c && s[i] == s[c]
    ensures Copies(s[i := null][..c + 1], s[c]) == Copies(s[..c + 1], s[c]) - 1
  {
    CopiesClear(s[..c + 1], i, s[c]);
    assert s[i := null][..c + 1] == s[..c + 1][i := null];
  }

  /** A cursor header held by no earlier slot is held once up to the cursor. */
  lemma FirstCopy(s: seq<MidiHdr?>, c: nat)
    requires c < |s| && FirstIndex(s, s[c]) == c
    ensures Copies(s[..c + 1], s[c]) == 1
  {
    FirstIndexFinds(s, s[c]);
    assert s[..c + 1][..c] == s[..c];
    CopiesAbsent(s[..c], s[c]);
    assert s[c] !in s[..c] by {
      forall j | 0 <= j < c
        ensures s[..c][j] != s[c]
      {
      }
    }
  }

  /** With no earlier copy, the reclaim loop's result is the cursor slot emptied. */
  lemma ReclaimFirst(s: seq<MidiHdr?>, c: nat)
    requires c < |s| && FirstIndex(s, s[c]) == c
    ensures Reclaimed(s, c) == s[c := null]
  {
    FirstIndexFinds(s, s[c]);
    forall j | 0 <= j < |s|
      ensures Reclaimed(s, c)[j] == s[c := null][j]
    {
    }
  }

  /**
   * Unpreparing an earlier copy of the cursor header leaves the header at the cursor and
   * moves its first copy later.
   */
  lemma ReclaimLater(s: seq<MidiHdr?>, c: nat, i: nat)
    requires c < |s| && s[c] != null && i == FirstIndex(s, s[c]) && i < c
    ensures s[i := null][c] == s[c]
    ensures FirstIndex(s[i := null], s[c]) > i
  {
    var t := s[i := null];
    FirstIndexFinds(s, s[c]);
    FirstIndexFinds(t, s[c]);
    assert forall j :: 0 <= j <= i ==> t[j] != s[c];
  }

  /** Unpreparing an earlier copy of the cursor header does not change what the whole loop achieves. */
  lemma ReclaimedLater(s: seq<MidiHdr?>, c: nat, i: nat)
    requires c < |s| && s[c] != null && i == FirstIndex(s, s[c]) && i < c
    ensures Reclaimed(s[i := null], c) == Reclaimed(s, c)
  {
    var t := s[i := null];
    FirstIndexFinds(s, s[c]);
    forall j | 0 <= j < |s|
      ensures Reclaimed(t, c)[j] == Reclaimed(s, c)[j]
    {
    }
  }

  /**
   * `StopPlayback`'s 32 passes over the cursor slot: they empty the cursor slot and every
   * earlier slot holding the same header, unpreparing it once per copy, and leave every other
   * slot alone. With the cursor slot empty they do nothing.
   */
  lemma StopPlaybackReclaim(s: seq<MidiHdr?>, c: nat, h: Handle)
    requires |s| == Slots && c < Slots
    ensures ReclaimPasses(s, c, Slots) == Reclaimed(s, c)
    ensures s[c] == null ==> PassCalls(s, c, h, Slots) == [] && Reclaimed(s, c) == s
    ensures s[c] != null ==>
              PassCalls(s, c, h, Slots) == Repeat(OutUnprepareHeader(h, s[c]), Copies(s[..c + 1], s[c]))
  {
    if s[c] == null {
      ReclaimEmptyCursor(s, c, h, Slots);
      assert Reclaimed(s, c) == s;
    } else {
      ReclaimAll(s, c, h, Slots);
    }
  }

  /**
   * When no slot before the cursor holds the cursor's header (in particular when no header
   * sits in two slots) the reclaim loop releases exactly the cursor slot and nothing else,
   * with at most one unprepare call.
   */
  lemma ReclaimOneSlot(s: seq<MidiHdr?>, c: nat, h: Handle)
    requires |s| == Slots && c < Slots
    requires s[c] == null || s[c] !in s[..c]
    ensures ReclaimPasses(s, c, Slots) == s[c := null]
    ensures PassCalls(s, c, h, Slots) == if s[c] == null then [] else [OutUnprepareHeader(h, s[c])]
  {
    StopPlaybackReclaim(s, c, h);
    if s[c] != null {
      NoEarlierCopy(s, c);
      FirstCopy(s, c);
      ReclaimFirst(s, c);
    } else {
      assert s[c := null] == s;
    }
  }

  /** A header that no slot before the cursor holds is first held at the cursor. */
  lemma NoEarlierCopy(s: seq<MidiHdr?>, c: nat)
    requires c < |s| && s[c] !in s[..c]
    ensures FirstIndex(s, s[c]) == c
  {
    forall j | 0 <= j < c
      ensures s[j] != s[c]
    {
      assert s[j] == s[..c][j];
    }
    FirstIndexAt(s, s[c], c);
  }

  /** A second run of the reclaim loop finds the cursor slot empty and releases nothing more. */
  lemma ReclaimIdempotent(s: seq<MidiHdr?>, c: nat, h: Handle)
    requires |s| == Slots && c < Slots
    ensures ReclaimPasses(Reclaimed(s, c), c, Slots) == Reclaimed(s, c)
    ensures PassCalls(Reclaimed(s, c), c, h, Slots) == []
  {
    ReclaimEmptyCursor(Reclaimed(s, c), c, h, Slots);
  }
}

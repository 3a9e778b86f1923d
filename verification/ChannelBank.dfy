/** Reassembly of channels from frames (src/derive/stages/channels.rs). */
module ChannelBank {
  import opened Base

  const U16_RANGE: nat := 0x1_0000

  type FrameNumber = n: int | 0 <= n < U16_RANGE

  datatype Frame = Frame(
    channelId: nat,
    frameNumber: FrameNumber,
    frameDataLen: nat,
    frameData: Bytes,
    isLast: bool,
    l1InclusionBlock: nat)

  datatype Channel = Channel(id: nat, data: Bytes, l1InclusionBlock: nat)

  /** A channel of which some frames have been seen. */
  datatype Pending = Pending(channelId: nat, frames: seq<Frame>, size: Option<nat>, highest: nat, lowest: nat)

  // ------------------------------------------------------------------- one pending channel

  /** The frame count that a last frame announces, as a 16-bit number. */
  function SizeFrom(frame: Frame): nat { (frame.frameNumber + 1) % U16_RANGE }

  function NewPending(frame: Frame): Pending {
    Pending(frame.channelId, [frame], if frame.isLast then Some(SizeFrom(frame)) else None,
            frame.l1InclusionBlock, frame.l1InclusionBlock)
  }

  predicate HasSeen(frames: seq<Frame>, number: nat) {
    exists i :: 0 <= i < |frames| && frames[i].frameNumber == number
  }

  function Pushed(p: Pending, frame: Frame): Pending {
    if HasSeen(p.frames, frame.frameNumber) then p
    else
      Pending(p.channelId, p.frames + [frame], if frame.isLast then Some(SizeFrom(frame)) else p.size,
              if frame.l1InclusionBlock > p.highest then frame.l1InclusionBlock else p.highest,
              if frame.l1InclusionBlock <= p.highest && frame.l1InclusionBlock < p.lowest
              then frame.l1InclusionBlock else p.lowest)
  }

  predicate IsComplete(p: Pending) { p.size == Some(|p.frames| % U16_RANGE) }

  predicate IsTimedOut(p: Pending, timeout: nat) { p.highest - p.lowest > timeout }

  /** Puts a frame after all frames with a number that is not larger. */
  function InsertSorted(sorted: seq<Frame>, frame: Frame): seq<Frame> {
    if sorted == [] || sorted[|sorted| - 1].frameNumber <= frame.frameNumber then sorted + [frame]
    else InsertSorted(sorted[..|sorted| - 1], frame) + [sorted[|sorted| - 1]]
  }

  /** The frames in the order of their numbers; equal numbers keep their order. */
  function SortFrames(frames: seq<Frame>): seq<Frame> {
    if frames == [] then [] else InsertSorted(SortFrames(frames[..|frames| - 1]), frames[|frames| - 1])
  }

  function ConcatData(frames: seq<Frame>): Bytes {
    if frames == [] then [] else ConcatData(frames[..|frames| - 1]) + frames[|frames| - 1].frameData
  }

  function Assembled(p: Pending): Bytes { ConcatData(SortFrames(p.frames)) }

  /** The largest L1 block among the frames. */
  function MaxInclusion(frames: seq<Frame>): nat
    requires frames != []
  {
    var last := frames[|frames| - 1].l1InclusionBlock;
    if |frames| == 1 then last
    else
      var rest := MaxInclusion(frames[..|frames| - 1]);
      if last >= rest then last else rest
  }

  function ToChannel(p: Pending): Channel
    requires p.frames != []
  {
    Channel(p.channelId, Assembled(p), MaxInclusion(p.frames))
  }

  /** Frame numbers are unique, and the L1 bounds are the true ones. */
  ghost predicate PendingOk(p: Pending) {
    && p.frames != []
    && (forall i :: 0 <= i < |p.frames| ==> p.frames[i].channelId == p.channelId)
    && Distinct(p.frames)
    && (forall i :: 0 <= i < |p.frames| ==> p.lowest <= p.frames[i].l1InclusionBlock <= p.highest)
    && (exists i :: 0 <= i < |p.frames| && p.frames[i].l1InclusionBlock == p.highest)
    && (exists i :: 0 <= i < |p.frames| && p.frames[i].l1InclusionBlock == p.lowest)
  }

  ghost predicate Distinct(frames: seq<Frame>) {
    forall i, j :: 0 <= i < j < |frames| ==> frames[i].frameNumber != frames[j].frameNumber
  }

  lemma NewPendingOk(frame: Frame)
    ensures PendingOk(NewPending(frame))
  {
    assert NewPending(frame).frames[0].l1InclusionBlock == frame.l1InclusionBlock;
  }

  lemma PushedOk(p: Pending, frame: Frame)
    requires PendingOk(p) && frame.channelId == p.channelId
    ensures PendingOk(Pushed(p, frame))
  {
    if !HasSeen(p.frames, frame.frameNumber) {
      var q := Pushed(p, frame);
      assert q.frames[|p.frames|] == frame;
      var h :| 0 <= h < |p.frames| && p.frames[h].l1InclusionBlock == p.highest;
      var l :| 0 <= l < |p.frames| && p.frames[l].l1InclusionBlock == p.lowest;
      assert q.frames[h] == p.frames[h] && q.frames[l] == p.frames[l];
    }
  }

  /** The L1 block of a channel is the highest of its frames. */
  lemma {:induction false} MaxInclusionIs(frames: seq<Frame>, bound: nat)
    requires frames != []
    requires forall i :: 0 <= i < |frames| ==> frames[i].l1InclusionBlock <= bound
    ensures MaxInclusion(frames) <= bound
    ensures forall i :: 0 <= i < |frames| ==> frames[i].l1InclusionBlock <= MaxInclusion(frames)
    ensures exists i :: 0 <= i < |frames| && frames[i].l1InclusionBlock == MaxInclusion(frames)
    decreases |frames|
  {
    if |frames| > 1 {
      var init := frames[..|frames| - 1];
      MaxInclusionIs(init, bound);
      var k :| 0 <= k < |init| && init[k].l1InclusionBlock == MaxInclusion(init);
      assert frames[k] == init[k];
    }
  }

  lemma ChannelAtHighest(p: Pending)
    requires PendingOk(p)
    ensures ToChannel(p).l1InclusionBlock == p.highest
  {
    MaxInclusionIs(p.frames, p.highest);
  }

  // ------------------------------------------------------------- order does not matter

  /** What has been seen of a channel after some frames have arrived. */
  function PendingOf(arrivals: seq<Frame>): Pending
    requires arrivals != []
  {
    if |arrivals| == 1 then NewPending(arrivals[0])
    else Pushed(PendingOf(arrivals[..|arrivals| - 1]), arrivals[|arrivals| - 1])
  }

  /** The frames of a channel as sent: numbered from zero, only the final one marked last. */
  ghost predicate WellFormed(original: seq<Frame>) {
    && 0 < |original| <= U16_RANGE
    && forall i :: 0 <= i < |original| ==>
         && original[i].frameNumber == i
         && original[i].channelId == original[0].channelId
         && (original[i].isLast <==> i == |original| - 1)
  }

  /** The frame is one of the channel's, in whatever L1 block it arrived. */
  ghost predicate ArrivesFrom(original: seq<Frame>, f: Frame) {
    f.frameNumber < |original| && f == original[f.frameNumber].(l1InclusionBlock := f.l1InclusionBlock)
  }

  /** Every frame of the channel has arrived. */
  ghost predicate AllArrived(original: seq<Frame>, arrivals: seq<Frame>) {
    forall k :: 0 <= k < |original| ==> HasSeen(arrivals, k)
  }

  function Numbers(frames: seq<Frame>): set<nat> {
    set i | 0 <= i < |frames| :: frames[i].frameNumber as nat
  }

  lemma NumbersSnoc(frames: seq<Frame>, last: Frame)
    ensures Numbers(frames + [last]) == Numbers(frames) + {last.frameNumber as nat}
  {
    var all := frames + [last];
    forall n | n in Numbers(all) ensures n in Numbers(frames) + {last.frameNumber as nat} {
      var i :| 0 <= i < |all| && all[i].frameNumber == n;
      assert i < |frames| ==> frames[i].frameNumber == n;
    }
    forall n | n in Numbers(frames) ensures n in Numbers(all) {
      var i :| 0 <= i < |frames| && frames[i].frameNumber == n;
      assert all[i].frameNumber == n;
    }
    assert all[|frames|] == last;
  }

  lemma SeenIsNumber(frames: seq<Frame>, k: nat)
    ensures HasSeen(frames, k) <==> k in Numbers(frames)
  {
  }

  lemma {:induction false} DistinctCount(frames: seq<Frame>)
    requires Distinct(frames)
    ensures |Numbers(frames)| == |frames|
    decreases |frames|
  {
    if frames != [] {
      var init, last := frames[..|frames| - 1], frames[|frames| - 1];
      DistinctCount(init);
      NumbersSnoc(init, last);
      assert init + [last] == frames;
      assert last.frameNumber as nat !in Numbers(init);
    }
  }

  /** The numbers below n. */
  function Below(n: nat): (s: set<nat>)
    ensures |s| == n && forall k :: k in s <==> 0 <= k < n
  {
    if n == 0 then {} else Below(n - 1) + {n - 1}
  }

  lemma SubsetCount(a: set<nat>, b: set<nat>)
    requires a <= b
    ensures |a| <= |b| && (|a| == |b| ==> a == b)
  {
    assert b == a + (b - a);
    assert |b| == |a| + |b - a|;
  }

  /** Pushing a frame adds its number, and its size if it is the last frame. */
  lemma PushedNumbers(p: Pending, frame: Frame)
    ensures Numbers(Pushed(p, frame).frames) == Numbers(p.frames) + {frame.frameNumber as nat}
    ensures forall f :: f in Pushed(p, frame).frames ==> f in p.frames || f == frame
  {
    SeenIsNumber(p.frames, frame.frameNumber);
    NumbersSnoc(p.frames, frame);
  }

  /** Which frames are kept of some arrivals: the first of each number. */
  lemma {:induction false} PendingOfKeeps(original: seq<Frame>, arrivals: seq<Frame>)
    requires WellFormed(original) && arrivals != []
    requires forall f :: f in arrivals ==> ArrivesFrom(original, f)
    ensures var p := PendingOf(arrivals);
            && PendingOk(p) && p.channelId == original[0].channelId
            && (forall f :: f in p.frames ==> f in arrivals)
            && Numbers(p.frames) == Numbers(arrivals)
            && SizeKnown(original, p)
    decreases |arrivals|
  {
    var last := arrivals[|arrivals| - 1];
    assert ArrivesFrom(original, last);
    if |arrivals| == 1 {
      NewPendingOk(last);
      assert PendingOf(arrivals).frames == arrivals;
      NumbersSnoc([], last);
      assert arrivals == [] + [last];
    } else {
      var init := arrivals[..|arrivals| - 1];
      assert arrivals == init + [last];
      PendingOfKeeps(original, init);
      PushedOk(PendingOf(init), last);
      PushedNumbers(PendingOf(init), last);
      NumbersSnoc(init, last);
      PushedSize(original, PendingOf(init), last);
    }
  }

  /** The size is known when the last frame has been seen, and is then the count of all. */
  ghost predicate SizeKnown(original: seq<Frame>, p: Pending) {
    p.size == if |original| - 1 in Numbers(p.frames) then Some(|original| % U16_RANGE) else None
  }

  lemma PushedSize(original: seq<Frame>, p: Pending, frame: Frame)
    requires WellFormed(original) && SizeKnown(original, p) && ArrivesFrom(original, frame)
    ensures SizeKnown(original, Pushed(p, frame))
  {
    PushedNumbers(p, frame);
    SeenIsNumber(p.frames, frame.frameNumber);
  }

  /** The count of what is kept of a well-formed channel, and when it is all of it. */
  lemma KeptCount(original: seq<Frame>, p: Pending)
    requires WellFormed(original) && PendingOk(p)
    requires forall f :: f in p.frames ==> ArrivesFrom(original, f)
    ensures 1 <= |p.frames| <= |original|
    ensures |p.frames| == |original| <==> Numbers(p.frames) == Below(|original|)
  {
    DistinctCount(p.frames);
    forall n | n in Numbers(p.frames) ensures n in Below(|original|) {
      var i :| 0 <= i < |p.frames| && p.frames[i].frameNumber == n;
      assert ArrivesFrom(original, p.frames[i]);
    }
    SubsetCount(Numbers(p.frames), Below(|original|));
  }

  /**
   Whatever the order and the repetitions in which the frames of a well-formed channel
   arrive, the channel is complete exactly when every frame has arrived.
   */
  lemma CompleteIffAllArrived(original: seq<Frame>, arrivals: seq<Frame>)
    requires WellFormed(original) && arrivals != []
    requires forall f :: f in arrivals ==> ArrivesFrom(original, f)
    ensures IsComplete(PendingOf(arrivals)) <==> AllArrived(original, arrivals)
  {
    PendingOfKeeps(original, arrivals);
    AllArrivedNumbers(original, arrivals);
    CompleteCount(original, PendingOf(arrivals));
  }

  /** With at most 2^16 frames, comparing counts as 16-bit numbers compares the counts. */
  lemma CompleteCount(original: seq<Frame>, p: Pending)
    requires WellFormed(original) && PendingOk(p)
    requires forall f :: f in p.frames ==> ArrivesFrom(original, f)
    requires SizeKnown(original, p)
    ensures IsComplete(p) <==> Numbers(p.frames) == Below(|original|)
    ensures IsComplete(p) ==> |p.frames| == |original|
  {
    var n := |original|;
    KeptCount(original, p);
    CountsAsU16(|p.frames|, n);
    if Numbers(p.frames) == Below(n) {
      assert n - 1 in Below(n);
    }
  }

  lemma CountsAsU16(m: nat, n: nat)
    requires 1 <= m <= n <= U16_RANGE
    ensures m % U16_RANGE == n % U16_RANGE <==> m == n
  {
  }

  lemma AllArrivedNumbers(original: seq<Frame>, arrivals: seq<Frame>)
    requires WellFormed(original) && forall f :: f in arrivals ==> ArrivesFrom(original, f)
    ensures AllArrived(original, arrivals) <==> Numbers(arrivals) == Below(|original|)
  {
    forall n | n in Numbers(arrivals) ensures n in Below(|original|) {
      var i :| 0 <= i < |arrivals| && arrivals[i].frameNumber == n;
      assert ArrivesFrom(original, arrivals[i]);
    }
    forall k: nat ensures HasSeen(arrivals, k) <==> k in Numbers(arrivals) {
      SeenIsNumber(arrivals, k);
    }
  }

  // ------------------------------------------------------------------------ assembly

  ghost predicate Sorted(frames: seq<Frame>) {
    forall i, j :: 0 <= i < j < |frames| ==> frames[i].frameNumber <= frames[j].frameNumber
  }

  lemma {:induction false} InsertSortedPermutes(sorted: seq<Frame>, frame: Frame)
    ensures multiset(InsertSorted(sorted, frame)) == multiset(sorted) + multiset{frame}
    decreases |sorted|
  {
    if sorted != [] && sorted[|sorted| - 1].frameNumber > frame.frameNumber {
      var init, last := sorted[..|sorted| - 1], sorted[|sorted| - 1];
      InsertSortedPermutes(init, frame);
      assert sorted == init + [last];
    }
  }

  lemma {:induction false} InsertSortedKeeps(sorted: seq<Frame>, frame: Frame)
    requires Sorted(sorted)
    ensures Sorted(InsertSorted(sorted, frame))
    decreases |sorted|
  {
    if sorted != [] && sorted[|sorted| - 1].frameNumber > frame.frameNumber {
      var init, last := sorted[..|sorted| - 1], sorted[|sorted| - 1];
      InsertSortedKeeps(init, frame);
      InsertSortedPermutes(init, frame);
      var result := InsertSorted(init, frame);
      forall i | 0 <= i < |result| ensures result[i].frameNumber <= last.frameNumber {
        assert result[i] in multiset(init) + multiset{frame};
        assert result[i] in init || result[i] == frame;
      }
    }
  }

  lemma {:induction false} SortFramesSorts(frames: seq<Frame>)
    ensures Sorted(SortFrames(frames)) && multiset(SortFrames(frames)) == multiset(frames)
    decreases |frames|
  {
    if frames != [] {
      var init, last := frames[..|frames| - 1], frames[|frames| - 1];
      SortFramesSorts(init);
      InsertSortedKeeps(SortFrames(init), last);
      InsertSortedPermutes(SortFrames(init), last);
      assert frames == init + [last];
    }
  }

  /** In sorted frames, a number that occurs at all and only once is where it belongs. */
  lemma {:induction false} SortedPosition(frames: seq<Frame>, i: nat)
    requires Sorted(frames) && Distinct(frames) && i < |frames|
    ensures i <= frames[i].frameNumber
  {
    if i > 0 {
      SortedPosition(frames, i - 1);
      assert frames[i - 1].frameNumber != frames[i].frameNumber;
    }
  }

  lemma {:induction false} SortedPositionUpper(frames: seq<Frame>, i: nat)
    requires Sorted(frames) && Distinct(frames) && i < |frames|
    requires forall k :: 0 <= k < |frames| ==> frames[k].frameNumber < |frames|
    ensures frames[i].frameNumber <= i
    decreases |frames| - i
  {
    if i + 1 < |frames| {
      SortedPositionUpper(frames, i + 1);
      assert frames[i].frameNumber != frames[i + 1].frameNumber;
    }
  }

  lemma DistinctOfMultiset(a: seq<Frame>, b: seq<Frame>)
    requires multiset(a) == multiset(b) && Distinct(a) && Sorted(b)
    ensures Distinct(b) && |a| == |b|
  {
    assert |multiset(a)| == |a| && |multiset(b)| == |b|;
    NumbersOfMultiset(a, b);
    DistinctCount(a);
    forall i, j | 0 <= i < j < |b| ensures b[i].frameNumber != b[j].frameNumber {
      if b[i].frameNumber == b[j].frameNumber {
        var rest := b[..j] + b[j + 1..];
        NumbersCount(rest);
        forall n | n in Numbers(b) ensures n in Numbers(rest) {
          var k :| 0 <= k < |b| && b[k].frameNumber == n;
          var k' := if k == j then i else k;
          assert rest[if k' < j then k' else k' - 1] == b[k'];
        }
        SubsetCount(Numbers(b), Numbers(rest));
      }
    }
  }

  lemma NumbersOfMultiset(a: seq<Frame>, b: seq<Frame>)
    requires multiset(a) == multiset(b)
    ensures Numbers(a) == Numbers(b)
  {
    forall f ensures f in a <==> f in b {
      assert f in multiset(a) <==> f in multiset(b);
    }
    forall n | n in Numbers(a) ensures n in Numbers(b) {
      var i :| 0 <= i < |a| && a[i].frameNumber == n;
      assert a[i] in b;
    }
    forall n | n in Numbers(b) ensures n in Numbers(a) {
      var i :| 0 <= i < |b| && b[i].frameNumber == n;
      assert b[i] in a;
    }
  }

  lemma {:induction false} NumbersCount(frames: seq<Frame>)
    ensures |Numbers(frames)| <= |frames|
    decreases |frames|
  {
    if frames != [] {
      var init, last := frames[..|frames| - 1], frames[|frames| - 1];
      NumbersCount(init);
      NumbersSnoc(init, last);
      assert init + [last] == frames;
    }
  }

  lemma {:induction false} SameData(a: seq<Frame>, b: seq<Frame>)
    requires |a| == |b| && forall i :: 0 <= i < |a| ==> a[i].frameData == b[i].frameData
    ensures ConcatData(a) == ConcatData(b)
    decreases |a|
  {
    if a != [] {
      SameData(a[..|a| - 1], b[..|b| - 1]);
    }
  }

  /** A complete channel assembles to the data as it was cut into frames. */
  lemma AssemblesOriginal(original: seq<Frame>, arrivals: seq<Frame>)
    requires WellFormed(original) && arrivals != []
    requires forall f :: f in arrivals ==> ArrivesFrom(original, f)
    requires IsComplete(PendingOf(arrivals))
    ensures Assembled(PendingOf(arrivals)) == ConcatData(original)
  {
    var p := PendingOf(arrivals);
    var sorted := SortFrames(p.frames);
    PendingOfKeeps(original, arrivals);
    CompleteCount(original, p);
    SortFramesSorts(p.frames);
    DistinctOfMultiset(p.frames, sorted);
    forall f | f in sorted ensures ArrivesFrom(original, f) {
      assert f in multiset(sorted);
      assert f in p.frames;
    }
    SortedIsOriginal(original, sorted);
  }

  lemma SortedIsOriginal(original: seq<Frame>, sorted: seq<Frame>)
    requires |sorted| == |original| && Sorted(sorted) && Distinct(sorted)
    requires forall f :: f in sorted ==> ArrivesFrom(original, f)
    ensures ConcatData(sorted) == ConcatData(original)
  {
    forall k | 0 <= k < |sorted| ensures sorted[k].frameNumber < |sorted| {
      assert ArrivesFrom(original, sorted[k]);
    }
    forall i | 0 <= i < |sorted| ensures sorted[i].frameData == original[i].frameData {
      SortedPosition(sorted, i);
      SortedPositionUpper(sorted, i);
      assert ArrivesFrom(original, sorted[i]);
    }
    SameData(sorted, original);
  }

  /**
   For frames that come from no well-formed channel: a channel that counts as complete has
   all the frames below its size exactly when it has no frame at or above it.
   */
  lemma CompleteMeansAllIff(p: Pending)
    requires PendingOk(p) && IsComplete(p) && |p.frames| < U16_RANGE
    ensures (forall k :: 0 <= k < p.size.value ==> HasSeen(p.frames, k))
            <==> (forall i :: 0 <= i < |p.frames| ==> p.frames[i].frameNumber < p.size.value)
  {
    assert |p.frames| == p.size.value;
    AllBelowIff(p.frames);
  }

  /**
   Frames 1, marked last, and 5 of a channel make it complete, though frame 0 has not arrived,
   and it is assembled without it.
   */
  lemma CompleteWithoutFirst(id: nat, l1Block: nat, data: Bytes, more: Bytes) returns (p: Pending)
    ensures p == PendingOf([Frame(id, 1, |data|, data, true, l1Block), Frame(id, 5, |more|, more, false, l1Block)])
    ensures IsComplete(p) && !HasSeen(p.frames, 0) && Assembled(p) == data + more
  {
    var last, far := Frame(id, 1, |data|, data, true, l1Block), Frame(id, 5, |more|, more, false, l1Block);
    assert [last, far][..1] == [last] && [last][..0] == [] && [far][..0] == [];
    p := Pushed(NewPending(last), far);
    assert p.frames == [last, far];
    assert SortFrames([last]) == [last];
    assert SortFrames([last, far]) == [last, far];
    assert ConcatData([last]) == [] + data;
  }

  /** Of as many different frames as n, all below n are there exactly when none is not below n. */
  lemma AllBelowIff(frames: seq<Frame>)
    requires Distinct(frames)
    ensures (forall k :: 0 <= k < |frames| ==> HasSeen(frames, k))
            <==> (forall i :: 0 <= i < |frames| ==> frames[i].frameNumber < |frames|)
  {
    DistinctCount(frames);
    NumbersBelow(frames, |frames|);
    SameCountSubset(Below(|frames|), Numbers(frames));
  }

  lemma SameCountSubset(a: set<nat>, b: set<nat>)
    requires |a| == |b|
    ensures a <= b <==> b <= a
  {
    if a <= b {
      SubsetCount(a, b);
    } else if b <= a {
      SubsetCount(b, a);
    }
  }

  /** Having all frames below n, and none from n on, as facts about the set of numbers. */
  lemma NumbersBelow(frames: seq<Frame>, n: nat)
    ensures (forall k :: 0 <= k < n ==> HasSeen(frames, k)) <==> Below(n) <= Numbers(frames)
    ensures (forall i :: 0 <= i < |frames| ==> frames[i].frameNumber < n) <==> Numbers(frames) <= Below(n)
  {
    forall k: nat ensures HasSeen(frames, k) <==> k in Numbers(frames) {
      SeenIsNumber(frames, k);
    }
    if Below(n) <= Numbers(frames) {
      forall k | 0 <= k < n ensures HasSeen(frames, k) {
        assert k in Below(n);
      }
    }
    if Numbers(frames) <= Below(n) {
      forall i | 0 <= i < |frames| ensures frames[i].frameNumber < n {
        assert frames[i].frameNumber as nat in Numbers(frames);
      }
    }
  }
}

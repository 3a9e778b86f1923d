/** The bank of pending channels and the stage that feeds it (src/derive/stages/channels.rs). */
module Channels {
  import opened Base
  import opened ChannelBank

  type Bank = seq<Pending>

  /** Index of the first pending channel with the id, or the length of the bank. */
  function Position(bank: Bank, id: nat): (i: nat)
    ensures i <= |bank|
    ensures i < |bank| ==> bank[i].channelId == id
    ensures forall j :: 0 <= j < i ==> bank[j].channelId != id
  {
    if bank == [] || bank[0].channelId == id then 0 else Position(bank[1..], id) + 1
  }

  /** Index of the first complete channel with the id, or the length of the bank. */
  function ReadyPosition(bank: Bank, id: nat): (i: nat)
    ensures i <= |bank|
    ensures i < |bank| ==> bank[i].channelId == id && IsComplete(bank[i])
    ensures forall j :: 0 <= j < i ==> !(bank[j].channelId == id && IsComplete(bank[j]))
  {
    if bank == [] || (bank[0].channelId == id && IsComplete(bank[0])) then 0 else ReadyPosition(bank[1..], id) + 1
  }

  lemma PositionIs(bank: Bank, id: nat, i: nat)
    requires i <= |bank| && (i < |bank| ==> bank[i].channelId == id)
    requires forall j :: 0 <= j < i ==> bank[j].channelId != id
    ensures i == Position(bank, id)
  {
  }

  lemma ReadyPositionIs(bank: Bank, id: nat, i: nat)
    requires i <= |bank| && (i < |bank| ==> bank[i].channelId == id && IsComplete(bank[i]))
    requires forall j :: 0 <= j < i ==> !(bank[j].channelId == id && IsComplete(bank[j]))
    ensures i == ReadyPosition(bank, id)
  {
  }

  function Without<T>(s: seq<T>, i: nat): seq<T>
    requires i < |s|
  {
    s[..i] + s[i + 1..]
  }

  function PushInto(bank: Bank, frame: Frame, timeout: nat): Bank {
    var i := Position(bank, frame.channelId);
    if i == |bank| then bank + [NewPending(frame)]
    else if IsTimedOut(Pushed(bank[i], frame), timeout) then Without(bank, i)
    else bank[i := Pushed(bank[i], frame)]
  }

  function DataLength(frames: seq<Frame>): nat {
    if frames == [] then 0 else DataLength(frames[..|frames| - 1]) + frames[|frames| - 1].frameDataLen
  }

  function TotalSize(bank: Bank): nat {
    if bank == [] then 0 else DataLength(bank[0].frames) + TotalSize(bank[1..])
  }

  function Pruned(bank: Bank, max: nat): Bank
    decreases |bank|
  {
    if bank == [] || TotalSize(bank) <= max then bank else Pruned(bank[1..], max)
  }

  function Fetched(bank: Bank, id: nat): (Bank, Option<Channel>) {
    var i := ReadyPosition(bank, id);
    if i == |bank| || bank[i].frames == [] then (bank, None) else (Without(bank, i), Some(ToChannel(bank[i])))
  }

  /** Takes in one frame: push, prune, and fetch its channel if that is ready. */
  function Taken(bank: Bank, frame: Frame, timeout: nat, max: nat): (Bank, Option<Channel>) {
    Fetched(Pruned(PushInto(bank, frame, timeout), max), frame.channelId)
  }

  /** Takes in frames until one completes a channel; what is left of them waits. */
  function Process(bank: Bank, frames: seq<Frame>, timeout: nat, max: nat): (Bank, seq<Frame>, Option<Channel>)
    decreases |frames|
  {
    if frames == [] then (bank, [], None)
    else
      var (bank', ready) := Taken(bank, frames[0], timeout, max);
      if ready.Some? then (bank', frames[1..], ready) else Process(bank', frames[1..], timeout, max)
  }

  lemma ProcessStep(bank: Bank, frames: seq<Frame>, timeout: nat, max: nat)
    requires frames != []
    ensures var (bank', ready) := Taken(bank, frames[0], timeout, max);
            Process(bank, frames, timeout, max)
            == if ready.Some? then (bank', frames[1..], ready) else Process(bank', frames[1..], timeout, max)
  {
  }

  // ------------------------------------------------------------------------- invariant

  ghost predicate ChannelsOk(bank: Bank, timeout: nat) {
    && (forall i :: 0 <= i < |bank| ==> PendingOk(bank[i]) && !IsTimedOut(bank[i], timeout))
    && (forall i, j :: 0 <= i < j < |bank| ==> bank[i].channelId != bank[j].channelId)
  }

  /**
   Between frames: channel ids and frame numbers are unique, the L1 bounds are true, no
   channel has timed out or is complete, and all of them together fit the limit.
   */
  ghost predicate BankOk(bank: Bank, timeout: nat, max: nat) {
    && ChannelsOk(bank, timeout)
    && (forall i :: 0 <= i < |bank| ==> !IsComplete(bank[i]))
    && TotalSize(bank) <= max
  }

  /** Only the channel of the last frame may be complete. */
  ghost predicate OnlyComplete(bank: Bank, id: nat) {
    forall i :: 0 <= i < |bank| && bank[i].channelId != id ==> !IsComplete(bank[i])
  }

  lemma PushIntoKeeps(bank: Bank, frame: Frame, timeout: nat)
    requires ChannelsOk(bank, timeout) && forall i :: 0 <= i < |bank| ==> !IsComplete(bank[i])
    ensures ChannelsOk(PushInto(bank, frame, timeout), timeout)
    ensures OnlyComplete(PushInto(bank, frame, timeout), frame.channelId)
  {
    var i := Position(bank, frame.channelId);
    NewPendingOk(frame);
    if i < |bank| {
      PushedOk(bank[i], frame);
      ReplacedKeeps(bank, i, Pushed(bank[i], frame), timeout);
    }
  }

  /** A channel may be replaced, or dropped if it has timed out. */
  lemma ReplacedKeeps(bank: Bank, i: nat, p: Pending, timeout: nat)
    requires ChannelsOk(bank, timeout) && i < |bank| && PendingOk(p) && p.channelId == bank[i].channelId
    ensures ChannelsOk(Without(bank, i), timeout)
    ensures !IsTimedOut(p, timeout) ==> ChannelsOk(bank[i := p], timeout)
    ensures forall j :: 0 <= j < |Without(bank, i)| ==> Without(bank, i)[j] in bank
  {
  }

  /** Pruning keeps the longest suffix that fits; an empty bank always fits. */
  lemma {:induction false} PrunedIsLongestSuffix(bank: Bank, max: nat)
    ensures TotalSize(Pruned(bank, max)) <= max
    ensures exists k :: 0 <= k <= |bank| && Pruned(bank, max) == bank[k..]
                     && (forall j :: 0 <= j < k ==> TotalSize(bank[j..]) > max)
    decreases |bank|
  {
    if TotalSize(bank) <= max {
      assert bank[0..] == bank;
    } else {
      PrunedIsLongestSuffix(bank[1..], max);
      var k :| 0 <= k <= |bank[1..]| && Pruned(bank[1..], max) == bank[1..][k..]
            && (forall j :: 0 <= j < k ==> TotalSize(bank[1..][j..]) > max);
      assert bank[1..][k..] == bank[k + 1..];
      forall j | 0 <= j < k + 1 ensures TotalSize(bank[j..]) > max {
        if j == 0 {
          assert bank[0..] == bank;
        } else {
          assert bank[j..] == bank[1..][j - 1..];
        }
      }
    }
  }

  lemma SuffixKeeps(bank: Bank, k: nat, timeout: nat, id: nat)
    requires ChannelsOk(bank, timeout) && OnlyComplete(bank, id) && k <= |bank|
    ensures ChannelsOk(bank[k..], timeout) && OnlyComplete(bank[k..], id)
  {
  }

  lemma {:induction false} TotalSizeWithout(bank: Bank, i: nat)
    requires i < |bank|
    ensures TotalSize(Without(bank, i)) <= TotalSize(bank)
    decreases |bank|
  {
    if i == 0 {
      assert Without(bank, 0) == bank[1..];
    } else {
      TotalSizeWithout(bank[1..], i - 1);
      assert Without(bank, i)[1..] == Without(bank[1..], i - 1);
    }
  }

  lemma WithoutKeeps(bank: Bank, i: nat, timeout: nat)
    requires i < |bank| && ChannelsOk(bank, timeout) && OnlyComplete(bank, bank[i].channelId)
    ensures ChannelsOk(Without(bank, i), timeout)
    ensures forall j :: 0 <= j < |Without(bank, i)| ==> !IsComplete(Without(bank, i)[j])
  {
    forall j | 0 <= j < |Without(bank, i)| ensures !IsComplete(Without(bank, i)[j]) {
      var j' := if j < i then j else j + 1;
      assert Without(bank, i)[j] == bank[j'];
      assert bank[j'].channelId != bank[i].channelId;
    }
  }

  lemma FetchedKeeps(bank: Bank, id: nat, timeout: nat, max: nat)
    requires ChannelsOk(bank, timeout) && OnlyComplete(bank, id) && TotalSize(bank) <= max
    ensures BankOk(Fetched(bank, id).0, timeout, max)
    ensures Fetched(bank, id).1.Some? ==>
              exists p :: p in bank && PendingOk(p) && IsComplete(p) && p.channelId == id && Fetched(bank, id).1.value == ToChannel(p)
  {
    var i := ReadyPosition(bank, id);
    if i < |bank| {
      TotalSizeWithout(bank, i);
      WithoutKeeps(bank, i, timeout);
      assert bank[i] in bank;
    } else {
      forall j | 0 <= j < |bank| ensures !IsComplete(bank[j]) {
        assert bank[j].channelId == id ==> !IsComplete(bank[j]);
      }
    }
  }

  /** A channel that comes out was complete, within its timeout, and reports its highest L1 block. */
  ghost predicate SoundChannel(ch: Channel, timeout: nat) {
    exists p :: PendingOk(p) && IsComplete(p) && !IsTimedOut(p, timeout)
             && ch == ToChannel(p) && ch.l1InclusionBlock == p.highest
  }

  lemma FrameKeeps(bank: Bank, frame: Frame, timeout: nat, max: nat)
    requires BankOk(bank, timeout, max)
    ensures var (bank', ready) := Taken(bank, frame, timeout, max);
            BankOk(bank', timeout, max) && (ready.Some? ==> SoundChannel(ready.value, timeout))
  {
    var pushed := PushInto(bank, frame, timeout);
    PushIntoKeeps(bank, frame, timeout);
    PrunedIsLongestSuffix(pushed, max);
    var k :| 0 <= k <= |pushed| && Pruned(pushed, max) == pushed[k..];
    SuffixKeeps(pushed, k, timeout, frame.channelId);
    var pruned := Pruned(pushed, max);
    FetchedKeeps(pruned, frame.channelId, timeout, max);
    var ready := Fetched(pruned, frame.channelId).1;
    if ready.Some? {
      var p :| p in pruned && PendingOk(p) && IsComplete(p) && ready.value == ToChannel(p);
      ChannelAtHighest(p);
    }
  }

  lemma PrunedHaveFrames(bank: Bank, frame: Frame, timeout: nat, max: nat)
    requires BankOk(bank, timeout, max)
    ensures var pruned := Pruned(PushInto(bank, frame, timeout), max);
            forall i :: 0 <= i < |pruned| ==> pruned[i].frames != []
  {
    var pushed := PushInto(bank, frame, timeout);
    PushIntoKeeps(bank, frame, timeout);
    PrunedIsLongestSuffix(pushed, max);
  }

  lemma {:induction false} ProcessKeeps(bank: Bank, frames: seq<Frame>, timeout: nat, max: nat)
    requires BankOk(bank, timeout, max)
    ensures var (bank', rest, ready) := Process(bank, frames, timeout, max);
            BankOk(bank', timeout, max) && (ready.Some? ==> SoundChannel(ready.value, timeout)) && (ready.None? ==> rest == [])
    decreases |frames|
  {
    if frames != [] {
      FrameKeeps(bank, frames[0], timeout, max);
      var (bank', ready) := Taken(bank, frames[0], timeout, max);
      if ready.None? {
        ProcessKeeps(bank', frames[1..], timeout, max);
      }
    }
  }

  /** A call of the stage: a batcher transaction's frames arrive, or the stage is purged. */
  datatype Call = Next(frames: seq<Frame>) | Purge

  /** The bank and the waiting frames after some calls. */
  function AfterCalls(calls: seq<Call>, timeout: nat, max: nat): (Bank, seq<Frame>) {
    if calls == [] then ([], [])
    else
      var (bank, waiting) := AfterCalls(calls[..|calls| - 1], timeout, max);
      match calls[|calls| - 1]
      case Purge => ([], [])
      case Next(frames) =>
        var (bank', rest, _) := Process(bank, waiting + frames, timeout, max);
        (bank', rest)
  }

  /** The bank is in order between any two calls, and what the next call returns is sound. */
  lemma {:induction false} BankAlwaysOk(calls: seq<Call>, frames: seq<Frame>, timeout: nat, max: nat)
    ensures var (bank, waiting) := AfterCalls(calls, timeout, max);
            && BankOk(bank, timeout, max)
            && var ready := Process(bank, waiting + frames, timeout, max).2;
            ready.Some? ==> SoundChannel(ready.value, timeout)
    decreases |calls|
  {
    var (bank, waiting) := AfterCalls(calls, timeout, max);
    if calls != [] {
      var last := calls[|calls| - 1];
      BankAlwaysOk(calls[..|calls| - 1], [], timeout, max);
      var before := AfterCalls(calls[..|calls| - 1], timeout, max);
      if last.Next? {
        ProcessKeeps(before.0, before.1 + last.frames, timeout, max);
      }
    }
    assert BankOk(bank, timeout, max);
    ProcessKeeps(bank, waiting + frames, timeout, max);
  }

  /** A frame touches only its own channel. */
  lemma PushTouchesOneChannel(bank: Bank, frame: Frame, timeout: nat, p: Pending)
    requires ChannelsOk(bank, timeout) && p.channelId != frame.channelId
    ensures p in PushInto(bank, frame, timeout) <==> p in bank
  {
    var i := Position(bank, frame.channelId);
    var bank' := PushInto(bank, frame, timeout);
    if p in bank {
      var j :| 0 <= j < |bank| && bank[j] == p;
      if i < |bank| && IsTimedOut(Pushed(bank[i], frame), timeout) {
        assert bank'[if j < i then j else j - 1] == p;
      } else {
        assert bank'[j] == p;
      }
    }
  }

  // ------------------------------------------------------------------------- the stage

  class PendingChannel {
    const channelId: nat
    var frames: seq<Frame>
    var size: Option<nat>
    var highestL1Block: nat
    var lowestL1Block: nat

    function View(): Pending
      reads this
    {
      Pending(channelId, frames, size, highestL1Block, lowestL1Block)
    }

    constructor (frame: Frame)
      ensures View() == NewPending(frame)
    {
      channelId := frame.channelId;
      frames := [frame];
      size := if frame.isLast then Some((frame.frameNumber + 1) % U16_RANGE) else None;
      highestL1Block, lowestL1Block := frame.l1InclusionBlock, frame.l1InclusionBlock;
    }

    method PushFrame(frame: Frame)
      modifies this
      ensures View() == Pushed(old(View()), frame)
    {
      if !HasSeen(frames, frame.frameNumber) {
        if frame.l1InclusionBlock > highestL1Block {
          highestL1Block := frame.l1InclusionBlock;
        } else if frame.l1InclusionBlock < lowestL1Block {
          lowestL1Block := frame.l1InclusionBlock;
        }
        if frame.isLast {
          size := Some((frame.frameNumber + 1) % U16_RANGE);
        }
        frames := frames + [frame];
      }
    }

    method Assemble() returns (data: Bytes)
      ensures data == Assembled(View())
    {
      var sorted := SortFrames(frames);
      data := [];
      for i := 0 to |sorted|
        invariant data == ConcatData(sorted[..i])
      {
        assert sorted[..i + 1][..i] == sorted[..i];
        data := data + sorted[i].frameData;
      }
      assert sorted[..|sorted|] == sorted;
    }
  }

  function Views(pending: seq<PendingChannel>): (bank: Bank)
    reads pending
    ensures |bank| == |pending|
    ensures forall i :: 0 <= i < |bank| ==> bank[i] == pending[i].View()
  {
    seq(|pending|, i requires 0 <= i < |pending| reads pending => pending[i].View())
  }

  lemma ViewsWithout(pending: seq<PendingChannel>, i: nat)
    requires i < |pending|
    ensures Views(Without(pending, i)) == Without(Views(pending), i)
  {
  }

  class Stage {
    var pendingChannels: seq<PendingChannel>
    var frameBank: seq<Frame>
    const maxChannelSize: nat
    const channelTimeout: nat
    ghost var Repr: set<PendingChannel>

    /** The pending channels are different objects, all of them in Repr. */
    ghost predicate Valid()
      reads this
    {
      && (forall p :: p in pendingChannels ==> p in Repr)
      && (forall i, j :: 0 <= i < j < |pendingChannels| ==> pendingChannels[i] != pendingChannels[j])
    }

    function Contents(): Bank
      reads this, pendingChannels
    {
      Views(pendingChannels)
    }

    constructor (maxChannelSize: nat, channelTimeout: nat)
      ensures Valid() && Contents() == [] && frameBank == []
      ensures this.maxChannelSize == maxChannelSize && this.channelTimeout == channelTimeout
    {
      pendingChannels, frameBank, Repr := [], [], {};
      this.maxChannelSize, this.channelTimeout := maxChannelSize, channelTimeout;
    }

    method Purge()
      modifies this
      ensures Valid() && Contents() == [] && frameBank == []
    {
      pendingChannels := [];
      frameBank := [];
    }

    method FindChannel(id: nat) returns (i: nat)
      ensures i == Position(Contents(), id)
    {
      i := 0;
      while i < |pendingChannels| && pendingChannels[i].channelId != id
        invariant i <= |pendingChannels|
        invariant forall j :: 0 <= j < i ==> Contents()[j].channelId != id
      {
        i := i + 1;
      }
      PositionIs(Contents(), id, i);
    }

    method FindReadyChannel(id: nat) returns (i: nat)
      ensures i == ReadyPosition(Contents(), id)
    {
      i := 0;
      while i < |pendingChannels| && !(pendingChannels[i].channelId == id && IsComplete(pendingChannels[i].View()))
        invariant i <= |pendingChannels|
        invariant forall j :: 0 <= j < i ==> !(Contents()[j].channelId == id && IsComplete(Contents()[j]))
      {
        i := i + 1;
      }
      ReadyPositionIs(Contents(), id, i);
    }

    method PushFrame(frame: Frame)
      requires Valid()
      modifies this`pendingChannels, this`Repr, Repr
      ensures Valid() && fresh(Repr - old(Repr))
      ensures Contents() == PushInto(old(Contents()), frame, channelTimeout)
    {
      ghost var before := Contents();
      var i := FindChannel(frame.channelId);
      if i < |pendingChannels| {
        var p := pendingChannels[i];
        p.PushFrame(frame);
        assert Contents() == before[i := Pushed(before[i], frame)];
        if IsTimedOut(p.View(), channelTimeout) {
          ViewsWithout(pendingChannels, i);
          pendingChannels := Without(pendingChannels, i);
        }
      } else {
        var p := new PendingChannel(frame);
        Repr := Repr + {p};
        pendingChannels := pendingChannels + [p];
        assert Contents() == before + [NewPending(frame)];
      }
    }

    /** Drops the oldest channels until the rest fit. There is one to drop whenever they do not. */
    method Prune()
      requires Valid()
      modifies this`pendingChannels
      ensures Valid()
      ensures Contents() == Pruned(old(Contents()), maxChannelSize)
    {
      while TotalSize(Contents()) > maxChannelSize
        invariant Valid()
        invariant Pruned(Contents(), maxChannelSize) == Pruned(old(Contents()), maxChannelSize)
        decreases |pendingChannels|
      {
        assert pendingChannels != [];
        ghost var before := Contents();
        pendingChannels := pendingChannels[1..];
        assert Contents() == before[1..];
      }
    }

    method FetchReadyChannel(id: nat) returns (ready: Option<Channel>)
      requires Valid() && forall i :: 0 <= i < |Contents()| ==> Contents()[i].frames != []
      modifies this`pendingChannels
      ensures Valid()
      ensures (Contents(), ready) == Fetched(old(Contents()), id)
    {
      ghost var before := Contents();
      var i := FindReadyChannel(id);
      if i == |pendingChannels| {
        return None;
      }
      var p := pendingChannels[i];
      var data := p.Assemble();
      ready := Some(Channel(p.channelId, data, MaxInclusion(p.frames)));
      assert ready.value == ToChannel(before[i]);
      ViewsWithout(pendingChannels, i);
      pendingChannels := Without(pendingChannels, i);
    }

    method TakeFrame(frame: Frame) returns (ready: Option<Channel>)
      requires Valid() && BankOk(Contents(), channelTimeout, maxChannelSize)
      modifies this`pendingChannels, this`Repr, Repr
      ensures Valid() && BankOk(Contents(), channelTimeout, maxChannelSize)
      ensures fresh(Repr - old(Repr))
      ensures (Contents(), ready) == Taken(old(Contents()), frame, channelTimeout, maxChannelSize)
    {
      ghost var before := Contents();
      FrameKeeps(before, frame, channelTimeout, maxChannelSize);
      PrunedHaveFrames(before, frame, channelTimeout, maxChannelSize);
      PushFrame(frame);
      Prune();
      ready := FetchReadyChannel(frame.channelId);
    }

    method ProcessFrames(next: seq<Frame>) returns (ready: Option<Channel>)
      requires Valid() && BankOk(Contents(), channelTimeout, maxChannelSize)
      modifies this, Repr
      ensures Valid() && BankOk(Contents(), channelTimeout, maxChannelSize)
      ensures (Contents(), frameBank, ready) == Process(old(Contents()), old(frameBank) + next, channelTimeout, maxChannelSize)
    {
      frameBank := frameBank + next;
      ghost var result := Process(Contents(), frameBank, channelTimeout, maxChannelSize);
      while frameBank != []
        invariant Valid() && BankOk(Contents(), channelTimeout, maxChannelSize)
        invariant fresh(Repr - old(Repr))
        invariant Process(Contents(), frameBank, channelTimeout, maxChannelSize) == result
        decreases |frameBank|
      {
        ProcessStep(Contents(), frameBank, channelTimeout, maxChannelSize);
        var frame := frameBank[0];
        frameBank := frameBank[1..];
        ready := TakeFrame(frame);
        if ready.Some? {
          return;
        }
      }
      ready := None;
    }
  }
}

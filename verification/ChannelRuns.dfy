/**
 What the channel stage does with all the frames that arrive (src/derive/stages/channels.rs):
 every channel is put together from its own frames, whatever others come between them.
 */
module ChannelRuns {
  import opened Base
  import opened ChannelBank
  import opened Channels

  // ------------------------------------------------------------------- one channel by itself

  /** The frames of one channel, in order of arrival. */
  function FramesOf(id: nat, frames: seq<Frame>): seq<Frame> {
    if frames == [] then []
    else FramesOf(id, frames[..|frames| - 1]) + if frames[|frames| - 1].channelId == id then [frames[|frames| - 1]] else []
  }

  /** The first frame of each number, in order of arrival. */
  function FirstOfEach(frames: seq<Frame>): seq<Frame> {
    if frames == [] then []
    else
      var init, last := FirstOfEach(frames[..|frames| - 1]), frames[|frames| - 1];
      if HasSeen(init, last.frameNumber) then init else init + [last]
  }

  /** Two of the frames are more than the timeout of L1 blocks apart. */
  predicate TooFar(frames: seq<Frame>, timeout: nat) {
    exists i, j :: 0 <= i < |frames| && 0 <= j < |frames| && frames[i].l1InclusionBlock > frames[j].l1InclusionBlock + timeout
  }

  /**
   Of the frames of one channel, those that it is now being put together from: all since it was
   last given up because they were too far apart, or came out.
   */
  ghost function Open(arrivals: seq<Frame>, timeout: nat): seq<Frame>
    decreases |arrivals|
  {
    if arrivals == [] then []
    else
      var now := Open(arrivals[..|arrivals| - 1], timeout) + [arrivals[|arrivals| - 1]];
      if TooFar(FirstOfEach(now), timeout) || IsComplete(PendingOf(now)) then [] else now
  }

  /** What comes out with the last of the frames of one channel. */
  ghost function ComesOut(arrivals: seq<Frame>, timeout: nat): Option<Channel>
    requires arrivals != []
  {
    var now := Open(arrivals[..|arrivals| - 1], timeout) + [arrivals[|arrivals| - 1]];
    if TooFar(FirstOfEach(now), timeout) || !IsComplete(PendingOf(now)) then None
    else PendingHasFrames(now); Some(ToChannel(PendingOf(now)))
  }

  lemma {:induction false} PendingHasFrames(arrivals: seq<Frame>)
    requires arrivals != []
    ensures PendingOf(arrivals).frames != []
    decreases |arrivals|
  {
    if |arrivals| > 1 {
      PendingHasFrames(arrivals[..|arrivals| - 1]);
    }
  }

  /** What is kept of a channel's frames is the first of each number, with their true bounds. */
  lemma {:induction false} PendingIs(arrivals: seq<Frame>, id: nat)
    requires arrivals != [] && forall f :: f in arrivals ==> f.channelId == id
    ensures var p := PendingOf(arrivals); PendingOk(p) && p.channelId == id && p.frames == FirstOfEach(arrivals)
    decreases |arrivals|
  {
    hide PendingOk;
    var init, last := arrivals[..|arrivals| - 1], arrivals[|arrivals| - 1];
    if init == [] {
      NewPendingOk(last);
      assert FirstOfEach(arrivals) == [last];
    } else {
      PendingIs(init, id);
      PushedOk(PendingOf(init), last);
    }
  }

  /** It has timed out exactly when two of these are too far apart. */
  lemma TimedOutIff(p: Pending, timeout: nat)
    requires PendingOk(p)
    ensures IsTimedOut(p, timeout) <==> TooFar(p.frames, timeout)
  {
    var h :| 0 <= h < |p.frames| && p.frames[h].l1InclusionBlock == p.highest;
    var l :| 0 <= l < |p.frames| && p.frames[l].l1InclusionBlock == p.lowest;
    if IsTimedOut(p, timeout) {
      assert p.frames[h].l1InclusionBlock > p.frames[l].l1InclusionBlock + timeout;
    }
  }

  // -------------------------------------------------------------------- the bank, by channels

  /** The pending channel with the id. */
  function Held(bank: Bank, id: nat): Option<Pending> {
    var i := Position(bank, id);
    if i < |bank| then Some(bank[i]) else None
  }

  lemma HeldIs(bank: Bank, timeout: nat, i: nat)
    requires ChannelsOk(bank, timeout) && i < |bank|
    ensures Held(bank, bank[i].channelId) == Some(bank[i])
  {
    assert forall j :: 0 <= j < i ==> bank[j].channelId != bank[i].channelId;
    PositionIs(bank, bank[i].channelId, i);
  }

  lemma HeldNone(bank: Bank, id: nat)
    requires forall i :: 0 <= i < |bank| ==> bank[i].channelId != id
    ensures Held(bank, id) == None
  {
    PositionIs(bank, id, |bank|);
  }

  /** Banks with the same channels under an id hold the same. */
  lemma SameHeld(bank: Bank, bank': Bank, timeout: nat, id: nat)
    requires ChannelsOk(bank, timeout) && ChannelsOk(bank', timeout)
    requires forall p: Pending :: p.channelId == id ==> (p in bank <==> p in bank')
    ensures Held(bank, id) == Held(bank', id)
  {
    match Held(bank, id)
    case Some(p) =>
      assert p in bank';
      var i :| 0 <= i < |bank'| && bank'[i] == p;
      HeldIs(bank', timeout, i);
    case None =>
      forall i | 0 <= i < |bank'| ensures bank'[i].channelId != id {
        if bank'[i].channelId == id {
          assert bank'[i] in bank;
          var j :| 0 <= j < |bank| && bank[j] == bank'[i];
          HeldIs(bank, timeout, j);
        }
      }
      HeldNone(bank', id);
  }

  lemma WithoutHeld(bank: Bank, timeout: nat, i: nat, id: nat)
    requires ChannelsOk(bank, timeout) && i < |bank| && ChannelsOk(Without(bank, i), timeout)
    ensures Held(Without(bank, i), id) == if id == bank[i].channelId then None else Held(bank, id)
  {
    var rest := Without(bank, i);
    if id == bank[i].channelId {
      forall j | 0 <= j < |rest| ensures rest[j].channelId != id {
        assert rest[j] == bank[if j < i then j else j + 1];
      }
      HeldNone(rest, id);
    } else {
      forall p: Pending | p.channelId == id ensures p in bank <==> p in rest {
        if p in bank {
          var j :| 0 <= j < |bank| && bank[j] == p;
          assert rest[if j < i then j else j - 1] == p;
        }
      }
      SameHeld(bank, rest, timeout, id);
    }
  }

  /** What the bank holds of each channel after a frame was pushed. */
  ghost function AfterPush(held: Option<Pending>, frame: Frame, timeout: nat): Option<Pending> {
    match held
    case None => Some(NewPending(frame))
    case Some(p) => if IsTimedOut(Pushed(p, frame), timeout) then None else Some(Pushed(p, frame))
  }

  lemma PushHeld(bank: Bank, frame: Frame, timeout: nat, id: nat)
    requires ChannelsOk(bank, timeout) && ChannelsOk(PushInto(bank, frame, timeout), timeout)
    ensures Held(PushInto(bank, frame, timeout), id)
         == if id == frame.channelId then AfterPush(Held(bank, id), frame, timeout) else Held(bank, id)
  {
    hide PendingOk;
    var bank' := PushInto(bank, frame, timeout);
    if id != frame.channelId {
      forall p: Pending | p.channelId == id ensures p in bank <==> p in bank' {
        PushTouchesOneChannel(bank, frame, timeout, p);
      }
      SameHeld(bank, bank', timeout, id);
    } else {
      var i := Position(bank, id);
      if i < |bank| && IsTimedOut(Pushed(bank[i], frame), timeout) {
        WithoutHeld(bank, timeout, i, id);
      } else {
        HeldIs(bank', timeout, i);
      }
    }
  }

  /** Fetching takes a complete channel out, and leaves the bank alone if there is none. */
  lemma FetchHeld(bank: Bank, id: nat, timeout: nat, id': nat)
    requires ChannelsOk(bank, timeout)
    ensures var (bank', ready) := Fetched(bank, id);
            match Held(bank, id)
            case Some(p) =>
              if IsComplete(p) then
                && p.frames != [] && ready == Some(ToChannel(p))
                && (ChannelsOk(bank', timeout) ==> Held(bank', id') == if id' == id then None else Held(bank, id'))
              else bank' == bank && ready == None
            case None => bank' == bank && ready == None
  {
    var i := ReadyPosition(bank, id);
    if i < |bank| {
      HeldIs(bank, timeout, i);
      if ChannelsOk(Without(bank, i), timeout) {
        WithoutHeld(bank, timeout, i, id');
      }
    }
  }

  // ---------------------------------------------------------------------------------- room

  lemma {:induction false} SizeReplaced(bank: Bank, i: nat, p: Pending, extra: nat)
    requires i < |bank| && DataLength(p.frames) <= DataLength(bank[i].frames) + extra
    ensures TotalSize(bank[i := p]) <= TotalSize(bank) + extra
    decreases |bank|
  {
    if i > 0 {
      SizeReplaced(bank[1..], i - 1, p, extra);
      assert bank[i := p][1..] == bank[1..][i - 1 := p];
    } else {
      assert bank[0 := p][1..] == bank[1..];
    }
  }

  lemma {:induction false} SizeSnoc(bank: Bank, p: Pending)
    ensures TotalSize(bank + [p]) == TotalSize(bank) + DataLength(p.frames)
    decreases |bank|
  {
    if bank == [] {
      assert ([] + [p])[1..] == [];
    } else {
      SizeSnoc(bank[1..], p);
      assert (bank + [p])[1..] == bank[1..] + [p];
    }
  }

  lemma LengthSnoc(frames: seq<Frame>, frame: Frame)
    ensures DataLength(frames + [frame]) == DataLength(frames) + frame.frameDataLen
  {
    assert (frames + [frame])[..|frames|] == frames;
  }

  /** A frame adds at most its own length. */
  lemma PushSize(bank: Bank, frame: Frame, timeout: nat)
    ensures TotalSize(PushInto(bank, frame, timeout)) <= TotalSize(bank) + frame.frameDataLen
  {
    hide TotalSize, DataLength;
    var i := Position(bank, frame.channelId);
    if i == |bank| {
      LengthSnoc([], frame);
      assert [] + [frame] == [frame];
      assert DataLength([]) == 0 by { NoLength(); }
      SizeSnoc(bank, NewPending(frame));
    } else {
      LengthSnoc(bank[i].frames, frame);
      SizeReplaced(bank, i, Pushed(bank[i], frame), frame.frameDataLen);
      TotalSizeWithout(bank, i);
    }
  }

  lemma NoLength()
    ensures DataLength([]) == 0
  {
  }

  // ------------------------------------------------------------------------- frame by frame

  /** The bank after some frames were taken in, from the start or the last purge. */
  function Fed(frames: seq<Frame>, timeout: nat, max: nat): Bank {
    if frames == [] then []
    else Taken(Fed(frames[..|frames| - 1], timeout, max), frames[|frames| - 1], timeout, max).0
  }

  lemma {:induction false} FedOk(frames: seq<Frame>, timeout: nat, max: nat)
    ensures BankOk(Fed(frames, timeout, max), timeout, max)
    decreases |frames|
  {
    if frames != [] {
      FedOk(frames[..|frames| - 1], timeout, max);
      FrameKeeps(Fed(frames[..|frames| - 1], timeout, max), frames[|frames| - 1], timeout, max);
    }
  }

  /** Each frame, when its turn comes, fits the bank, so that nothing has to be pruned. */
  predicate RoomFor(frames: seq<Frame>, timeout: nat, max: nat) {
    forall j :: 0 <= j < |frames| ==> TotalSize(Fed(frames[..j], timeout, max)) + frames[j].frameDataLen <= max
  }

  lemma RoomBefore(frames: seq<Frame>, timeout: nat, max: nat)
    requires frames != [] && RoomFor(frames, timeout, max)
    ensures RoomFor(frames[..|frames| - 1], timeout, max)
    ensures TotalSize(Fed(frames[..|frames| - 1], timeout, max)) + frames[|frames| - 1].frameDataLen <= max
  {
    hide Fed, TotalSize;
    var init := frames[..|frames| - 1];
    forall j | 0 <= j < |init| ensures TotalSize(Fed(init[..j], timeout, max)) + init[j].frameDataLen <= max {
      assert init[..j] == frames[..j];
    }
  }

  /** What one channel is, by itself, after a frame. */
  ghost predicate Represents(held: Option<Pending>, open: seq<Frame>) {
    held == if open == [] then None else Some(PendingOf(open))
  }

  lemma {:induction false} FramesOfId(id: nat, frames: seq<Frame>)
    ensures forall f :: f in FramesOf(id, frames) ==> f.channelId == id && f in frames
    decreases |frames|
  {
    if frames != [] {
      FramesOfId(id, frames[..|frames| - 1]);
    }
  }

  lemma {:induction false} OpenIsSuffix(arrivals: seq<Frame>, timeout: nat)
    ensures forall f :: f in Open(arrivals, timeout) ==> f in arrivals
    decreases |arrivals|
  {
    hide TooFar, FirstOfEach, IsComplete, PendingOf;
    if arrivals != [] {
      OpenIsSuffix(arrivals[..|arrivals| - 1], timeout);
    }
  }

  /** One frame of a channel, as it changes what is held of it, and as it changes what is open. */
  lemma FrameRepresented(open: seq<Frame>, frame: Frame, timeout: nat)
    requires forall f :: f in open ==> f.channelId == frame.channelId
    ensures var now := open + [frame];
            var held := if open == [] then None else Some(PendingOf(open));
            && AfterPush(held, frame, timeout)
               == (if TooFar(FirstOfEach(now), timeout) then None else Some(PendingOf(now)))
  {
    var now := open + [frame];
    assert now[..|open|] == open;
    PendingIs(now, frame.channelId);
    TimedOutIff(PendingOf(now), timeout);
  }

  lemma TakenRepresents(bank: Bank, frame: Frame, timeout: nat, max: nat, open: seq<Frame>)
    requires BankOk(bank, timeout, max) && TotalSize(bank) + frame.frameDataLen <= max
    requires Represents(Held(bank, frame.channelId), open) && forall f :: f in open ==> f.channelId == frame.channelId
    ensures var now := open + [frame];
            var (bank', ready) := Taken(bank, frame, timeout, max);
            && BankOk(bank', timeout, max)
            && (forall id :: id != frame.channelId ==> Held(bank', id) == Held(bank, id))
            && if TooFar(FirstOfEach(now), timeout) then ready == None && Represents(Held(bank', frame.channelId), [])
               else if IsComplete(PendingOf(now)) then
                 PendingOf(now).frames != [] && ready == Some(ToChannel(PendingOf(now))) && Represents(Held(bank', frame.channelId), [])
               else ready == None && Represents(Held(bank', frame.channelId), now)
  {
    hide PendingOk, IsComplete, TooFar, FirstOfEach, PendingOf, ToChannel, IsTimedOut, TotalSize;
    var pushed := PushInto(bank, frame, timeout);
    PushIntoKeeps(bank, frame, timeout);
    PushSize(bank, frame, timeout);
    assert Pruned(pushed, max) == pushed;
    FrameKeeps(bank, frame, timeout, max);
    FrameRepresented(open, frame, timeout);
    PushHeld(bank, frame, timeout, frame.channelId);
    FetchHeld(pushed, frame.channelId, timeout, frame.channelId);
    forall id | id != frame.channelId ensures Held(Taken(bank, frame, timeout, max).0, id) == Held(bank, id) {
      PushHeld(bank, frame, timeout, id);
      FetchHeld(pushed, frame.channelId, timeout, id);
    }
  }

  lemma FramesOfSnoc(id: nat, frames: seq<Frame>, frame: Frame)
    ensures FramesOf(id, frames + [frame]) == if frame.channelId == id then FramesOf(id, frames) + [frame] else FramesOf(id, frames)
  {
    assert (frames + [frame])[..|frames|] == frames;
  }

  lemma OpenSnoc(arrivals: seq<Frame>, frame: Frame, timeout: nat)
    ensures var now := Open(arrivals, timeout) + [frame];
            && Open(arrivals + [frame], timeout)
               == (if TooFar(FirstOfEach(now), timeout) || IsComplete(PendingOf(now)) then [] else now)
            && ComesOut(arrivals + [frame], timeout)
               == (if TooFar(FirstOfEach(now), timeout) || !IsComplete(PendingOf(now)) then None
                   else PendingHasFrames(now); Some(ToChannel(PendingOf(now))))
  {
    assert (arrivals + [frame])[..|arrivals|] == arrivals;
  }

  /** What the last frame does to the bank, and what it brings out. */
  lemma LastFrame(frames: seq<Frame>, timeout: nat, max: nat, id: nat)
    requires frames != [] && RoomFor(frames, timeout, max)
    requires var init, last := frames[..|frames| - 1], frames[|frames| - 1];
             && Represents(Held(Fed(init, timeout, max), last.channelId), Open(FramesOf(last.channelId, init), timeout))
             && Represents(Held(Fed(init, timeout, max), id), Open(FramesOf(id, init), timeout))
    ensures Represents(Held(Fed(frames, timeout, max), id), Open(FramesOf(id, frames), timeout))
    ensures var init, last := frames[..|frames| - 1], frames[|frames| - 1];
            && FramesOf(last.channelId, frames) != []
            && Taken(Fed(init, timeout, max), last, timeout, max).1 == ComesOut(FramesOf(last.channelId, frames), timeout)
  {
    hide Open, ComesOut, FramesOf, Taken, BankOk, RoomFor, Represents, FirstOfEach, IsComplete, TooFar, Held, PendingOf, ToChannel;
    var init, last := frames[..|frames| - 1], frames[|frames| - 1];
    assert frames == init + [last];
    RoomBefore(frames, timeout, max);
    FedOk(init, timeout, max);
    FramesOfId(last.channelId, init);
    OpenIsSuffix(FramesOf(last.channelId, init), timeout);
    TakenRepresents(Fed(init, timeout, max), last, timeout, max, Open(FramesOf(last.channelId, init), timeout));
    OpenSnoc(FramesOf(last.channelId, init), last, timeout);
    FramesOfSnoc(id, init, last);
    FramesOfSnoc(last.channelId, init, last);
  }

  lemma {:induction false} ChannelIs(frames: seq<Frame>, timeout: nat, max: nat, id: nat)
    requires RoomFor(frames, timeout, max)
    ensures Represents(Held(Fed(frames, timeout, max), id), Open(FramesOf(id, frames), timeout))
    decreases |frames|
  {
    if frames == [] {
      NothingHeld(timeout, max);
    } else {
      hide Open, FramesOf, Fed, RoomFor, Represents, Held;
      var init, last := frames[..|frames| - 1], frames[|frames| - 1];
      RoomBefore(frames, timeout, max);
      ChannelIs(init, timeout, max, last.channelId);
      ChannelIs(init, timeout, max, id);
      LastFrame(frames, timeout, max, id);
    }
  }

  /**
   Channels do not disturb one another. As long as nothing has to be pruned, the bank holds of each
   channel just what comes of the channel's own frames, and a frame brings out just what they
   bring out, whatever frames of other channels come in between.
   */
  lemma ChannelsAreIndependent(frames: seq<Frame>, timeout: nat, max: nat)
    requires RoomFor(frames, timeout, max)
    ensures forall id :: Represents(Held(Fed(frames, timeout, max), id), Open(FramesOf(id, frames), timeout))
    ensures frames != [] ==>
              var init, last := frames[..|frames| - 1], frames[|frames| - 1];
              && FramesOf(last.channelId, frames) != []
              && Taken(Fed(init, timeout, max), last, timeout, max).1 == ComesOut(FramesOf(last.channelId, frames), timeout)
  {
    hide Open, ComesOut, FramesOf, Fed, RoomFor, Represents, Held, Taken;
    forall id ensures Represents(Held(Fed(frames, timeout, max), id), Open(FramesOf(id, frames), timeout)) {
      ChannelIs(frames, timeout, max, id);
    }
    if frames != [] {
      var init, last := frames[..|frames| - 1], frames[|frames| - 1];
      RoomBefore(frames, timeout, max);
      ChannelIs(init, timeout, max, last.channelId);
      LastFrame(frames, timeout, max, last.channelId);
    }
  }

  lemma NothingHeld(timeout: nat, max: nat)
    ensures forall id :: Represents(Held(Fed([], timeout, max), id), Open(FramesOf(id, []), timeout))
  {
  }

  // ------------------------------------------------------------------------ call by call

  /** What a call takes in: the waiting frames and the new ones, up to those it leaves waiting. */
  function TakenBy(bank: Bank, frames: seq<Frame>, timeout: nat, max: nat): seq<Frame> {
    var rest := Process(bank, frames, timeout, max).1;
    if |rest| <= |frames| then frames[..|frames| - |rest|] else []
  }

  /** What some calls have taken in since the last purge. */
  function TakenSince(calls: seq<Call>, timeout: nat, max: nat): seq<Frame> {
    if calls == [] then []
    else
      match calls[|calls| - 1]
      case Purge => []
      case Next(frames) =>
        var (bank, waiting) := AfterCalls(calls[..|calls| - 1], timeout, max);
        TakenSince(calls[..|calls| - 1], timeout, max) + TakenBy(bank, waiting + frames, timeout, max)
  }

  /** All frames that arrived since the last purge. */
  function ArrivedSince(calls: seq<Call>): seq<Frame> {
    if calls == [] then []
    else
      match calls[|calls| - 1]
      case Purge => []
      case Next(frames) => ArrivedSince(calls[..|calls| - 1]) + frames
  }

  lemma FedSnoc(frames: seq<Frame>, frame: Frame, timeout: nat, max: nat)
    ensures Fed(frames + [frame], timeout, max) == Taken(Fed(frames, timeout, max), frame, timeout, max).0
  {
    assert (frames + [frame])[..|frames|] == frames;
  }

  /** What frame j of some frames brings out, after others. */
  function BroughtOut(before: seq<Frame>, frames: seq<Frame>, j: nat, timeout: nat, max: nat): Option<Channel>
    requires j < |frames|
  {
    Taken(Fed(before + frames[..j], timeout, max), frames[j], timeout, max).1
  }

  /**
   The result of taking frames in until one brings a channel out, or all are taken: the bank, the
   frames left, which are not all if there are any, and the channel that the last one taken brought.
   */
  ghost predicate StopsRight(
    before: seq<Frame>, frames: seq<Frame>, result: (Bank, seq<Frame>, Option<Channel>), timeout: nat, max: nat)
  {
    var (bank, rest, ready) := result;
    && |rest| <= |frames| && rest == frames[|frames| - |rest|..] && (frames != [] ==> |rest| < |frames|)
    && bank == Fed(before + frames[..|frames| - |rest|], timeout, max)
    && (forall j :: 0 <= j < |frames| - |rest| - 1 ==> BroughtOut(before, frames, j, timeout, max) == None)
    && (frames != [] ==> BroughtOut(before, frames, |frames| - |rest| - 1, timeout, max) == ready)
    && (ready == None ==> rest == []) && (frames == [] ==> ready == None)
  }

  lemma StopsAtFirst(before: seq<Frame>, frames: seq<Frame>, timeout: nat, max: nat)
    requires frames != []
    ensures var (bank, ready) := Taken(Fed(before, timeout, max), frames[0], timeout, max);
            ready.Some? ==> StopsRight(before, frames, (bank, frames[1..], ready), timeout, max)
  {
    hide Fed, Taken;
    FedSnoc(before, frames[0], timeout, max);
    var rest := frames[1..];
    assert |frames| - |rest| == 1;
    assert before + frames[..0] == before;
    assert before + frames[..1] == before + [frames[0]];
  }

  lemma StopsLater(
    before: seq<Frame>, frames: seq<Frame>, result: (Bank, seq<Frame>, Option<Channel>), timeout: nat, max: nat)
    requires frames != [] && Taken(Fed(before, timeout, max), frames[0], timeout, max).1 == None
    requires StopsRight(before + [frames[0]], frames[1..], result, timeout, max)
    ensures StopsRight(before, frames, result, timeout, max)
  {
    hide Fed, Taken;
    var (bank, rest, ready) := result;
    var others, n := frames[1..], |frames| - |rest|;
    assert before + [frames[0]] + others[..n - 1] == before + frames[..n];
    assert others[n - 1..] == frames[n..];
    forall j | 0 <= j < |frames|
      ensures BroughtOut(before, frames, j, timeout, max)
           == if j == 0 then None else BroughtOut(before + [frames[0]], others, j - 1, timeout, max)
    {
      if j == 0 {
        assert before + frames[..0] == before;
      } else {
        assert before + [frames[0]] + others[..j - 1] == before + frames[..j];
      }
    }
  }

  lemma {:induction false} ProcessIs(before: seq<Frame>, frames: seq<Frame>, timeout: nat, max: nat)
    ensures StopsRight(before, frames, Process(Fed(before, timeout, max), frames, timeout, max), timeout, max)
    decreases |frames|
  {
    hide Fed, Taken;
    if frames == [] {
      assert before + [] == before;
    } else {
      hide StopsRight;
      ProcessStep(Fed(before, timeout, max), frames, timeout, max);
      StopsAtFirst(before, frames, timeout, max);
      FedSnoc(before, frames[0], timeout, max);
      if Taken(Fed(before, timeout, max), frames[0], timeout, max).1 == None {
        ProcessIs(before + [frames[0]], frames[1..], timeout, max);
        StopsLater(before, frames, Process(Fed(before, timeout, max), frames, timeout, max), timeout, max);
      }
    }
  }

  /** Between calls the bank is what comes of the frames taken in, and the frames still waiting are the others. */
  lemma {:induction false} CallsAreFed(calls: seq<Call>, timeout: nat, max: nat)
    ensures var (bank, waiting) := AfterCalls(calls, timeout, max);
            && bank == Fed(TakenSince(calls, timeout, max), timeout, max)
            && TakenSince(calls, timeout, max) + waiting == ArrivedSince(calls)
    decreases |calls|
  {
    hide Fed, Process;
    if calls == [] || calls[|calls| - 1].Purge? {
      NothingFed(timeout, max);
    } else {
      var init, frames := calls[..|calls| - 1], calls[|calls| - 1].frames;
      CallsAreFed(init, timeout, max);
      var (bank, waiting) := AfterCalls(init, timeout, max);
      CallIsFed(TakenSince(init, timeout, max), waiting, frames, timeout, max);
    }
  }

  lemma StopsParts(before: seq<Frame>, frames: seq<Frame>, result: (Bank, seq<Frame>, Option<Channel>), timeout: nat, max: nat)
    requires StopsRight(before, frames, result, timeout, max)
    ensures var (bank, rest, _) := result;
            && |rest| <= |frames| && frames == frames[..|frames| - |rest|] + rest
            && bank == Fed(before + frames[..|frames| - |rest|], timeout, max)
  {
    hide Fed, BroughtOut;
    var n := |frames| - |result.1|;
    assert frames == frames[..n] + frames[n..];
  }

  lemma CallIsFed(before: seq<Frame>, waiting: seq<Frame>, frames: seq<Frame>, timeout: nat, max: nat)
    ensures var all := waiting + frames;
            var (bank, rest, _) := Process(Fed(before, timeout, max), all, timeout, max);
            var taken := TakenBy(Fed(before, timeout, max), all, timeout, max);
            bank == Fed(before + taken, timeout, max) && before + taken + rest == before + waiting + frames
  {
    hide Fed, Process, StopsRight;
    var all := waiting + frames;
    ProcessIs(before, all, timeout, max);
    StopsParts(before, all, Process(Fed(before, timeout, max), all, timeout, max), timeout, max);
    var rest := Process(Fed(before, timeout, max), all, timeout, max).1;
    assert before + all[..|all| - |rest|] + rest == before + (all[..|all| - |rest|] + rest);
    assert before + all == before + waiting + frames;
  }

  lemma NothingFed(timeout: nat, max: nat)
    ensures Fed([], timeout, max) == []
  {
  }

  // ------------------------------------------------------------- a channel that is all there

  /** The frames kept of a part are the first of those kept of the whole. */
  lemma FirstOfEachGrows(frames: seq<Frame>, frame: Frame)
    ensures FirstOfEach(frames) <= FirstOfEach(frames + [frame])
  {
    assert (frames + [frame])[..|frames|] == frames;
  }

  /** Frames of one well-formed channel that are not all there, and not too far apart, stay open. */
  lemma {:induction false} OpenStays(original: seq<Frame>, arrivals: seq<Frame>, timeout: nat)
    requires WellFormed(original) && forall f :: f in arrivals ==> ArrivesFrom(original, f)
    requires !AllArrived(original, arrivals) && !TooFar(FirstOfEach(arrivals), timeout)
    ensures Open(arrivals, timeout) == arrivals
    decreases |arrivals|
  {
    hide ArrivesFrom, WellFormed, AllArrived, IsComplete, PendingOf;
    if arrivals != [] {
      var init, last := arrivals[..|arrivals| - 1], arrivals[|arrivals| - 1];
      assert arrivals == init + [last];
      FirstOfEachGrows(init, last);
      FewerArrived(original, init, last);
      NearBefore(FirstOfEach(init), FirstOfEach(arrivals), timeout);
      hide FirstOfEach, TooFar;
      OpenStays(original, init, timeout);
      CompleteIffAllArrived(original, arrivals);
    }
  }

  lemma FewerArrived(original: seq<Frame>, init: seq<Frame>, last: Frame)
    ensures AllArrived(original, init) ==> AllArrived(original, init + [last])
  {
    forall k | 0 <= k < |original| && HasSeen(init, k) ensures HasSeen(init + [last], k) {
      var i :| 0 <= i < |init| && init[i].frameNumber == k;
      assert (init + [last])[i].frameNumber == k;
    }
  }

  lemma NearBefore(init: seq<Frame>, frames: seq<Frame>, timeout: nat)
    requires init <= frames && !TooFar(frames, timeout)
    ensures !TooFar(init, timeout)
  {
    forall i, j | 0 <= i < |init| && 0 <= j < |init| ensures init[i].l1InclusionBlock <= init[j].l1InclusionBlock + timeout {
      assert init[i] == frames[i] && init[j] == frames[j];
    }
  }

  /** With the frame that completes a well-formed channel its original data come out. */
  lemma LastBringsOut(original: seq<Frame>, arrivals: seq<Frame>, timeout: nat)
    requires WellFormed(original) && arrivals != [] && forall f :: f in arrivals ==> ArrivesFrom(original, f)
    requires AllArrived(original, arrivals) && !AllArrived(original, arrivals[..|arrivals| - 1])
    requires !TooFar(FirstOfEach(arrivals), timeout)
    ensures FirstOfEach(arrivals) != []
    ensures ComesOut(arrivals, timeout)
         == Some(Channel(original[0].channelId, ConcatData(original), MaxInclusion(FirstOfEach(arrivals))))
  {
    hide AllArrived, IsComplete, Assembled;
    var init, last := arrivals[..|arrivals| - 1], arrivals[|arrivals| - 1];
    assert arrivals == init + [last];
    FirstOfEachGrows(init, last);
    NearBefore(FirstOfEach(init), FirstOfEach(arrivals), timeout);
    OpenStays(original, init, timeout);
    CompleteIffAllArrived(original, arrivals);
    AssemblesOriginal(original, arrivals);
    SameChannel(original, arrivals);
    PendingIs(arrivals, original[0].channelId);
  }

  lemma SameChannel(original: seq<Frame>, arrivals: seq<Frame>)
    requires WellFormed(original) && forall f :: f in arrivals ==> ArrivesFrom(original, f)
    ensures forall f :: f in arrivals ==> f.channelId == original[0].channelId
  {
  }

  /** Frame j of those that a call takes in is the last that a well-formed channel waits for. */
  ghost predicate Completes(original: seq<Frame>, seen: seq<Frame>, frame: Frame, timeout: nat) {
    && WellFormed(original) && frame.channelId == original[0].channelId
    && var arrivals := FramesOf(frame.channelId, seen + [frame]);
    && (forall f :: f in arrivals ==> ArrivesFrom(original, f))
    && AllArrived(original, arrivals) && !AllArrived(original, FramesOf(frame.channelId, seen))
    && !TooFar(FirstOfEach(arrivals), timeout)
  }

  lemma CompletingBringsOut(original: seq<Frame>, seen: seq<Frame>, frame: Frame, timeout: nat, max: nat)
    requires Completes(original, seen, frame, timeout) && RoomFor(seen + [frame], timeout, max)
    ensures var kept := FirstOfEach(FramesOf(frame.channelId, seen + [frame]));
            kept != []
            && Taken(Fed(seen, timeout, max), frame, timeout, max).1
               == Some(Channel(frame.channelId, ConcatData(original), MaxInclusion(kept)))
  {
    hide Taken, Fed, RoomFor, FramesOf, ComesOut, TooFar, FirstOfEach, WellFormed, AllArrived, ArrivesFrom, ConcatData;
    var all := seen + [frame];
    assert all[..|all| - 1] == seen;
    ChannelsAreIndependent(all, timeout, max);
    FramesOfSnoc(frame.channelId, seen, frame);
    var arrivals := FramesOf(frame.channelId, all);
    assert arrivals[..|arrivals| - 1] == FramesOf(frame.channelId, seen);
    LastBringsOut(original, arrivals, timeout);
  }

  /**
   Every channel that is sent comes out. Take any calls and one more. When frame j of what waits and
   what arrives is taken in by it, and is the last that a well-formed channel waits for, whatever
   the order and repetitions of the channel's frames and whatever frames of others came in
   between, with its frames near enough and nothing to prune, then the call stops at this
   frame and returns the channel: its original data, and the highest L1 block of its frames.
   */
  lemma ChannelComesOut(calls: seq<Call>, frames: seq<Frame>, original: seq<Frame>, j: nat, timeout: nat, max: nat)
    requires var (bank, waiting) := AfterCalls(calls, timeout, max);
             var all := waiting + frames;
             && j < |TakenBy(bank, all, timeout, max)| <= |all|
             && var seen := TakenSince(calls, timeout, max) + all[..j];
             Completes(original, seen, all[j], timeout) && RoomFor(seen + [all[j]], timeout, max)
    ensures var (bank, waiting) := AfterCalls(calls, timeout, max);
            var all := waiting + frames;
            var kept := FirstOfEach(FramesOf(all[j].channelId, TakenSince(calls, timeout, max) + all[..j] + [all[j]]));
            && j == |TakenBy(bank, all, timeout, max)| - 1 && kept != []
            && Process(bank, all, timeout, max).2
               == Some(Channel(original[0].channelId, ConcatData(original), MaxInclusion(kept)))
  {
    hide Process, Fed, Taken, Completes, RoomFor, FirstOfEach, FramesOf, AfterCalls, TakenSince, ConcatData;
    CallsAreFed(calls, timeout, max);
    var (bank, waiting) := AfterCalls(calls, timeout, max);
    var before, all := TakenSince(calls, timeout, max), waiting + frames;
    ProcessIs(before, all, timeout, max);
    CompletingBringsOut(original, before + all[..j], all[j], timeout, max);
    SameId(original, before + all[..j], all[j], timeout);
    assert BroughtOut(before, all, j, timeout, max) != None;
  }

  lemma SameId(original: seq<Frame>, seen: seq<Frame>, frame: Frame, timeout: nat)
    requires Completes(original, seen, frame, timeout)
    ensures original != [] && frame.channelId == original[0].channelId
  {
  }

  /** A call takes in at least one frame if there is one, so that each waits for so many calls at most. */
  lemma CallTakesOne(calls: seq<Call>, frames: seq<Frame>, timeout: nat, max: nat)
    ensures var (bank, waiting) := AfterCalls(calls, timeout, max);
            var taken := TakenBy(bank, waiting + frames, timeout, max);
            taken <= waiting + frames && (waiting + frames != [] ==> taken != [])
            && waiting + frames == taken + Process(bank, waiting + frames, timeout, max).1
  {
    hide Process, Fed, Taken, AfterCalls, TakenSince;
    CallsAreFed(calls, timeout, max);
    ProcessIs(TakenSince(calls, timeout, max), AfterCalls(calls, timeout, max).1 + frames, timeout, max);
  }

  // --------------------------------------------------------------------------- with pruning

  /** The pending channel is what came of its frames from frame k on, which opened it. */
  ghost predicate OpenedAt(frames: seq<Frame>, p: Pending, k: nat) {
    && k < |frames| && frames[k].channelId == p.channelId
    && FramesOf(p.channelId, frames[k..]) != [] && p == PendingOf(FramesOf(p.channelId, frames[k..]))
  }

  ghost predicate AllOpened(bank: Bank, frames: seq<Frame>) {
    forall p :: p in bank ==> exists k :: OpenedAt(frames, p, k)
  }

  lemma OpenedGrows(frames: seq<Frame>, frame: Frame, p: Pending, k: nat)
    requires OpenedAt(frames, p, k)
    ensures p.channelId != frame.channelId ==> OpenedAt(frames + [frame], p, k)
    ensures p.channelId == frame.channelId ==> OpenedAt(frames + [frame], Pushed(p, frame), k)
  {
    hide FramesOf;
    var tail := frames[k..];
    assert (frames + [frame])[k..] == tail + [frame];
    FramesOfSnoc(p.channelId, tail, frame);
    var mine := FramesOf(p.channelId, tail);
    assert (mine + [frame])[..|mine|] == mine;
  }

  lemma OpenedNew(frames: seq<Frame>, frame: Frame)
    ensures OpenedAt(frames + [frame], NewPending(frame), |frames|)
  {
    assert (frames + [frame])[|frames|..] == [] + [frame];
    FramesOfSnoc(frame.channelId, [], frame);
    assert FramesOf(frame.channelId, []) == [];
    assert [] + [frame] == [frame];
  }

  /** What a push puts into the bank: a new channel, or an old one with the frame. */
  lemma PushElements(bank: Bank, frame: Frame, timeout: nat, p: Pending)
    requires ChannelsOk(bank, timeout) && p in PushInto(bank, frame, timeout)
    ensures || (p in bank && p.channelId != frame.channelId)
            || p == NewPending(frame)
            || (exists q :: q in bank && q.channelId == frame.channelId && p == Pushed(q, frame))
  {
    hide PendingOk;
    var i := Position(bank, frame.channelId);
    if i < |bank| {
      var q := bank[i];
      assert q in bank;
      if p != Pushed(q, frame) {
        assert p in bank;
        var j :| 0 <= j < |bank| && bank[j] == p && j != i;
      }
    }
  }

  lemma TakenElements(bank: Bank, frame: Frame, timeout: nat, max: nat, p: Pending)
    requires p in Taken(bank, frame, timeout, max).0
    ensures p in PushInto(bank, frame, timeout)
  {
    hide PushInto;
    PrunedIsLongestSuffix(PushInto(bank, frame, timeout), max);
  }

  lemma {:induction false} FedOpened(frames: seq<Frame>, timeout: nat, max: nat)
    ensures AllOpened(Fed(frames, timeout, max), frames)
    decreases |frames|
  {
    if frames != [] {
      hide OpenedAt, Taken, PushInto, NewPending, Pushed, ChannelsOk;
      var init, last := frames[..|frames| - 1], frames[|frames| - 1];
      assert frames == init + [last];
      FedOpened(init, timeout, max);
      FedOk(init, timeout, max);
      OpenedNew(init, last);
      forall p | p in Fed(frames, timeout, max) ensures exists k :: OpenedAt(frames, p, k) {
        TakenElements(Fed(init, timeout, max), last, timeout, max, p);
        PushElements(Fed(init, timeout, max), last, timeout, p);
        if p in Fed(init, timeout, max) && p.channelId != last.channelId {
          var k :| OpenedAt(init, p, k);
          OpenedGrows(init, last, p, k);
        } else if q :| q in Fed(init, timeout, max) && q.channelId == last.channelId && p == Pushed(q, last) {
          var k :| OpenedAt(init, q, k);
          OpenedGrows(init, last, q, k);
        }
      }
    }
  }

  /**
   After any calls, prunings included: each pending channel is what came of the frames of its id
   that were taken in since one of them opened it, all of them and no others.
   */
  lemma BankIsOpened(calls: seq<Call>, timeout: nat, max: nat)
    ensures AllOpened(AfterCalls(calls, timeout, max).0, TakenSince(calls, timeout, max))
  {
    CallsAreFed(calls, timeout, max);
    FedOpened(TakenSince(calls, timeout, max), timeout, max);
  }
}

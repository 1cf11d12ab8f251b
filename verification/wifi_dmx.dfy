/** The sACN receive path of the WiFi DMX receiver: a datagram is checked
    for its length and four protocol markers, dropped when its slots repeat
    the last accepted frame, and otherwise stored and delivered either to a
    registered callback or through a "new data" flag that a consumer polls.

    `Classify` and `Step` specify one delivery on values; the class `Receiver`
    is the receiver itself, with the previous-frame buffer updated in place,
    and its methods are proved against those functions. */
module WifiDmx {
  import opened SacnPacket

  /** Which early return of the receive path a datagram takes. `Unchanged`
      is a duplicate of the stored frame; `Accepted` is new DMX data. */
  datatype Outcome =
    | LengthMismatch
    | NotRootFrame
    | NotDataFrame
    | NotAddressed
    | NonStandardStartCode
    | Unchanged
    | Accepted

  /** The receiver's state: the previously accepted slots, the new-data flag,
      whether a callback is registered, and every slot array handed to the
      callback so far (oldest first). */
  datatype State = State(prev: seq<byte>, newData: bool, hasCallback: bool, delivered: seq<seq<byte>>)

  /** A frame the receiver can hold or deliver: 513 slots with START code 0. */
  predicate IsDmxFrame(f: seq<byte>) {
    |f| == SLOT_COUNT && f[0] == DMX_START_CODE
  }

  /** What every reachable state satisfies. */
  predicate Inv(s: State) {
    IsDmxFrame(s.prev) && forall i :: 0 <= i < |s.delivered| ==> IsDmxFrame(s.delivered[i])
  }

  /** The state before any datagram: the buffer is a zero-initialised static,
      the flag starts false and the callback pointer starts NULL. */
  function Initial(): (s: State)
    ensures Inv(s) && !s.newData && !s.hasCallback && s.delivered == []
  {
    State(seq(SLOT_COUNT, _ => 0), false, false, [])
  }

  /** The checks of the receive path, in the order the code makes them. */
  function Classify(b: seq<byte>, prev: seq<byte>): Outcome {
    if |b| != PACKET_SIZE then LengthMismatch
    else
      var p := Overlay(b);
      if p.root.packetId != ACN_PACKET_ID then NotRootFrame
      else if p.frame.vector != VECTOR_E131_DATA_PACKET then NotDataFrame
      else if p.dmp.adTypes != DMP_AD_TYPES then NotAddressed
      else if p.dmp.slots[0] != DMX_START_CODE then NonStandardStartCode
      else if p.dmp.slots == prev then Unchanged
      else Accepted
  }

  /** The effect of one datagram on the receiver's state. */
  function Step(s: State, b: seq<byte>): State {
    if Classify(b, s.prev) != Accepted then s
    else
      var slots := Overlay(b).dmp.slots;
      if s.hasCallback then s.(prev := slots, newData := false, delivered := s.delivered + [slots])
      else s.(prev := slots, newData := true)
  }

  /** The effect of a sequence of datagrams, in arrival order. */
  function Run(s: State, bs: seq<seq<byte>>): State
    decreases |bs|
  {
    if bs == [] then s else Run(Step(s, bs[0]), bs[1..])
  }

  /** A datagram that passes all four marker checks, whatever its slots. */
  predicate WellFormed(b: seq<byte>) {
    |b| == 638 &&
    b[4..16] == ACN_PACKET_ID &&
    b[40..44] == VECTOR_E131_DATA_PACKET &&
    b[118] == DMP_AD_TYPES &&
    b[125] == DMX_START_CODE
  }

  /** The classification read off the raw bytes at their offsets: each
      rejection happens exactly when its marker is the first one to fail,
      and a datagram is accepted exactly when it is well formed and its
      slots 125..637 differ from the stored frame. */
  lemma ClassifyAtOffsets(b: seq<byte>, prev: seq<byte>)
    ensures Classify(b, prev) == LengthMismatch <==> |b| != 638
    ensures Classify(b, prev) == NotRootFrame <==> |b| == 638 && b[4..16] != ACN_PACKET_ID
    ensures Classify(b, prev) == NotDataFrame <==>
      |b| == 638 && b[4..16] == ACN_PACKET_ID && b[40..44] != VECTOR_E131_DATA_PACKET
    ensures Classify(b, prev) == NotAddressed <==>
      |b| == 638 && b[4..16] == ACN_PACKET_ID && b[40..44] == VECTOR_E131_DATA_PACKET && b[118] != DMP_AD_TYPES
    ensures Classify(b, prev) == NonStandardStartCode <==>
      |b| == 638 && b[4..16] == ACN_PACKET_ID && b[40..44] == VECTOR_E131_DATA_PACKET && b[118] == DMP_AD_TYPES &&
      b[125] != DMX_START_CODE
    ensures Classify(b, prev) == Unchanged <==> WellFormed(b) && b[125..638] == prev
    ensures Classify(b, prev) == Accepted <==> WellFormed(b) && b[125..638] != prev
  {
    if |b| == PACKET_SIZE {
      OverlayFieldsAt(b);
    }
  }

  /** A datagram whose length is not 638 changes nothing, whatever it holds. */
  lemma WrongLengthIgnored(s: State, b: seq<byte>)
    requires |b| != 638
    ensures Step(s, b) == s
  {
  }

  /** A 638-byte datagram that fails any one of the four marker checks
      changes nothing: not the buffer, not the flag, not the callback log. */
  lemma BadMarkerIgnored(s: State, b: seq<byte>)
    requires |b| == 638
    requires b[4..16] != ACN_PACKET_ID || b[40..44] != VECTOR_E131_DATA_PACKET ||
             b[118] != DMP_AD_TYPES || b[125] != DMX_START_CODE
    ensures Step(s, b) == s
  {
    ClassifyAtOffsets(b, s.prev);
  }

  /** A datagram whose slots equal the stored frame changes nothing. */
  lemma DuplicateIgnored(s: State, b: seq<byte>)
    requires |b| == 638 && b[125..638] == s.prev
    ensures Step(s, b) == s
  {
  }

  /** An accepted datagram installs exactly bytes 125..637 as the stored
      frame. Without a callback the flag is raised and nothing is delivered;
      with one, those slots are delivered once and the flag ends cleared. */
  lemma AcceptedInstalls(s: State, b: seq<byte>)
    requires WellFormed(b) && b[125..638] != s.prev
    ensures Step(s, b).prev == b[125..638]
    ensures Step(s, b).hasCallback == s.hasCallback
    ensures !s.hasCallback ==> Step(s, b).newData && Step(s, b).delivered == s.delivered
    ensures s.hasCallback ==> !Step(s, b).newData && Step(s, b).delivered == s.delivered + [b[125..638]]
  {
    ClassifyAtOffsets(b, s.prev);
    OverlayFieldsAt(b);
  }

  /** The invariant is preserved: in particular the stored frame's START
      code stays 0, since it starts zeroed and only frames with START code 0
      are stored. */
  lemma StepPreservesInv(s: State, b: seq<byte>)
    requires Inv(s)
    ensures Inv(Step(s, b))
  {
  }

  lemma {:induction false} RunPreservesInv(s: State, bs: seq<seq<byte>>)
    requires Inv(s)
    ensures Inv(Run(s, bs))
    decreases |bs|
  {
    if bs != [] {
      StepPreservesInv(s, bs[0]);
      RunPreservesInv(Step(s, bs[0]), bs[1..]);
    }
  }

  /** Receiving the same datagram twice in a row leaves the state it leaves
      when received once, and the callback fires at most once for the pair. */
  lemma StepIdempotent(s: State, b: seq<byte>)
    ensures Step(Step(s, b), b) == Step(s, b)
    ensures |Step(Step(s, b), b).delivered| <= |s.delivered| + 1
  {
  }

  /** Last value wins: after any sequence of datagrams whose last one is
      well formed, the stored frame is the slots of that last one, whatever
      came before it (distinct frames, duplicates or malformed traffic) and
      whether or not it repeated the frame before it. */
  lemma {:induction false} RunKeepsLatest(s: State, bs: seq<seq<byte>>)
    requires bs != [] && WellFormed(bs[|bs| - 1])
    ensures Run(s, bs).prev == bs[|bs| - 1][125..638]
    decreases |bs|
  {
    var b := bs[0];
    var t := Step(s, b);
    if |bs| == 1 {
      assert bs[1..] == [];
      if b[125..638] == s.prev {
        DuplicateIgnored(s, b);
      } else {
        AcceptedInstalls(s, b);
      }
    } else {
      assert bs[1..][|bs[1..]| - 1] == bs[|bs| - 1];
      RunKeepsLatest(t, bs[1..]);
    }
  }

  /** With no callback registered, a run of datagrams never lowers the
      new-data flag and delivers nothing. It raises the flag whenever the
      stored frame ends up different from the one before the run, and
      whenever some datagram of the run is well formed with slots that
      differ from the frame stored before the run (then the first such
      datagram is accepted). So a consumer that polls after the run finds
      the flag up and, with `RunKeepsLatest`, the latest frame. */
  lemma {:induction false} RunRaisesFlag(s: State, bs: seq<seq<byte>>)
    requires !s.hasCallback
    ensures !Run(s, bs).hasCallback && Run(s, bs).delivered == s.delivered
    ensures s.newData ==> Run(s, bs).newData
    ensures Run(s, bs).prev != s.prev ==> Run(s, bs).newData
    ensures (exists i :: 0 <= i < |bs| && WellFormed(bs[i]) && bs[i][125..638] != s.prev) ==> Run(s, bs).newData
    decreases |bs|
  {
    if bs != [] {
      var t := Step(s, bs[0]);
      RunRaisesFlag(t, bs[1..]);
      if exists i :: 0 <= i < |bs| && WellFormed(bs[i]) && bs[i][125..638] != s.prev {
        var i :| 0 <= i < |bs| && WellFormed(bs[i]) && bs[i][125..638] != s.prev;
        if t.prev == s.prev {
          if i == 0 {
            AcceptedInstalls(s, bs[0]);
            assert false;
          }
          assert bs[1..][i - 1] == bs[i];
        }
      }
    }
  }

  /** The ten-frames scenario: with no callback registered and the flag
      down, ten pairwise-distinct well-formed frames arrive with no poll in
      between. Afterwards the flag is up and the stored frame is the tenth,
      whatever frame was stored before. */
  lemma TenDistinctFrames(s: State, bs: seq<seq<byte>>)
    requires !s.hasCallback && |bs| == 10
    requires forall i :: 0 <= i < 10 ==> |bs[i]| == 638 && WellFormed(bs[i])
    requires forall i, j :: 0 <= i < j < 10 ==> bs[i][125..638] != bs[j][125..638]
    ensures Run(s, bs).newData && Run(s, bs).prev == bs[9][125..638]
    ensures Run(s, bs).delivered == s.delivered
  {
    RunKeepsLatest(s, bs);
    RunRaisesFlag(s, bs);
    if bs[0][125..638] == s.prev {
      assert WellFormed(bs[1]) && bs[1][125..638] != s.prev;
    } else {
      assert WellFormed(bs[0]) && bs[0][125..638] != s.prev;
    }
  }

  /** The end-to-end round trip: a well-sized structured packet carrying the
      right markers, START code 0 and 512 channel values, laid out as a
      datagram and received, is accepted exactly when its frame differs from
      the stored one, and afterwards the stored channel values are the ones
      that were put in. */
  lemma PayloadRoundTrip(s: State, p: Packet, channels: seq<byte>)
    requires WellSized(p) && |channels| == 512
    requires p.root.packetId == ACN_PACKET_ID && p.frame.vector == VECTOR_E131_DATA_PACKET
    requires p.dmp.adTypes == DMP_AD_TYPES && p.dmp.slots == [DMX_START_CODE] + channels
    ensures Classify(Bytes(p), s.prev) == Accepted <==> [DMX_START_CODE] + channels != s.prev
    ensures Classify(Bytes(p), s.prev) != Accepted ==> Step(s, Bytes(p)) == s
    ensures Step(s, Bytes(p)).prev == [DMX_START_CODE] + channels
    ensures Step(s, Bytes(p)).prev[1..] == channels
  {
  }

  /** The receiver. Its fields are the class's statics: the previous DMX
      buffer, the new-data flag and whether the callback pointer is set;
      `delivered` records what the callback was given. */
  class Receiver {
    var prev: array<byte>
    var newData: bool
    var hasCallback: bool
    ghost var delivered: seq<seq<byte>>

    ghost function Abstract(): State
      reads this, prev
    {
      State(prev[..], newData, hasCallback, delivered)
    }

    ghost predicate Valid()
      reads this, prev
    {
      Inv(Abstract())
    }

    /** Static initialisation: zeroed buffer, flag false, no callback. */
    constructor ()
      ensures Valid() && fresh(prev)
      ensures Abstract() == Initial()
    {
      prev := new byte[SLOT_COUNT](_ => 0);
      newData := false;
      hasCallback := false;
      delivered := [];
    }

    /** The effect of `setup_with_callback` on the receiver: the callback
        pointer is replaced by the one given, so a callback is registered
        exactly when that pointer is non-NULL (`nonNull`); a NULL pointer
        leaves, or puts, the receiver in flag-only delivery. Nothing else
        changes. */
    method RegisterCallback(nonNull: bool)
      requires Valid()
      modifies this
      ensures Valid() && prev == old(prev)
      ensures Abstract() == old(Abstract()).(hasCallback := nonNull)
    {
      hasCallback := nonNull;
    }

    /** Consumes the new-data flag and hands out the stored buffer itself
        (not a copy); the buffer's contents are untouched. */
    method WaitForNewData() returns (frame: array<byte>)
      requires Valid() && newData
      modifies this
      ensures Valid() && prev == old(prev) && frame == prev
      ensures Abstract() == old(Abstract()).(newData := false)
      ensures IsDmxFrame(frame[..])
    {
      newData := false;
      frame := prev;
    }

    /** Processes one datagram, in place. */
    method Receive(b: seq<byte>) returns (outcome: Outcome)
      requires Valid()
      modifies this, prev
      ensures Valid() && prev == old(prev)
      ensures outcome == Classify(b, old(prev[..]))
      ensures Abstract() == Step(old(Abstract()), b)
    {
      if |b| != PACKET_SIZE {
        return LengthMismatch;
      }
      var p := Overlay(b);
      if p.root.packetId != ACN_PACKET_ID {
        return NotRootFrame;
      }
      if p.frame.vector != VECTOR_E131_DATA_PACKET {
        return NotDataFrame;
      }
      if p.dmp.adTypes != DMP_AD_TYPES {
        return NotAddressed;
      }
      if p.dmp.slots[0] != DMX_START_CODE {
        return NonStandardStartCode;
      }
      if p.dmp.slots == prev[..] {
        return Unchanged;
      }
      ghost var before := Abstract();
      StepPreservesInv(before, b);
      forall i | 0 <= i < SLOT_COUNT {
        prev[i] := p.dmp.slots[i];
      }
      assert prev[..] == p.dmp.slots;
      newData := true;
      if hasCallback {
        delivered := delivered + [p.dmp.slots];
        newData := false;
      }
      outcome := Accepted;
    }
  }
}

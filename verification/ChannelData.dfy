/** The bytes of one channel among the frames of a shared connection. */
module ChannelData {
  import opened Wrappers
  import opened Text
  import opened FrameCodec

  function PayloadFor(f: Frame, ch: Str): Bytes {
    if f.kind == SessionData && f.channelId == Some(ch) then f.payload else []
  }

  /** The SESSION_DATA payloads for one channel, in order. */
  function DataFor(frames: seq<Frame>, ch: Str): Bytes {
    if frames == [] then [] else PayloadFor(frames[0], ch) + DataFor(frames[1..], ch)
  }

  lemma {:induction false} DataForSplit(a: seq<Frame>, b: seq<Frame>, ch: Str)
    ensures DataFor(a + b, ch) == DataFor(a, ch) + DataFor(b, ch)
  {
    if a == [] {
      assert a + b == b;
    } else {
      assert (a + b)[1..] == a[1..] + b;
      DataForSplit(a[1..], b, ch);
    }
  }

  lemma DataForAppend(frames: seq<Frame>, f: Frame, ch: Str)
    ensures DataFor(frames + [f], ch) == DataFor(frames, ch) + PayloadFor(f, ch)
  {
    DataForSplit(frames, [f], ch);
    assert DataFor([f], ch) == PayloadFor(f, ch) + [];
  }
}

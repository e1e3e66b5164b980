/** How the agent's dispatch loop (`handle_agent_tunnel_stream`, src/agent/tunnel.py) answers a stream of frames. */
module AgentSpec {
  import opened Wrappers
  import opened Text
  import opened FrameCodec

  datatype AgentStop = ChannelIdRequired | ReuseRejected | UnknownChannel | Unsupported | ForwarderFailed | LocalFailed

  /** The open local connections with the bytes written to each, or the error that ended the loop. */
  datatype AgentState = Running(channels: map<Str, Bytes>) | Stopped(reason: AgentStop)

  predicate NeedsChannelId(kind: FrameType) {
    kind in {OpenSession, SessionData, ResizePty, CloseSession}
  }

  /** What one frame does to a running loop. */
  function Dispatched(channels: map<Str, Bytes>, f: Frame): AgentState {
    if f.kind == AuthOk || f.kind == Heartbeat then Running(channels)
    else if !NeedsChannelId(f.kind) then Stopped(Unsupported)
    else if f.channelId.None? || f.channelId.value == [] then Stopped(ChannelIdRequired)
    else
      var ch := f.channelId.value;
      if f.kind == OpenSession then
        if ch in channels then Stopped(ReuseRejected) else Running(channels[ch := []])
      else if f.kind == CloseSession then Running(channels - {ch})
      else if ch !in channels then Stopped(UnknownChannel)
      else if f.kind == SessionData then Running(channels[ch := channels[ch] + f.payload])
      else Running(channels)
  }

  /**
   What happens around the loop during one turn: the channels whose forwarder has ended with an error, and whether
   connecting to the local sshd, the write of the turn and closing a local connection succeed.
   */
  datatype Local = Local(dead: set<Str>, connects: bool, writes: bool, closes: bool)

  const FINE: Local := Local({}, true, true, true)

  /** The error that a turn meets outside the protocol, once the frame itself is acceptable. */
  function Trouble(channels: map<Str, Bytes>, f: Frame, local: Local): Option<AgentStop> {
    match f.kind
    case OpenSession => if local.connects then None else Some(LocalFailed)
    case SessionData => if local.writes then None else Some(LocalFailed)
    case Heartbeat => if local.writes then None else Some(LocalFailed)
    case CloseSession =>
      if f.channelId.None? || f.channelId.value !in channels then None
      else if f.channelId.value in local.dead then Some(ForwarderFailed)
      else if !local.closes then Some(LocalFailed)
      else None
    case _ => None
  }

  /** What one frame does to a running loop, with what happens around it. */
  function Turn(channels: map<Str, Bytes>, f: Frame, local: Local): AgentState {
    match Dispatched(channels, f)
    case Stopped(reason) => Stopped(reason)
    case Running(after) =>
      match Trouble(channels, f, local)
      case Some(reason) => Stopped(reason)
      case None => Running(after)
  }

  function AgentStep(st: AgentState, f: Frame): AgentState {
    match st
    case Stopped(_) => st
    case Running(channels) => Dispatched(channels, f)
  }

  function Replay(st: AgentState, frames: seq<Frame>): AgentState {
    if frames == [] then st else AgentStep(Replay(st, frames[..|frames| - 1]), frames[|frames| - 1])
  }

  lemma ReplayAppend(st: AgentState, frames: seq<Frame>, f: Frame)
    ensures Replay(st, frames + [f]) == AgentStep(Replay(st, frames), f)
  {
    assert (frames + [f])[..|frames|] == frames;
  }

  /** Delivering a stream in two parts is delivering it whole. */
  lemma {:induction false} ReplaySplit(st: AgentState, a: seq<Frame>, b: seq<Frame>)
    ensures Replay(st, a + b) == Replay(Replay(st, a), b)
  {
    if b == [] {
      assert a + b == a;
    } else {
      var init, last := b[..|b| - 1], b[|b| - 1];
      ReplaySplit(st, a, init);
      assert a + b == (a + init) + [last];
      ReplayAppend(st, a + init, last);
    }
  }

  /** An error is final: whatever follows, the loop is over. */
  lemma {:induction false} StoppedStays(st: AgentState, frames: seq<Frame>)
    requires st.Stopped?
    ensures Replay(st, frames) == st
  {
    if frames != [] {
      StoppedStays(st, frames[..|frames| - 1]);
    }
  }

  function Echo(f: Frame): seq<Frame> {
    if f.kind == Heartbeat then [Frame(Heartbeat, f.requestId, None, [])] else []
  }

  /** The loop's mutable state: `channels`, and what it wrote back to the tunnel itself. */
  class AgentTunnel {
    var channels: map<Str, Bytes>
    var echoes: seq<Frame>

    constructor ()
      ensures channels == map[] && echoes == []
    {
      channels, echoes := map[], [];
    }

    /** One turn of the loop. What raises leaves the map alone, except that a CLOSE takes its channel off first. */
    method Dispatch(f: Frame, local: Local) returns (stop: Option<AgentStop>)
      modifies this
      ensures match Turn(old(channels), f, local)
              case Running(after) => stop == None && channels == after && echoes == old(echoes) + Echo(f)
              case Stopped(reason) =>
                stop == Some(reason) && echoes == old(echoes)
                && channels == if reason in {ForwarderFailed, LocalFailed} && f.kind == CloseSession
                               then old(channels) - {f.channelId.value} else old(channels)
      ensures f.kind == AuthOk ==> stop == None && channels == old(channels) && echoes == old(echoes)
      ensures f.kind == Heartbeat ==>
                channels == old(channels) && stop == (if local.writes then None else Some(LocalFailed))
                && echoes == if local.writes then old(echoes) + [Frame(Heartbeat, f.requestId, None, [])] else old(echoes)
      ensures f.kind != Heartbeat ==> echoes == old(echoes)
      ensures f.kind !in {AuthOk, Heartbeat, OpenSession, SessionData, ResizePty, CloseSession} ==>
                stop == Some(Unsupported) && channels == old(channels)
      ensures f.kind in {OpenSession, SessionData, ResizePty, CloseSession} && (f.channelId.None? || f.channelId.value == []) ==>
                stop == Some(ChannelIdRequired) && channels == old(channels)
      ensures f.kind == OpenSession && f.channelId.Some? && f.channelId.value != [] ==>
                var ch := f.channelId.value;
                && stop == (if ch in old(channels) then Some(ReuseRejected)
                            else if local.connects then None else Some(LocalFailed))
                && channels == if stop.None? then old(channels)[ch := []] else old(channels)
      ensures f.kind == SessionData && f.channelId.Some? && f.channelId.value != [] ==>
                var ch := f.channelId.value;
                && stop == (if ch !in old(channels) then Some(AgentStop.UnknownChannel)
                            else if local.writes then None else Some(LocalFailed))
                && channels == if stop.None? then old(channels)[ch := old(channels)[ch] + f.payload] else old(channels)
      ensures f.kind == ResizePty && f.channelId.Some? && f.channelId.value != [] ==>
                channels == old(channels)
                && stop == if f.channelId.value in old(channels) then None else Some(AgentStop.UnknownChannel)
      ensures f.kind == CloseSession && f.channelId.Some? && f.channelId.value != [] ==>
                var ch := f.channelId.value;
                && channels == old(channels) - {ch}
                && stop == if ch !in old(channels) then None
                           else if ch in local.dead then Some(ForwarderFailed)
                           else if local.closes then None else Some(LocalFailed)
    {
      if f.kind == AuthOk { return None; }
      if f.kind == Heartbeat {
        if !local.writes { return Some(LocalFailed); }
        echoes := echoes + [Frame(Heartbeat, f.requestId, None, [])];
        return None;
      }
      if !NeedsChannelId(f.kind) { return Some(Unsupported); }
      if f.channelId.None? || f.channelId.value == [] { return Some(ChannelIdRequired); }
      var ch := f.channelId.value;
      if f.kind == OpenSession {
        if ch in channels { return Some(ReuseRejected); }
        if !local.connects { return Some(LocalFailed); }
        channels := channels[ch := []];
      } else if f.kind == SessionData {
        if ch !in channels { return Some(UnknownChannel); }
        if !local.writes { return Some(LocalFailed); }
        channels := channels[ch := channels[ch] + f.payload];
      } else if f.kind == ResizePty {
        if ch !in channels { return Some(UnknownChannel); }
      } else if ch in channels {
        channels := channels - {ch};
        if ch in local.dead { return Some(ForwarderFailed); }
        if !local.closes { return Some(LocalFailed); }
      }
      return None;
    }
  }
}

/** How the server writes to a connection whose socket may be full: what cannot
    be sent at once is queued and sent when the socket is ready again. */
module OutputQueue {
  import opened Connections

  /** What `send` reports on a healthy connection: it took one byte and up to
      `more` others (never more than it was offered), or it took none because of
      EINTR, or because of EAGAIN. */
  datatype SendResult = Accepted(more: nat) | Interrupted | WouldBlock

  function Taken(r: SendResult, offered: nat): (n: nat)
    ensures n <= offered
  {
    if r.Accepted? then (if r.more < offered then r.more + 1 else offered) else 0
  }

  /** How much of `n` bytes writeIceData leaves unsent; a `send` beyond the end
      of `results` would block. */
  function Left(n: nat, results: seq<SendResult>): (nleft: nat)
    ensures nleft <= n
    decreases |results|
  {
    if n == 0 || results == [] || results[0].WouldBlock? then n
    else Left(n - Taken(results[0], n), results[1..])
  }

  /** How many bytes the socket takes before it would block, if it is offered enough. */
  function Room(results: seq<SendResult>): nat {
    if results == [] || results[0].WouldBlock? then 0
    else (if results[0].Accepted? then results[0].more + 1 else 0) + Room(results[1..])
  }

  /** The sending loop goes on, through partial sends and interrupts, until all is sent or the
      socket would block. */
  lemma {:induction false} SendsWhatFits(n: nat, results: seq<SendResult>)
    ensures Left(n, results) == if n <= Room(results) then 0 else n - Room(results)
    decreases |results|
  {
    if n != 0 && results != [] && !results[0].WouldBlock? {
      SendsWhatFits(n - Taken(results[0], n), results[1..]);
    }
  }

  // ---------------------------------------------------------------- on values

  datatype Channel = Channel(blocked: bool, buffer: seq<seq<Byte>>, start: nat)
  {
    ghost predicate Valid() {
      && (blocked <==> buffer != [])
      && (buffer == [] ==> start == 0)
      && (buffer != [] ==> start < |buffer[0]| || start == 0)
    }
  }

  function Flatten(chunks: seq<seq<Byte>>): seq<Byte> {
    if chunks == [] then [] else chunks[0] + Flatten(chunks[1..])
  }

  /** The bytes still to be sent. */
  ghost function Unsent(ch: Channel): seq<Byte>
    requires ch.Valid()
  {
    if ch.buffer == [] then [] else ch.buffer[0][ch.start..] + Flatten(ch.buffer[1..])
  }

  /** A step leaves a channel behind and puts bytes on the wire. */
  datatype Effect = Effect(channel: Channel, wire: seq<Byte>)

  /** DCOPIceWrite: the whole chunk is queued, with the position of its unsent part. */
  function Write(ch: Channel, data: seq<Byte>, results: seq<SendResult>): Effect {
    if ch.blocked then Effect(ch.(buffer := ch.buffer + [data]), [])
    else
      var sent := |data| - Left(|data|, results);
      Effect(if sent < |data| then Channel(true, ch.buffer + [data], sent) else ch, data[..sent])
  }

  /** DCOPIceWriteChar: the number of unsent bytes is right, but they are copied
      from the beginning of the chunk. */
  function WriteChar(ch: Channel, data: seq<Byte>, results: seq<SendResult>): Effect {
    if ch.blocked then Effect(ch.(buffer := ch.buffer + [data]), [])
    else
      var nleft := Left(|data|, results);
      Effect(if nleft > 0 then Channel(true, ch.buffer + [data[..nleft]], 0) else ch, data[..|data| - nleft])
  }

  /** slotOutputReady. */
  function OutputReady(ch: Channel, r: SendResult): Effect
    requires ch.Valid() && ch.blocked
  {
    var data := ch.buffer[0];
    var start' := ch.start + Taken(r, |data| - ch.start);
    if !r.Accepted? then Effect(ch, [])
    else if start' < |data| then Effect(ch.(start := start'), data[ch.start..start'])
    else Effect(Channel(ch.buffer[1..] != [], ch.buffer[1..], 0), data[ch.start..start'])
  }

  // ------------------------------------------------------ the stream of bytes

  lemma {:induction false} FlattenSnoc(chunks: seq<seq<Byte>>, data: seq<Byte>)
    ensures Flatten(chunks + [data]) == Flatten(chunks) + data
  {
    if chunks != [] {
      assert (chunks + [data])[1..] == chunks[1..] + [data];
      FlattenSnoc(chunks[1..], data);
    }
  }

  lemma QueueAppends(ch: Channel, data: seq<Byte>)
    requires ch.Valid() && ch.blocked
    ensures var ch' := ch.(buffer := ch.buffer + [data]);
            ch'.Valid() && Unsent(ch') == Unsent(ch) + data
  {
    assert (ch.buffer + [data])[1..] == ch.buffer[1..] + [data];
    FlattenSnoc(ch.buffer[1..], data);
  }

  /** What has been sent, followed by what is still to be sent. */
  ghost predicate Continues(ch: Channel, data: seq<Byte>, e: Effect)
    requires ch.Valid()
  {
    e.channel.Valid() && e.wire + Unsent(e.channel) == Unsent(ch) + data
  }

  lemma WriteContinues(ch: Channel, data: seq<Byte>, results: seq<SendResult>)
    requires ch.Valid()
    ensures Continues(ch, data, Write(ch, data, results))
  {
    if ch.blocked {
      QueueAppends(ch, data);
    } else {
      var sent := |data| - Left(|data|, results);
      assert data == data[..sent] + data[sent..];
      assert Flatten([]) == [];
    }
  }

  /** DCOPIceWriteChar keeps the stream intact exactly when the chunk is queued
      as a whole or the bytes it queues happen to equal the bytes it has not sent. */
  lemma WriteCharContinuesExactly(ch: Channel, data: seq<Byte>, results: seq<SendResult>)
    requires ch.Valid()
    ensures var nleft := Left(|data|, results);
            Continues(ch, data, WriteChar(ch, data, results)) <==>
            ch.blocked || data[..nleft] == data[|data| - nleft..]
  {
    if ch.blocked {
      QueueAppends(ch, data);
    } else {
      var nleft := Left(|data|, results);
      WriteCharLeaves(ch, data, results);
      WrongTail(data, |data| - nleft);
      assert Unsent(ch) + data == data;
    }
  }

  /** What an unblocked DCOPIceWriteChar puts on the wire, and what it queues. */
  lemma WriteCharLeaves(ch: Channel, data: seq<Byte>, results: seq<SendResult>)
    requires ch.Valid() && !ch.blocked
    ensures var nleft := Left(|data|, results);
            var e := WriteChar(ch, data, results);
            && e.channel.Valid() && e.wire == data[..|data| - nleft] && Unsent(e.channel) == data[..nleft]
            && Unsent(ch) == []
  {
    assert Flatten([]) == [];
  }

  /** The beginning of a chunk does for its end exactly if they are equal. */
  lemma WrongTail<T>(data: seq<T>, sent: nat)
    requires sent <= |data|
    ensures data[..sent] + data[..|data| - sent] == data <==> data[..|data| - sent] == data[sent..]
  {
    assert data == data[..sent] + data[sent..];
    assert (data[..sent] + data[..|data| - sent])[sent..] == data[..|data| - sent];
  }

  predicate AllEqual(data: seq<Byte>) {
    forall i, j | 0 <= i < |data| && 0 <= j < |data| :: data[i] == data[j]
  }

  lemma {:induction false} ShiftedIsConstant(data: seq<Byte>, i: nat)
    requires i < |data| && data[..|data| - 1] == data[1..]
    ensures data[i] == data[0]
  {
    if i > 0 {
      assert data[i] == data[1..][i - 1] == data[..|data| - 1][i - 1] == data[i - 1];
      ShiftedIsConstant(data, i - 1);
    }
  }

  /** So a chunk can be handed to DCOPIceWriteChar without risk to the stream
      exactly when all its bytes are the same. */
  lemma WriteCharSafeExactly(ch: Channel, data: seq<Byte>)
    requires ch.Valid() && !ch.blocked
    ensures (forall results :: Continues(ch, data, WriteChar(ch, data, results))) <==> AllEqual(data)
  {
    if AllEqual(data) {
      forall results ensures Continues(ch, data, WriteChar(ch, data, results)) {
        WriteCharContinuesExactly(ch, data, results);
      }
    } else {
      var results := [Accepted(0), WouldBlock];
      assert Left(|data| - 1, [WouldBlock]) == |data| - 1;
      assert results[1..] == [WouldBlock];
      assert Left(|data|, results) == |data| - 1;
      WriteCharContinuesExactly(ch, data, results);
      if data[..|data| - 1] == data[1..] {
        forall i | 0 <= i < |data| ensures data[i] == data[0] {
          ShiftedIsConstant(data, i);
        }
      }
      assert !Continues(ch, data, WriteChar(ch, data, results));
    }
  }

  /** Of the two bytes 1, 2 the first is sent; then the first is queued again. */
  lemma WriteCharRepeatsBytes()
    ensures var e := WriteChar(Channel(false, [], 0), [1, 2], [Accepted(0), WouldBlock]);
            e.channel.Valid() && e.wire + Unsent(e.channel) == [1, 1]
  {
    var results := [Accepted(0), WouldBlock];
    assert results[1..] == [WouldBlock];
    assert Left(1, [WouldBlock]) == 1 && Left(2, results) == 1;
    assert Flatten([]) == [];
  }

  /** The next chunk, if any, is sent from its beginning. */
  lemma NextChunk(chunks: seq<seq<Byte>>)
    ensures var ch := Channel(chunks != [], chunks, 0);
            ch.Valid() && Unsent(ch) == Flatten(chunks)
  {
    if chunks != [] {
      assert chunks[0][0..] == chunks[0];
    }
  }

  lemma OutputReadyContinues(ch: Channel, r: SendResult)
    requires ch.Valid() && ch.blocked
    ensures Continues(ch, [], OutputReady(ch, r))
  {
    var data, rest := ch.buffer[0], Flatten(ch.buffer[1..]);
    var start' := ch.start + Taken(r, |data| - ch.start);
    var e := OutputReady(ch, r);
    SplitBetween(data, ch.start, start', rest);
    if r.Accepted? && start' == |data| {
      NextChunk(ch.buffer[1..]);
    }
    assert Unsent(ch) + [] == Unsent(ch);
    if !r.Accepted? {
      assert [] + Unsent(ch) == Unsent(ch);
    }
  }

  lemma SplitBetween<T>(data: seq<T>, i: nat, j: nat, rest: seq<T>)
    requires i <= j <= |data|
    ensures data[i..j] + (data[j..] + rest) == data[i..] + rest
    ensures j == |data| ==> data[i..j] == data[i..]
  {
    assert data[i..] == data[i..j] + data[j..];
  }

  /** Every successful send makes progress, also on a queued empty chunk. */
  lemma OutputReadyProgress(ch: Channel, r: SendResult)
    requires ch.Valid() && ch.blocked && r.Accepted?
    ensures var ch' := OutputReady(ch, r).channel;
            ch'.Valid() && |Unsent(ch')| + |ch'.buffer| < |Unsent(ch)| + |ch.buffer|
  {
    OutputReadyContinues(ch, r);
  }

  // -------------------------------------------------------------------- runs

  datatype Event =
    | WriteData(data: seq<Byte>, results: seq<SendResult>)
    | WriteChars(data: seq<Byte>, results: seq<SendResult>)
    | Ready(result: SendResult)

  /** The notifier fires only while output is blocked, and DCOPIceWriteChar is
      not caught out: what it queues is what it has not sent. */
  predicate Smooth(ch: Channel, ev: Event) {
    match ev
    case WriteData(_, _) => true
    case WriteChars(data, results) =>
      ch.blocked || data[..Left(|data|, results)] == data[|data| - Left(|data|, results)..]
    case Ready(_) => ch.blocked
  }

  function Step(ch: Channel, ev: Event): (e: Effect)
    requires ch.Valid() && Smooth(ch, ev)
    ensures e.channel.Valid()
  {
    match ev
    case WriteData(data, results) => Write(ch, data, results)
    case WriteChars(data, results) => WriteChar(ch, data, results)
    case Ready(result) => OutputReady(ch, result)
  }

  function DataOf(ev: Event): seq<Byte> {
    if ev.Ready? then [] else ev.data
  }

  lemma StepContinues(ch: Channel, ev: Event)
    requires ch.Valid() && Smooth(ch, ev)
    ensures Continues(ch, DataOf(ev), Step(ch, ev))
  {
    match ev
    case WriteData(data, results) => WriteContinues(ch, data, results);
    case WriteChars(data, results) => WriteCharContinuesExactly(ch, data, results);
    case Ready(result) => OutputReadyContinues(ch, result);
  }

  predicate SmoothRun(ch: Channel, evs: seq<Event>)
    requires ch.Valid()
    decreases |evs|
  {
    evs == [] || (Smooth(ch, evs[0]) && SmoothRun(Step(ch, evs[0]).channel, evs[1..]))
  }

  function Run(ch: Channel, evs: seq<Event>): (e: Effect)
    requires ch.Valid() && SmoothRun(ch, evs)
    ensures e.channel.Valid()
    decreases |evs|
  {
    if evs == [] then Effect(ch, [])
    else
      var e := Step(ch, evs[0]);
      var rest := Run(e.channel, evs[1..]);
      Effect(rest.channel, e.wire + rest.wire)
  }

  function Written(evs: seq<Event>): seq<Byte> {
    if evs == [] then [] else DataOf(evs[0]) + Written(evs[1..])
  }

  lemma ContinuesOn(ch: Channel, data: seq<Byte>, e: Effect, data': seq<Byte>, e': Effect)
    requires ch.Valid() && Continues(ch, data, e) && Continues(e.channel, data', e')
    ensures Continues(ch, data + data', Effect(e'.channel, e.wire + e'.wire))
  {
    var before, between, after := Unsent(ch), Unsent(e.channel), Unsent(e'.channel);
    assert (e.wire + e'.wire) + after == e.wire + (e'.wire + after);
    assert e.wire + (between + data') == (e.wire + between) + data';
    assert (before + data) + data' == before + (data + data');
  }

  /** However writes and partial sends interleave, what is on the wire followed
      by what is queued is everything written, in order. */
  lemma {:induction false} StreamIntact(ch: Channel, evs: seq<Event>)
    requires ch.Valid() && SmoothRun(ch, evs)
    ensures Continues(ch, Written(evs), Run(ch, evs))
    decreases |evs|
  {
    if evs != [] {
      var e := Step(ch, evs[0]);
      var rest := Run(e.channel, evs[1..]);
      StepContinues(ch, evs[0]);
      StreamIntact(e.channel, evs[1..]);
      ContinuesOn(ch, DataOf(evs[0]), e, Written(evs[1..]), rest);
    }
  }

  // ------------------------------------------------- on connection objects

  ghost function ChannelOf(conn: DCOPConnection): Channel
    reads conn
  {
    Channel(conn.outputBlocked, conn.outputBuffer, conn.outputBufferStart)
  }

  /** writeIceData: sends in a loop until all is sent or the socket is full. */
  method WriteIceData(data: seq<Byte>, results: seq<SendResult>) returns (nleft: nat, wire: seq<Byte>)
    ensures nleft == Left(|data|, results)
    ensures wire == data[..|data| - nleft]
  {
    nleft, wire := |data|, [];
    var k := 0;
    while nleft > 0
      invariant k <= |results| && nleft <= |data| && wire == data[..|data| - nleft]
      invariant Left(nleft, results[k..]) == Left(|data|, results)
      decreases |results| - k
    {
      if k == |results| || results[k].WouldBlock? {
        return;
      }
      var nwritten := Taken(results[k], nleft);
      var ptr := |data| - nleft;
      wire := wire + data[ptr..ptr + nwritten];
      nleft := nleft - nwritten;
      assert results[k..][1..] == results[k + 1..];
      k := k + 1;
    }
  }

  method WaitForOutputReady(conn: DCOPConnection, data: seq<Byte>, start: nat)
    modifies conn`outputBlocked, conn`outputBuffer, conn`outputBufferStart
    ensures ChannelOf(conn) == Channel(true, old(conn.outputBuffer) + [data], start)
  {
    conn.outputBlocked := true;
    conn.outputBuffer := conn.outputBuffer + [data];
    conn.outputBufferStart := start;
  }

  method DCOPIceWrite(conn: DCOPConnection, data: seq<Byte>, results: seq<SendResult>) returns (wire: seq<Byte>)
    requires ChannelOf(conn).Valid()
    modifies conn`outputBlocked, conn`outputBuffer, conn`outputBufferStart
    ensures Effect(ChannelOf(conn), wire) == Write(old(ChannelOf(conn)), data, results)
    ensures Continues(old(ChannelOf(conn)), data, Effect(ChannelOf(conn), wire))
  {
    WriteContinues(ChannelOf(conn), data, results);
    if conn.outputBlocked {
      conn.outputBuffer := conn.outputBuffer + [data];
      return [];
    }
    var nleft;
    nleft, wire := WriteIceData(data, results);
    if nleft > 0 {
      WaitForOutputReady(conn, data, |data| - nleft);
    }
  }

  method DCOPIceWriteChar(conn: DCOPConnection, data: seq<Byte>, results: seq<SendResult>) returns (wire: seq<Byte>)
    requires ChannelOf(conn).Valid()
    modifies conn`outputBlocked, conn`outputBuffer, conn`outputBufferStart
    ensures Effect(ChannelOf(conn), wire) == WriteChar(old(ChannelOf(conn)), data, results)
    ensures ChannelOf(conn).Valid()
  {
    if conn.outputBlocked {
      conn.outputBuffer := conn.outputBuffer + [data];
      return [];
    }
    var nleft;
    nleft, wire := WriteIceData(data, results);
    if nleft > 0 {
      WaitForOutputReady(conn, data[..nleft], 0);
    }
  }

  method SlotOutputReady(conn: DCOPConnection, result: SendResult) returns (wire: seq<Byte>)
    requires ChannelOf(conn).Valid() && conn.outputBlocked
    modifies conn`outputBlocked, conn`outputBuffer, conn`outputBufferStart
    ensures Effect(ChannelOf(conn), wire) == OutputReady(old(ChannelOf(conn)), result)
    ensures Continues(old(ChannelOf(conn)), [], Effect(ChannelOf(conn), wire))
  {
    OutputReadyContinues(ChannelOf(conn), result);
    var data := conn.outputBuffer[0];
    if !result.Accepted? {
      return [];
    }
    var start := conn.outputBufferStart;
    var nwritten := Taken(result, |data| - start);
    wire := data[start..start + nwritten];
    conn.outputBufferStart := start + nwritten;
    if conn.outputBufferStart == |data| {
      conn.outputBufferStart := 0;
      conn.outputBuffer := conn.outputBuffer[1..];
      if conn.outputBuffer == [] {
        conn.outputBlocked := false;
      }
    }
  }
}

/**
 * The HTTP response buffer of the ESP32 firmware: one static byte buffer of
 * `bufferSize_` bytes and a write cursor `outputLen_`, updated by the
 * esp_http_client event handler as a response arrives. The handler's logging
 * is left out; the client library that raises the events is the caller.
 */
module Http {

  newtype byte = x: int | 0 <= x < 0x100

  const ESP_OK: int := 0

  /** The initial value of the static `bufferSize_`. */
  const DefaultBufferSize: nat := 4096

  /** Upper bound of a uint32_t. */
  const U32Limit: nat := 0x1_0000_0000

  /** The esp_http_client events the handler distinguishes, with the payload it reads. */
  datatype Event =
    | Error
    | OnConnected
    | HeaderSent
    | OnHeader(key: seq<char>, value: seq<char>)
    | OnFinish
    | OnData(data: seq<byte>)
    | Disconnected
    | Redirect

  /** The buffer contents and the write cursor as values. */
  datatype State = State(bytes: seq<byte>, outputLen: nat)

  function Zeros(n: nat): (z: seq<byte>)
    ensures |z| == n && forall i :: 0 <= i < n ==> z[i] == 0
  {
    seq(n, _ => 0)
  }

  /**
   * ON_DATA copies with no bounds check; the model covers the events whose
   * copy stays inside the buffer.
   */
  predicate Fits(s: State, e: Event)
  {
    e.OnData? ==> s.outputLen + |e.data| <= |s.bytes|
  }

  /** The effect of one event on the buffer and the cursor. */
  function Handle(s: State, e: Event): (r: State)
    requires Fits(s, e)
    ensures |r.bytes| == |s.bytes|
    ensures s.outputLen <= |s.bytes| ==> r.outputLen <= |r.bytes|
    ensures r.outputLen == match e
      case OnConnected => 0
      case OnFinish => 0
      case OnData(d) => s.outputLen + |d|
      case _ => s.outputLen
    ensures !e.OnConnected? ==> forall i :: 0 <= i < s.outputLen && i < |s.bytes| ==> r.bytes[i] == s.bytes[i]
  {
    match e
    case OnConnected => State(Zeros(|s.bytes|), 0)
    case OnFinish => State(s.bytes, 0)
    case OnData(d) =>
      State(s.bytes[..s.outputLen] + d + s.bytes[s.outputLen + |d|..], s.outputLen + |d|)
    case _ => s
  }

  /** Everything from the cursor to the end of the buffer is NUL. */
  predicate Terminated(s: State)
  {
    s.outputLen < |s.bytes| && forall i :: s.outputLen <= i < |s.bytes| ==> s.bytes[i] == 0
  }

  /** Total length of a sequence of data chunks. */
  function Total(chunks: seq<seq<byte>>): nat
  {
    if chunks == [] then 0 else |chunks[0]| + Total(chunks[1..])
  }

  /** The chunks laid end to end. */
  function Concat(chunks: seq<seq<byte>>): (r: seq<byte>)
    ensures |r| == Total(chunks)
  {
    if chunks == [] then [] else chunks[0] + Concat(chunks[1..])
  }

  /** Delivering the chunks as successive ON_DATA events. */
  function Receive(s: State, chunks: seq<seq<byte>>): (r: State)
    requires s.outputLen + Total(chunks) <= |s.bytes|
    ensures |r.bytes| == |s.bytes| && r.outputLen == s.outputLen + Total(chunks)
    ensures forall i :: 0 <= i < s.outputLen ==> r.bytes[i] == s.bytes[i]
    decreases |chunks|
  {
    if chunks == [] then s else Receive(Handle(s, OnData(chunks[0])), chunks[1..])
  }

  // ---------------------------------------------------------------------------
  // Properties of the handler

  /** ON_CONNECTED zeroes the whole buffer and rewinds the cursor. */
  lemma ConnectedClears(s: State)
    ensures Handle(s, OnConnected) == State(Zeros(|s.bytes|), 0)
    ensures |s.bytes| > 0 ==> Terminated(Handle(s, OnConnected))
  {
  }

  /**
   * ON_DATA writes the chunk at the cursor and advances the cursor by its
   * length; the bytes before the old cursor and after the chunk are unchanged.
   */
  lemma DataAppends(s: State, d: seq<byte>)
    requires s.outputLen + |d| <= |s.bytes|
    ensures var r := Handle(s, OnData(d));
      && r.outputLen == s.outputLen + |d|
      && r.bytes[..s.outputLen] == s.bytes[..s.outputLen]
      && r.bytes[s.outputLen..r.outputLen] == d
      && r.bytes[r.outputLen..] == s.bytes[r.outputLen..]
  {
    var r := Handle(s, OnData(d));
    assert r.bytes == s.bytes[..s.outputLen] + d + s.bytes[s.outputLen + |d|..];
  }

  /** ON_FINISH rewinds the cursor and keeps the response for the caller to read. */
  lemma FinishKeepsResponse(s: State)
    ensures Handle(s, OnFinish).bytes == s.bytes && Handle(s, OnFinish).outputLen == 0
  {
  }

  /** Every other event touches neither the buffer nor the cursor. */
  lemma OtherEventsInert(s: State, e: Event)
    requires e.Error? || e.HeaderSent? || e.OnHeader? || e.Disconnected? || e.Redirect?
    ensures Handle(s, e) == s
  {
  }

  /** An append that leaves room for one more byte keeps the tail after the cursor NUL. */
  lemma DataKeepsTerminated(s: State, d: seq<byte>)
    requires Terminated(s) && s.outputLen + |d| < |s.bytes|
    ensures Terminated(Handle(s, OnData(d)))
  {
    var r := Handle(s, OnData(d));
    forall i | r.outputLen <= i < |r.bytes| ensures r.bytes[i] == 0 {
      assert r.bytes[i] == s.bytes[i];
    }
  }

  /**
   * The response as a C string: after ON_CONNECTED, chunks totalling fewer
   * than bufferSize_ bytes sit at the front of the buffer in arrival order,
   * followed by NULs, with the cursor at their end.
   */
  lemma {:induction false} ResponseAssembled(s: State, chunks: seq<seq<byte>>)
    requires Total(chunks) < |s.bytes|
    ensures var r := Receive(Handle(s, OnConnected), chunks);
      && r == State(Concat(chunks) + Zeros(|s.bytes| - Total(chunks)), Total(chunks))
      && Terminated(r)
      && r.bytes[r.outputLen] == 0
  {
    var n := |s.bytes|;
    ReceiveFrom(State(Zeros(n), 0), chunks);
    var r := Receive(Handle(s, OnConnected), chunks);
    assert r.bytes == Concat(chunks) + Zeros(n - Total(chunks));
    assert r.outputLen == Total(chunks);
  }

  /** Receiving chunks into a buffer holding a prefix followed by NULs extends the prefix. */
  lemma {:induction false} ReceiveFrom(s: State, chunks: seq<seq<byte>>)
    requires s.outputLen + Total(chunks) <= |s.bytes|
    requires s.bytes[s.outputLen..] == Zeros(|s.bytes| - s.outputLen)
    ensures var r := Receive(s, chunks);
      && r.outputLen == s.outputLen + Total(chunks)
      && r.bytes == s.bytes[..s.outputLen] + Concat(chunks) + Zeros(|s.bytes| - r.outputLen)
    decreases |chunks|
  {
    if chunks != [] {
      var d := chunks[0];
      var s' := Handle(s, OnData(d));
      DataExtendsPrefix(s, d);
      ReceiveFrom(s', chunks[1..]);
      assert Concat(chunks) == d + Concat(chunks[1..]);
      var pre, rest := s.bytes[..s.outputLen], Concat(chunks[1..]);
      assert (pre + d) + rest == pre + (d + rest);
    } else {
      assert s.bytes == s.bytes[..s.outputLen] + s.bytes[s.outputLen..];
    }
  }

  /** One ON_DATA into a buffer holding a prefix followed by NULs: the prefix grows by the chunk, NULs follow. */
  lemma DataExtendsPrefix(s: State, d: seq<byte>)
    requires s.outputLen + |d| <= |s.bytes|
    requires s.bytes[s.outputLen..] == Zeros(|s.bytes| - s.outputLen)
    ensures var s' := Handle(s, OnData(d));
      && s'.outputLen == s.outputLen + |d| && |s'.bytes| == |s.bytes|
      && s'.bytes[..s'.outputLen] == s.bytes[..s.outputLen] + d
      && s'.bytes[s'.outputLen..] == Zeros(|s.bytes| - s'.outputLen)
  {
    var s' := Handle(s, OnData(d));
    assert s'.bytes == s.bytes[..s.outputLen] + d + s.bytes[s.outputLen + |d|..];
    assert s.bytes[s.outputLen + |d|..] == Zeros(|s.bytes| - s'.outputLen) by {
      assert s.bytes[s.outputLen + |d|..] == s.bytes[s.outputLen..][|d|..];
    }
    assert s'.bytes[s'.outputLen..] == s.bytes[s.outputLen + |d|..];
  }

  /**
   * The static members of class Http. The handler writes into `user_data`,
   * which the client configuration sets to GetBuffer(); the model identifies
   * the two.
   */
  class HttpBuffer {
    var bufferSize: nat
    var buffer: array<byte>
    var outputLen: nat

    ghost predicate Valid()
      reads this
    {
      buffer.Length == bufferSize && bufferSize < U32Limit && outputLen < U32Limit
    }

    /** The buffer and cursor as a value. */
    function Contents(): State
      reads this, buffer
    {
      State(buffer[..], outputLen)
    }

    /** The static initialisers: 4096 value-initialised bytes and a zero cursor. */
    constructor ()
      ensures Valid() && fresh(buffer)
      ensures bufferSize == DefaultBufferSize && Contents() == State(Zeros(DefaultBufferSize), 0)
    {
      bufferSize := DefaultBufferSize;
      buffer := new byte[DefaultBufferSize](_ => 0);
      outputLen := 0;
    }

    method GetBufferSize() returns (n: nat)
      ensures n == bufferSize
    {
      n := bufferSize;
    }

    /** A fresh zeroed buffer of the new size; the cursor is not reset. */
    method SetBufferSize(size: nat)
      requires size < U32Limit && outputLen < U32Limit
      modifies this
      ensures Valid() && fresh(buffer)
      ensures bufferSize == size && Contents() == State(Zeros(size), old(outputLen))
    {
      bufferSize := size;
      buffer := new byte[size](_ => 0);
    }

    method GetBuffer() returns (b: array<byte>)
      ensures b == buffer
    {
      b := buffer;
    }

    /** memset of the whole buffer and a zero cursor. */
    method ClearBuffer()
      requires Valid()
      modifies buffer, this`outputLen
      ensures Valid() && Contents() == State(Zeros(bufferSize), 0)
    {
      forall i | 0 <= i < bufferSize {
        buffer[i] := 0;
      }
      outputLen := 0;
    }

    method GetOutputLen() returns (n: nat)
      ensures n == outputLen
    {
      n := outputLen;
    }

    /** HttpEventHandler: update buffer and cursor for one event; always ESP_OK. */
    method HttpEventHandler(evt: Event) returns (err: int)
      requires Valid() && Fits(Contents(), evt)
      modifies buffer, this`outputLen
      ensures Valid() && err == ESP_OK
      ensures Contents() == Handle(old(Contents()), evt)
    {
      match evt {
        case OnConnected =>
          forall i | 0 <= i < bufferSize {
            buffer[i] := 0;
          }
          outputLen := 0;
        case OnFinish =>
          outputLen := 0;
        case OnData(d) =>
          forall i | 0 <= i < |d| {
            buffer[outputLen + i] := d[i];
          }
          outputLen := outputLen + |d|;
        case _ =>
      }
      err := ESP_OK;
    }
  }
}

/** The frame types of the client (RFC 7540, sections 6.1 to 6.9), as the values the engine passes around. */
module Frames {

  type u16 = n: int | 0 <= n < 0x1_0000
  type u32 = n: int | 0 <= n < 0x1_0000_0000
  type u64 = n: int | 0 <= n < 0x1_0000_0000_0000_0000
  type byte = n: int | 0 <= n < 0x100

  type StreamId = u32
  type Setting = u16
  type ErrorCode = u32

  datatype HeaderField = HeaderField(name: string, value: string)

  datatype DataFrame = DataFrame(streamId: StreamId, data: seq<byte>, endStream: bool)

  datatype Frame =
    | Data(frame: DataFrame)
    | Headers(streamId: StreamId, endStream: bool, endHeaders: bool, priority: bool, headers: seq<HeaderField>)
    | Priority(streamId: StreamId, dependency: u32, weight: byte, exclusive: bool)
    | RstStream(streamId: StreamId, errorCode: ErrorCode)
    | Settings(streamId: StreamId, ack: bool, settings: map<Setting, u32>)
    | PushPromise(streamId: StreamId, endHeaders: bool, promisedStreamId: StreamId, headers: seq<HeaderField>)
    | Ping(streamId: StreamId, payload: u64, ack: bool)
    | GoAway(streamId: StreamId, lastStreamId: StreamId, errorCode: ErrorCode)
    | WindowUpdate(streamId: StreamId, increment: u32)
  {
    function GetStreamId(): StreamId {
      if Data? then frame.streamId else streamId
    }
  }

  const SETTINGS_HEADER_TABLE_SIZE: Setting := 0x01
  const SETTINGS_ENABLE_PUSH: Setting := 0x02
  const SETTINGS_MAX_CONCURRENT_STREAMS: Setting := 0x03
  const SETTINGS_INITIAL_WINDOW_SIZE: Setting := 0x04
  const SETTINGS_MAX_FRAME_SIZE: Setting := 0x05
  const SETTINGS_MAX_HEADER_LIST_SIZE: Setting := 0x06

  const NO_ERROR: ErrorCode := 0x0
  const STREAM_CLOSED: ErrorCode := 0x5
  const REFUSED_STREAM: ErrorCode := 0x7

  /** Go's conversion of an integer to uint32. */
  function ToUint32(n: int): u32 {
    n % 0x1_0000_0000
  }

  /** The value of the first header with the given name, or "" (httpMsg.GetHeader and findHeader). */
  function FindHeader(name: string, headers: seq<HeaderField>): string {
    if headers == [] then ""
    else if headers[0].name == name then headers[0].value
    else FindHeader(name, headers[1..])
  }
}

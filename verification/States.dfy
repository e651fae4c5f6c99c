/** The state constants the two sides exchange, and the shape of the messages on the control connection. */
module States {
  import opened Words

  const IPERF_START: nat := 1
  const IPERF_DONE: nat := 2
  const IPERF_CREATE_STREAM: nat := 3
  const IPERF_EXCHANGE_PARAMS: nat := 4
  const IPERF_EXCHANGE_RESULT: nat := 5
  const IPERF_DISPLAY_RESULT: nat := 6
  const TEST_START: nat := 31
  const TEST_RUNNING: nat := 32
  const TEST_END: nat := 34

  /** Capacity of `ctrlChan`. */
  const CTRL_CHAN_CAPACITY: nat := 5

  /** The protocols there is code for; `udp` is accepted by name and has none. */
  const TCP_NAME := "tcp"
  const RUDP_NAME := "rudp"
  const KCP_NAME := "kcp"

  /** Blocks from this size on cannot be allocated: `make` panics beyond the address space. */
  const MAX_BLOCK: nat := 0x1_0000_0000_0000

  /** Size of the buffer the server reads the parameters into. */
  const PARAMS_BUFFER: nat := 1024

  /** The parameters a client sends. The fields no property here depends on travel together in `tuning`. */
  datatype Params = Params(
    protoName: string,
    reverse: bool,
    duration: nat,
    interval: nat,
    streamNum: nat,
    blksize: nat,
    burst: bool,
    rate: nat,
    pacingTime: nat,
    tuning: seq<nat>
  )

  /** One write on the control connection. */
  datatype Frame =
    | StateFrame(state: nat)
    | ParamsFrame(params: Params)
    | LengthFrame(length: nat)
    | ResultsFrame(bytes: seq<uint64>)
}

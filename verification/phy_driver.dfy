/** phy_driver_nrf24.c: the commands the link layer issues, each ending with the radio back in receive mode. */
module PhyDriverNrf24 {
  import opened Bytes
  import opened Nrf24l01

  datatype Cmd =
    | SetPipe(pipe: nat, aa: Addr)
    | ResetPipe(fd: int)
    | SetCh(value: byte, ack: bool)
    | SetStandby
    | Unsupported

  function Ioctl(s: Radio, cmd: Cmd): (t: Radio)
    requires Initialised(s)
    ensures Initialised(t)
  {
    var s0 := s.(ce := false);
    match cmd
    case SetPipe(p, a) => SetPrx(OpenPipe(s0, p, a))
    case ResetPipe(p) => SetPrx(ClosePipe(s0, p))
    case SetCh(ch, ack) => SetPrx(SetChannel(s0, ch, ack))
    case SetStandby => s0
    case Unsupported => SetPrx(s0)
  }

  /** nrf24l01_write leaves the registers the same whether or not the frame was acknowledged. */
  function Write(s: Radio, p: nat): (t: Radio)
    requires Initialised(s)
    ensures Initialised(t)
  {
    SetPrx(SetPtx(s, p))
  }

  class Driver {
    const dev: Device

    constructor (dev: Device)
      ensures this.dev == dev
    {
      this.dev := dev;
    }

    /** `fifoFull` and `acked` are what the hardware reports for this frame. */
    method WriteFrame(pipe: nat, len: nat, fifoFull: bool, acked: bool) returns (r: int)
      requires Initialised(dev.chip)
      modifies dev
      ensures dev.chip == Write(old(dev.chip), pipe)
      ensures r == if 0 < len <= PAYLOAD_SIZE && !fifoFull && acked then len else -1
    {
      var e := dev.Ptx(pipe);
      var err := dev.PtxData(len, fifoFull);
      if err == 0 {
        err := if acked then 0 else -1;
      }
      dev.Prx();
      if err < 0 || err == 1 {
        return -1;
      }
      return len;
    }

    method Control(cmd: Cmd) returns (err: int)
      requires Initialised(dev.chip)
      modifies dev
      ensures dev.chip == Ioctl(old(dev.chip), cmd)
      ensures err == match cmd
                     case SetPipe(p, _) => if p > PIPE_MAX then -1 else 0
                     case ResetPipe(p) => if p < 0 || p > PIPE_MAX then -1 else 0
                     case SetCh(ch, _) => if ChannelAllowed(old(dev.chip), ch) then 0 else -1
                     case _ => -1
    {
      err := -1;
      dev.Standby();
      match cmd {
        case SetPipe(p, a) => err := dev.Open(p, a);
        case ResetPipe(p) => err := dev.Close(p);
        case SetCh(ch, ack) => err := dev.SelectChannel(ch, ack);
        case SetStandby =>
        case Unsupported =>
      }
      if !cmd.SetStandby? {
        dev.Prx();
      }
    }
  }
}

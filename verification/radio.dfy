/** nrf24l01.c: the radio as a register file, a chip-enable line and the two driver statics. */
module Nrf24l01 {
  import opened Bits
  import opened Bytes

  const PIPE_MAX := 5
  const CH_MIN := 10
  const CH_MAX_2MBPS := 54
  const CH_MAX_1MBPS := 116
  const ARC := 15
  const CHANNEL_DEFAULT: byte := 10
  const PAYLOAD_SIZE := 32

  /** The registers the driver programs; pipes 2 to 5 own one address byte each (rxLow). */
  datatype Radio = Radio(
    ce: bool,
    primRx: bool, pwrUp: bool, enAA: Mask, enRxAddr: Mask, aw: nat, retrArd: nat, retrArc: nat,
    rfCh: byte, drLow: bool, drHigh: bool, rfPwr: byte,
    rxP0: Addr, rxP1: Addr, rxLow: seq<byte>, txAddr: Addr,
    pipe0Open: bool, pipe0Address: Addr)

  datatype AddrReg = TxAddr | RxAddr(pipe: nat)

  /** NRF24_AW_RD: address width in bytes, from the two-bit field. */
  function AwRd(aw: nat): nat {
    if aw != 0 then aw + 2 else 0
  }

  /** NRF24_CH: the channel field of RF_CH. */
  function Ch(c: byte): byte {
    c % 128
  }

  /** What init leaves for good: five-byte addresses, a seven-bit channel, 1 Mbps, four one-byte address registers. */
  predicate Initialised(s: Radio) {
    s.aw == 3 && s.rfCh < 128 && !s.drLow && !s.drHigh && |s.rxLow| == 4
  }

  function SetAddress(s: Radio, reg: AddrReg, a: Addr): (t: Radio)
    requires Initialised(s)
    requires reg.RxAddr? ==> reg.pipe <= PIPE_MAX
    ensures Initialised(t)
  {
    match reg
    case TxAddr => s.(txAddr := a)
    case RxAddr(p) =>
      if p == 0 then s.(rxP0 := a)
      else if p == 1 then s.(rxP1 := a)
      else s.(rxLow := s.rxLow[p - 2 := a[0]])
  }

  /** get_address_pipe: pipes 2 to 5 borrow the four upper bytes of pipe 1. */
  function PipeAddress(s: Radio, p: nat): (a: Addr)
    requires Initialised(s) && p <= PIPE_MAX
  {
    if p == 0 then s.rxP0
    else if p == 1 then s.rxP1
    else [s.rxLow[p - 2]] + s.rxP1[1..]
  }

  function Init(s: Radio, txPower: byte): (t: Radio)
    requires |s.rxLow| == 4
    ensures Initialised(t)
  {
    s.(primRx := false, pwrUp := true,
       rfCh := CHANNEL_DEFAULT,
       drLow := false, drHigh := false, rfPwr := txPower % 4,
       aw := 3,
       retrArc := 0, retrArd := 0,
       enAA := NO_PIPES,
       enRxAddr := NO_PIPES)
  }

  predicate ChannelAllowed(s: Radio, ch: byte) {
    CH_MIN <= ch <= if s.drHigh && !s.drLow then CH_MAX_2MBPS else CH_MAX_1MBPS
  }

  function SetChannel(s: Radio, ch: byte, ack: bool): (t: Radio)
  {
    if !ChannelAllowed(s, ch) then s
    else s.(ce := false, rfCh := if ch == Ch(s.rfCh) then s.rfCh else Ch(ch),
            enAA := if ack then ALL_PIPES else NO_PIPES)
  }

  function OpenPipe(s: Radio, p: nat, a: Addr): (t: Radio)
    requires Initialised(s)
    ensures Initialised(t)
  {
    if p > PIPE_MAX || s.enRxAddr[p] then s
    else
      var s1 := SetAddress(s.(enRxAddr := s.enRxAddr[p := true]), RxAddr(p), a);
      if p == 0 then s1.(pipe0Address := a, pipe0Open := true)
      else if p > 1 && !s.enRxAddr[1] then SetAddress(s1, RxAddr(1), a)
      else s1
  }

  function ClosePipe(s: Radio, p: int): (t: Radio)
  {
    if p < 0 || p > PIPE_MAX || !s.enRxAddr[p] then s
    else s.(enRxAddr := s.enRxAddr[p := false], pipe0Open := s.pipe0Open && p != 0)
  }

  /** set_ptx: in acknowledged mode pipe 0 is lent to the pipe being sent on. */
  function SetPtx(s: Radio, p: nat): (t: Radio)
    requires Initialised(s)
    ensures Initialised(t)
  {
    if p > PIPE_MAX then s
    else
      var ack := s.enAA != NO_PIPES;
      var a := PipeAddress(s, p);
      s.(ce := false, retrArd := if ack then p + 1 else 0, retrArc := if ack then ARC else 0,
         enRxAddr := if ack then s.enRxAddr[0 := true] else s.enRxAddr,
         rxP0 := if ack then a else s.rxP0,
         txAddr := a, primRx := false)
  }

  function SetPrx(s: Radio): (t: Radio)
    requires Initialised(s)
    ensures Initialised(t)
  {
    s.(ce := true, rxP0 := if s.pipe0Open then s.pipe0Address else s.rxP0,
       enRxAddr := if s.pipe0Open then s.enRxAddr else s.enRxAddr[0 := false],
       primRx := true)
  }

  /**
    * The chip and the driver's two statics, changed one register at a time. The register file is one
    * value: a register write replaces one of its components.
    */
  class Device {
    var chip: Radio

    /** Power-on: the registers hold whatever they hold, the driver statics are their C initialisers. */
    constructor (regs: Radio)
      requires |regs.rxLow| == 4
      ensures chip == regs.(pipe0Open := false, pipe0Address := [0, 0, 0, 0, 0])
    {
      chip := regs.(pipe0Open := false, pipe0Address := [0, 0, 0, 0, 0]);
    }

    method SetAddressPipe(reg: AddrReg, pipeAddr: Addr)
      requires Initialised(chip)
      requires reg.RxAddr? ==> reg.pipe <= PIPE_MAX
      modifies this
      ensures chip == SetAddress(old(chip), reg, pipeAddr)
    {
      var len := if reg.TxAddr? || reg.pipe <= 1 then AwRd(chip.aw) else 1;
      var data := pipeAddr[..len];
      match reg {
        case TxAddr => chip := chip.(txAddr := data + chip.txAddr[len..]);
        case RxAddr(p) =>
          if p == 0 {
            chip := chip.(rxP0 := data + chip.rxP0[len..]);
          } else if p == 1 {
            chip := chip.(rxP1 := data + chip.rxP1[len..]);
          } else {
            chip := chip.(rxLow := chip.rxLow[p - 2 := data[0]]);
          }
      }
    }

    method GetAddressPipe(pipe: nat) returns (pipeAddr: Addr)
      requires Initialised(chip) && pipe <= PIPE_MAX
      ensures pipeAddr == PipeAddress(chip, pipe)
    {
      if pipe == 0 {
        pipeAddr := chip.rxP0;
      } else {
        pipeAddr := chip.rxP1;
        if pipe > 1 {
          pipeAddr := pipeAddr[0 := chip.rxLow[pipe - 2]];
        }
      }
    }

    method InitRadio(txPower: byte)
      requires |chip.rxLow| == 4
      modifies this
      ensures chip == Init(old(chip), txPower)
    {
      chip := chip.(primRx := false, pwrUp := false);
      chip := chip.(pwrUp := true);
      chip := chip.(rfCh := 0);
      chip := chip.(rfCh := CHANNEL_DEFAULT);
      chip := chip.(drLow := false, drHigh := false, rfPwr := txPower % 4);
      chip := chip.(aw := 3);
      chip := chip.(retrArd := 0, retrArc := 0);
      chip := chip.(enAA := NO_PIPES);
      chip := chip.(enRxAddr := NO_PIPES);
    }

    method SelectChannel(ch: byte, ack: bool) returns (err: int)
      modifies this
      ensures chip == SetChannel(old(chip), ch, ack)
      ensures err == if ChannelAllowed(old(chip), ch) then 0 else -1
    {
      var max := if chip.drHigh && !chip.drLow then CH_MAX_2MBPS else CH_MAX_1MBPS;
      if ch < CH_MIN || ch > max {
        return -1;
      }
      Standby();
      if ch != Ch(chip.rfCh) {
        chip := chip.(rfCh := Ch(ch));
      }
      if ack {
        chip := chip.(enAA := ALL_PIPES);
      } else {
        chip := chip.(enAA := NO_PIPES);
      }
      return 0;
    }

    method Open(pipe: nat, pipeAddr: Addr) returns (err: int)
      requires Initialised(chip)
      modifies this
      ensures chip == OpenPipe(old(chip), pipe, pipeAddr)
      ensures err == if pipe > PIPE_MAX then -1 else 0
    {
      if pipe > PIPE_MAX {
        return -1;
      }
      var value := chip.enRxAddr;
      if !value[pipe] {
        chip := chip.(enRxAddr := value[pipe := true]);
        SetAddressPipe(RxAddr(pipe), pipeAddr);
        if pipe == 0 {
          chip := chip.(pipe0Address := pipeAddr);
          chip := chip.(pipe0Open := true);
        } else if pipe > 1 && !value[1] {
          SetAddressPipe(RxAddr(1), pipeAddr);
        }
      }
      return 0;
    }

    method Close(pipe: int) returns (err: int)
      modifies this
      ensures chip == ClosePipe(old(chip), pipe)
      ensures err == if pipe < 0 || pipe > PIPE_MAX then -1 else 0
    {
      if pipe < 0 || pipe > PIPE_MAX {
        return -1;
      }
      if chip.enRxAddr[pipe] {
        chip := chip.(enRxAddr := chip.enRxAddr[pipe := false]);
        if pipe == 0 {
          chip := chip.(pipe0Open := false);
        }
      }
      return 0;
    }

    method Ptx(pipe: nat) returns (err: int)
      requires Initialised(chip)
      modifies this
      ensures chip == SetPtx(old(chip), pipe)
      ensures err == if pipe > PIPE_MAX then -1 else 0
    {
      if pipe > PIPE_MAX {
        return -1;
      }
      Standby();
      if chip.enAA != NO_PIPES {
        chip := chip.(retrArd := pipe + 1, retrArc := ARC);
      } else {
        chip := chip.(retrArd := 0, retrArc := 0);
      }
      var pipeAddr := GetAddressPipe(pipe);
      if chip.retrArc != 0 {
        chip := chip.(enRxAddr := chip.enRxAddr[0 := true]);
        SetAddressPipe(RxAddr(0), pipeAddr);
      }
      SetAddressPipe(TxAddr, pipeAddr);
      chip := chip.(primRx := false);
      return 0;
    }

    method Prx()
      requires Initialised(chip)
      modifies this
      ensures chip == SetPrx(old(chip))
    {
      Standby();
      if chip.pipe0Open {
        SetAddressPipe(RxAddr(0), chip.pipe0Address);
      } else {
        chip := chip.(enRxAddr := chip.enRxAddr[0 := false]);
      }
      chip := chip.(primRx := true);
      chip := chip.(ce := true);
    }

    /** ptx_data: -1 for a payload the FIFO cannot take, 1 when the FIFO is full, else fired. */
    method PtxData(len: nat, fifoFull: bool) returns (st: int)
      modifies this
      ensures st == if len == 0 || len > PAYLOAD_SIZE then -1 else if fifoFull then 1 else 0
      ensures chip == if st == 0 then old(chip).(ce := false) else old(chip)
    {
      if len == 0 || len > PAYLOAD_SIZE {
        return -1;
      }
      st := if fifoFull then 1 else 0;
      if st == 0 {
        chip := chip.(ce := true);
        Standby();
      }
    }

    method Standby()
      modifies this
      ensures chip == old(chip).(ce := false)
    {
      chip := chip.(ce := false);
    }
  }
}

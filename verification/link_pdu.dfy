/** nrf24l01_ll.h and hal/nrf24.h: the bytes of link-layer frames and management events. */
module LinkPdu {
  import opened Bytes

  const MTU := 32
  const DATA_HDR_SIZE := 2
  const PW_MSG_SIZE := 30
  const DATA_SIZE := 128

  const LID_DATA_FRAG := 0
  const LID_DATA_END := 1
  const LID_CONTROL := 3

  const TYPE_PRESENCE := 1
  const TYPE_CONNECT_REQ := 3

  const OP_KEEPALIVE_REQ: byte := 1
  const OP_KEEPALIVE_RSP: byte := 2
  const OP_DISCONNECT: byte := 4

  const EVT_CONNECTED: seq<byte> := [0x01, 0x02]
  const EVT_DISCONNECTED: seq<byte> := [0x02, 0x02]
  const EVT_PRESENCE: seq<byte> := [0x05, 0x02]

  /**
    * One frame as phy_read hands it over: its length and the whole 32-byte payload buffer. Bytes from
    * len on are whatever the buffer held before.
    */
  datatype Heard = Heard(at: nat, len: nat, buf: seq<byte>)

  predicate WellSized(f: Heard) {
    |f.buf| == MTU && 1 <= f.len <= MTU
  }

  /** lid:2 and nseq:6, packed into the first byte. */
  function Lid(f: Heard): (l: nat)
    requires WellSized(f)
  {
    f.buf[0] % 4
  }

  function Nseq(f: Heard): (n: nat)
    requires WellSized(f)
    ensures n < 64
  {
    f.buf[0] / 4
  }

  predicate IsData(f: Heard)
    requires WellSized(f)
  {
    Lid(f) == LID_DATA_FRAG || Lid(f) == LID_DATA_END
  }

  /** read_raw takes the header size off every data frame without looking, so a data frame has a header. */
  predicate RawFrame(f: Heard) {
    WellSized(f) && (IsData(f) ==> DATA_HDR_SIZE <= f.len)
  }

  /** A presence event is two bytes longer than the frame it reports and lives in a 32-byte buffer. */
  predicate MgmtFrame(f: Heard) {
    WellSized(f) && (f.buf[0] % 16 == TYPE_PRESENCE ==> f.len <= MTU - 2)
  }

  /** Keepalive and disconnect frames; the unused header bits are left over from the stack. */
  function ControlPdu(op: byte, src: Mac, dst: Mac, junk: byte): (f: seq<byte>)
    ensures |f| == 19
  {
    [LID_CONTROL + junk / 4 * 4, junk, op] + src + dst
  }

  function AddressFor(mac: Mac, fd: int): (a: Addr)
  {
    [fd % 256] + mac[4..]
  }

  /** The connect request hal_comm_connect builds over the old contents of the transmit buffer. */
  function ConnectPdu(buf: seq<byte>, src: Mac, dst: Mac, channel: byte, aa: Addr): (r: seq<byte>)
    requires |buf| == MTU
    ensures |r| == MTU
  {
    [TYPE_CONNECT_REQ + buf[0] / 16 * 16] + src + dst + [channel] + aa + buf[23..]
  }

  const CONNECT_LEN := 31

  /** Where the fields of a connect request lie, whatever the buffer held before. */
  lemma RequestFields(buf: seq<byte>, src: Mac, dst: Mac, channel: byte, aa: Addr)
    requires |buf| == MTU
    ensures var r := ConnectPdu(buf, src, dst, channel, aa)[..CONNECT_LEN];
            && |r| == CONNECT_LEN && r[0] % 16 == TYPE_CONNECT_REQ
            && r[1..9] == src && r[9..17] == dst && r[17] == channel && r[18..23] == aa
  {
    var r := ConnectPdu(buf, src, dst, channel, aa)[..CONNECT_LEN];
    assert forall i :: 0 <= i < 8 ==> r[1 + i] == src[i] && r[9 + i] == dst[i];
    assert forall i :: 0 <= i < 5 ==> r[18 + i] == aa[i];
  }

  function PresencePdu(mac: Mac, name: seq<byte>, junk: byte): (f: seq<byte>)
  {
    [TYPE_PRESENCE + junk / 16 * 16] + mac + name[..Min(|name|, MTU - 9)]
  }

  /** MGMT_EVT_NRF24_CONNECTED over the old mailbox contents. */
  function ConnectedEvent(buf: seq<byte>, src: Mac, dst: Mac, channel: byte, aa: Addr): (r: seq<byte>)
    requires |buf| == MTU
    ensures |r| == MTU
  {
    EVT_CONNECTED + [0] + src + dst + [channel] + aa + buf[25..]
  }

  const CONNECTED_LEN := 25

  /** MGMT_EVT_NRF24_DISCONNECTED: the adapter index byte is not written. */
  function DisconnectedEvent(buf: seq<byte>, mac: Mac): (r: seq<byte>)
    requires |buf| == MTU
    ensures |r| == MTU
  {
    EVT_DISCONNECTED + buf[2..3] + mac + buf[11..]
  }

  const DISCONNECTED_LEN := 11

  function PresenceEvent(buf: seq<byte>, mac: Mac, name: seq<byte>): (r: seq<byte>)
    requires |buf| == MTU && |name| <= MTU - 11
    ensures |r| == MTU
  {
    EVT_PRESENCE + [0] + mac + name + buf[11 + |name|..]
  }

  /** Different sockets of one node never share an address, and all its addresses share bytes 1 to 4. */
  lemma SocketAddressesDiffer(mac: Mac, i: int, j: int)
    requires 1 <= i <= 5 && 1 <= j <= 5
    ensures AddressFor(mac, i) == AddressFor(mac, j) <==> i == j
    ensures AddressFor(mac, i)[1..] == AddressFor(mac, j)[1..]
  {
    assert AddressFor(mac, i)[0] == i && AddressFor(mac, j)[0] == j;
  }

  lemma PatchNext(buf: seq<byte>, a: seq<byte>, b: seq<byte>)
    requires |a| + |b| <= |buf|
    ensures Patch(Patch(buf, 0, a), |a|, b) == Patch(buf, 0, a + b)
  {
    var r := Patch(buf, 0, a);
    assert r == a + buf[|a|..];
    assert r[|a| + |b|..] == buf[|a| + |b|..];
  }

  /** Field after field, read_mgmt writes exactly the connect event. */
  lemma ConnectedByFields(buf: seq<byte>, src: Mac, dst: Mac, channel: byte, aa: Addr)
    requires |buf| == MTU
    ensures Patch(Patch(Patch(Patch(Patch(buf, 0, EVT_CONNECTED + [0]), 3, src), 11, dst), 19, [channel]), 20, aa)
            == ConnectedEvent(buf, src, dst, channel, aa)
  {
    var h := EVT_CONNECTED + [0];
    PatchNext(buf, h, src);
    PatchNext(buf, h + src, dst);
    PatchNext(buf, h + src + dst, [channel]);
    PatchNext(buf, h + src + dst + [channel], aa);
  }

  /** Field after field, hal_comm_connect writes exactly the request. */
  lemma RequestByFields(buf: seq<byte>, src: Mac, dst: Mac, channel: byte, aa: Addr)
    requires |buf| == MTU
    ensures var h: seq<byte> := [TYPE_CONNECT_REQ + buf[0] / 16 * 16];
            Patch(Patch(Patch(Patch(Patch(buf, 0, h), 1, src), 9, dst), 17, [channel]), 18, aa)
            == ConnectPdu(buf, src, dst, channel, aa)
  {
    var h: seq<byte> := [TYPE_CONNECT_REQ + buf[0] / 16 * 16];
    PatchNext(buf, h, src);
    PatchNext(buf, h + src, dst);
    PatchNext(buf, h + src + dst, [channel]);
    PatchNext(buf, h + src + dst + [channel], aa);
  }

  lemma PresenceByFields(buf: seq<byte>, mac: Mac, name: seq<byte>)
    requires |buf| == MTU && |name| <= MTU - 11
    ensures Patch(Patch(Patch(buf, 0, EVT_PRESENCE + [0]), 3, mac), 11, name) == PresenceEvent(buf, mac, name)
  {
    var h := EVT_PRESENCE + [0];
    PatchNext(buf, h, mac);
    PatchNext(buf, h + mac, name);
  }

  lemma DisconnectedByFields(buf: seq<byte>, mac: Mac)
    requires |buf| == MTU
    ensures Patch(Patch(buf, 0, EVT_DISCONNECTED), 3, mac) == DisconnectedEvent(buf, mac)
  {
    assert Patch(buf, 0, EVT_DISCONNECTED) == EVT_DISCONNECTED + buf[2..];
  }
}

/**
 * The websocket server façade: only its configuration defaulting is modelled.
 * Durations are int64 nanosecond counts (time.Duration), so the arithmetic
 * below wraps around as Go's does and divides truncating toward zero.
 */
module WssServer {
  import opened Decimal
  import WssHub

  const TwoTo64: int := 0x1_0000_0000_0000_0000

  /** Go int64 wrap-around of an exact integer result. */
  function Wrap64(x: int): (r: int)
    ensures MinInt64 <= r <= MaxInt64
    ensures MinInt64 <= x <= MaxInt64 ==> r == x
    ensures (r - x) % TwoTo64 == 0
  {
    (x - MinInt64) % TwoTo64 + MinInt64
  }

  /** Go's `/` on integers: the quotient truncated toward zero. */
  function Quo(a: int, b: int): (q: int)
    requires b > 0
    ensures a >= 0 ==> q == a / b
    ensures a < 0 ==> q == -((-a) / b)
  {
    if a >= 0 then a / b else -((-a) / b)
  }

  /** PingPeriod after NewServer: (PongWait * 9) / 10 when unset and PongWait > 0. */
  function DefaultPingPeriod(pingPeriod: int, pongWait: int): int
  {
    if pingPeriod == 0 && pongWait > 0 then Quo(Wrap64(pongWait * 9), 10) else pingPeriod
  }

  /** A set PingPeriod, or an unset one with no positive PongWait, is left as it is. */
  lemma PingPeriodKeptUnlessDefaulted(pingPeriod: int, pongWait: int)
    requires pingPeriod != 0 || pongWait <= 0
    ensures DefaultPingPeriod(pingPeriod, pongWait) == pingPeriod
  {
  }

  /**
   * A defaulted PingPeriod is nine tenths of PongWait, rounded down, so
   * pings go out before the pong deadline: 0 <= PingPeriod < PongWait, as
   * long as PongWait * 9 fits in an int64.
   */
  lemma DefaultedPingBeforePong(pongWait: int)
    requires 0 < pongWait && pongWait * 9 <= MaxInt64
    ensures var p := DefaultPingPeriod(0, pongWait);
      p == (pongWait * 9) / 10 && 0 <= p < pongWait
      && (pongWait >= 2 ==> p > 0)
  {
  }

  /** Beyond that bound the product wraps and the defaulted period is negative. */
  lemma DefaultedPingOverflows()
    ensures DefaultPingPeriod(0, 1_024_819_115_206_086_201) < 0
  {
    var pong := 1_024_819_115_206_086_201;
    assert pong * 9 == MaxInt64 + 2;
    assert Wrap64(pong * 9) == MinInt64 + 1;
  }

  /** The server's Config; only PingPeriod is ever written. */
  class Config {
    var writeWait: int
    var pongWait: int
    var pingPeriod: int
    var maxMessageSize: int
    var readBufferSize: int
    var writeBufferSize: int

    constructor (writeWait: int, pongWait: int, pingPeriod: int,
                 maxMessageSize: int, readBufferSize: int, writeBufferSize: int)
      ensures this.writeWait == writeWait && this.pongWait == pongWait && this.pingPeriod == pingPeriod
      ensures this.maxMessageSize == maxMessageSize && this.readBufferSize == readBufferSize
      ensures this.writeBufferSize == writeBufferSize
    {
      this.writeWait := writeWait;
      this.pongWait := pongWait;
      this.pingPeriod := pingPeriod;
      this.maxMessageSize := maxMessageSize;
      this.readBufferSize := readBufferSize;
      this.writeBufferSize := writeBufferSize;
    }
  }

  class Server {
    const hub: WssHub.Hub
    const cfg: Config

    /**
     * NewServer: defaults cfg.PingPeriod in place through the pointer, then
     * creates the hub; no other Config field is written.
     */
    constructor (cfg: Config)
      modifies cfg
      ensures this.cfg == cfg && fresh(hub)
      ensures hub.State() == WssHub.Started([])
      ensures cfg.pingPeriod == DefaultPingPeriod(old(cfg.pingPeriod), old(cfg.pongWait))
      ensures cfg.writeWait == old(cfg.writeWait) && cfg.pongWait == old(cfg.pongWait)
      ensures cfg.maxMessageSize == old(cfg.maxMessageSize)
      ensures cfg.readBufferSize == old(cfg.readBufferSize) && cfg.writeBufferSize == old(cfg.writeBufferSize)
    {
      if cfg.pingPeriod == 0 && cfg.pongWait > 0 {
        cfg.pingPeriod := Quo(Wrap64(cfg.pongWait * 9), 10);
      }
      this.cfg := cfg;
      hub := new WssHub.Hub();
    }
  }
}

/**
 * main.go: the Fiber service's channel map, taken apart from the HTTP
 * handlers and the mutexes. Records are stored whole under an ID made of
 * the channel number and the band, and the summary scans the map for the
 * least score, starting from a `MaxInt` sentinel.
 */
module GoStore {

  /** Go's `int` on a 64-bit platform. */
  newtype int64 = x: int | -0x8000_0000_0000_0000 <= x < 0x8000_0000_0000_0000

  /** `int(^uint(0) >> 1)`: the largest int64. */
  const MaxInt: int64 := 0x7FFF_FFFF_FFFF_FFFF

  const Modulus: int := 0x1_0000_0000_0000_0000

  /** A JSON-decoded `WiFiChannel`; the float64 band is an exact real here. */
  datatype WiFiChannel = WiFiChannel(
    channelNumber: int64,
    frequencyBand: real,
    usage: int64,
    interference: int64,
    noise: int64,
    transmissionPower: int64,
    channelWidth: int64)

  /**
   * The map key `fmt.Sprintf("%d-%.1f", ...)`: the channel number and the band
   * rounded to tenths of a GHz, kept as the two numbers the text is made of.
   */
  datatype ChannelID = ChannelID(channelNumber: int64, tenths: int)

  /** The summary the handler answers with. */
  datatype Summary = NoData | Best(channel: WiFiChannel)

  /** `WiFiChannel{}`: every field zero. */
  const ZeroChannel := WiFiChannel(0, 0.0, 0, 0, 0, 0, 0)

  /** Two's-complement wrap-around of an integer into int64. */
  function Wrap(x: int): (w: int64)
    ensures (w as int - x) % Modulus == 0
    ensures -0x8000_0000_0000_0000 <= x < 0x8000_0000_0000_0000 ==> w as int == x
  {
    ((x + 0x8000_0000_0000_0000) % Modulus - 0x8000_0000_0000_0000) as int64
  }

  /** The score formula over unbounded integers. */
  function ExactScore(c: WiFiChannel): int
  {
    c.usage as int - c.interference as int + c.noise as int - c.transmissionPower as int + c.channelWidth as int
  }

  /**
   * `calculateChannelScore`. Each Go `+`/`-` wraps; since wrapping commutes
   * with addition modulo 2^64, one wrap of the exact sum gives the same value.
   */
  function CalculateChannelScore(c: WiFiChannel): (score: int64)
    ensures (score as int - ExactScore(c)) % Modulus == 0
    ensures -0x8000_0000_0000_0000 <= ExactScore(c) < 0x8000_0000_0000_0000 ==> score as int == ExactScore(c)
  {
    Wrap(ExactScore(c))
  }

  /**
   * What `%.1f` keeps of a band: the nearest whole number of tenths, an exact
   * half going to the even neighbour.
   */
  function Tenths(band: real): (t: int)
    ensures (t as real) - 0.5 <= band * 10.0 <= (t as real) + 0.5
    ensures band * 10.0 - (band * 10.0).Floor as real == 0.5 ==> t % 2 == 0
  {
    var scaled := band * 10.0;
    var whole := scaled.Floor;
    var fraction := scaled - whole as real;
    if fraction < 0.5 then whole
    else if fraction > 0.5 then whole + 1
    else if whole % 2 == 0 then whole
    else whole + 1
  }

  /** `generateChannelID`. */
  function GenerateChannelID(c: WiFiChannel): ChannelID
  {
    ChannelID(c.channelNumber, Tenths(c.frequencyBand))
  }

  /** Bands closer than half a tenth to the same tenth share a slot: 2.4 and 2.44 are one ID. */
  lemma SameTenthSameSlot(c: WiFiChannel, d: WiFiChannel, t: int)
    requires c.channelNumber == d.channelNumber
    requires (t as real) - 0.5 < c.frequencyBand * 10.0 < (t as real) + 0.5
    requires (t as real) - 0.5 < d.frequencyBand * 10.0 < (t as real) + 0.5
    ensures GenerateChannelID(c) == GenerateChannelID(d)
  {
    TenthsOfNear(c.frequencyBand, t);
    TenthsOfNear(d.frequencyBand, t);
  }

  /** A band strictly within half a tenth of t is written as t tenths. */
  lemma TenthsOfNear(band: real, t: int)
    requires (t as real) - 0.5 < band * 10.0 < (t as real) + 0.5
    ensures Tenths(band) == t
  {
    var scaled := band * 10.0;
    if scaled < t as real {
      assert scaled.Floor == t - 1;
    } else {
      assert scaled.Floor == t;
    }
  }

  /** Records on 2.4 and on 2.44 GHz of one channel number land in one slot. */
  lemma NearbyBandsShareSlot(usage: int64)
    ensures GenerateChannelID(WiFiChannel(6, 2.4, usage, 0, 0, 0, 0)) == GenerateChannelID(WiFiChannel(6, 2.44, 0, 0, 0, 0, 0))
  {
    SameTenthSameSlot(WiFiChannel(6, 2.4, usage, 0, 0, 0, 0), WiFiChannel(6, 2.44, 0, 0, 0, 0, 0), 24);
  }

  /** Bands more than a tenth apart never share a slot (for exact reals, two bands exactly a tenth apart can both end on a half and round together). */
  lemma DistinctTenthsDistinctSlots(c: WiFiChannel, d: WiFiChannel)
    requires c.frequencyBand * 10.0 + 1.0 < d.frequencyBand * 10.0
    ensures GenerateChannelID(c) != GenerateChannelID(d)
  {
  }

  /** Storing two records of the same pair one after the other leaves only the second in their slot. */
  lemma LastWriteWins(m: map<ChannelID, WiFiChannel>, c: WiFiChannel, d: WiFiChannel)
    requires GenerateChannelID(c) == GenerateChannelID(d)
    ensures m[GenerateChannelID(c) := c][GenerateChannelID(d) := d] == m[GenerateChannelID(d) := d]
  {
  }

  /** An overflowing score wraps: usage MaxInt with noise 1 scores the least int64. */
  lemma ScoreWraps()
    ensures CalculateChannelScore(WiFiChannel(1, 5.0, MaxInt, 0, 1, 0, 0)) == -0x8000_0000_0000_0000
  {
  }

  /** The channel map of main.go. */
  class ChannelStore {
    var channels: map<ChannelID, WiFiChannel>

    constructor ()
      ensures channels == map[]
    {
      channels := map[];
    }

    /** The map part of `AddOrUpdateChannel`: the record replaces whatever its ID held; nothing else changes. */
    method AddOrUpdateChannel(channel: WiFiChannel)
      modifies this
      ensures channels == old(channels)[GenerateChannelID(channel) := channel]
      ensures channels.Keys == old(channels).Keys + {GenerateChannelID(channel)}
      ensures channels[GenerateChannelID(channel)] == channel
      ensures forall id :: id in old(channels) && id != GenerateChannelID(channel) ==> channels[id] == old(channels)[id]
    {
      var channelID := GenerateChannelID(channel);
      channels := channels[channelID := channel];
    }

    /**
     * The map part of `RemoveChannel`: `delete` on the ID written from the
     * parsed path parameters; an absent ID changes nothing.
     */
    method RemoveChannel(channelNumber: int64, frequencyBand: real)
      modifies this
      ensures channels == old(channels) - {ChannelID(channelNumber, Tenths(frequencyBand))}
      ensures ChannelID(channelNumber, Tenths(frequencyBand)) !in old(channels) ==> channels == old(channels)
      ensures forall id :: id in channels <==> id in old(channels) && id != ChannelID(channelNumber, Tenths(frequencyBand))
    {
      var channelID := ChannelID(channelNumber, Tenths(frequencyBand));
      channels := channels - {channelID};
    }

    /**
     * The scan of `BestChannelSummary`, as written: a channel is taken only
     * when its score is strictly below the best so far, which starts at
     * `MaxInt`, and "no data" is reported when the best score is still
     * `MaxInt`. The map is visited in an arbitrary order.
     */
    method BestChannelSummary() returns (summary: Summary)
      ensures summary.NoData? <==> forall id :: id in channels ==> CalculateChannelScore(channels[id]) == MaxInt
      ensures summary.Best? ==> summary.channel in channels.Values && CalculateChannelScore(summary.channel) < MaxInt
      ensures summary.Best? ==> forall id :: id in channels ==> CalculateChannelScore(summary.channel) <= CalculateChannelScore(channels[id])
      ensures channels == map[] ==> summary == NoData
    {
      var bestChannel := ZeroChannel;
      var bestScore := MaxInt;
      var pending := channels.Keys;
      while pending != {}
        invariant pending <= channels.Keys
        invariant bestScore < MaxInt ==> bestChannel in channels.Values && CalculateChannelScore(bestChannel) == bestScore
        invariant forall id :: id in channels && id !in pending ==> bestScore <= CalculateChannelScore(channels[id])
        decreases pending
      {
        var channelID :| channelID in pending;
        var channel := channels[channelID];
        var score := CalculateChannelScore(channel);
        if score < bestScore {
          bestScore := score;
          bestChannel := channel;
        }
        pending := pending - {channelID};
      }
      if bestScore == MaxInt {
        return NoData;
      }
      summary := Best(bestChannel);
    }

    /**
     * The summary with the sentinel replaced by a flag: "no data" exactly
     * when the map is empty, otherwise a channel of least score.
     */
    method LeastScoreSummary() returns (summary: Summary)
      ensures summary.NoData? <==> channels == map[]
      ensures summary.Best? ==> summary.channel in channels.Values
      ensures summary.Best? ==> forall id :: id in channels ==> CalculateChannelScore(summary.channel) <= CalculateChannelScore(channels[id])
    {
      var found := false;
      var bestChannel := ZeroChannel;
      var pending := channels.Keys;
      while pending != {}
        invariant pending <= channels.Keys
        invariant found <==> channels.Keys - pending != {}
        invariant found ==> bestChannel in channels.Values
        invariant found ==> forall id :: id in channels && id !in pending ==> CalculateChannelScore(bestChannel) <= CalculateChannelScore(channels[id])
        decreases pending
      {
        var channelID :| channelID in pending;
        var channel := channels[channelID];
        if !found || CalculateChannelScore(channel) < CalculateChannelScore(bestChannel) {
          found := true;
          bestChannel := channel;
        }
        pending := pending - {channelID};
      }
      if !found {
        return NoData;
      }
      summary := Best(bestChannel);
    }
  }

  /** A channel whose score is exactly `MaxInt`. */
  const Saturated := WiFiChannel(1, 2.4, MaxInt, 0, 0, 0, 0)

  /** A single channel scoring exactly MaxInt is reported as "no data" by the as-written scan. */
  method SentinelHidesChannel() returns (store: ChannelStore, asWritten: Summary, intended: Summary)
    ensures store.channels == map[GenerateChannelID(Saturated) := Saturated]
    ensures CalculateChannelScore(Saturated) == MaxInt
    ensures asWritten == NoData
    ensures intended == Best(Saturated)
  {
    store := new ChannelStore();
    store.AddOrUpdateChannel(Saturated);
    asWritten := store.BestChannelSummary();
    intended := store.LeastScoreSummary();
  }
}

/**
 * Beta/Server.ts: the analyzer behind the Express routes, the TypeScript
 * twin of server.py. `push` appends to the array, `filter` replaces it on
 * removal, and the best channel of a band comes from `Array.prototype.sort`
 * (stable) with the comparator `a.interference - b.interference` applied to a
 * filtered copy; `null` is None.
 */
module ExpressServer {
  import opened Wrappers
  import opened Ranking
  import opened InterferenceList

  /** `WiFiAnalyzer` of Beta/Server.ts. */
  class WiFiAnalyzer {
    var channels: seq<WiFiChannel>

    constructor ()
      ensures channels == []
    {
      channels := [];
    }

    /** `addChannel`: `push` appends one entry, even when its pair is already listed. */
    method AddChannel(band: string, channel: int, interference: real)
      modifies this
      ensures channels == old(channels) + [WiFiChannel(band, channel, interference)]
    {
      channels := channels + [WiFiChannel(band, channel, interference)];
    }

    /** `removeChannel`: the array becomes the entries whose band or channel differs, in their order. */
    method RemoveChannel(band: string, channel: int)
      modifies this
      ensures channels == Without(old(channels), band, channel)
      ensures forall x :: x in channels <==> x in old(channels) && Kept(x, band, channel)
      ensures (forall i :: 0 <= i < |old(channels)| ==> Kept(old(channels)[i], band, channel)) ==> channels == old(channels)
    {
      WithoutMembers(channels, band, channel);
      if forall i :: 0 <= i < |channels| ==> Kept(channels[i], band, channel) {
        WithoutAbsent(channels, band, channel);
      }
      channels := Without(channels, band, channel);
    }

    /**
     * `getBestChannel`: null when no entry has the band, otherwise the channel
     * of the first entry of least interference in that band. Only the array
     * returned by `filter` is sorted; the stored array is not changed.
     */
    method GetBestChannel(band: string) returns (best: Option<int>)
      ensures best == BestChannel(channels, band)
      ensures best.None? <==> forall j :: 0 <= j < |channels| ==> channels[j].band != band
      ensures best.Some? ==> exists i: nat :: i < |channels| && FirstLeastAt(channels, band, i) && channels[i].channel == best.value
    {
      BestChannelIsFirstLeast(channels, band);
      var suitableChannels := Suitable(channels, band);
      if suitableChannels == [] {
        return None;
      }
      suitableChannels := SortByKey(suitableChannels, Interference);
      best := Some(suitableChannels[0].channel);
    }

    /** `getBestChannelsPerBand`: exactly the three band keys, each with `getBestChannel` of its band. */
    method GetBestChannelsPerBand() returns (bestChannels: map<string, Option<int>>)
      ensures bestChannels.Keys == {"2.4GHz", "5GHz", "6GHz"}
      ensures forall band :: band in bestChannels ==> bestChannels[band] == BestChannel(channels, band)
    {
      var bands := Bands;
      bestChannels := map[];
      for i := 0 to |bands|
        invariant bestChannels.Keys == set j | 0 <= j < i :: bands[j]
        invariant forall band :: band in bestChannels ==> bestChannels[band] == BestChannel(channels, band)
      {
        var best := GetBestChannel(bands[i]);
        bestChannels := bestChannels[bands[i] := best];
      }
      assert bestChannels.Keys == {bands[0], bands[1], bands[2]};
    }
  }
}

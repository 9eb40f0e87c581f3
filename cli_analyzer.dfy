/**
 * cli.py: the persistent command-line analyzer. `WiFiChannel` objects live in
 * the analyzer's dictionary, keyed by `(channelNumber, frequencyBand)`, and
 * are updated in place; every successful mutation appends one line to the
 * history and then writes a snapshot of the dictionary.
 */
module CliAnalyzer {
  import opened Wrappers
  import opened Ranking
  import opened PyRepository

  /** A channel of cli.py; its keyword attribute names are camelCase. */
  class WiFiChannel {
    var channelNumber: int
    var usage: int
    var interference: int
    var noise: int
    var transmissionPower: int
    var channelWidth: int
    var frequencyBand: Band

    constructor (channelNumber: int, usage: int, interference: int, noise: int,
                 transmissionPower: int, channelWidth: int, frequencyBand: Band)
      ensures Data() == Record(channelNumber, usage, interference, noise, transmissionPower, channelWidth, frequencyBand)
    {
      this.channelNumber := channelNumber;
      this.usage := usage;
      this.interference := interference;
      this.noise := noise;
      this.transmissionPower := transmissionPower;
      this.channelWidth := channelWidth;
      this.frequencyBand := frequencyBand;
    }

    /** The channel's attributes as a value. */
    function Data(): Record
      reads this
    {
      Record(channelNumber, usage, interference, noise, transmissionPower, channelWidth, frequencyBand)
    }

    /** `score`: power less the penalties, times the width factor. */
    function Score(): (s: real)
      reads this
      ensures s == PyRepository.Score(Data())
    {
      ((-usage - interference - noise + transmissionPower) as real) * WidthFactor(channelWidth)
    }

    /** `update(**kwArgs)`: each keyword naming an integer attribute is set; other names are ignored. */
    method Update(kwArgs: map<string, int>)
      requires "self" !in kwArgs && CamelCase.frequencyBand !in kwArgs
      modifies this
      ensures Data() == Merged(old(Data()), CamelCase, kwArgs)
    {
      var pending := kwArgs.Keys;
      while pending != {}
        invariant pending <= kwArgs.Keys
        invariant Data() == Merged(old(Data()), CamelCase, kwArgs - pending)
        decreases pending
      {
        var key :| key in pending;
        var value := kwArgs[key];
        if key == "channelNumber" {
          channelNumber := value;
        } else if key == "usage" {
          usage := value;
        } else if key == "interference" {
          interference := value;
        } else if key == "noise" {
          noise := value;
        } else if key == "transmissionPower" {
          transmissionPower := value;
        } else if key == "channelWidth" {
          channelWidth := value;
        }
        pending := pending - {key};
      }
      assert kwArgs - {} == kwArgs;
    }
  }

  /** The analyzer of cli.py. */
  class WiFiAnalyzer {
    /** The dictionary `channels`. */
    var channels: map<Key, WiFiChannel>
    /** The dictionary's keys in insertion order, the order Python iterates it in. */
    var order: seq<Key>
    var history: seq<string>
    /** How many times `save_channels_database` has written the snapshot file. */
    var snapshots: nat
    /** The attributes of the channels, in insertion order. */
    ghost var Contents: seq<Record>

    /** The attributes of every channel in the dictionary, by key. */
    ghost var Data: map<Key, Record>

    /**
     * The dictionary invariant: `order` lists the keys of `channels` in
     * insertion order, and `Data` and `Contents` hold the attributes of the
     * stored objects. Since each object's attributes carry its key, no object
     * is stored under two keys.
     */
    ghost predicate Valid()
      reads this`channels, this`order, this`Data, this`Contents, channels.Values
    {
      && Linked(order, Data, Contents)
      && channels.Keys == Data.Keys
      && (forall k :: k in channels ==> channels[k].Data() == Data[k])
    }

    /** Every logged action has been followed by a snapshot. */
    ghost predicate Saved()
      reads this`history, this`snapshots
    {
      snapshots == |history|
    }

    ghost function Abstract(): Repo
      reads this
    {
      Repo(Contents, history)
    }

    constructor ()
      ensures Valid() && Saved() && Abstract() == Repo([], [])
    {
      channels := map[];
      order := [];
      history := [];
      snapshots := 0;
      Data := map[];
      Contents := [];
    }

    /** `log_action`: appends the message at the end of the history. */
    method LogAction(message: string)
      modifies this`history
      ensures history == old(history) + [message]
    {
      history := history + [message];
    }

    /** `save_channels_database`: the file write is not modelled, only its occurrence. */
    method SaveChannelsDatabase()
      modifies this`snapshots
      ensures snapshots == old(snapshots) + 1
    {
      snapshots := snapshots + 1;
    }

    /** The closing steps shared by every successful mutation: `log_action`, then `save_channels_database`. */
    method LogAndSave(message: string)
      requires Valid() && Saved()
      modifies this`history, this`snapshots
      ensures Valid() && Saved() && history == old(history) + [message]
    {
      LogAction(message);
      SaveChannelsDatabase();
    }

    /**
     * `add_or_update_channel`. Every channel object already stored stays under
     * its key, so a present key has its own object updated in place.
     */
    method AddOrUpdateChannel(channelNumber: int, frequencyBand: Band, kwArgs: map<string, int>)
      returns (outcome: Outcome<CallError>)
      requires Valid() && Saved()
      modifies this, channels.Values
      ensures Valid() && Saved()
      ensures AddOrUpdate(old(Abstract()), CamelCase, channelNumber, frequencyBand, kwArgs) == Step(Abstract(), outcome)
      ensures forall k :: k in old(channels) ==> k in channels && channels[k] == old(channels)[k]
      ensures forall k :: k in channels && k !in old(channels) ==> fresh(channels[k])
    {
      if "self" in kwArgs || "channelNumber" in kwArgs || "frequencyBand" in kwArgs {
        return Fail(MultipleValues);
      }
      var channelKey := Key(channelNumber, frequencyBand);
      LinkedIndex(order, Data, Contents, channelKey);
      if channelKey in channels {
        UpdateChannel(channelNumber, frequencyBand, kwArgs);
        outcome := Pass;
      } else {
        outcome := AddChannel(channelNumber, frequencyBand, kwArgs);
      }
    }

    /** The branch of `add_or_update_channel` for a key already present. */
    method UpdateChannel(channelNumber: int, frequencyBand: Band, kwArgs: map<string, int>)
      requires Valid() && Saved() && Key(channelNumber, frequencyBand) in channels
      requires !BindsTwice(CamelCase, kwArgs)
      modifies this`Data, this`Contents, this`history, this`snapshots, channels[Key(channelNumber, frequencyBand)]
      ensures Valid() && Saved()
      ensures AddOrUpdate(old(Abstract()), CamelCase, channelNumber, frequencyBand, kwArgs) == Step(Abstract(), Pass)
      ensures channels == old(channels) && order == old(order)
    {
      var channelKey := Key(channelNumber, frequencyBand);
      LinkedIndex(order, Data, Contents, channelKey);
      UpdateEntry(channelKey, kwArgs);
      LogAndSave(Message("Updated", channelNumber, frequencyBand));
    }

    /** The branch of `add_or_update_channel` for a new key: the constructor may raise. */
    method AddChannel(channelNumber: int, frequencyBand: Band, kwArgs: map<string, int>)
      returns (outcome: Outcome<CallError>)
      requires Valid() && Saved() && Key(channelNumber, frequencyBand) !in channels
      requires !BindsTwice(CamelCase, kwArgs)
      modifies this`channels, this`order, this`Data, this`Contents, this`history, this`snapshots
      ensures Valid() && Saved()
      ensures AddOrUpdate(old(Abstract()), CamelCase, channelNumber, frequencyBand, kwArgs) == Step(Abstract(), outcome)
      ensures forall k :: k in old(channels) ==> k in channels && channels[k] == old(channels)[k]
      ensures forall k :: k in channels && k !in old(channels) ==> fresh(channels[k])
    {
      LinkedIndex(order, Data, Contents, Key(channelNumber, frequencyBand));
      var bound := Constructed(CamelCase, channelNumber, frequencyBand, kwArgs);
      if bound.Failure? {
        return Fail(bound.error);
      }
      AddEntry(bound.value);
      LogAndSave(Message("Added", channelNumber, frequencyBand));
      outcome := Pass;
    }

    /** `channels[key].update(**kwargs)`: the stored object is updated in place. */
    method UpdateEntry(channelKey: Key, kwArgs: map<string, int>)
      requires Valid() && channelKey in channels
      requires "self" !in kwArgs && CamelCase.channelNumber !in kwArgs && CamelCase.frequencyBand !in kwArgs
      modifies this`Data, this`Contents, channels[channelKey]
      ensures Valid()
      ensures var i := IndexOf(old(order), channelKey);
        i < |old(Contents)| && Contents == old(Contents)[i := Merged(old(Contents)[i], CamelCase, kwArgs)]
    {
      LinkedIndex(order, Data, Contents, channelKey);
      var i := IndexOf(order, channelKey);
      var channel := channels[channelKey];
      ghost var merged := Merged(channel.Data(), CamelCase, kwArgs);
      MergedKeepsKey(channel.Data(), CamelCase, kwArgs);
      forall k | k in channels && k != channelKey ensures channels[k] != channel {
        LinkedIndex(order, Data, Contents, k);
      }
      LinkedReplace(order, Data, Contents, i, merged);
      Data := Data[channelKey := merged];
      Contents := Contents[i := merged];
      channel.Update(kwArgs);
    }

    /** `channels[key] = WiFiChannel(...)`: a new object, stored last in insertion order. */
    method AddEntry(r: Record)
      requires Valid() && KeyOf(r) !in channels
      modifies this`channels, this`order, this`Data, this`Contents
      ensures Valid()
      ensures Contents == old(Contents) + [r]
      ensures forall k :: k in old(channels) ==> k in channels && channels[k] == old(channels)[k]
      ensures forall k :: k in channels && k !in old(channels) ==> fresh(channels[k])
    {
      LinkedIndex(order, Data, Contents, KeyOf(r));
      var channel := new WiFiChannel(r.channelNumber, r.usage, r.interference, r.noise,
                                     r.transmissionPower, r.channelWidth, r.frequencyBand);
      LinkedAppend(order, Data, Contents, r);
      channels := channels[KeyOf(r) := channel];
      order := order + [KeyOf(r)];
      Data := Data[KeyOf(r) := r];
      Contents := Contents + [r];
    }

    /** `del channels[key]`: the key leaves the insertion order. */
    method DeleteEntry(channelKey: Key)
      requires Valid() && channelKey in channels
      modifies this`channels, this`order, this`Data, this`Contents
      ensures Valid()
      ensures var i := IndexOf(old(order), channelKey);
        i < |old(Contents)| && Contents == old(Contents)[..i] + old(Contents)[i + 1..]
      ensures channels == old(channels) - {channelKey}
    {
      LinkedIndex(order, Data, Contents, channelKey);
      var i := IndexOf(order, channelKey);
      LinkedDrop(order, Data, Contents, i);
      channels := channels - {channelKey};
      order := order[..i] + order[i + 1..];
      Data := Data - {channelKey};
      Contents := Contents[..i] + Contents[i + 1..];
    }

    /** `remove_channel`: an absent key is a silent no-op, with no log entry and no snapshot. */
    method RemoveChannel(channelNumber: int, frequencyBand: Band)
      requires Valid() && Saved()
      modifies this
      ensures Valid() && Saved()
      ensures Abstract() == Remove(old(Abstract()), channelNumber, frequencyBand)
      ensures channels == old(channels) - {Key(channelNumber, frequencyBand)}
    {
      var channelKey := Key(channelNumber, frequencyBand);
      LinkedIndex(order, Data, Contents, channelKey);
      if channelKey in channels {
        DeleteEntry(channelKey);
        LogAndSave(Message("Removed", channelNumber, frequencyBand));
      }
    }

    /** The first n values of the dictionary, in insertion order. */
    function ValuesOf(n: nat): (values: seq<Record>)
      reads this, channels.Values
      requires Valid() && n <= |order|
      ensures values == Contents[..n]
    {
      LinkedLookup(order, Data, Contents);
      if n == 0 then [] else ValuesOf(n - 1) + [channels[order[n - 1]].Data()]
    }

    /** `channels.values()`. */
    function Values(): (values: seq<Record>)
      reads this, channels.Values
      requires Valid()
      ensures values == Contents
    {
      LinkedLookup(order, Data, Contents);
      ValuesOf(|order|)
    }

    /** `display_channels` without the printing: the channels in the order they are printed. */
    method DisplayChannels() returns (ranked: seq<Record>)
      requires Valid()
      ensures ranked == Ranked(Contents)
    {
      var values := Values();
      ranked := SortByKey(values, NegScore);
    }

    /** The channel object at a position of the insertion order, if any. */
    ghost function ChannelAt(index: Option<nat>): Option<WiFiChannel>
      reads this
    {
      if index.Some? && index.value < |order| && order[index.value] in channels
      then Some(channels[order[index.value]])
      else None
    }

    /** `best_channel`: the first channel of highest score, None when there is none. */
    method BestChannel() returns (best: Option<WiFiChannel>)
      requires Valid()
      ensures best.None? <==> channels == map[]
      ensures best == ChannelAt(Best(Contents))
    {
      LinkedLookup(order, Data, Contents);
      var values := Values();
      if values == [] {
        assert forall k :: k !in channels;
        return None;
      }
      best := Some(channels[order[ArgMin(values, NegScore)]]);
    }

    /** What the scan of `best_channel_per_band` has found among the first i channels. */
    ghost predicate Scanned(best: map<string, Option<WiFiChannel>>, i: nat)
      reads this
      requires i <= |Contents|
    {
      && best.Keys == PerBandKeys
      && best["2.4GHz"] == ChannelAt(BestInBand(Contents[..i], Band24))
      && best["5GHz"] == ChannelAt(BestInBand(Contents[..i], Band5))
      && best["6GHz"] == ChannelAt(BestInBand(Contents[..i], Band6))
    }

    /** One iteration of the scan: channel i replaces its band's entry only with a strictly higher score. */
    lemma ScanStep(best: map<string, Option<WiFiChannel>>, i: nat, best': map<string, Option<WiFiChannel>>)
      requires Valid() && i < |Contents| && Scanned(best, i)
      requires i < |order| && order[i] in channels
      requires var channel := channels[order[i]];
        var key := FrequencyKey(order[i].frequencyBand);
        best' == if best[key].None? || channel.Score() > best[key].value.Score() then best[key := Some(channel)] else best
      ensures Scanned(best', i + 1)
    {
      StoredAt(i);
      var key := FrequencyKey(order[i].frequencyBand);
      var prev := BestInBand(Contents[..i], order[i].frequencyBand);
      if prev.Some? {
        StoredAt(prev.value);
      }
      BestInBandStep(Contents, i, Band24);
      BestInBandStep(Contents, i, Band5);
      BestInBandStep(Contents, i, Band6);
    }

    /**
     * The selection loop of `best_channel_per_band`, before the JSON
     * conversion: one entry per band key, the earliest channel of the highest
     * score in that band, None for a band without channels.
     */
    method BestChannelPerBand() returns (best: map<string, Option<WiFiChannel>>)
      requires Valid()
      ensures best.Keys == PerBandKeys
      ensures forall b :: best[FrequencyKey(b)] == ChannelAt(BestInBand(Contents, b))
    {
      OrderInChannels();
      best := map["2.4GHz" := None, "5GHz" := None, "6GHz" := None];
      for i := 0 to |order|
        invariant Scanned(best, i)
      {
        var channelKey := order[i];
        var channel := channels[channelKey];
        var frequencyKey := FrequencyKey(channelKey.frequencyBand);
        ghost var previous := best;
        if best[frequencyKey].None? || channel.Score() > best[frequencyKey].value.Score() {
          best := best[frequencyKey := Some(channel)];
        }
        ScanStep(previous, i, best);
      }
      ScanDone(best);
    }

    /** The channel object stored for position i holds the i-th record. */
    lemma StoredAt(i: nat)
      requires Valid() && i < |Contents|
      ensures i < |order| && order[i] == KeyOf(Contents[i]) && order[i] in channels
      ensures channels[order[i]].Data() == Contents[i]
      ensures ChannelAt(Some(i)) == Some(channels[order[i]])
    {
      LinkedLookup(order, Data, Contents);
    }

    /** Every key of the insertion order names a stored channel. */
    lemma OrderInChannels()
      requires Valid()
      ensures |order| == |Contents|
      ensures forall j :: 0 <= j < |order| ==> order[j] in channels
    {
      LinkedLookup(order, Data, Contents);
    }

    /** A scan over all channels has found each band's first highest-scoring channel. */
    lemma ScanDone(best: map<string, Option<WiFiChannel>>)
      requires Scanned(best, |Contents|)
      ensures best.Keys == PerBandKeys
      ensures forall b :: best[FrequencyKey(b)] == ChannelAt(BestInBand(Contents, b))
    {
      assert Contents[..|Contents|] == Contents;
    }
  }
}

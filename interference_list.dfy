/**
 * The list-based analyzer shared by server.py and Beta/Server.ts: a plain
 * list of (band, channel, interference) entries, appended to and filtered,
 * and the best channel of a band taken as the head of a stable sort of that
 * band's entries by interference.
 */
module InterferenceList {
  import opened Wrappers
  import opened Ranking

  /** An entry of the list; the band is any string the caller sends. */
  datatype WiFiChannel = WiFiChannel(band: string, channel: int, interference: real)

  /** The bands `getBestChannelsPerBand` asks for, in its order. */
  const Bands: seq<string> := ["2.4GHz", "5GHz", "6GHz"]

  function Interference(ch: WiFiChannel): real
  {
    ch.interference
  }

  /** The filter of `removeChannel`: an entry stays when its band or its channel differs. */
  predicate Kept(ch: WiFiChannel, band: string, channel: int)
  {
    ch.band != band || ch.channel != channel
  }

  /** `[ch for ch in channels if ch.band != band or ch.channel != channel]`. */
  function Without(s: seq<WiFiChannel>, band: string, channel: int): (r: seq<WiFiChannel>)
    ensures |r| <= |s|
  {
    if s == [] then []
    else (if Kept(s[0], band, channel) then [s[0]] else []) + Without(s[1..], band, channel)
  }

  /** `[ch for ch in channels if ch.band == band]`. */
  function Suitable(s: seq<WiFiChannel>, band: string): (r: seq<WiFiChannel>)
    ensures |r| <= |s|
  {
    if s == [] then []
    else (if s[0].band == band then [s[0]] else []) + Suitable(s[1..], band)
  }

  /** `getBestChannel`: the channel at the head of the band's entries sorted by interference. */
  function BestChannel(s: seq<WiFiChannel>, band: string): Option<int>
  {
    var suitable := Suitable(s, band);
    if suitable == [] then None else Some(SortByKey(suitable, Interference)[0].channel)
  }

  // ---------------------------------------------------------------------
  // The filter of removeChannel

  /** The filter distributes over concatenation, so it keeps the surviving entries in their order. */
  lemma {:induction false} WithoutAppend(s: seq<WiFiChannel>, t: seq<WiFiChannel>, band: string, channel: int)
    ensures Without(s + t, band, channel) == Without(s, band, channel) + Without(t, band, channel)
  {
    if s == [] {
      assert s + t == t;
    } else {
      var head := if Kept(s[0], band, channel) then [s[0]] else [];
      var left, right := Without(s[1..], band, channel), Without(t, band, channel);
      assert (s + t)[0] == s[0] && (s + t)[1..] == s[1..] + t;
      assert Without(s + t, band, channel) == head + Without(s[1..] + t, band, channel);
      WithoutAppend(s[1..], t, band, channel);
      assert head + (left + right) == (head + left) + right;
    }
  }

  /** On a single entry the filter keeps it exactly when its band or its channel differs. */
  lemma WithoutSingle(x: WiFiChannel, band: string, channel: int)
    ensures Without([x], band, channel) == if Kept(x, band, channel) then [x] else []
  {
    assert [x][1..] == [];
  }

  /** An entry survives exactly when it was present and does not match both band and channel. */
  lemma {:induction false} WithoutMembers(s: seq<WiFiChannel>, band: string, channel: int)
    ensures forall x :: x in Without(s, band, channel) <==> x in s && Kept(x, band, channel)
  {
    if s != [] {
      WithoutMembers(s[1..], band, channel);
      assert s == [s[0]] + s[1..];
    }
  }

  /** When no entry matches the pair, the list is unchanged. */
  lemma {:induction false} WithoutAbsent(s: seq<WiFiChannel>, band: string, channel: int)
    requires forall i :: 0 <= i < |s| ==> Kept(s[i], band, channel)
    ensures Without(s, band, channel) == s
  {
    if s != [] {
      WithoutAbsent(s[1..], band, channel);
      assert s == [s[0]] + s[1..];
    }
  }

  /** Removing a pair twice is removing it once. */
  lemma WithoutIdempotent(s: seq<WiFiChannel>, band: string, channel: int)
    ensures Without(Without(s, band, channel), band, channel) == Without(s, band, channel)
  {
    var r := Without(s, band, channel);
    WithoutMembers(s, band, channel);
    forall i | 0 <= i < |r| ensures Kept(r[i], band, channel) {
      assert r[i] in r;
    }
    WithoutAbsent(r, band, channel);
  }

  /** Removing the pair of an appended entry also removes that entry: duplicates all go at once. */
  lemma AppendThenRemove(s: seq<WiFiChannel>, x: WiFiChannel)
    ensures Without(s + [x], x.band, x.channel) == Without(s, x.band, x.channel)
  {
    WithoutAppend(s, [x], x.band, x.channel);
    WithoutSingle(x, x.band, x.channel);
  }

  // ---------------------------------------------------------------------
  // The best channel of a band

  /** The entries of a band are those of the list with that band. */
  lemma {:induction false} SuitableMembers(s: seq<WiFiChannel>, band: string)
    ensures forall x :: x in Suitable(s, band) <==> x in s && x.band == band
  {
    if s != [] {
      SuitableMembers(s[1..], band);
      assert s == [s[0]] + s[1..];
    }
  }

  /** Entry i is of the band, of least interference in it, and strictly below every earlier one of it. */
  ghost predicate FirstLeastAt(s: seq<WiFiChannel>, band: string, i: nat)
  {
    && i < |s| && s[i].band == band
    && (forall j :: 0 <= j < |s| && s[j].band == band ==> s[i].interference <= s[j].interference)
    && (forall j :: 0 <= j < i && s[j].band == band ==> s[i].interference < s[j].interference)
  }

  /** The first least entry of the tail stays so when the head does not beat it. */
  lemma FirstLeastShift(s: seq<WiFiChannel>, band: string, i: nat)
    requires s != [] && FirstLeastAt(s[1..], band, i)
    requires s[0].band == band ==> s[0].interference > s[1 + i].interference
    ensures FirstLeastAt(s, band, i + 1)
  {
    forall j | 0 < j < |s| ensures s[j] == s[1..][j - 1] { }
  }

  /** The head is the first least entry when no entry of the band in the tail is below it. */
  lemma FirstLeastHead(s: seq<WiFiChannel>, band: string)
    requires s != [] && s[0].band == band
    requires forall x :: x in Suitable(s[1..], band) ==> s[0].interference <= x.interference
    ensures FirstLeastAt(s, band, 0)
  {
    SuitableMembers(s[1..], band);
    forall j | 0 < j < |s| && s[j].band == band ensures s[0].interference <= s[j].interference {
      assert s[j] in s[1..];
    }
  }

  /** The first entry of least interference among the band's entries, located in the whole list. */
  lemma {:induction false} SuitableArgMin(s: seq<WiFiChannel>, band: string) returns (i: nat)
    requires Suitable(s, band) != []
    ensures FirstLeastAt(s, band, i)
    ensures s[i] == Suitable(s, band)[ArgMin(Suitable(s, band), Interference)]
  {
    var c, rest := Suitable(s, band), Suitable(s[1..], band);
    if s[0].band != band {
      assert c == rest;
      var i' := SuitableArgMin(s[1..], band);
      FirstLeastShift(s, band, i');
      i := i' + 1;
    } else if rest == [] {
      assert c == [s[0]];
      FirstLeastHead(s, band);
      i := 0;
    } else {
      assert c == [s[0]] + rest && c[1..] == rest;
      var k := ArgMin(rest, Interference);
      if s[0].interference <= rest[k].interference {
        assert ArgMin(c, Interference) == 0;
        forall x | x in rest ensures s[0].interference <= x.interference {
          var m :| 0 <= m < |rest| && rest[m] == x;
        }
        FirstLeastHead(s, band);
        i := 0;
      } else {
        assert ArgMin(c, Interference) == 1 + k;
        var i' := SuitableArgMin(s[1..], band);
        FirstLeastShift(s, band, i');
        i := i' + 1;
      }
    }
  }

  /**
   * `getBestChannel` answers None exactly when no entry has the band, and
   * otherwise the channel of the first entry of that band whose interference
   * is least: the stable sort keeps the earliest of equal interference first.
   */
  lemma BestChannelIsFirstLeast(s: seq<WiFiChannel>, band: string)
    ensures BestChannel(s, band).None? <==> forall j :: 0 <= j < |s| ==> s[j].band != band
    ensures BestChannel(s, band).Some? ==>
      exists i: nat :: i < |s| && FirstLeastAt(s, band, i) && s[i].channel == BestChannel(s, band).value
  {
    var c := Suitable(s, band);
    SuitableMembers(s, band);
    if c == [] {
      forall j | 0 <= j < |s| ensures s[j].band != band {
        assert s[j] in s;
      }
    } else {
      assert c[0] in c;
      SortByKeyHead(c, Interference);
      var i := SuitableArgMin(s, band);
    }
  }

  /** Appending an entry adds it to the entries of its own band only. */
  lemma {:induction false} SuitableAppend(s: seq<WiFiChannel>, x: WiFiChannel, band: string)
    ensures Suitable(s + [x], band) == Suitable(s, band) + (if x.band == band then [x] else [])
  {
    var last := if x.band == band then [x] else [];
    if s == [] {
      assert [x][1..] == [];
      assert Suitable([x], band) == last + [];
    } else {
      var head := if s[0].band == band then [s[0]] else [];
      var left := Suitable(s[1..], band);
      assert (s + [x])[0] == s[0] && (s + [x])[1..] == s[1..] + [x];
      assert Suitable(s + [x], band) == head + Suitable(s[1..] + [x], band);
      SuitableAppend(s[1..], x, band);
      assert head + (left + last) == (head + left) + last;
    }
  }

  /** An entry of another band does not change a band's answer. */
  lemma AddOtherBand(s: seq<WiFiChannel>, x: WiFiChannel, band: string)
    requires x.band != band
    ensures BestChannel(s + [x], band) == BestChannel(s, band)
  {
    SuitableAppend(s, x, band);
    assert Suitable(s, band) + [] == Suitable(s, band);
  }
}
